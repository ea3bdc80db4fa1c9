# Geo_Tour video pipeline, modelled in Dafny

Geo_Tour turns a text prompt into a short narrated video in six stages, run one
after another: script, scene plan, optional storyboard images, video clips,
voiceover and final assembly. This project models two pieces of it:

- the orchestrator, `VideoPipeline.run`;
- the script generator's key check and reply classification.

It then proves what a run guarantees.

- `values.dfy` (module `Values`) holds the Python values the stages exchange:
  - JSON-shaped data, with Python truthiness;
  - `len`, `in` and string subscripts, each raising with CPython's message when the operand has the wrong type;
  - `Outcome`, a call that returns or raises with `str(e)`.
- `file_names.dfy` (module `FileNames`) holds:
  - the title sanitizer and the derived output filename (`pipeline.py` lines 151-154);
  - the metadata record's name (line 186);
  - lemmas on the sanitizer's character set, length, fixed points and idempotence, and on round trips of the derived name.
- `script_generator.py` is modelled by `script_generator.dfy` (module `ScriptGenerator`). It holds:
  - the API-key check of the constructor;
  - `generate` as a total function from an abstract reply to a script or a classified exception.
- `pipeline.dfy` (module `Pipeline`) holds the run as a state machine:
  - a run is a fixed schedule of events. The events are progress notifications, stage calls recorded in `steps`, the metadata save and the closing summary;
  - `Step` gives one event's effect and `Execute` runs events up to the first exception;
  - `RunModel` is a whole run and `ResultOf` is the dictionary `run` returns;
  - the class `VideoPipeline` has the `currentProject` field. Its `Run` method updates `currentProject` stage by stage and is proved to return `ResultOf(RunModel(...))`.
- `pipeline_properties.dfy` (module `PipelineProperties`) proves the run's guarantees:
  - fresh project, append-only `steps` in plan order;
  - stop at the first exception;
  - metadata written only once every stage has returned;
  - the storyboard toggle;
  - a consistent `steps` record;
  - an ordered progress trace.

How the model treats the world outside the code:

- The six stage collaborators are opaque functions that return a value or raise with a message.
- The wall clock is a parameter: the timestamp is part of `Env`.
- The progress callback is an optional function. It returns `Some(m)` when it raises with message `m`.
- The metadata write is a function that returns `Some(m)` when it raises.

Three behaviours of the code are worth stating outright:

- **Metadata and failure.** The metadata record is written only after all six stages have returned (`pipeline.py` line 163). A run that fails before the save writes nothing (`SaveAttempted`). The closing summary runs after the save and can raise too, so a run that fails in the summary has already written its metadata and still returns a failure (`SummaryFailure`, `MissingScenesSummary`).
- **Failing save.** The save is called inside the same `try` as the stages, so a save that raises turns a finished run into a failure result, with `final_video` already in `steps` (`SaveFailure`).
- **Raising callback.** The callback is called unguarded inside the `try`, so a raising callback aborts the run (`CallbackFailure`). Computing a notification's detail text can raise too (`len` of a stage result, `.get` on a scene plan that is not a dict), and that also aborts the run.

## Model

| member | source | states |
|---|---|---|
| Values.Len | pipeline.py:133 | `len(v)` returns exactly for strings, lists and dicts and raises for every other value |
| Values.In | script_generator.py:61 | `key in v` returns exactly for strings, lists and dicts: key membership for a dict, an element equal to the key string for a list, a substring for a string; any other value raises "argument of type '<type>' is not iterable" |
| Values.SubstringOccurs | script_generator.py:61 | for two strings, `k in s` holds if and only if `k` occurs in `s` at some position |
| Values.Subscript | script_generator.py:64 | `v[key]` returns exactly when `v` is a dict holding `key`, and then returns the stored value |
| FileNames.Filter | pipeline.py:152 | the filtered title is no longer than the title, holds only letters, digits, ' ', '-' and '_', and every character it holds comes from the title |
| FileNames.FilterSingle | pipeline.py:152 | one character is kept as it is or dropped, never replaced by another |
| FileNames.ReplaceSpaces | pipeline.py:153 | `replace(' ', '_')` keeps the length and changes exactly the spaces |
| FileNames.JoinKept | pipeline.py:152 | joining a list title returns exactly when every item is a string; the first item that is not one raises in `isalnum` (its value per item is given by JoinKeptSingle and JoinKeptAppend) |
| FileNames.FilterAppend | pipeline.py:152 | filtering a concatenation filters each part and keeps them in order; with `FilterSingle`, a character that is not kept, such as 'é', is dropped and never turned into a lookalike |
| FileNames.FilterIdentity | pipeline.py:152 | the filter leaves a string unchanged if and only if every character is kept |
| FileNames.JoinKeptSingle | pipeline.py:152 | one string item is joined unchanged when `isalnum` holds for it or it is ' ', '-' or '_', and is dropped otherwise; a non-string item raises AttributeError |
| FileNames.JoinKeptAppend | pipeline.py:152 | joining a concatenation of items joins each part in order, and the first part that raises decides the exception |
| FileNames.JoinDropsMixedItem | pipeline.py:152 | an item such as "a b" is dropped whole, because `isalnum` is false for it |
| FileNames.JoinKeptChars | pipeline.py:152 | a list of the title's single characters gives the same joined title as the string |
| FileNames.SafeTitleShape | pipeline.py:152-153 | the sanitized title is the first min(50, n) filtered characters with spaces turned into '_', and holds only letters, digits, '-' and '_' |
| FileNames.NoSpaces | pipeline.py:153 | no space survives sanitizing |
| FileNames.SafeTitleFixedPoints | pipeline.py:152-153 | the sanitizer leaves a string unchanged if and only if it is safe and at most 50 characters long |
| FileNames.SafeTitleIdempotent | pipeline.py:152-153 | sanitizing twice is sanitizing once |
| FileNames.OutputFilenameCases | pipeline.py:151-154 | a supplied non-empty name is used verbatim; otherwise the name is the sanitized title, '_', the timestamp and ".mp4", piece by piece |
| FileNames.SplitDerivedName | pipeline.py:154 | a derived name splits back into its sanitized title and timestamp, and every name that splits is a derived name |
| FileNames.MetadataNameInjective | pipeline.py:186 | two metadata names are equal if and only if their timestamps are; the name is "project_" + timestamp + ".json" |
| ScriptGenerator.Validate | script_generator.py:61-64 | the checks pass exactly for a dict with both "title" and "script", and then give that dict |
| ScriptGenerator.Generator.Generate | script_generator.py:45-70 | accepts exactly a decoded dict holding both keys and returns it unchanged; a `json.JSONDecodeError` is the only ValueError, with the parser's message behind "Failed to parse script response: "; every other failure is a RuntimeError behind "Script generation failed: ", and a missing key gives the re-wrapped "Invalid script structure returned" |
| ScriptGenerator.New | script_generator.py:17-20 | construction raises ValueError("OpenAI API key is required") if and only if neither the argument nor the configured key is truthy, and otherwise keeps the argument when it is truthy |
| ScriptGenerator.AsOutcome | pipeline.py:176-180 | an error result becomes a raise whose message is the exception's `str` |
| ScriptGenerator.ListReplyFailsOnSubscript | script_generator.py:61-64 | a decoded list holding both key strings passes both membership tests and fails on the title subscript |
| ScriptGenerator.EmptyFieldsAccepted | script_generator.py:58-65 | the values under the keys are not checked, and extra keys are kept |
| Pipeline.Execute | pipeline.py:87-182 | a run completes exactly when all its events completed, and never more events than it has |
| Pipeline.VideoPipeline.constructor | pipeline.py:56-57 | `use_storyboard` falls back to the configured value only when it is not given, and no project exists yet |
| Pipeline.VideoPipeline.Notify | pipeline.py:89-90 | a notification raises exactly as the model's step does, and never without a callback |
| Pipeline.VideoPipeline.GenerateScript | pipeline.py:88-96 | step 1 updates `currentProject` and ends in the state and exception its block of the schedule gives |
| Pipeline.VideoPipeline.PlanScenes | pipeline.py:98-106 | the same for step 2, the scene plan |
| Pipeline.VideoPipeline.GenerateStoryboard | pipeline.py:110-118 | the same for step 3 with the storyboard on |
| Pipeline.VideoPipeline.SkipStoryboard | pipeline.py:119-123 | with the storyboard off, step 3 is the single "skipped" notification |
| Pipeline.VideoPipeline.GenerateClips | pipeline.py:125-133 | the same for step 4, the clips |
| Pipeline.VideoPipeline.GenerateVoiceover | pipeline.py:135-143 | the same for step 5, the voiceover |
| Pipeline.VideoPipeline.AssembleVideo | pipeline.py:145-160 | the same for step 6, the output filename and the assembled video |
| Pipeline.VideoPipeline.SaveMetadata | pipeline.py:184-191 | the save receives the current project under its timestamp's metadata name |
| Pipeline.VideoPipeline.Close | pipeline.py:162-166 | the save, then the summary, end as the schedule's closing events do |
| Pipeline.VideoPipeline.Run | pipeline.py:59-182 | `run` returns exactly the result of the model's run, and `currentProject` is the project the result carries |
| PipelineProperties.FirstRaise | pipeline.py:176-182 | a run stops at its first exception: every earlier event returned, and the error is the next event's exception |
| PipelineProperties.StepRecords | pipeline.py:94-158 | one event keeps prompt and timestamp, and appends to `steps` exactly the key it records |
| PipelineProperties.ExecuteRecords | pipeline.py:80-158 | any run keeps prompt and timestamp, only appends to `steps`, and appends the keys of the completed events in order |
| PipelineProperties.BlockTraces | pipeline.py:126-133 | a stage block records its key between its "starting" and "completed" notifications |
| PipelineProperties.MiddleTraces | pipeline.py:108-123 | step 3 records the storyboard and notifies twice when it is on; when it is off it records nothing and sends only "skipped" |
| PipelineProperties.StagePartKeys | pipeline.py:93-158 | the six stages record script, scenes, [storyboard], clips, audio and final_video, in that order |
| PipelineProperties.ScheduleKeys | pipeline.py:93-166 | a run has 20 events with the storyboard and 18 without; the stages before the save record the whole plan, and the closing records nothing |
| PipelineProperties.SavePosition | pipeline.py:162-166 | the save is the one save event, right after the stages; the summary is the one summary event, the last |
| PipelineProperties.RunRecords | pipeline.py:80-182 | the returned project has the run's prompt and timestamp, and its keys are a prefix of the plan, all of it on success; a run that reached the save recorded the whole plan |
| PipelineProperties.StoryboardNotRecorded | pipeline.py:109-123 | with the storyboard off, nothing is ever recorded under "storyboard" |
| PipelineProperties.RunFailure | pipeline.py:176-182 | a run fails if and only if it stopped before its last event; the error is the exception the next event raised, and the project is the state reached |
| PipelineProperties.SaveAttempted | pipeline.py:162-163 | the save is attempted if and only if the run got past the six stages, and then the whole plan is recorded |
| PipelineProperties.StoppedAtSave | pipeline.py:162-163 | a run that stopped at the save stopped with the save's exception on the current project, with the whole plan, final_video included, in `steps` |
| PipelineProperties.ClosingRun | pipeline.py:162-166 | the closing runs the save on the current project under its timestamp's metadata name, then the summary, and stops at whichever raises first |
| PipelineProperties.SaveFailure | pipeline.py:158-182 | once the six stages have returned, a save that raises fails the run with the save's message and the project whose `steps` hold the whole plan, final_video included |
| PipelineProperties.SummaryFailure | pipeline.py:163-182 | once the stages and the save have returned, a summary that raises still fails the run with its message, although the metadata was written |
| PipelineProperties.MissingScenesSummary | pipeline.py:198-199 | a scene plan without "scenes" passes step 2's detail text (line 106), which falls back to an empty list, and makes the summary raise KeyError('scenes') |
| PipelineProperties.SuccessSaved | pipeline.py:162-174 | a successful run wrote its final project under the timestamp's metadata name without error |
| PipelineProperties.StoryboardUntouched | pipeline.py:109-130 | events that record no storyboard leave `storyboard_images` as it was at every point |
| PipelineProperties.StoryboardOff | pipeline.py:109-130 | with the storyboard off, `storyboard_images` is None all through the run, so the clips stage receives None |
| PipelineProperties.StepConsistent | pipeline.py:94-158 | recording a new key keeps every entry of `steps` equal to its run variable |
| PipelineProperties.ExecuteConsistent | pipeline.py:94-158 | a run that records no key twice keeps `steps` consistent with the run variables |
| PipelineProperties.PlanDistinct | pipeline.py:93-158 | the plan names no stage twice |
| PipelineProperties.PlanLookups | pipeline.py:168-174 | a consistent record holding the whole plan finds the script, the scene plan and the final video under their keys |
| PipelineProperties.RunConsistent | pipeline.py:94-182 | the returned project records no key twice, and each entry is the value the run went on with |
| PipelineProperties.SuccessRecorded | pipeline.py:168-174 | a successful result's script, scenes and video path are the values recorded under "script", "scenes" and "final_video" |
| PipelineProperties.ScheduleNotifications | pipeline.py:89-160 | a run's notifications are those of its blocks, in order |
| PipelineProperties.ScheduleProgress | pipeline.py:89-160 | every notification reports 6 steps and a step from 1 to 6, and each ranks strictly after the one before |
| PipelineProperties.ScheduleAnnounces | pipeline.py:89-160 | the notifications are "starting" and "completed" for each step, with step 3 exactly one "skipped" when the storyboard is off |
| PipelineProperties.CallsTrace | pipeline.py:89-160 | the callback receives the notifications of the completed events plus the one whose call raised, and nothing without a callback |
| PipelineProperties.CallsPrefix | pipeline.py:89-160 | what the callback receives is a prefix of the events' notifications |
| PipelineProperties.RunProgress | pipeline.py:89-160 | during a run the callback sees notifications in strictly increasing rank, all reporting 6 steps, and all of them on success |
| PipelineProperties.ScriptFailure | pipeline.py:87-96 | a raising script stage fails the run at once with its message and an empty `steps` |
| PipelineProperties.CallbackFailure | pipeline.py:89-90 | a callback raising on the first notification fails the run with its message before any stage runs |
| PipelineProperties.GeneratorFailure | script_generator.py:67-70 | with the generator as the script stage, an unparsable reply fails the run with "Failed to parse script response: " and the parser's message; other failures carry "Script generation failed: " |
| PipelineProperties.OutputNameCases | pipeline.py:151-154 | the name passed to the assembler is the supplied one, or the one derived from a string title; a missing title raises KeyError('title'); a list of a title's characters gives the same name |

## Left out

- The OpenAI call, the prompt text and the system prompts. The service's reply is an abstract `Response`. `DecodeFailed` is a `json.JSONDecodeError` raised anywhere in the `try`, since the handler matches the exception's type. `CallFailed` is any other exception raised before decoding. `Decoded` is the decoded value.
- `json.loads`, `json.dump` and file I/O. Decoding is part of the abstract reply, and the metadata write is an abstract effect that may raise.
- `datetime.now()`: the timestamp is a parameter of the run.
- `safe_print`, `_print_summary`'s output, the emoji labels and the detail texts. Only whether computing the detail text or the summary raises is modelled.
- The behaviour of the six stage collaborators. Each is an opaque function that returns a value or raises.
- Building the collaborators in `VideoPipeline.__init__`. The constructor takes them ready-made. Of their failures only `ScriptGenerator.New`'s missing-key error is modelled.
- `ensure_directories`, the `OUTPUT_DIR` join and `Path(audio_path).name` (path plumbing):
  - the assembler receives the bare output filename;
  - the audio and video stage results are strings, so these cannot raise.
- The Unicode-aware `str.isalnum`: `FileNames.IsAlnum` is restricted to ASCII letters and digits.
- A title that is a JSON object. Python would iterate its keys in insertion order, which a `map` does not keep, so the model raises a fixed message instead.
- Floating-point JSON numbers.
- KeyError messages for keys that contain quotes, and wording that changes between CPython versions.
- Aliasing of `project_data` and `current_project`: the project is a value. `Run` ensures that `currentProject` ends equal to the project the result carries.
- Concurrency of runs in one process.
- Exceptions outside `Exception`. Both `except Exception` clauses (`pipeline.py` line 176, `script_generator.py` line 69) let `KeyboardInterrupt` and `SystemExit` escape. `Raised` stands only for an `Exception` subclass. An interrupt during a stage, the callback or the save, which would leave `run` with no result and `current_project` half filled, is not modelled.
- `INTEGRATION_GUIDE.py`: illustrative prose with no logic of its own.
