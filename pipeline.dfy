/** The video pipeline's orchestrator. A run is a fixed schedule of events:
    progress notifications, stage calls whose results are recorded in the
    project's `steps`, the metadata save and the closing summary. `Step`
    gives the effect of one event, `Execute` runs a schedule up to the first
    exception, and `VideoPipeline.Run` does the same thing statement by
    statement on the pipeline's `currentProject` field. */
module Pipeline {
  import opened Values
  import FileNames
  import ScriptGenerator

  /** Every notification reports this many steps in all. */
  const TotalSteps: nat := 6

  /** The keys of the project's `steps` record. */
  datatype StageKey = Script | Scenes | Storyboard | Clips | Audio | FinalVideo

  /** The label of a progress notification, without its wording and emoji. */
  datatype Status = Starting | Completed | Skipped

  /** `progress_callback(step, total, label, detail)`; the detail text is not
      modelled, only whether computing it raises. */
  datatype Notification = Notification(step: nat, total: nat, status: Status)

  /** `current_project`: the prompt, the timestamp and the `steps` record in
      insertion order. */
  datatype Project = Project(prompt: string, timestamp: string, steps: seq<(StageKey, Json)>)

  /** The six stage collaborators, opaque: each returns a value or raises. */
  datatype Stages = Stages(
    script: string -> Outcome<map<string, Json>>,
    scenes: (map<string, Json>, Option<int>, Option<int>) -> Outcome<Json>,
    storyboard: Json -> Outcome<Json>,
    clips: (Json, Json) -> Outcome<Json>,
    audio: map<string, Json> -> Outcome<string>,
    assemble: (Json, string, string) -> Outcome<string>)

  /** The arguments of one run, with the clock reading and the two effects
      the run can observe: the progress callback (`Some(m)` when it raises
      with message `m`) and the metadata write. */
  datatype Env = Env(
    prompt: string,
    timestamp: string,
    outputFilename: Option<string>,
    numScenes: Option<int>,
    sceneDuration: Option<int>,
    callback: Option<Notification -> Option<string>>,
    save: (string, Project) -> Option<string>)

  /** The run's local variables: the project and each stage's result.
      `storyboard` starts as `None`, which JSON calls null. */
  datatype RunState = RunState(
    project: Project,
    script: map<string, Json>,
    plan: Json,
    storyboard: Json,
    clips: Json,
    audio: string,
    finalVideo: string)

  /** The dictionary `run` returns. */
  datatype RunResult =
    | Success(videoPath: string, script: map<string, Json>, scenes: Json, projectData: Project)
    | Failure(error: string, projectData: Project)

  datatype Event = Notified(n: Notification) | Recorded(key: StageKey) | Saved | Summarized

  // ---------------------------------------------------------------------
  // The schedule of a run.

  /** The stages whose results a complete run records, in order. */
  function Plan(useStoryboard: bool): seq<StageKey>
  {
    [Script, Scenes] + (if useStoryboard then [Storyboard] else []) + [Clips, Audio, FinalVideo]
  }

  function N(step: nat, status: Status): Event
  {
    Notified(Notification(step, TotalSteps, status))
  }

  /** A stage's three events: "starting", the call and its record, "completed". */
  function StageBlock(step: nat, key: StageKey): seq<Event>
  {
    [N(step, Starting), Recorded(key), N(step, Completed)]
  }

  /** The storyboard step, or its single "skipped" notification. */
  function Middle(useStoryboard: bool): seq<Event>
  {
    if useStoryboard then StageBlock(3, Storyboard) else [N(3, Skipped)]
  }

  /** The metadata save and the closing summary. */
  function Closing(): seq<Event>
  {
    [Saved, Summarized]
  }

  /** A run's blocks, in the order they run. */
  function Blocks(useStoryboard: bool): seq<seq<Event>>
  {
    [StageBlock(1, Script), StageBlock(2, Scenes), Middle(useStoryboard),
     StageBlock(4, Clips), StageBlock(5, Audio), StageBlock(6, FinalVideo), Closing()]
  }

  function Flatten(blocks: seq<seq<Event>>): seq<Event>
  {
    if blocks == [] then [] else blocks[0] + Flatten(blocks[1..])
  }

  /** Everything a run does, in the order it does it. */
  function Schedule(useStoryboard: bool): seq<Event>
  {
    Flatten(Blocks(useStoryboard))
  }

  /** The position of the metadata save in the schedule. */
  function SaveIndex(useStoryboard: bool): nat
  {
    |Schedule(useStoryboard)| - 2
  }

  function Keys(steps: seq<(StageKey, Json)>): (r: seq<StageKey>)
    ensures |r| == |steps|
    ensures forall i :: 0 <= i < |steps| ==> r[i] == steps[i].0
  {
    seq(|steps|, i requires 0 <= i < |steps| => steps[i].0)
  }

  /** The value recorded under a key, if any. */
  function Lookup(steps: seq<(StageKey, Json)>, k: StageKey): Option<Json>
  {
    if steps == [] then None
    else if steps[0].0 == k then Some(steps[0].1)
    else Lookup(steps[1..], k)
  }

  /** The keys the events record, in order. */
  function RecordedKeys(evs: seq<Event>): seq<StageKey>
  {
    if evs == [] then []
    else (if evs[0].Recorded? then [evs[0].key] else []) + RecordedKeys(evs[1..])
  }

  /** The notifications among the events, in order. */
  function Notifications(evs: seq<Event>): seq<Notification>
  {
    if evs == [] then []
    else (if evs[0].Notified? then [evs[0].n] else []) + Notifications(evs[1..])
  }

  // ---------------------------------------------------------------------
  // One event.

  /** `len(v)` as an exception message, if it raises. */
  function LenError(v: Json): Option<string>
  {
    var l := Len(v);
    if l.Raised? then Some(l.message) else None
  }

  /** Whether the detail text of a notification raises: step 2 calls
      `scene_plan.get('scenes', [])` and `len` of it, step 3 takes
      `len(storyboard_images or [])`, step 4 `len(clip_paths)`. */
  function DetailError(n: Notification, st: RunState): Option<string>
  {
    if n.status != Completed then None
    else if n.step == 2 then
      if !st.plan.JObj? then Some("'" + TypeName(st.plan) + "' object has no attribute 'get'")
      else LenError(if "scenes" in st.plan.fields then st.plan.fields["scenes"] else JArr([]))
    else if n.step == 3 then LenError(if Truthy(st.storyboard) then st.storyboard else JArr([]))
    else if n.step == 4 then LenError(st.clips)
    else None
  }

  /** The output filename: a supplied non-empty one, or the one derived from
      `script_data['title']`, which may raise. */
  function OutputName(env: Env, script: map<string, Json>): Outcome<string>
  {
    if env.outputFilename.Some? && env.outputFilename.value != "" then Returned(env.outputFilename.value)
    else
      var title := Subscript(JObj(script), "title");
      if title.Raised? then Raised(title.message)
      else
        var safe := FileNames.SafeTitleOf(title.value);
        if safe.Raised? then Raised(safe.message)
        else Returned(FileNames.DerivedName(safe.value, env.timestamp))
  }

  /** Whether the closing summary raises: it reads the script's title and
      `len` of the scene plan's "scenes". */
  function SummaryError(st: RunState): Option<string>
  {
    var title := Subscript(JObj(st.script), "title");
    if title.Raised? then Some(title.message)
    else
      var scenes := Subscript(st.plan, "scenes");
      if scenes.Raised? then Some(scenes.message) else LenError(scenes.value)
  }

  /** Appends one entry to the project's `steps`. */
  function Record(st: RunState, k: StageKey, v: Json): RunState
  {
    st.(project := st.project.(steps := st.project.steps + [(k, v)]))
  }

  /** Calls one stage on the results of the earlier ones and records what it
      returns. */
  function RunStage(stages: Stages, env: Env, st: RunState, k: StageKey): Outcome<RunState>
  {
    match k
    case Script =>
      var o := stages.script(env.prompt);
      if o.Raised? then Raised(o.message)
      else Returned(Record(st.(script := o.value), Script, JObj(o.value)))
    case Scenes =>
      var o := stages.scenes(st.script, env.numScenes, env.sceneDuration);
      if o.Raised? then Raised(o.message)
      else Returned(Record(st.(plan := o.value), Scenes, o.value))
    case Storyboard =>
      var o := stages.storyboard(st.plan);
      if o.Raised? then Raised(o.message)
      else Returned(Record(st.(storyboard := o.value), Storyboard, o.value))
    case Clips =>
      var o := stages.clips(st.plan, st.storyboard);
      if o.Raised? then Raised(o.message)
      else Returned(Record(st.(clips := o.value), Clips, o.value))
    case Audio =>
      var o := stages.audio(st.script);
      if o.Raised? then Raised(o.message)
      else Returned(Record(st.(audio := o.value), Audio, JStr(o.value)))
    case FinalVideo =>
      var name := OutputName(env, st.script);
      if name.Raised? then Raised(name.message)
      else
        var o := stages.assemble(st.clips, st.audio, name.value);
        if o.Raised? then Raised(o.message)
        else Returned(Record(st.(finalVideo := o.value), FinalVideo, JStr(o.value)))
  }

  /** The effect of one event: the new local state, or the exception. */
  function Step(stages: Stages, env: Env, st: RunState, e: Event): Outcome<RunState>
  {
    match e
    case Notified(n) =>
      if env.callback.None? then Returned(st)
      else
        var detail := DetailError(n, st);
        if detail.Some? then Raised(detail.value)
        else
          var raised := env.callback.value(n);
          if raised.Some? then Raised(raised.value) else Returned(st)
    case Recorded(k) => RunStage(stages, env, st, k)
    case Saved =>
      var raised := env.save(FileNames.MetadataName(st.project.timestamp), st.project);
      if raised.Some? then Raised(raised.value) else Returned(st)
    case Summarized =>
      var raised := SummaryError(st);
      if raised.Some? then Raised(raised.value) else Returned(st)
  }

  // ---------------------------------------------------------------------
  // A run.

  /** How far a schedule got: the state reached, the number of events that
      completed, and the exception that stopped it, if any. */
  datatype Exec = Exec(state: RunState, done: nat, error: Option<string>)

  /** Runs the events in order until one raises. */
  function Execute(stages: Stages, env: Env, st: RunState, evs: seq<Event>): (x: Exec)
    ensures x.done <= |evs|
    ensures x.error.None? <==> x.done == |evs|
    decreases |evs|
  {
    if evs == [] then Exec(st, 0, None)
    else
      var o := Step(stages, env, st, evs[0]);
      if o.Raised? then Exec(st, 0, Some(o.message))
      else
        var x := Execute(stages, env, o.value, evs[1..]);
        x.(done := x.done + 1)
  }

  /** The state a run starts from: a fresh project with empty `steps`. */
  function Init(env: Env): RunState
  {
    RunState(Project(env.prompt, env.timestamp, []), map[], JNull, JNull, JNull, "", "")
  }

  /** A whole run. */
  function RunModel(stages: Stages, env: Env, useStoryboard: bool): Exec
  {
    Execute(stages, env, Init(env), Schedule(useStoryboard))
  }

  /** The dictionary `run` returns for a run that got this far. */
  function ResultOf(x: Exec): RunResult
  {
    if x.error.None? then Success(x.state.finalVideo, x.state.script, x.state.plan, x.state.project)
    else Failure(x.error.value, x.state.project)
  }

  // ---------------------------------------------------------------------
  // Running a schedule piece by piece.

  /** Running `a + b` runs `a`, then, unless `a` raised, `b` from where `a`
      left off. */
  lemma {:induction false} ExecuteAppend(stages: Stages, env: Env, st: RunState, a: seq<Event>, b: seq<Event>)
    ensures Execute(stages, env, st, a + b)
            == var x := Execute(stages, env, st, a);
               if x.error.Some? then x
               else var y := Execute(stages, env, x.state, b); y.(done := |a| + y.done)
    decreases |a|
  {
    if a == [] {
      assert a + b == b;
    } else {
      assert (a + b)[0] == a[0];
      assert (a + b)[1..] == a[1..] + b;
      var o := Step(stages, env, st, a[0]);
      if o.Returned? {
        ExecuteAppend(stages, env, o.value, a[1..], b);
      }
    }
  }

  /** Runs one more block after a run that got this far, unless it stopped. */
  function Continue(stages: Stages, env: Env, x: Exec, blk: seq<Event>): Exec
  {
    if x.error.Some? then x
    else var y := Execute(stages, env, x.state, blk); y.(done := x.done + y.done)
  }

  /** Runs the blocks one after another. */
  function ExecuteBlocks(stages: Stages, env: Env, x: Exec, blocks: seq<seq<Event>>): Exec
    decreases |blocks|
  {
    if blocks == [] then x else ExecuteBlocks(stages, env, Continue(stages, env, x, blocks[0]), blocks[1..])
  }

  /** Running the blocks one after another is running their concatenation. */
  lemma {:induction false} ExecuteFlatten(stages: Stages, env: Env, x: Exec, blocks: seq<seq<Event>>)
    ensures ExecuteBlocks(stages, env, x, blocks) == Continue(stages, env, x, Flatten(blocks))
    decreases |blocks|
  {
    if blocks != [] {
      var x' := Continue(stages, env, x, blocks[0]);
      ExecuteFlatten(stages, env, x', blocks[1..]);
      if x.error.None? {
        ExecuteAppend(stages, env, x.state, blocks[0], Flatten(blocks[1..]));
      }
    }
  }

  /** Running the blocks is running the first, then the others. */
  lemma NextBlock(stages: Stages, env: Env, x: Exec, blocks: seq<seq<Event>>)
    requires blocks != []
    ensures ExecuteBlocks(stages, env, x, blocks)
            == ExecuteBlocks(stages, env, Continue(stages, env, x, blocks[0]), blocks[1..])
  {
  }

  /** A run that stopped stays stopped. */
  lemma {:induction false} Stopped(stages: Stages, env: Env, x: Exec, blocks: seq<seq<Event>>)
    requires x.error.Some?
    ensures ExecuteBlocks(stages, env, x, blocks) == x
    decreases |blocks|
  {
    if blocks != [] {
      Stopped(stages, env, x, blocks[1..]);
    }
  }

  /** One more event of a block completes. */
  lemma Advance(stages: Stages, env: Env, base: RunState, blk: seq<Event>, k: nat, st: RunState, st': RunState)
    requires k < |blk|
    requires Execute(stages, env, base, blk[..k]) == Exec(st, k, None)
    requires Step(stages, env, st, blk[k]) == Returned(st')
    ensures Execute(stages, env, base, blk[..k + 1]) == Exec(st', k + 1, None)
  {
    assert blk[..k + 1] == blk[..k] + [blk[k]];
    ExecuteAppend(stages, env, base, blk[..k], [blk[k]]);
  }

  /** The next event of a block raises, and the block stops there. */
  lemma Abort(stages: Stages, env: Env, base: RunState, blk: seq<Event>, k: nat, st: RunState, m: string)
    requires k < |blk|
    requires Execute(stages, env, base, blk[..k]) == Exec(st, k, None)
    requires Step(stages, env, st, blk[k]) == Raised(m)
    ensures Execute(stages, env, base, blk) == Exec(st, k, Some(m))
  {
    assert blk == blk[..k] + blk[k..];
    ExecuteAppend(stages, env, base, blk[..k], blk[k..]);
    assert blk[k..][0] == blk[k];
  }

  // ---------------------------------------------------------------------
  // The orchestrator object.

  class VideoPipeline {
    /** The stage collaborators built by the constructor. */
    const stages: Stages
    const useStoryboard: bool
    var currentProject: Option<Project>

    /** `use_storyboard` falls back to the configured default only when it is
        not given; no project exists yet. */
    constructor (stages: Stages, useStoryboard: Option<bool>, configuredUseStoryboard: bool)
      ensures this.stages == stages
      ensures this.useStoryboard == if useStoryboard.Some? then useStoryboard.value else configuredUseStoryboard
      ensures currentProject == None
    {
      this.stages := stages;
      this.useStoryboard := if useStoryboard.Some? then useStoryboard.value else configuredUseStoryboard;
      currentProject := None;
    }

    /** `if progress_callback: progress_callback(...)`, with the detail text
        computed first. */
    method Notify(env: Env, n: Notification, st: RunState) returns (raised: Option<string>)
      ensures Step(stages, env, st, Notified(n)) == if raised.Some? then Raised(raised.value) else Returned(st)
      ensures env.callback.None? ==> raised.None?
    {
      raised := None;
      if env.callback.Some? {
        raised := DetailError(n, st);
        if raised.None? {
          raised := env.callback.value(n);
        }
      }
    }

    /** Step 1: the script. */
    method GenerateScript(env: Env, st: RunState) returns (st': RunState, raised: Option<string>)
      requires currentProject == Some(st.project)
      modifies this
      ensures currentProject == Some(st'.project)
      ensures Execute(stages, env, st, StageBlock(1, Script)).state == st'
      ensures Execute(stages, env, st, StageBlock(1, Script)).error == raised
    {
      ghost var blk := StageBlock(1, Script);
      st' := st;
      raised := Notify(env, Notification(1, TotalSteps, Starting), st');
      if raised.Some? { Abort(stages, env, st, blk, 0, st', raised.value); return; }
      Advance(stages, env, st, blk, 0, st', st');
      var scriptData := stages.script(env.prompt);
      if scriptData.Raised? { raised := Some(scriptData.message); Abort(stages, env, st, blk, 1, st', scriptData.message); return; }
      ghost var before := st';
      st' := st'.(script := scriptData.value);
      st' := st'.(project := st'.project.(steps := st'.project.steps + [(Script, JObj(scriptData.value))]));
      currentProject := Some(st'.project);
      Advance(stages, env, st, blk, 1, before, st');
      raised := Notify(env, Notification(1, TotalSteps, Completed), st');
      if raised.Some? { Abort(stages, env, st, blk, 2, st', raised.value); return; }
      Advance(stages, env, st, blk, 2, st', st');
      assert blk[..3] == blk;
    }

    /** Step 2: the scene plan, from the script and the scene options. */
    method PlanScenes(env: Env, st: RunState) returns (st': RunState, raised: Option<string>)
      requires currentProject == Some(st.project)
      modifies this
      ensures currentProject == Some(st'.project)
      ensures Execute(stages, env, st, StageBlock(2, Scenes)).state == st'
      ensures Execute(stages, env, st, StageBlock(2, Scenes)).error == raised
    {
      ghost var blk := StageBlock(2, Scenes);
      st' := st;
      raised := Notify(env, Notification(2, TotalSteps, Starting), st');
      if raised.Some? { Abort(stages, env, st, blk, 0, st', raised.value); return; }
      Advance(stages, env, st, blk, 0, st', st');
      var scenePlan := stages.scenes(st'.script, env.numScenes, env.sceneDuration);
      if scenePlan.Raised? { raised := Some(scenePlan.message); Abort(stages, env, st, blk, 1, st', scenePlan.message); return; }
      ghost var before := st';
      st' := st'.(plan := scenePlan.value);
      st' := st'.(project := st'.project.(steps := st'.project.steps + [(Scenes, scenePlan.value)]));
      currentProject := Some(st'.project);
      Advance(stages, env, st, blk, 1, before, st');
      raised := Notify(env, Notification(2, TotalSteps, Completed), st');
      if raised.Some? { Abort(stages, env, st, blk, 2, st', raised.value); return; }
      Advance(stages, env, st, blk, 2, st', st');
      assert blk[..3] == blk;
    }

    /** Step 3, when the storyboard is on: images from the scene plan. */
    method GenerateStoryboard(env: Env, st: RunState) returns (st': RunState, raised: Option<string>)
      requires currentProject == Some(st.project)
      modifies this
      ensures currentProject == Some(st'.project)
      ensures Execute(stages, env, st, StageBlock(3, Storyboard)).state == st'
      ensures Execute(stages, env, st, StageBlock(3, Storyboard)).error == raised
    {
      ghost var blk := StageBlock(3, Storyboard);
      st' := st;
      raised := Notify(env, Notification(3, TotalSteps, Starting), st');
      if raised.Some? { Abort(stages, env, st, blk, 0, st', raised.value); return; }
      Advance(stages, env, st, blk, 0, st', st');
      var images := stages.storyboard(st'.plan);
      if images.Raised? { raised := Some(images.message); Abort(stages, env, st, blk, 1, st', images.message); return; }
      ghost var before := st';
      st' := st'.(storyboard := images.value);
      st' := st'.(project := st'.project.(steps := st'.project.steps + [(Storyboard, images.value)]));
      currentProject := Some(st'.project);
      Advance(stages, env, st, blk, 1, before, st');
      raised := Notify(env, Notification(3, TotalSteps, Completed), st');
      if raised.Some? { Abort(stages, env, st, blk, 2, st', raised.value); return; }
      Advance(stages, env, st, blk, 2, st', st');
      assert blk[..3] == blk;
    }

    /** Step 4: clips from the scene plan and the storyboard images, null when there are none. */
    method GenerateClips(env: Env, st: RunState) returns (st': RunState, raised: Option<string>)
      requires currentProject == Some(st.project)
      modifies this
      ensures currentProject == Some(st'.project)
      ensures Execute(stages, env, st, StageBlock(4, Clips)).state == st'
      ensures Execute(stages, env, st, StageBlock(4, Clips)).error == raised
    {
      ghost var blk := StageBlock(4, Clips);
      st' := st;
      raised := Notify(env, Notification(4, TotalSteps, Starting), st');
      if raised.Some? { Abort(stages, env, st, blk, 0, st', raised.value); return; }
      Advance(stages, env, st, blk, 0, st', st');
      var clipPaths := stages.clips(st'.plan, st'.storyboard);
      if clipPaths.Raised? { raised := Some(clipPaths.message); Abort(stages, env, st, blk, 1, st', clipPaths.message); return; }
      ghost var before := st';
      st' := st'.(clips := clipPaths.value);
      st' := st'.(project := st'.project.(steps := st'.project.steps + [(Clips, clipPaths.value)]));
      currentProject := Some(st'.project);
      Advance(stages, env, st, blk, 1, before, st');
      raised := Notify(env, Notification(4, TotalSteps, Completed), st');
      if raised.Some? { Abort(stages, env, st, blk, 2, st', raised.value); return; }
      Advance(stages, env, st, blk, 2, st', st');
      assert blk[..3] == blk;
    }

    /** Step 5: the voiceover, from the script. */
    method GenerateVoiceover(env: Env, st: RunState) returns (st': RunState, raised: Option<string>)
      requires currentProject == Some(st.project)
      modifies this
      ensures currentProject == Some(st'.project)
      ensures Execute(stages, env, st, StageBlock(5, Audio)).state == st'
      ensures Execute(stages, env, st, StageBlock(5, Audio)).error == raised
    {
      ghost var blk := StageBlock(5, Audio);
      st' := st;
      raised := Notify(env, Notification(5, TotalSteps, Starting), st');
      if raised.Some? { Abort(stages, env, st, blk, 0, st', raised.value); return; }
      Advance(stages, env, st, blk, 0, st', st');
      var audioPath := stages.audio(st'.script);
      if audioPath.Raised? { raised := Some(audioPath.message); Abort(stages, env, st, blk, 1, st', audioPath.message); return; }
      ghost var before := st';
      st' := st'.(audio := audioPath.value);
      st' := st'.(project := st'.project.(steps := st'.project.steps + [(Audio, JStr(audioPath.value))]));
      currentProject := Some(st'.project);
      Advance(stages, env, st, blk, 1, before, st');
      raised := Notify(env, Notification(5, TotalSteps, Completed), st');
      if raised.Some? { Abort(stages, env, st, blk, 2, st', raised.value); return; }
      Advance(stages, env, st, blk, 2, st', st');
      assert blk[..3] == blk;
    }

    /** Step 6: the output filename, then the assembled video. */
    method AssembleVideo(env: Env, st: RunState) returns (st': RunState, raised: Option<string>)
      requires currentProject == Some(st.project)
      modifies this
      ensures currentProject == Some(st'.project)
      ensures Execute(stages, env, st, StageBlock(6, FinalVideo)).state == st'
      ensures Execute(stages, env, st, StageBlock(6, FinalVideo)).error == raised
    {
      ghost var blk := StageBlock(6, FinalVideo);
      st' := st;
      raised := Notify(env, Notification(6, TotalSteps, Starting), st');
      if raised.Some? { Abort(stages, env, st, blk, 0, st', raised.value); return; }
      Advance(stages, env, st, blk, 0, st', st');
      var outputFilename: string;
      if env.outputFilename.Some? && env.outputFilename.value != "" {
        outputFilename := env.outputFilename.value;
      } else {
        var title := Subscript(JObj(st'.script), "title");
        if title.Raised? { raised := Some(title.message); Abort(stages, env, st, blk, 1, st', title.message); return; }
        var safeTitle := FileNames.SafeTitleOf(title.value);
        if safeTitle.Raised? { raised := Some(safeTitle.message); Abort(stages, env, st, blk, 1, st', safeTitle.message); return; }
        outputFilename := FileNames.DerivedName(safeTitle.value, env.timestamp);
      }
      var finalVideo := stages.assemble(st'.clips, st'.audio, outputFilename);
      if finalVideo.Raised? { raised := Some(finalVideo.message); Abort(stages, env, st, blk, 1, st', finalVideo.message); return; }
      ghost var before := st';
      st' := st'.(finalVideo := finalVideo.value);
      st' := st'.(project := st'.project.(steps := st'.project.steps + [(FinalVideo, JStr(finalVideo.value))]));
      currentProject := Some(st'.project);
      Advance(stages, env, st, blk, 1, before, st');
      raised := Notify(env, Notification(6, TotalSteps, Completed), st');
      if raised.Some? { Abort(stages, env, st, blk, 2, st', raised.value); return; }
      Advance(stages, env, st, blk, 2, st', st');
      assert blk[..3] == blk;
    }

    /** `_save_metadata`: writes the current project under its timestamp's
        name. */
    method SaveMetadata(env: Env) returns (raised: Option<string>)
      requires currentProject.Some?
      ensures raised == env.save(FileNames.MetadataName(currentProject.value.timestamp), currentProject.value)
    {
      var name := FileNames.MetadataName(currentProject.value.timestamp);
      raised := env.save(name, currentProject.value);
    }

    /** Step 3, when the storyboard is off: the "skipped" notification. */
    method SkipStoryboard(env: Env, st: RunState) returns (raised: Option<string>)
      ensures Execute(stages, env, st, [N(3, Skipped)]).state == st
      ensures Execute(stages, env, st, [N(3, Skipped)]).error == raised
    {
      raised := Notify(env, Notification(3, TotalSteps, Skipped), st);
      if raised.Some? {
        Abort(stages, env, st, [N(3, Skipped)], 0, st, raised.value);
      } else {
        Advance(stages, env, st, [N(3, Skipped)], 0, st, st);
        assert [N(3, Skipped)][..1] == [N(3, Skipped)];
      }
    }

    /** The metadata save, on the success path only, then the closing summary. */
    method Close(env: Env, st: RunState) returns (raised: Option<string>)
      requires currentProject == Some(st.project)
      ensures Execute(stages, env, st, Closing()).state == st
      ensures Execute(stages, env, st, Closing()).error == raised
    {
      raised := SaveMetadata(env);
      if raised.Some? {
        Abort(stages, env, st, Closing(), 0, st, raised.value);
        return;
      }
      Advance(stages, env, st, Closing(), 0, st, st);
      raised := SummaryError(st);
      if raised.Some? {
        Abort(stages, env, st, Closing(), 1, st, raised.value);
        return;
      }
      Advance(stages, env, st, Closing(), 1, st, st);
      assert Closing()[..2] == Closing();
    }

    /** `run`: a fresh project, then the six stages in order, each recorded in
        `steps` as soon as it returns; the first exception ends the run with a
        failure result that carries the project as far as it got. */
    method Run(env: Env) returns (result: RunResult)
      modifies this
      ensures currentProject == Some(result.projectData)
      ensures result == ResultOf(RunModel(stages, env, useStoryboard))
    {
      // the fresh project; storyboard_images = None is part of the initial state
      var st := Init(env);
      currentProject := Some(st.project);
      var raised: Option<string>;
      // How far the run got, and the blocks still to run.
      ghost var x, todo := Exec(st, 0, None), Blocks(useStoryboard);
      ExecuteFlatten(stages, env, x, todo);

      assert todo[0] == StageBlock(1, Script);
      st, raised := GenerateScript(env, st);
      NextBlock(stages, env, x, todo);
      x, todo := Continue(stages, env, x, StageBlock(1, Script)), todo[1..];
      if raised.Some? { Stopped(stages, env, x, todo); result := Failure(raised.value, st.project); return; }
      assert todo[0] == StageBlock(2, Scenes);
      st, raised := PlanScenes(env, st);
      NextBlock(stages, env, x, todo);
      x, todo := Continue(stages, env, x, StageBlock(2, Scenes)), todo[1..];
      if raised.Some? { Stopped(stages, env, x, todo); result := Failure(raised.value, st.project); return; }
      assert todo[0] == Middle(useStoryboard);
      if useStoryboard {
        st, raised := GenerateStoryboard(env, st);
        assert Middle(useStoryboard) == StageBlock(3, Storyboard);
      } else {
        raised := SkipStoryboard(env, st);
        assert Middle(useStoryboard) == [N(3, Skipped)];
      }
      NextBlock(stages, env, x, todo);
      x, todo := Continue(stages, env, x, Middle(useStoryboard)), todo[1..];
      if raised.Some? { Stopped(stages, env, x, todo); result := Failure(raised.value, st.project); return; }
      assert todo[0] == StageBlock(4, Clips);
      st, raised := GenerateClips(env, st);
      NextBlock(stages, env, x, todo);
      x, todo := Continue(stages, env, x, StageBlock(4, Clips)), todo[1..];
      if raised.Some? { Stopped(stages, env, x, todo); result := Failure(raised.value, st.project); return; }
      assert todo[0] == StageBlock(5, Audio);
      st, raised := GenerateVoiceover(env, st);
      NextBlock(stages, env, x, todo);
      x, todo := Continue(stages, env, x, StageBlock(5, Audio)), todo[1..];
      if raised.Some? { Stopped(stages, env, x, todo); result := Failure(raised.value, st.project); return; }
      assert todo[0] == StageBlock(6, FinalVideo);
      st, raised := AssembleVideo(env, st);
      NextBlock(stages, env, x, todo);
      x, todo := Continue(stages, env, x, StageBlock(6, FinalVideo)), todo[1..];
      if raised.Some? { Stopped(stages, env, x, todo); result := Failure(raised.value, st.project); return; }

      assert todo[0] == Closing();
      raised := Close(env, st);
      NextBlock(stages, env, x, todo);
      x, todo := Continue(stages, env, x, Closing()), todo[1..];
      if raised.Some? { Stopped(stages, env, x, todo); result := Failure(raised.value, st.project); return; }
      assert todo == [] && ExecuteBlocks(stages, env, x, todo) == x;
      result := Success(st.finalVideo, st.script, st.plan, st.project);
    }
  }
}
