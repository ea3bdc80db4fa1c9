/** What a run of the pipeline guarantees: the project keeps its prompt and
    timestamp, `steps` only grows and records the stages in their fixed order,
    a run stops at the first exception and reports it, the metadata record is
    written only once every stage has returned, and the progress callback sees
    an ordered trace. */
module PipelineProperties {
  import opened Values
  import opened Pipeline
  import FileNames
  import ScriptGenerator

  // ---------------------------------------------------------------------
  // Event lists.

  lemma {:induction false} RecordedKeysAppend(a: seq<Event>, b: seq<Event>)
    ensures RecordedKeys(a + b) == RecordedKeys(a) + RecordedKeys(b)
    decreases |a|
  {
    if a == [] {
      assert a + b == b;
    } else {
      assert (a + b)[0] == a[0];
      assert (a + b)[1..] == a[1..] + b;
      RecordedKeysAppend(a[1..], b);
    }
  }

  lemma {:induction false} NotificationsAppend(a: seq<Event>, b: seq<Event>)
    ensures Notifications(a + b) == Notifications(a) + Notifications(b)
    decreases |a|
  {
    if a == [] {
      assert a + b == b;
    } else {
      assert (a + b)[0] == a[0];
      assert (a + b)[1..] == a[1..] + b;
      NotificationsAppend(a[1..], b);
    }
  }

  predicate IsPrefix<T(==)>(a: seq<T>, b: seq<T>)
  {
    |a| <= |b| && b[..|a|] == a
  }

  /** The keys a run records by any point are a prefix of those the whole
      schedule records, and likewise for notifications. */
  lemma PrefixTraces(evs: seq<Event>, k: nat)
    requires k <= |evs|
    ensures IsPrefix(RecordedKeys(evs[..k]), RecordedKeys(evs))
    ensures IsPrefix(Notifications(evs[..k]), Notifications(evs))
  {
    assert evs == evs[..k] + evs[k..];
    RecordedKeysAppend(evs[..k], evs[k..]);
    NotificationsAppend(evs[..k], evs[k..]);
  }

  // ---------------------------------------------------------------------
  // Running events.

  /** A run stops at its first exception: the events before it all returned,
      and the exception is the one the next event raised. */
  lemma {:induction false} FirstRaise(stages: Stages, env: Env, st: RunState, evs: seq<Event>)
    ensures var x := Execute(stages, env, st, evs);
            && Execute(stages, env, st, evs[..x.done]) == Exec(x.state, x.done, None)
            && (x.error.Some? ==> Step(stages, env, x.state, evs[x.done]) == Raised(x.error.value))
    decreases |evs|
  {
    if evs == [] {
      assert evs[..0] == [];
    } else {
      var o := Step(stages, env, st, evs[0]);
      if o.Raised? {
        assert evs[..0] == [];
      } else {
        FirstRaise(stages, env, o.value, evs[1..]);
        var y := Execute(stages, env, o.value, evs[1..]);
        var pre := evs[..y.done + 1];
        assert pre[0] == evs[0];
        assert pre[1..] == evs[1..][..y.done];
      }
    }
  }

  /** One event keeps the prompt and the timestamp and appends to `steps`
      exactly the key it records. */
  lemma StepRecords(stages: Stages, env: Env, st: RunState, e: Event)
    requires Step(stages, env, st, e).Returned?
    ensures var p := Step(stages, env, st, e).value.project;
            && p.prompt == st.project.prompt
            && p.timestamp == st.project.timestamp
            && IsPrefix(st.project.steps, p.steps)
            && Keys(p.steps) == Keys(st.project.steps) + RecordedKeys([e])
  {
    var p := Step(stages, env, st, e).value.project;
    assert RecordedKeys([e]) == (if e.Recorded? then [e.key] else []) + RecordedKeys([e][1..]);
    if e.Recorded? {
      assert |p.steps| == |st.project.steps| + 1;
      assert p.steps[..|st.project.steps|] == st.project.steps;
      assert p.steps[|st.project.steps|].0 == e.key;
    }
  }

  /** A run, however it ends, keeps the prompt and the timestamp, only appends
      to `steps`, and appends the keys of the events that completed, in
      order. */
  lemma {:induction false} ExecuteRecords(stages: Stages, env: Env, st: RunState, evs: seq<Event>)
    ensures var x := Execute(stages, env, st, evs);
            && x.state.project.prompt == st.project.prompt
            && x.state.project.timestamp == st.project.timestamp
            && IsPrefix(st.project.steps, x.state.project.steps)
            && Keys(x.state.project.steps) == Keys(st.project.steps) + RecordedKeys(evs[..x.done])
    decreases |evs|
  {
    if evs == [] {
      assert evs[..0] == [];
    } else {
      var o := Step(stages, env, st, evs[0]);
      if o.Raised? {
        assert evs[..0] == [];
      } else {
        StepRecords(stages, env, st, evs[0]);
        ExecuteRecords(stages, env, o.value, evs[1..]);
        var y := Execute(stages, env, o.value, evs[1..]);
        var pre := evs[..y.done + 1];
        assert pre == [evs[0]] + evs[1..][..y.done];
        RecordedKeysAppend([evs[0]], evs[1..][..y.done]);
      }
    }
  }

  // ---------------------------------------------------------------------
  // The schedule.

  /** The schedule is the six stage blocks, with the storyboard's replaced by
      its "skipped" notification when it is off, followed by the closing. */
  lemma ScheduleBlocks(useStoryboard: bool)
    ensures Schedule(useStoryboard)
            == StageBlock(1, Script) + StageBlock(2, Scenes) + Middle(useStoryboard)
               + StageBlock(4, Clips) + StageBlock(5, Audio) + StageBlock(6, FinalVideo) + Closing()
  {
    var b := Blocks(useStoryboard);
    assert Flatten(b[6..]) == Closing() by { assert b[6..][1..] == []; }
    assert Flatten(b[5..]) == b[5] + Flatten(b[6..]) by { assert b[5..][1..] == b[6..]; }
    assert Flatten(b[4..]) == b[4] + Flatten(b[5..]) by { assert b[4..][1..] == b[5..]; }
    assert Flatten(b[3..]) == b[3] + Flatten(b[4..]) by { assert b[3..][1..] == b[4..]; }
    assert Flatten(b[2..]) == b[2] + Flatten(b[3..]) by { assert b[2..][1..] == b[3..]; }
    assert Flatten(b[1..]) == b[1] + Flatten(b[2..]) by { assert b[1..][1..] == b[2..]; }
    assert Flatten(b) == b[0] + Flatten(b[1..]);
  }

  /** The stage part of the schedule, before the metadata save. */
  function StagePart(useStoryboard: bool): seq<Event>
  {
    StageBlock(1, Script) + StageBlock(2, Scenes) + Middle(useStoryboard)
    + StageBlock(4, Clips) + StageBlock(5, Audio) + StageBlock(6, FinalVideo)
  }

  /** A stage block records its key between its two notifications. */
  lemma BlockTraces(step: nat, key: StageKey)
    ensures RecordedKeys(StageBlock(step, key)) == [key]
    ensures Notifications(StageBlock(step, key))
            == [Notification(step, TotalSteps, Starting), Notification(step, TotalSteps, Completed)]
  {
    var b := StageBlock(step, key);
    var c := N(step, Completed);
    assert b[1..] == [Recorded(key), c] && b[1..][1..] == [c] && [c][1..] == [];
    assert RecordedKeys([c]) == [] && Notifications([c]) == [c.n];
    assert RecordedKeys([Recorded(key), c]) == [key];
    assert Notifications([Recorded(key), c]) == [c.n];
  }

  /** The step-3 slot records the storyboard when it is on and nothing when it
      is off. */
  lemma MiddleTraces(useStoryboard: bool)
    ensures RecordedKeys(Middle(useStoryboard)) == if useStoryboard then [Storyboard] else []
    ensures Notifications(Middle(useStoryboard))
            == if useStoryboard
               then [Notification(3, TotalSteps, Starting), Notification(3, TotalSteps, Completed)]
               else [Notification(3, TotalSteps, Skipped)]
  {
    if useStoryboard {
      BlockTraces(3, Storyboard);
    } else {
      assert Middle(useStoryboard)[1..] == [];
    }
  }

  lemma ClosingTraces()
    ensures RecordedKeys(Closing()) == []
    ensures Notifications(Closing()) == []
  {
    assert Closing()[1..] == [Summarized];
    assert Closing()[1..][1..] == [];
  }

  /** The stage part records the plan, in order. */
  lemma StagePartKeys(useStoryboard: bool)
    ensures RecordedKeys(StagePart(useStoryboard)) == Plan(useStoryboard)
  {
    var b1, b2, m, b4, b5, b6 := StageBlock(1, Script), StageBlock(2, Scenes), Middle(useStoryboard),
                                 StageBlock(4, Clips), StageBlock(5, Audio), StageBlock(6, FinalVideo);
    BlockTraces(1, Script); BlockTraces(2, Scenes); MiddleTraces(useStoryboard);
    BlockTraces(4, Clips); BlockTraces(5, Audio); BlockTraces(6, FinalVideo);
    RecordedKeysAppend(b1, b2);
    RecordedKeysAppend(b1 + b2, m);
    RecordedKeysAppend(b1 + b2 + m, b4);
    RecordedKeysAppend(b1 + b2 + m + b4, b5);
    RecordedKeysAppend(b1 + b2 + m + b4 + b5, b6);
  }

  /** A run has 20 events with the storyboard and 18 without: the six stages,
      then the metadata save and the closing summary. The stages before the
      save have recorded the whole plan, and the closing records nothing. */
  lemma ScheduleKeys(useStoryboard: bool)
    ensures |Schedule(useStoryboard)| == if useStoryboard then 20 else 18
    ensures Schedule(useStoryboard) == StagePart(useStoryboard) + Closing()
    ensures |StagePart(useStoryboard)| == SaveIndex(useStoryboard)
    ensures Schedule(useStoryboard)[..SaveIndex(useStoryboard)] == StagePart(useStoryboard)
    ensures RecordedKeys(StagePart(useStoryboard)) == Plan(useStoryboard)
    ensures RecordedKeys(Schedule(useStoryboard)) == Plan(useStoryboard)
  {
    ScheduleBlocks(useStoryboard);
    StagePartKeys(useStoryboard);
    ClosingTraces();
    RecordedKeysAppend(StagePart(useStoryboard), Closing());
  }

  /** The metadata save is the one `Saved` event, right after the stages, and
      the closing summary is the one `Summarized` event, the last. */
  lemma SavePosition(useStoryboard: bool)
    ensures forall i :: 0 <= i < |Schedule(useStoryboard)| ==>
              (Schedule(useStoryboard)[i] == Saved <==> i == SaveIndex(useStoryboard))
    ensures forall i :: 0 <= i < |Schedule(useStoryboard)| ==>
              (Schedule(useStoryboard)[i] == Summarized <==> i == SaveIndex(useStoryboard) + 1)
  {
    ScheduleKeys(useStoryboard);
    var s := Schedule(useStoryboard);
    var p := StagePart(useStoryboard);
    assert Saved !in p && Summarized !in p;
    forall i | 0 <= i < |s|
      ensures s[i] == Saved <==> i == SaveIndex(useStoryboard)
      ensures s[i] == Summarized <==> i == SaveIndex(useStoryboard) + 1
    {
      if i < |p| {
        assert s[i] == p[i] && p[i] in p;
      }
    }
  }

  // ---------------------------------------------------------------------
  // A whole run.

  /** The project a run returns, on success or failure, has the run's prompt
      and timestamp, and its `steps` holds the stages that returned, in plan
      order: all of them on success, never the storyboard when it is off. */
  lemma RunRecords(stages: Stages, env: Env, useStoryboard: bool)
    ensures var x := RunModel(stages, env, useStoryboard);
            && Keys(x.state.project.steps) == RecordedKeys(Schedule(useStoryboard)[..x.done])
            && (x.done >= SaveIndex(useStoryboard) ==> Keys(x.state.project.steps) == Plan(useStoryboard))
    ensures var r := ResultOf(RunModel(stages, env, useStoryboard));
            && r.projectData.prompt == env.prompt
            && r.projectData.timestamp == env.timestamp
            && IsPrefix(Keys(r.projectData.steps), Plan(useStoryboard))
            && (r.Success? ==> Keys(r.projectData.steps) == Plan(useStoryboard))
  {
    var s := Schedule(useStoryboard);
    var x := RunModel(stages, env, useStoryboard);
    var keys := Keys(x.state.project.steps);
    ExecuteRecords(stages, env, Init(env), s);
    assert Keys(Init(env).project.steps) == [];
    assert keys == RecordedKeys(s[..x.done]);
    ScheduleKeys(useStoryboard);
    PrefixTraces(s, x.done);
    assert IsPrefix(keys, Plan(useStoryboard));
    if x.done >= SaveIndex(useStoryboard) {
      PrefixTraces(s[..x.done], SaveIndex(useStoryboard));
      assert s[..x.done][..SaveIndex(useStoryboard)] == s[..SaveIndex(useStoryboard)];
    }
    if x.error.None? {
      assert s[..x.done] == s;
    }
  }

  /** A value missing from a sequence is missing from its prefixes. */
  lemma PrefixAvoids<T>(a: seq<T>, b: seq<T>, v: T)
    requires IsPrefix(a, b)
    requires forall j :: 0 <= j < |b| ==> b[j] != v
    ensures forall i :: 0 <= i < |a| ==> a[i] != v
  {
    forall i | 0 <= i < |a| ensures a[i] != v {
      assert a[i] == b[i];
    }
  }

  /** With the storyboard off nothing is ever recorded under "storyboard". */
  lemma StoryboardNotRecorded(stages: Stages, env: Env, useStoryboard: bool)
    ensures var steps := ResultOf(RunModel(stages, env, useStoryboard)).projectData.steps;
            !useStoryboard ==> forall i :: 0 <= i < |steps| ==> steps[i].0 != Storyboard
  {
    if !useStoryboard {
      RunRecords(stages, env, useStoryboard);
      var steps := ResultOf(RunModel(stages, env, useStoryboard)).projectData.steps;
      var plan := Plan(useStoryboard);
      assert plan == [Script, Scenes, Clips, Audio, FinalVideo];
      PrefixAvoids(Keys(steps), plan, Storyboard);
    }
  }

  /** A failed run reports the exception of the first event that raised: every
      event before it returned, in order, from the fresh project. */
  lemma RunFailure(stages: Stages, env: Env, useStoryboard: bool)
    ensures var x := RunModel(stages, env, useStoryboard);
            var s := Schedule(useStoryboard);
            && Execute(stages, env, Init(env), s[..x.done]) == Exec(x.state, x.done, None)
            && (ResultOf(x).Failure? <==> x.done < |s|)
            && (ResultOf(x).Failure? ==>
                  Step(stages, env, x.state, s[x.done]) == Raised(ResultOf(x).error)
                  && ResultOf(x).projectData == x.state.project)
  {
    FirstRaise(stages, env, Init(env), Schedule(useStoryboard));
  }

  /** The metadata record is written only when every stage has returned:
      the save is attempted exactly when the run gets past the six stages. */
  lemma SaveAttempted(stages: Stages, env: Env, useStoryboard: bool)
    ensures var x := RunModel(stages, env, useStoryboard);
            var s := Schedule(useStoryboard);
            var attempted := if x.error.Some? then x.done + 1 else x.done;
            && attempted <= |s|
            && (Saved in s[..attempted] <==> x.done >= SaveIndex(useStoryboard))
            && (x.done >= SaveIndex(useStoryboard) ==> Keys(x.state.project.steps) == Plan(useStoryboard))
  {
    var s := Schedule(useStoryboard);
    var x := RunModel(stages, env, useStoryboard);
    var attempted := if x.error.Some? then x.done + 1 else x.done;
    SavePosition(useStoryboard);
    RunRecords(stages, env, useStoryboard);
    if x.done >= SaveIndex(useStoryboard) {
      assert s[..attempted][SaveIndex(useStoryboard)] == Saved;
    } else {
      forall i | 0 <= i < attempted ensures s[..attempted][i] != Saved { }
    }
  }

  /** A run that stopped at the save stopped with the save's exception,
      after the final video had been recorded. */
  lemma StoppedAtSave(stages: Stages, env: Env, useStoryboard: bool)
    ensures var x := RunModel(stages, env, useStoryboard);
            x.error.Some? && x.done == SaveIndex(useStoryboard) ==>
              && x.error == env.save(FileNames.MetadataName(env.timestamp), x.state.project)
              && Keys(x.state.project.steps) == Plan(useStoryboard)
  {
    var x := RunModel(stages, env, useStoryboard);
    if x.error.Some? && x.done == SaveIndex(useStoryboard) {
      SavePosition(useStoryboard);
      RunRecords(stages, env, useStoryboard);
      FirstRaise(stages, env, Init(env), Schedule(useStoryboard));
      assert Schedule(useStoryboard)[x.done] == Saved;
    }
  }

  /** A run is its six stages, then, unless they raised, the closing events
      from the state they reached; that state records the whole plan and
      keeps the run's timestamp. */
  lemma AfterStages(stages: Stages, env: Env, useStoryboard: bool)
    ensures var y := Execute(stages, env, Init(env), StagePart(useStoryboard));
            && y.state.project.timestamp == env.timestamp
            && (y.error.None? ==> Keys(y.state.project.steps) == Plan(useStoryboard))
            && RunModel(stages, env, useStoryboard)
               == if y.error.Some? then y
                  else var z := Execute(stages, env, y.state, Closing()); z.(done := |StagePart(useStoryboard)| + z.done)
  {
    var p := StagePart(useStoryboard);
    ScheduleKeys(useStoryboard);
    ExecuteAppend(stages, env, Init(env), p, Closing());
    ExecuteRecords(stages, env, Init(env), p);
    var y := Execute(stages, env, Init(env), p);
    if y.error.None? {
      assert p[..y.done] == p;
    }
    assert Keys(Init(env).project.steps) == [];
  }

  /** The closing events from any state: the save, then the summary, each
      stopping the run if it raises. */
  lemma ClosingRun(stages: Stages, env: Env, st: RunState)
    ensures var saved := env.save(FileNames.MetadataName(st.project.timestamp), st.project);
            Execute(stages, env, st, Closing())
            == if saved.Some? then Exec(st, 0, saved)
               else if SummaryError(st).Some? then Exec(st, 1, SummaryError(st))
               else Exec(st, 2, None)
  {
    assert Closing()[1..] == [Summarized] && Closing()[1..][1..] == [];
  }

  /** Once all six stages have returned, a save that raises turns the run
      into a failure with the save's message, and the project it carries
      already records the whole plan, `final_video` included. */
  lemma SaveFailure(stages: Stages, env: Env, useStoryboard: bool, m: string)
    requires var y := Execute(stages, env, Init(env), StagePart(useStoryboard));
             y.error.None? && env.save(FileNames.MetadataName(env.timestamp), y.state.project) == Some(m)
    ensures var y := Execute(stages, env, Init(env), StagePart(useStoryboard));
            && ResultOf(RunModel(stages, env, useStoryboard)) == Failure(m, y.state.project)
            && Keys(y.state.project.steps) == Plan(useStoryboard)
  {
    AfterStages(stages, env, useStoryboard);
    ClosingRun(stages, env, Execute(stages, env, Init(env), StagePart(useStoryboard)).state);
  }

  /** The closing summary runs after the save: once the stages and the save
      have returned, a summary that raises still fails the run, although its
      metadata has been written. */
  lemma SummaryFailure(stages: Stages, env: Env, useStoryboard: bool, m: string)
    requires var y := Execute(stages, env, Init(env), StagePart(useStoryboard));
             && y.error.None? && env.save(FileNames.MetadataName(env.timestamp), y.state.project).None?
             && SummaryError(y.state) == Some(m)
    ensures var y := Execute(stages, env, Init(env), StagePart(useStoryboard));
            && ResultOf(RunModel(stages, env, useStoryboard)) == Failure(m, y.state.project)
            && Keys(y.state.project.steps) == Plan(useStoryboard)
  {
    AfterStages(stages, env, useStoryboard);
    ClosingRun(stages, env, Execute(stages, env, Init(env), StagePart(useStoryboard)).state);
  }

  /** A scene plan without "scenes" gets through step 2's detail text, which
      falls back to an empty list, and makes the summary raise KeyError. */
  lemma MissingScenesSummary(st: RunState)
    requires "title" in st.script && st.plan.JObj? && "scenes" !in st.plan.fields
    ensures DetailError(Notification(2, TotalSteps, Completed), st).None?
    ensures SummaryError(st) == Some("'scenes'")
  {
    assert Subscript(JObj(st.script), "title").Returned?;
    assert Subscript(st.plan, "scenes") == Raised("'" + "scenes" + "'");
    assert "'" + "scenes" + "'" == "'scenes'";
  }

  /** A successful run wrote its final project under the timestamp's name. */
  lemma SuccessSaved(stages: Stages, env: Env, useStoryboard: bool)
    ensures var r := ResultOf(RunModel(stages, env, useStoryboard));
            r.Success? ==> env.save(FileNames.MetadataName(env.timestamp), r.projectData).None?
  {
    var x := RunModel(stages, env, useStoryboard);
    if x.error.None? {
      var p := StagePart(useStoryboard);
      ScheduleKeys(useStoryboard);
      ExecuteAppend(stages, env, Init(env), p, Closing());
      var y := Execute(stages, env, Init(env), p);
      ExecuteRecords(stages, env, Init(env), p);
      var o := Step(stages, env, y.state, Saved);
      assert Closing()[1..] == [Summarized] && Closing()[1..][1..] == [];
      assert o.Returned? && o.value == y.state;
    }
  }

  /** With the storyboard off nothing is recorded under "storyboard" and
      `storyboard_images` stays None all through the run, so the clips stage
      is called with None. */
  lemma {:induction false} StoryboardUntouched(stages: Stages, env: Env, st: RunState, evs: seq<Event>)
    requires Recorded(Storyboard) !in evs
    ensures forall k :: 0 <= k <= |evs| ==> Execute(stages, env, st, evs[..k]).state.storyboard == st.storyboard
    decreases |evs|
  {
    forall k | 0 <= k <= |evs|
      ensures Execute(stages, env, st, evs[..k]).state.storyboard == st.storyboard
    {
      if k > 0 {
        var o := Step(stages, env, st, evs[0]);
        assert evs[..k][0] == evs[0] && evs[..k][1..] == evs[1..][..k - 1];
        if o.Returned? {
          assert o.value.storyboard == st.storyboard;
          StoryboardUntouched(stages, env, o.value, evs[1..]);
        }
      }
    }
  }

  lemma StoryboardOff(stages: Stages, env: Env)
    ensures forall k :: 0 <= k <= |Schedule(false)| ==>
              Execute(stages, env, Init(env), Schedule(false)[..k]).state.storyboard == JNull
  {
    ScheduleBlocks(false);
    assert Recorded(Storyboard) !in Schedule(false);
    StoryboardUntouched(stages, env, Init(env), Schedule(false));
  }

  // ---------------------------------------------------------------------
  // The `steps` record and the run's variables.

  /** The run variable a key's entry is taken from. */
  function Field(st: RunState, k: StageKey): Json
  {
    match k
    case Script => JObj(st.script)
    case Scenes => st.plan
    case Storyboard => st.storyboard
    case Clips => st.clips
    case Audio => JStr(st.audio)
    case FinalVideo => JStr(st.finalVideo)
  }

  /** Every entry of `steps` holds the current value of its run variable. */
  predicate Consistent(st: RunState)
  {
    forall k :: Lookup(st.project.steps, k).Some? ==> Lookup(st.project.steps, k).value == Field(st, k)
  }

  predicate Distinct(ks: seq<StageKey>)
  {
    forall i, j :: 0 <= i < j < |ks| ==> ks[i] != ks[j]
  }

  /** A key is found exactly when some entry has it. */
  lemma {:induction false} LookupFinds(steps: seq<(StageKey, Json)>, k: StageKey)
    ensures Lookup(steps, k).None? <==> forall i :: 0 <= i < |steps| ==> steps[i].0 != k
    decreases |steps|
  {
    if steps != [] {
      LookupFinds(steps[1..], k);
      if steps[0].0 != k {
        forall i | 1 <= i < |steps| ensures steps[i] == steps[1..][i - 1] { }
      }
    }
  }

  /** Appending an entry leaves the keys already there as they were. */
  lemma {:induction false} LookupAppend(steps: seq<(StageKey, Json)>, k: StageKey, v: Json, j: StageKey)
    ensures Lookup(steps + [(k, v)], j)
            == if Lookup(steps, j).Some? then Lookup(steps, j) else if j == k then Some(v) else None
    decreases |steps|
  {
    if steps == [] {
      assert steps + [(k, v)] == [(k, v)];
    } else {
      assert (steps + [(k, v)])[0] == steps[0];
      assert (steps + [(k, v)])[1..] == steps[1..] + [(k, v)];
      LookupAppend(steps[1..], k, v, j);
    }
  }

  /** One event keeps the record consistent, provided the key it records is
      new. */
  lemma StepConsistent(stages: Stages, env: Env, st: RunState, e: Event)
    requires Consistent(st)
    requires Step(stages, env, st, e).Returned?
    requires e.Recorded? ==> Lookup(st.project.steps, e.key).None?
    ensures Consistent(Step(stages, env, st, e).value)
  {
    var st' := Step(stages, env, st, e).value;
    if e.Recorded? {
      var k := e.key;
      assert st'.project.steps == st.project.steps + [(k, Field(st', k))];
      forall j | Lookup(st'.project.steps, j).Some?
        ensures Lookup(st'.project.steps, j).value == Field(st', j)
      {
        LookupAppend(st.project.steps, k, Field(st', k), j);
        if j != k {
          assert Field(st', j) == Field(st, j);
        }
      }
    }
  }

  /** A run keeps the record consistent as long as it records no key twice. */
  lemma {:induction false} ExecuteConsistent(stages: Stages, env: Env, st: RunState, evs: seq<Event>)
    requires Consistent(st)
    requires Distinct(Keys(st.project.steps) + RecordedKeys(evs))
    ensures Consistent(Execute(stages, env, st, evs).state)
    decreases |evs|
  {
    if evs != [] {
      var o := Step(stages, env, st, evs[0]);
      if o.Returned? {
        var ks := Keys(st.project.steps);
        assert evs == [evs[0]] + evs[1..];
        RecordedKeysAppend([evs[0]], evs[1..]);
        StepRecords(stages, env, st, evs[0]);
        if evs[0].Recorded? {
          LookupFinds(st.project.steps, evs[0].key);
          assert RecordedKeys([evs[0]]) == [evs[0].key] + RecordedKeys([evs[0]][1..]);
          assert (ks + RecordedKeys(evs))[|ks|] == evs[0].key;
          forall i | 0 <= i < |st.project.steps| ensures st.project.steps[i].0 != evs[0].key {
            assert (ks + RecordedKeys(evs))[i] == ks[i];
          }
        }
        StepConsistent(stages, env, st, evs[0]);
        assert Keys(o.value.project.steps) + RecordedKeys(evs[1..]) == ks + RecordedKeys(evs);
        ExecuteConsistent(stages, env, o.value, evs[1..]);
      }
    }
  }

  /** The plan never names a stage twice. */
  lemma PlanDistinct(useStoryboard: bool)
    ensures Distinct(Plan(useStoryboard))
  {
    if useStoryboard {
      assert Plan(useStoryboard) == [Script, Scenes, Storyboard, Clips, Audio, FinalVideo];
    } else {
      assert Plan(useStoryboard) == [Script, Scenes, Clips, Audio, FinalVideo];
    }
  }

  lemma PrefixDistinct(a: seq<StageKey>, b: seq<StageKey>)
    requires IsPrefix(a, b) && Distinct(b)
    ensures Distinct(a)
  {
    forall i, j | 0 <= i < j < |a| ensures a[i] != a[j] {
      assert a[i] == b[i] && a[j] == b[j];
    }
  }

  /** In a consistent record that holds the whole plan, the script, the scene
      plan and the final video are found under their keys. */
  lemma PlanLookups(st: RunState, useStoryboard: bool)
    requires Consistent(st)
    requires Keys(st.project.steps) == Plan(useStoryboard)
    ensures Lookup(st.project.steps, Script) == Some(JObj(st.script))
    ensures Lookup(st.project.steps, Scenes) == Some(st.plan)
    ensures Lookup(st.project.steps, FinalVideo) == Some(JStr(st.finalVideo))
  {
    var steps := st.project.steps;
    var n := |Plan(useStoryboard)|;
    assert Keys(steps)[0] == Script && Keys(steps)[1] == Scenes && Keys(steps)[n - 1] == FinalVideo;
    LookupFinds(steps, Script);
    LookupFinds(steps, Scenes);
    LookupFinds(steps, FinalVideo);
  }

  /** The project a run returns records no key twice and each key holds the
      value the run went on with. */
  lemma RunConsistent(stages: Stages, env: Env, useStoryboard: bool)
    ensures var x := RunModel(stages, env, useStoryboard);
            Consistent(x.state) && Distinct(Keys(x.state.project.steps))
  {
    var x := RunModel(stages, env, useStoryboard);
    ScheduleKeys(useStoryboard);
    PlanDistinct(useStoryboard);
    assert Keys(Init(env).project.steps) == [];
    assert Keys(Init(env).project.steps) + RecordedKeys(Schedule(useStoryboard)) == Plan(useStoryboard);
    ExecuteConsistent(stages, env, Init(env), Schedule(useStoryboard));
    RunRecords(stages, env, useStoryboard);
    PrefixDistinct(Keys(x.state.project.steps), Plan(useStoryboard));
  }

  /** A successful result's script, scene plan and video path are the ones
      recorded in its project. */
  lemma SuccessRecorded(stages: Stages, env: Env, useStoryboard: bool)
    ensures var r := ResultOf(RunModel(stages, env, useStoryboard));
            r.Success? ==>
              && Lookup(r.projectData.steps, Script) == Some(JObj(r.script))
              && Lookup(r.projectData.steps, Scenes) == Some(r.scenes)
              && Lookup(r.projectData.steps, FinalVideo) == Some(JStr(r.videoPath))
  {
    var x := RunModel(stages, env, useStoryboard);
    if x.error.None? {
      RunConsistent(stages, env, useStoryboard);
      RunRecords(stages, env, useStoryboard);
      PlanLookups(x.state, useStoryboard);
    }
  }

  // ---------------------------------------------------------------------
  // Progress notifications.

  /** The position of a notification in the progress of a run: a step's
      "starting" comes before its "completed" or "skipped", which comes
      before the next step's. */
  function Rank(n: Notification): int
  {
    2 * n.step + (if n.status == Starting then 0 else 1)
  }

  predicate Ordered(ns: seq<Notification>)
  {
    forall i, j :: 0 <= i < j < |ns| ==> Rank(ns[i]) < Rank(ns[j])
  }

  /** Every notification reports six steps in all and a step among them, and
      its rank lies in `[lo, hi)`. */
  predicate Within(ns: seq<Notification>, lo: int, hi: int)
  {
    forall i :: 0 <= i < |ns| ==>
      && ns[i].total == TotalSteps && 1 <= ns[i].step <= TotalSteps
      && lo <= Rank(ns[i]) < hi
  }

  lemma OrderedAppend(a: seq<Notification>, b: seq<Notification>, lo: int, mid: int, hi: int)
    requires lo <= mid <= hi
    requires Ordered(a) && Within(a, lo, mid)
    requires Ordered(b) && Within(b, mid, hi)
    ensures Ordered(a + b) && Within(a + b, lo, hi)
  {
    forall i, j | 0 <= i < j < |a + b| ensures Rank((a + b)[i]) < Rank((a + b)[j]) {
      if j < |a| {
        assert (a + b)[i] == a[i] && (a + b)[j] == a[j];
      } else if i < |a| {
        assert (a + b)[i] == a[i] && (a + b)[j] == b[j - |a|];
      } else {
        assert (a + b)[i] == b[i - |a|] && (a + b)[j] == b[j - |a|];
      }
    }
    forall i | 0 <= i < |a + b|
      ensures (a + b)[i].total == TotalSteps && 1 <= (a + b)[i].step <= TotalSteps
      ensures lo <= Rank((a + b)[i]) < hi
    {
      if i < |a| { assert (a + b)[i] == a[i]; } else { assert (a + b)[i] == b[i - |a|]; }
    }
  }

  /** The notifications of a run, block by block. */
  lemma ScheduleNotifications(useStoryboard: bool)
    ensures Notifications(Schedule(useStoryboard))
            == Notifications(StageBlock(1, Script)) + Notifications(StageBlock(2, Scenes))
               + Notifications(Middle(useStoryboard)) + Notifications(StageBlock(4, Clips))
               + Notifications(StageBlock(5, Audio)) + Notifications(StageBlock(6, FinalVideo))
  {
    var b1, b2, m, b4, b5, b6 := StageBlock(1, Script), StageBlock(2, Scenes), Middle(useStoryboard),
                                 StageBlock(4, Clips), StageBlock(5, Audio), StageBlock(6, FinalVideo);
    ClosingTraces();
    ScheduleKeys(useStoryboard);
    NotificationsAppend(b1, b2);
    NotificationsAppend(b1 + b2, m);
    NotificationsAppend(b1 + b2 + m, b4);
    NotificationsAppend(b1 + b2 + m + b4, b5);
    NotificationsAppend(b1 + b2 + m + b4 + b5, b6);
    NotificationsAppend(StagePart(useStoryboard), Closing());
  }

  /** A stage block's two notifications are ordered and rank between
      `2 * step` and `2 * step + 1`. */
  lemma StageProgress(step: nat, key: StageKey)
    requires 1 <= step <= TotalSteps
    ensures var ns := Notifications(StageBlock(step, key));
            Ordered(ns) && Within(ns, 2 * step, 2 * step + 2)
  {
    BlockTraces(step, key);
  }

  /** Step 3's notifications, on or off, are ordered and rank 6 or 7. */
  lemma MiddleProgress(useStoryboard: bool)
    ensures var ns := Notifications(Middle(useStoryboard));
            Ordered(ns) && Within(ns, 6, 8)
  {
    MiddleTraces(useStoryboard);
  }

  /** A step's notifications are ordered and rank between `2 * step` and
      `2 * step + 1`. */
  lemma StepProgress(step: nat, useStoryboard: bool)
    requires 1 <= step <= TotalSteps
    ensures var ns := Notifications(Blocks(useStoryboard)[step - 1]);
            Ordered(ns) && Within(ns, 2 * step, 2 * step + 2)
  {
    var blocks := Blocks(useStoryboard);
    if step == 1 {
      assert blocks[0] == StageBlock(1, Script);
      StageProgress(1, Script);
    } else if step == 2 {
      assert blocks[1] == StageBlock(2, Scenes);
      StageProgress(2, Scenes);
    } else if step == 3 {
      assert blocks[2] == Middle(useStoryboard);
      MiddleProgress(useStoryboard);
    } else if step == 4 {
      assert blocks[3] == StageBlock(4, Clips);
      StageProgress(4, Clips);
    } else if step == 5 {
      assert blocks[4] == StageBlock(5, Audio);
      StageProgress(5, Audio);
    } else {
      assert blocks[5] == StageBlock(6, FinalVideo);
      StageProgress(6, FinalVideo);
    }
  }

  /** The notifications of a run are ordered by rank and all report six
      steps. */
  lemma ScheduleProgress(useStoryboard: bool)
    ensures var ns := Notifications(Schedule(useStoryboard));
            Ordered(ns) && Within(ns, 2, 2 * TotalSteps + 2)
  {
    ScheduleNotifications(useStoryboard);
    StepProgress(1, useStoryboard); StepProgress(2, useStoryboard); StepProgress(3, useStoryboard);
    StepProgress(4, useStoryboard); StepProgress(5, useStoryboard); StepProgress(6, useStoryboard);
    var n1, n2, nm := Notifications(StageBlock(1, Script)), Notifications(StageBlock(2, Scenes)), Notifications(Middle(useStoryboard));
    var n4, n5, n6 := Notifications(StageBlock(4, Clips)), Notifications(StageBlock(5, Audio)), Notifications(StageBlock(6, FinalVideo));
    OrderedAppend(n1, n2, 2, 4, 6);
    OrderedAppend(n1 + n2, nm, 2, 6, 8);
    OrderedAppend(n1 + n2 + nm, n4, 2, 8, 10);
    OrderedAppend(n1 + n2 + nm + n4, n5, 2, 10, 12);
    OrderedAppend(n1 + n2 + nm + n4 + n5, n6, 2, 12, 14);
  }

  /** The notifications of one step: "starting" and "completed". */
  function Announce(step: nat): seq<Notification>
  {
    [Notification(step, TotalSteps, Starting), Notification(step, TotalSteps, Completed)]
  }

  /** The notifications of a run, listed: "starting" and "completed" for each
      step, with step 3 only "skipped" when the storyboard is off. */
  lemma ScheduleAnnounces(useStoryboard: bool)
    ensures Notifications(Schedule(useStoryboard))
            == Announce(1) + Announce(2)
               + (if useStoryboard then Announce(3) else [Notification(3, TotalSteps, Skipped)])
               + Announce(4) + Announce(5) + Announce(6)
  {
    ScheduleNotifications(useStoryboard);
    MiddleTraces(useStoryboard);
    BlockTraces(1, Script); BlockTraces(2, Scenes); BlockTraces(4, Clips);
    BlockTraces(5, Audio); BlockTraces(6, FinalVideo);
  }

  // ---------------------------------------------------------------------
  // What the progress callback receives.

  /** The callback's calls while the events run: a notification reaches the
      callback once its detail text has been computed, whether or not the
      callback then raises. */
  function Calls(stages: Stages, env: Env, st: RunState, evs: seq<Event>): seq<Notification>
    decreases |evs|
  {
    if evs == [] || env.callback.None? then []
    else
      var here := if evs[0].Notified? && DetailError(evs[0].n, st).None? then [evs[0].n] else [];
      var o := Step(stages, env, st, evs[0]);
      if o.Raised? then here else here + Calls(stages, env, o.value, evs[1..])
  }

  /** The callback receives the notifications of the events that completed,
      and the one whose own call raised; with no callback nothing is sent. */
  lemma {:induction false} CallsTrace(stages: Stages, env: Env, st: RunState, evs: seq<Event>)
    ensures var x := Execute(stages, env, st, evs);
            var c := Calls(stages, env, st, evs);
            && (env.callback.None? ==> c == [])
            && (env.callback.Some? ==>
                  c == Notifications(evs[..x.done])
                       + (if x.error.Some? && evs[x.done].Notified? && DetailError(evs[x.done].n, x.state).None?
                          then [evs[x.done].n] else []))
    decreases |evs|
  {
    if evs != [] && env.callback.Some? {
      var o := Step(stages, env, st, evs[0]);
      if o.Raised? {
        assert evs[..0] == [];
      } else {
        CallsTrace(stages, env, o.value, evs[1..]);
        var y := Execute(stages, env, o.value, evs[1..]);
        var pre := evs[..y.done + 1];
        assert pre == [evs[0]] + evs[1..][..y.done];
        NotificationsAppend([evs[0]], evs[1..][..y.done]);
        assert Notifications([evs[0]]) == (if evs[0].Notified? then [evs[0].n] else []) + Notifications([evs[0]][1..]);
      }
    }
  }

  lemma SingleNotification(e: Event)
    ensures Notifications([e]) == if e.Notified? then [e.n] else []
  {
    assert [e][1..] == [];
  }

  /** The notifications of the first `k + 1` events are those of the first
      `k` and then that of event `k`. */
  lemma NotificationsSnoc(evs: seq<Event>, k: nat)
    requires k < |evs|
    ensures Notifications(evs[..k + 1]) == Notifications(evs[..k]) + Notifications([evs[k]])
  {
    assert evs[..k + 1] == evs[..k] + [evs[k]];
    NotificationsAppend(evs[..k], [evs[k]]);
  }

  /** The notifications of the first `k` events, with or without that of the
      next one, are a prefix of all the events' notifications. */
  lemma NotifiedPrefix(evs: seq<Event>, k: nat, next: bool)
    requires k <= |evs|
    requires next ==> k < |evs| && evs[k].Notified?
    ensures IsPrefix(Notifications(evs[..k]) + (if next then [evs[k].n] else []), Notifications(evs))
  {
    if next {
      NotificationsSnoc(evs, k);
      SingleNotification(evs[k]);
      PrefixTraces(evs, k + 1);
    } else {
      PrefixTraces(evs, k);
    }
  }

  /** What the callback receives is a prefix of the events' notifications. */
  lemma CallsPrefix(stages: Stages, env: Env, st: RunState, evs: seq<Event>)
    ensures IsPrefix(Calls(stages, env, st, evs), Notifications(evs))
  {
    CallsTrace(stages, env, st, evs);
    var x := Execute(stages, env, st, evs);
    if env.callback.Some? {
      NotifiedPrefix(evs, x.done, x.error.Some? && evs[x.done].Notified? && DetailError(evs[x.done].n, x.state).None?);
    }
  }

  lemma PrefixOrdered(a: seq<Notification>, b: seq<Notification>, lo: int, hi: int)
    requires IsPrefix(a, b) && Ordered(b) && Within(b, lo, hi)
    ensures Ordered(a) && Within(a, lo, hi)
  {
    forall i, j | 0 <= i < j < |a| ensures Rank(a[i]) < Rank(a[j]) {
      assert a[i] == b[i] && a[j] == b[j];
    }
    forall i | 0 <= i < |a| ensures a[i] == b[i] { }
  }

  /** During a run the callback sees progress in order: each notification
      reports six steps, every one ranks after the one before, and a run that
      succeeds with a callback has sent every notification of its schedule. */
  lemma RunProgress(stages: Stages, env: Env, useStoryboard: bool)
    ensures var c := Calls(stages, env, Init(env), Schedule(useStoryboard));
            && Ordered(c) && Within(c, 2, 2 * TotalSteps + 2)
            && IsPrefix(c, Notifications(Schedule(useStoryboard)))
            && (env.callback.None? ==> c == [])
            && (env.callback.Some? && RunModel(stages, env, useStoryboard).error.None? ==>
                  c == Notifications(Schedule(useStoryboard)))
  {
    var s := Schedule(useStoryboard);
    CallsTrace(stages, env, Init(env), s);
    CallsPrefix(stages, env, Init(env), s);
    ScheduleProgress(useStoryboard);
    PrefixOrdered(Calls(stages, env, Init(env), s), Notifications(s), 2, 2 * TotalSteps + 2);
    if RunModel(stages, env, useStoryboard).error.None? {
      assert s[..|s|] == s;
    }
  }

  // ---------------------------------------------------------------------
  // The script stage and the output filename within a run.

  /** A script stage that raises ends the run at once with its message and an
      empty `steps`, unless the "starting" notification already raised. */
  lemma ScriptFailure(stages: Stages, env: Env, useStoryboard: bool, m: string)
    requires Step(stages, env, Init(env), N(1, Starting)) == Returned(Init(env))
    requires stages.script(env.prompt) == Raised(m)
    ensures ResultOf(RunModel(stages, env, useStoryboard)) == Failure(m, Project(env.prompt, env.timestamp, []))
  {
    var blk := StageBlock(1, Script);
    var rest := StageBlock(2, Scenes) + Middle(useStoryboard) + StageBlock(4, Clips)
                + StageBlock(5, Audio) + StageBlock(6, FinalVideo) + Closing();
    ScheduleBlocks(useStoryboard);
    assert Schedule(useStoryboard) == blk + rest;
    assert blk[..0] == [];
    Advance(stages, env, Init(env), blk, 0, Init(env), Init(env));
    Abort(stages, env, Init(env), blk, 1, Init(env), m);
    ExecuteAppend(stages, env, Init(env), blk, rest);
  }

  /** A progress callback that raises is not shielded: raising on the first
      notification ends the run with the callback's message before any stage
      runs. */
  lemma CallbackFailure(stages: Stages, env: Env, useStoryboard: bool, m: string)
    requires env.callback.Some? && env.callback.value(Notification(1, TotalSteps, Starting)) == Some(m)
    ensures ResultOf(RunModel(stages, env, useStoryboard)) == Failure(m, Project(env.prompt, env.timestamp, []))
  {
    var blk := StageBlock(1, Script);
    var rest := StageBlock(2, Scenes) + Middle(useStoryboard) + StageBlock(4, Clips)
                + StageBlock(5, Audio) + StageBlock(6, FinalVideo) + Closing();
    ScheduleBlocks(useStoryboard);
    assert Schedule(useStoryboard) == blk + rest;
    assert blk[..0] == [];
    Abort(stages, env, Init(env), blk, 0, Init(env), m);
    ExecuteAppend(stages, env, Init(env), blk, rest);
  }

  /** With the script generator as the script stage, a reply that does not
      parse fails the run with "Failed to parse script response: " and the
      parser's message; any other failure of the generator fails it with
      "Script generation failed: " and the cause. */
  lemma GeneratorFailure(stages: Stages, env: Env, useStoryboard: bool,
                         g: ScriptGenerator.Generator, reply: ScriptGenerator.Response)
    requires Step(stages, env, Init(env), N(1, Starting)) == Returned(Init(env))
    requires stages.script(env.prompt) == ScriptGenerator.AsOutcome(g.Generate(reply))
    requires g.Generate(reply).Err?
    ensures var r := ResultOf(RunModel(stages, env, useStoryboard));
            && r.Failure? && r.projectData.steps == []
            && (reply.DecodeFailed? ==> r.error == ScriptGenerator.ParsePrefix + reply.message)
            && (!reply.DecodeFailed? ==> StartsWith(r.error, ScriptGenerator.FailurePrefix))
  {
    ScriptFailure(stages, env, useStoryboard, g.Generate(reply).error.message);
  }

  /** The output filename a run passes to the assembler: a supplied non-empty
      name as it is, otherwise the name derived from a string title; a script
      without a title raises a KeyError, and a list title of single
      characters gives the same name as the string they spell. */
  lemma OutputNameCases(env: Env, script: map<string, Json>, title: string)
    ensures env.outputFilename.Some? && env.outputFilename.value != "" ==>
              OutputName(env, script) == Returned(env.outputFilename.value)
    ensures "title" in script && script["title"] == JStr(title) ==>
              OutputName(env, script) == Returned(FileNames.OutputFilename(env.outputFilename, title, env.timestamp))
    ensures (env.outputFilename.None? || env.outputFilename.value == "") && "title" !in script ==>
              OutputName(env, script) == Raised("'title'")
    ensures "title" in script && script["title"] == JArr(FileNames.Chars(title)) ==>
              OutputName(env, script) == Returned(FileNames.OutputFilename(env.outputFilename, title, env.timestamp))
  {
    FileNames.JoinKeptChars(title);
  }
}
