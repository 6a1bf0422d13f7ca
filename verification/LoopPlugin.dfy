/** The plugin itself: an object whose handlers read and rewrite the state file, the
    in-flight map and its trackers step by step. Every method is one stretch between two
    awaits, and moves the object exactly as `LoopProtocol.Step` moves the world. */
module LoopPlugin {
  import opened Wrappers
  import opened Text
  import opened Sentinel
  import opened LoopModel
  import opened LoopProtocol

  class StateFile {
    var content: File

    constructor ()
      ensures content == Absent
    {
      content := Absent;
    }

    method ReadState() returns (s: Option<LoopState>)
      modifies this
      ensures s == Read(old(content)) && content == AfterRead(old(content))
    {
      if content.Record? {
        var o := content.state;
        if o.schemaVersion != SCHEMA_VERSION || o.runID == "" || o.iteration < 0 {
          s := Invalid();
        } else if o.maxIterations < MIN_MAX_ITERATIONS || o.maxIterations > MAX_MAX_ITERATIONS {
          s := Invalid();
        } else if !ValidSentinel(o.sentinel) || o.sessionID == "" || Trim(o.task) == "" || o.consecutiveFailures < 0 {
          s := Invalid();
        } else {
          s := Some(o);
        }
      } else {
        s := Invalid();
      }
    }

    method Invalid() returns (s: Option<LoopState>)
      modifies this
      ensures s == None && content == Absent
    {
      content := Absent;
      s := None;
    }

    method WriteState(s: LoopState)
      modifies this
      ensures content == Record(s)
    {
      content := Record(s);
    }

    method ClearState()
      modifies this
      ensures content == Absent
    {
      content := Absent;
    }

    method StateStillOurs(original: LoopState) returns (ours: bool)
      modifies this
      ensures ours == Ours(old(content), original) && content == AfterRead(old(content))
    {
      var current := ReadState();
      ours := current.Some? && current.value.sessionID == original.sessionID && current.value.runID == original.runID;
    }
  }

  /** "Another idle arrived while the handler ran." */
  class Tracker {
    var pending: bool
    ghost const owner: string

    constructor (ghost owner: string)
      ensures !pending && this.owner == owner
    {
      this.owner := owner;
      pending := false;
    }
  }

  /** A suspended `processIdle` call. It keeps its tracker even when the map drops it. */
  datatype Call = Call(phase: Phase, tracker: Tracker, rerun: bool)

  class Plugin {
    const file: StateFile
    var inFlight: map<string, Tracker>
    var calls: map<string, Call>
    var starts: multiset<StartArgs>
    ghost var runs: map<string, int>
    ghost var deleted: set<string>
    ghost var log: seq<Entry>

    ghost function Trackers(): set<Tracker>
      reads this
    {
      set s | s in calls :: calls[s].tracker
    }

    ghost predicate Valid()
      reads this
    {
      && inFlight.Keys <= calls.Keys
      && (forall s | s in inFlight :: calls[s].tracker == inFlight[s])
      && (forall s | s in calls :: calls[s].tracker.owner == s)
      && (forall s | s in calls :: s in inFlight || s in deleted)
    }

    ghost function View(): World
      reads this, file, Trackers()
    {
      World(file.content, inFlight.Keys,
            map s | s in calls :: Activation(calls[s].phase, calls[s].tracker.pending, calls[s].rerun),
            starts, runs, deleted, log)
    }

    lemma ViewFields()
      ensures View().file == file.content && View().starts == starts && View().runs == runs
      ensures View().active.Keys == calls.Keys && View().inFlight == inFlight.Keys && View().deleted == deleted
    {
    }

    twostate lemma OnlyFileChanged()
      requires unchanged(this) && unchanged(old(Trackers()))
      ensures View() == old(View()).(file := file.content)
    {
    }

    lemma ViewCall(sessionID: string)
      requires sessionID in calls
      ensures sessionID in View().active && View().active[sessionID].phase == calls[sessionID].phase
    {
    }

    constructor ()
      ensures Valid() && fresh(file) && View() == World(Absent, {}, map[], multiset{}, map[], {}, [])
    {
      file := new StateFile();
      inFlight, calls, starts := map[], map[], multiset{};
      runs, deleted, log := map[], {}, [];
    }

    /** The first stretch of a pass. */
    method HandleIdle(sessionID: string) returns (phase: Phase)
      modifies file
      ensures file.content == BeginPass(old(file.content), sessionID).file
      ensures phase == BeginPass(old(file.content), sessionID).phase
    {
      var state := file.ReadState();
      if state.None? || state.value.sessionID != sessionID {
        return Returned;
      }
      phase := AwaitKind(state.value);
    }

    method OnFailure(state: LoopState)
      modifies file
      ensures file.content == AfterFailure(old(file.content), state).file
    {
      var failures := state.consecutiveFailures + 1;
      if failures >= MAX_CONSECUTIVE_FAILURES {
        file.ClearState();
        return;
      }
      var ours := file.StateStillOurs(state);
      if !ours {
        return;
      }
      file.WriteState(state.(consecutiveFailures := failures));
    }

    /** The reply of `session.messages`: what to wait for next and the continuation to send. */
    method HandleMessages(state: LoopState, reply: Reply) returns (phase: Phase, prompts: seq<Prompt>)
      modifies file
      ensures Stretch(file.content, phase, prompts) == AfterMessages(old(file.content), state, reply) && |prompts| <= 1
    {
      phase, prompts := Returned, [];
      if reply.Failed? {
        OnFailure(state);
        return;
      }
      if reply.NoAssistant? {
        return;
      }
      var complete := MatchesSentinel(reply.text, state.sentinel);
      if complete {
        file.ClearState();
        return;
      }
      if state.iteration >= state.maxIterations {
        file.ClearState();
        return;
      }
      var next := state.iteration + 1;
      var ours := file.StateStillOurs(state);
      if !ours {
        return;
      }
      file.WriteState(state.(iteration := next, consecutiveFailures := 0));
      phase := AwaitPrompt(state.(iteration := next));
      prompts := [Prompt(state.runID, next, state.maxIterations)];
    }

    /** The end of `session.prompt`. */
    method HandlePrompt(state: LoopState, ok: bool)
      modifies file
      ensures Stretch(file.content, Returned, []) == AfterPrompt(old(file.content), state, ok)
    {
      if !ok {
        OnFailure(state);
      }
    }

    /** Moves the waiting call of a session on and records what its stretch did. */
    method Settle(sessionID: string, phase: Phase, result: CallResult, prompts: seq<Prompt>, ghost before: File)
      requires Valid() && sessionID in calls && !calls[sessionID].phase.Returned? && |prompts| <= 1
      modifies this
      ensures Valid()
      ensures View() == Advance(old(View()).(file := before), sessionID, Stretch(file.content, phase, prompts), result)
    {
      ghost var entry := Entry(calls[sessionID].phase.snap.runID, result, ChangedRun(before, file.content),
                               if prompts == [] then None else Some(prompts[0]));
      MoveCall(sessionID, phase, calls[sessionID].rerun);
      Note(entry);
    }

    ghost method Note(entry: Entry)
      requires Valid()
      modifies this`log
      ensures Valid() && View() == old(View()).(log := old(log) + [entry])
    {
      log := log + [entry];
    }

    method MoveCall(sessionID: string, phase: Phase, rerun: bool)
      requires Valid() && sessionID in calls
      modifies this`calls
      ensures Valid()
      ensures View() == old(View()).(active := old(View()).active[sessionID :=
                          old(View()).active[sessionID].(phase := phase, rerun := rerun)])
      ensures calls.Keys == old(calls.Keys) && calls[sessionID].tracker == old(calls)[sessionID].tracker
    {
      calls := calls[sessionID := calls[sessionID].(phase := phase, rerun := rerun)];
      assert View().active == old(View()).active[sessionID := old(View()).active[sessionID].(phase := phase, rerun := rerun)];
    }

    method KindArrived(sessionID: string, kind: Kind)
      requires Valid() && Enabled(View(), KindReply(sessionID, kind))
      modifies this, file
      ensures Valid() && View() == Step(old(View()), KindReply(sessionID, kind))
    {
      hide ValidSentinel, Matches, Read;
      ghost var before := file.content;
      var phase := Returned;
      if kind.Missing? {
        file.ClearState();
      } else if kind.Root? {
        phase := AwaitMessages(calls[sessionID].phase.snap);
      }
      Settle(sessionID, phase, NoCall, [], before);
    }

    method MessagesArrived(sessionID: string, reply: Reply)
      requires Valid() && Enabled(View(), MessagesReply(sessionID, reply))
      modifies this, file
      ensures Valid() && View() == Step(old(View()), MessagesReply(sessionID, reply))
    {
      hide View, AfterMessages, Read, Begin, AfterRead, Advance;
      ViewFields();
      ViewCall(sessionID);
      ghost var before := file.content;
      var phase, prompts := HandleMessages(calls[sessionID].phase.snap, reply);
      OnlyFileChanged();
      Settle(sessionID, phase, if reply.Failed? then CallFailed else NoCall, prompts, before);
    }

    method PromptArrived(sessionID: string, ok: bool)
      requires Valid() && Enabled(View(), PromptReply(sessionID, ok))
      modifies this, file
      ensures Valid() && View() == Step(old(View()), PromptReply(sessionID, ok))
    {
      hide View, AfterPrompt, Read, Begin, AfterRead, Advance;
      ViewFields();
      ViewCall(sessionID);
      ghost var before := file.content;
      HandlePrompt(calls[sessionID].phase.snap, ok);
      OnlyFileChanged();
      Settle(sessionID, Returned, if ok then PromptOk else CallFailed, [], before);
    }

    /** Registers a tracker and the call that holds it. */
    method Install(sessionID: string, phase: Phase, tracker: Tracker)
      requires Valid() && !tracker.pending && tracker.owner == sessionID && sessionID !in calls
      modifies this
      ensures Valid()
      ensures View() == old(View()).(inFlight := old(View()).inFlight + {sessionID},
                                     active := old(View()).active[sessionID := Activation(phase, false, false)])
    {
      hide Read, Accepts, Advance;
      inFlight := inFlight[sessionID := tracker];
      calls := calls[sessionID := Call(phase, tracker, false)];
    }

    /** The single-flight gate in front of `HandleIdle`. */
    method ProcessIdle(sessionID: string)
      requires Valid() && Enabled(View(), Idle(sessionID))
      modifies this, file, Trackers()
      ensures Valid() && View() == Step(old(View()), Idle(sessionID))
    {
      hide View, Read, BeginPass, Advance, AfterRead;
      ViewFields();
      if sessionID in inFlight {
        SetPending(sessionID, inFlight[sessionID], true);
        return;
      }
      var tracker := new Tracker(sessionID);
      var phase := HandleIdle(sessionID);
      OnlyFileChanged();
      Install(sessionID, phase, tracker);
    }

    method SetPending(sessionID: string, tracker: Tracker, value: bool)
      requires Valid() && sessionID in calls && calls[sessionID].tracker == tracker
      modifies tracker
      ensures View() == old(View()).(active := old(View()).active[sessionID := old(View()).active[sessionID].(pending := value)])
    {
      tracker.pending := value;
    }

    /** A pass has returned: run once more if an idle came in meanwhile, else leave the map. */
    method PassReturned(sessionID: string)
      requires Valid() && Enabled(View(), Resume(sessionID))
      modifies this, file, Trackers()
      ensures Valid() && View() == Step(old(View()), Resume(sessionID))
    {
      hide Accepts, Advance, BeginPass, Begin, AfterKind, AfterMessages, AfterPrompt, AfterRead, Restarted, NewRun, ValidArgs;
      var call := calls[sessionID];
      if !call.rerun && call.tracker.pending {
        RunAgain(sessionID, call.tracker);
      } else {
        calls := calls - {sessionID};
        inFlight := inFlight - {sessionID};
      }
    }

    method RunAgain(sessionID: string, tracker: Tracker)
      requires Valid() && sessionID in calls && calls[sessionID].tracker == tracker
      modifies this, file, tracker
      ensures Valid() && View() == Begin(old(View()), sessionID, true)
    {
      hide ValidSentinel, Trim, Matches;
      var phase := HandleIdle(sessionID);
      Rerun(sessionID, phase, tracker);
    }

    method Rerun(sessionID: string, phase: Phase, tracker: Tracker)
      requires Valid() && sessionID in calls && calls[sessionID].tracker == tracker
      modifies this, tracker
      ensures Valid()
      ensures View() == old(View()).(active := old(View()).active[sessionID := Activation(phase, false, true)])
    {
      hide ValidSentinel, Trim, Matches;
      SetPending(sessionID, tracker, false);
      MoveCall(sessionID, phase, true);
    }

    /** loop-start up to its `session.get`; true when it goes on to wait. */
    method LoopStart(args: StartArgs) returns (waits: bool)
      requires Valid() && Enabled(View(), StartTool(args))
      modifies this, file
      ensures Valid() && View() == Step(old(View()), StartTool(args))
      ensures waits <==> ValidArgs(args) && Read(old(file.content)).None?
    {
      hide Advance, BeginPass, Begin, AfterKind, AfterMessages, AfterPrompt, Restarted, NewRun, Accepts;
      if Trim(args.task) == "" || !ValidSentinel(args.sentinel)
         || args.maxIterations < MIN_MAX_ITERATIONS || args.maxIterations > MAX_MAX_ITERATIONS {
        return false;
      }
      var existing := file.ReadState();
      if existing.Some? {
        return false;
      }
      starts := starts + multiset{args};
      waits := true;
    }

    method LoopStartChecked(args: StartArgs, kind: Kind, runID: string)
      requires Valid() && Enabled(View(), StartChecked(args, kind, runID))
      modifies this, file
      ensures Valid() && View() == Step(old(View()), StartChecked(args, kind, runID))
    {
      hide Valid, View, ValidSentinel, Trim, Read, NewRun;
      ViewFields();
      SetStarts(starts - multiset{args});
      if kind.Root? {
        WriteNewRun(args, runID);
      }
    }

    method SetStarts(left: multiset<StartArgs>)
      requires Valid()
      modifies this`starts
      ensures Valid() && View() == old(View()).(starts := left)
    {
      starts := left;
    }

    method WriteNewRun(args: StartArgs, runID: string)
      requires Valid()
      modifies this, file
      ensures Valid()
      ensures View() == old(View()).(file := Record(NewRun(args, runID)), runs := old(View()).runs[runID := args.maxIterations])
    {
      hide ValidSentinel, Trim, Read;
      file.WriteState(LoopState(SCHEMA_VERSION, runID, 0, args.maxIterations, args.sentinel, args.sessionID, args.task, 0));
      runs := runs[runID := args.maxIterations];
    }

    /** loop-stop; the answer is the iteration it cancelled at, if a loop was active. */
    method LoopStop() returns (cancelled: Option<int>)
      requires Valid()
      modifies this, file
      ensures Valid() && View() == Step(old(View()), StopTool)
      ensures cancelled == (var s := Read(old(file.content)); if s.Some? then Some(s.value.iteration) else None)
    {
      hide ValidSentinel, Trim, Matches;
      var s := file.ReadState();
      if s.None? {
        return None;
      }
      file.ClearState();
      cancelled := Some(s.value.iteration);
    }

    method OnSessionDeleted(sessionID: string)
      requires Valid()
      modifies this, file
      ensures Valid() && View() == Step(old(View()), SessionDeleted(sessionID))
    {
      hide Accepts, Advance, Begin, BeginPass, AfterKind, AfterMessages, AfterPrompt, Restarted, NewRun, ValidArgs;
      var state := file.ReadState();
      if state.Some? && state.value.sessionID == sessionID {
        file.ClearState();
      }
      inFlight := inFlight - {sessionID};
      deleted := deleted + {sessionID};
    }
  }
}
