/** How a loop goes on and how it ends: what each answer does to the run that is stored, and
    what a whole run comes to. */
module LoopOutcomes {
  import opened Wrappers
  import opened Text
  import opened Sentinel
  import opened LoopModel
  import opened LoopProtocol
  import opened LoopTheorems

  /** The reply ends in a line that holds the sentinel. */
  ghost predicate SaysDone(text: string, sentinel: string) {
    exists before, left, after :: EndsWithLine(text, sentinel, before, left, after)
  }

  /** A pass of session `s` waits, and its run is the stored one. */
  predicate OwnPass(w: World, s: string) {
    s in w.active && !w.active[s].phase.Returned? && OnDisk(w, w.active[s].phase.snap.runID)
  }

  /** One pass has moved to `phase` and sent `sent`; nothing else but the file changed. */
  predicate Moved(w: World, w': World, s: string, phase: Phase, sent: Option<Prompt>) {
    && s in w.active && w' == w.(file := w'.file, log := w'.log, active := w.active[s := w.active[s].(phase := phase)])
    && |w'.log| == |w.log| + 1 && w'.log[..|w.log|] == w.log && w'.log[|w.log|].sent == sent
  }

  // ---- One answer ----

  lemma OwnSnapshot(w: World, s: string)
    requires Shape(w) && OwnPass(w, s)
    ensures Agrees(w.file, w.active[s].phase) && ValidSentinel(w.active[s].phase.snap.sentinel)
  {
    assert SnapshotHolds(w, s, w.active[s].phase);
  }

  /** The last assistant message decides, in this order: a line with the sentinel at its end
      ends the loop, then the bound does, and otherwise the next continuation is stored and sent. */
  lemma ReplyDecides(w: World, s: string, text: string)
    requires Shape(w) && OwnPass(w, s) && Enabled(w, MessagesReply(s, Said(text)))
    ensures var d, w' := Read(w.file).value, Step(w, MessagesReply(s, Said(text)));
      if SaysDone(text, d.sentinel) || d.iteration == d.maxIterations
      then w'.file == Absent && Moved(w, w', s, Returned, None)
      else
        && d.iteration < d.maxIterations
        && w'.file == Record(d.(iteration := d.iteration + 1, consecutiveFailures := 0))
        && Moved(w, w', s, AwaitPrompt(d.(iteration := d.iteration + 1)), Some(Prompt(d.runID, d.iteration + 1, d.maxIterations)))
  {
    hide Matches, ValidSentinel, Shape, EndsWithLine;
    OwnSnapshot(w, s);
    MatchesIffTrailingLine(text, w.active[s].phase.snap.sentinel);
  }

  /** The session's kind decides whether the pass goes on; only a missing session ends the loop. */
  lemma KindDecides(w: World, s: string, kind: Kind)
    requires Shape(w) && OwnPass(w, s) && Enabled(w, KindReply(s, kind))
    ensures var d, w' := Read(w.file).value, Step(w, KindReply(s, kind));
      && w'.file == (if kind == Missing then Absent else w.file)
      && Moved(w, w', s, if kind == Root then AwaitMessages(d) else Returned, None)
  {
    hide Matches, ValidSentinel, Shape, Accepts;
    OwnSnapshot(w, s);
  }

  /** Without an assistant message the pass waits for the next idle; a prompt that was taken
      leaves the record as the bump wrote it. */
  lemma NothingToDo(w: World, a: Action)
    requires Shape(w) && Enabled(w, a) && (a.MessagesReply? || a.PromptReply?) && OwnPass(w, a.sessionID)
    requires a.MessagesReply? ==> a.reply.NoAssistant?
    requires a.PromptReply? ==> a.ok
    ensures Step(w, a).file == w.file && Moved(w, Step(w, a), a.sessionID, Returned, None)
  {
    hide Matches, ValidSentinel, Shape, Accepts;
  }

  /** A death of the server leaves the record as the last write made it: with the bump, if the
      pass had got that far. */
  lemma RestartKeepsRecord(w: World, a: Action)
    requires Shape(w) && Enabled(w, a) && Crashes(a) && (a.CrashAfterBump? ==> OwnPass(w, a.sessionID))
    ensures Step(w, a).active == map[] && Step(w, a).inFlight == {} && Step(w, a).starts == multiset{}
    ensures a.Crash? ==> Step(w, a).file == w.file && Step(w, a).log == w.log
    ensures a.CrashAfterBump? ==>
      var d := Read(w.file).value;
      && d.iteration < d.maxIterations && !SaysDone(a.text, d.sentinel)
      && Step(w, a).file == Record(d.(iteration := d.iteration + 1, consecutiveFailures := 0))
      && |Step(w, a).log| == |w.log| + 1 && Step(w, a).log[|w.log|].sent == None
  {
    hide Matches, ValidSentinel, Shape, EndsWithLine;
    if a.CrashAfterBump? {
      OwnSnapshot(w, a.sessionID);
      MatchesIffTrailingLine(a.text, w.active[a.sessionID].phase.snap.sentinel);
    }
  }

  /** An action that reports a failed call to a pass. */
  predicate FailedCall(a: Action) {
    (a.MessagesReply? && a.reply.Failed?) || (a.PromptReply? && !a.ok)
  }

  lemma FailureDecides(w: World, a: Action)
    requires Shape(w) && Enabled(w, a) && FailedCall(a) && OwnPass(w, a.sessionID)
    ensures var d, w', n := Read(w.file).value, Step(w, a), w.active[a.sessionID].phase.snap.consecutiveFailures + 1;
      && w'.file == (if n < 3 then Record(d.(consecutiveFailures := n)) else Absent)
      && Moved(w, w', a.sessionID, Returned, None)
  {
    hide Matches, ValidSentinel, Shape, Accepts;
    OwnSnapshot(w, a.sessionID);
  }

  /** Two failed calls in a row are noted in the record, the third ends the loop. */
  lemma ThirdFailureEnds(ws: seq<World>, actions: seq<Action>, i: nat)
    requires History(ws, actions) && NoRestart(actions) && i < |actions| && FailedCall(actions[i]) && OwnPass(ws[i], actions[i].sessionID)
    ensures var d := Read(ws[i].file).value; var n := Failures(ws[i].log, d.runID) + 1;
      && ws[i + 1].file == (if n < 3 then Record(d.(consecutiveFailures := n)) else Absent)
      && Moved(ws[i], ws[i + 1], actions[i].sessionID, Returned, None)
  {
    hide Step, Shape, Failures, ExactLabels, OrderedLabels, WithinBudget;
    var s := actions[i].sessionID;
    HistoryKeeps(ws, actions, i, Read(ws[i].file).value.runID);
    assert Enabled(ws[i], actions[i]);
    FailureDecides(ws[i], actions[i]);
    SameSession(ws[i], s);
  }

  lemma SameSession(w: World, s: string)
    requires Shape(w) && OwnPass(w, s)
    ensures Read(w.file).value.sessionID == s && PassOver(w, Read(w.file).value.runID, s)
  {
    assert SnapshotHolds(w, s, w.active[s].phase);
  }

  // ---- Idle events ----

  /** The first wait of a pass: the stored run's, if it belongs to the session. */
  function FirstWait(w: World, s: string): Phase {
    if Read(w.file).Some? && Read(w.file).value.sessionID == s then AwaitKind(Read(w.file).value) else Returned
  }

  /** An idle event starts a pass over the session's stored run. One that comes while a pass is
      under way only marks it, and a marked pass is run once more when it returns, not twice. */
  lemma IdleStartsOnePass(w: World, s: string)
    requires Shape(w) && Enabled(w, Idle(s))
    ensures s !in w.inFlight ==>
      var w' := Step(w, Idle(s));
      && s in w'.inFlight && s in w'.active && w'.active[s] == Activation(FirstWait(w, s), false, false)
      && w'.file == (if Read(w.file).Some? then w.file else Absent) && w'.log == w.log
    ensures s in w.inFlight ==> s in w.active && Step(w, Idle(s)) == w.(active := w.active[s := w.active[s].(pending := true)])
    ensures Enabled(w, Resume(s)) ==>
      var w' := Step(w, Resume(s));
      && w'.log == w.log
      && if w.active[s].pending && !w.active[s].rerun
         then s in w'.active && w'.active[s] == Activation(FirstWait(w, s), false, true) && w'.inFlight == w.inFlight
         else s !in w'.active && s !in w'.inFlight && w'.file == w.file
  {
    hide Accepts;
  }

  /** A mark is not lost while the pass waits for its answers. */
  lemma MarkIsKept(w: World, a: Action, s: string)
    requires Enabled(w, a) && !Crashes(a) && !(a.Resume? && a.sessionID == s) && s in w.active && s in w.inFlight && w.active[s].pending
    ensures s in Step(w, a).active && Step(w, a).active[s].pending && Step(w, a).active[s].rerun == w.active[s].rerun
  {
    hide AfterMessages, AfterKind, AfterPrompt, BeginPass, Read;
  }

  // ---- The tools and the record ----

  lemma ValidSentinelMeans(s: string)
    ensures ValidSentinel(s) <==> s != "" && !IsSpace(s[0]) && !IsSpace(s[|s| - 1]) && '\n' !in s && '\r' !in s
  {
    hide Trim, IsSpace;
    var left, right := TrimSplits(s);
    if s != "" && Tight(s) {
      TrimOfTight(s);
    }
  }

  lemma BlankMeans(s: string)
    ensures Trim(s) == "" <==> forall c | c in s :: IsSpace(c)
  {
    hide Trim, IsSpace;
    var left, right := TrimSplits(s);
    if AllSpace(s) {
      assert s + "" + "" == s;
      TrimOfPadded(s, "", "");
    }
  }

  /** Which records are read, field by field; any other content of the file counts as none. */
  lemma ReadableIff(f: File)
    ensures Read(f).Some? <==> (
      && f.Record?
      && f.state.schemaVersion == 2 && f.state.runID != "" && f.state.sessionID != ""
      && 0 <= f.state.iteration && 0 <= f.state.consecutiveFailures && 1 <= f.state.maxIterations <= 10_000
      && f.state.sentinel != "" && !IsSpace(f.state.sentinel[0]) && !IsSpace(f.state.sentinel[|f.state.sentinel| - 1])
      && '\n' !in f.state.sentinel && '\r' !in f.state.sentinel
      && exists c | c in f.state.task :: !IsSpace(c))
    ensures Read(f).Some? ==> Read(f) == Some(f.state)
  {
    hide ValidSentinel, Trim, IsSpace;
    if f.Record? {
      ValidSentinelMeans(f.state.sentinel);
      BlankMeans(f.state.task);
    }
  }

  /** The tools: loop-start passes its checks for good arguments and no readable record, then
      stores a fresh run for a root session; loop-stop removes the record, and so does the
      deletion of its session, and of no other. */
  lemma ToolsDecide(w: World, a: Action)
    requires Shape(w) && Enabled(w, a)
    ensures a.StartTool? ==>
      Step(w, a).starts == (if ValidArgs(a.args) && Read(w.file).None? then w.starts + multiset{a.args} else w.starts)
    ensures a.StartTool? ==> (ValidArgs(a.args) <==>
      && (exists c | c in a.args.task :: !IsSpace(c)) && 1 <= a.args.maxIterations <= 10_000
      && a.args.sentinel != "" && !IsSpace(a.args.sentinel[0]) && !IsSpace(a.args.sentinel[|a.args.sentinel| - 1])
      && '\n' !in a.args.sentinel && '\r' !in a.args.sentinel)
    ensures a.StartChecked? ==>
      Step(w, a).file == if a.kind == Root
        then Record(LoopState(2, a.runID, 0, a.args.maxIterations, a.args.sentinel, a.args.sessionID, a.args.task, 0)) else w.file
    ensures a.StopTool? ==> Step(w, a).file == Absent
    ensures a.SessionDeleted? ==>
      && (Read(w.file).Some? && Read(w.file).value.sessionID != a.sessionID ==> Step(w, a).file == w.file)
      && (Read(w.file).None? || Read(w.file).value.sessionID == a.sessionID ==> Step(w, a).file == Absent)
      && a.sessionID !in Step(w, a).inFlight
  {
    hide ValidSentinel, Trim, IsSpace, Shape;
    if a.StartTool? {
      ValidSentinelMeans(a.args.sentinel);
      BlankMeans(a.args.task);
    }
  }

  // ---- A whole run ----

  /** Nothing is under way for the session of the stored run `d`. */
  predicate Quiet(w: World, d: LoopState) {
    && Read(w.file) == Some(d) && d.sessionID != "" && d.sessionID !in w.deleted
    && d.sessionID !in w.active && d.sessionID !in w.inFlight
  }

  lemma Go(ws: seq<World>, actions: seq<Action>, a: Action) returns (ws': seq<World>, actions': seq<Action>)
    requires History(ws, actions) && NoRestart(actions) && Enabled(ws[|actions|], a) && !Crashes(a)
    ensures History(ws', actions') && NoRestart(actions') && ws'[|actions'|] == Step(ws[|actions|], a) && Shape(ws'[|actions'|])
  {
    hide Step, Enabled, Init, Shape, ExactLabels, OrderedLabels, WithinBudget, FailuresCounted;
    Extend(ws, actions, a);
    ws', actions' := ws + [Step(ws[|actions|], a)], actions + [a];
    HistoryKeeps(ws', actions', |actions'|, "");
  }

  /** From an idle event to the wait for the messages. */
  lemma ReachMessages(ws: seq<World>, actions: seq<Action>, d: LoopState) returns (ws': seq<World>, actions': seq<Action>)
    requires History(ws, actions) && NoRestart(actions) && Quiet(ws[|actions|], d)
    ensures History(ws', actions') && NoRestart(actions') && Shape(ws'[|actions'|])
    ensures var w, w' := ws[|actions|], ws'[|actions'|]; var s := d.sessionID;
      && w'.file == w.file && w'.deleted == w.deleted && Labels(w'.log, d.runID) == Labels(w.log, d.runID)
      && s in w'.active && w'.active[s] == Activation(AwaitMessages(d), false, false) && OwnPass(w', s)
  {
    hide Step, Shape, Labels, Init, Read;
    var w, s := ws[|actions|], d.sessionID;
    HistoryKeeps(ws, actions, |actions|, "");
    IdleStartsOnePass(w, s);
    assert Step(w, Idle(s)).deleted == w.deleted by { IdleKeepsDeleted(w, s); }
    ws', actions' := Go(ws, actions, Idle(s));
    var mid := ws'[|actions'|];
    KindDecides(mid, s, Root);
    ws', actions' := Go(ws', actions', KindReply(s, Root));
    LogStep(mid.log, ws'[|actions'|].log[|mid.log|], d.runID);
    assert ws'[|actions'|].log == mid.log + [ws'[|actions'|].log[|mid.log|]];
  }

  lemma IdleKeepsDeleted(w: World, s: string)
    requires Enabled(w, Idle(s))
    ensures Step(w, Idle(s)).deleted == w.deleted
  {
    hide Read;
  }

  lemma ReturnEnds(ws: seq<World>, actions: seq<Action>, s: string) returns (ws': seq<World>, actions': seq<Action>)
    requires History(ws, actions) && NoRestart(actions)
    requires s in ws[|actions|].active && ws[|actions|].active[s].phase.Returned? && !ws[|actions|].active[s].pending
    ensures History(ws', actions') && NoRestart(actions')
    ensures var w := ws[|actions|]; ws'[|actions'|] == w.(active := w.active - {s}, inFlight := w.inFlight - {s})
  {
    hide Init, Shape;
    ws', actions' := Go(ws, actions, Resume(s));
  }

  /** One pass that finds `text`: it sends the next continuation, or ends the loop. */
  lemma OnePass(ws: seq<World>, actions: seq<Action>, d: LoopState, text: string) returns (ws': seq<World>, actions': seq<Action>)
    requires History(ws, actions) && NoRestart(actions) && Quiet(ws[|actions|], d)
    ensures History(ws', actions') && NoRestart(actions')
    ensures var w, w' := ws[|actions|], ws'[|actions'|];
      if SaysDone(text, d.sentinel) || d.iteration == d.maxIterations
      then w'.file == Absent && Labels(w'.log, d.runID) == Labels(w.log, d.runID)
      else
        && Quiet(w', d.(iteration := d.iteration + 1, consecutiveFailures := 0))
        && Labels(w'.log, d.runID) == Labels(w.log, d.runID) + [d.iteration + 1]
  {
    hide Step, Shape, Labels, Init, SaysDone, Read;
    var s := d.sessionID;
    ws', actions' := ReachMessages(ws, actions, d);
    var mid := ws'[|actions'|];
    ReplyDecides(mid, s, text);
    ws', actions' := Go(ws', actions', MessagesReply(s, Said(text)));
    var told := ws'[|actions'|];
    LogStep(mid.log, told.log[|mid.log|], d.runID);
    assert told.log == mid.log + [told.log[|mid.log|]];
    if !SaysDone(text, d.sentinel) && d.iteration != d.maxIterations {
      StoredAgain(ws[|actions|], told, d);
      NothingToDo(told, PromptReply(s, true));
      ws', actions' := Go(ws', actions', PromptReply(s, true));
      var done := ws'[|actions'|];
      LogStep(told.log, done.log[|told.log|], d.runID);
      assert done.log == told.log + [done.log[|told.log|]];
      ws', actions' := ReturnEnds(ws', actions', s);
    }
  }

  lemma StoredAgain(before: World, w: World, d: LoopState)
    requires Read(before.file) == Some(d) && d.iteration < d.maxIterations
    requires w.file == Record(d.(iteration := d.iteration + 1, consecutiveFailures := 0))
    ensures Read(w.file) == Some(d.(iteration := d.iteration + 1, consecutiveFailures := 0))
  {
    hide ValidSentinel, Trim;
  }

  /** Passes over replies none of which says that the task is done. */
  lemma {:induction false} PassesGoOn(ws: seq<World>, actions: seq<Action>, d: LoopState, texts: seq<string>)
    returns (ws': seq<World>, actions': seq<Action>, d': LoopState)
    requires History(ws, actions) && NoRestart(actions) && Quiet(ws[|actions|], d) && |texts| <= d.maxIterations - d.iteration
    requires forall text | text in texts :: !SaysDone(text, d.sentinel)
    ensures History(ws', actions') && NoRestart(actions') && Quiet(ws'[|actions'|], d')
    ensures d' == d.(iteration := d.iteration + |texts|, consecutiveFailures := d'.consecutiveFailures)
    ensures |Labels(ws'[|actions'|].log, d.runID)| == |Labels(ws[|actions|].log, d.runID)| + |texts|
    decreases |texts|
  {
    hide History, Quiet, SaysDone, Labels;
    if texts == [] {
      ws', actions', d' := ws, actions, d;
    } else {
      ws', actions' := OnePass(ws, actions, d, texts[0]);
      var next := d.(iteration := d.iteration + 1, consecutiveFailures := 0);
      assert forall text | text in texts[1..] :: text in texts;
      ws', actions', d' := PassesGoOn(ws', actions', next, texts[1..]);
    }
  }

  lemma FreshRun(args: StartArgs, r: string) returns (ws: seq<World>, actions: seq<Action>)
    requires ValidArgs(args) && args.sessionID != "" && r != ""
    ensures History(ws, actions) && NoRestart(actions)
    ensures Quiet(ws[|actions|], NewRun(args, r)) && Labels(ws[|actions|].log, r) == []
  {
    hide ValidSentinel, Trim;
    ws, actions := [World(Absent, {}, map[], multiset{}, map[], {}, [])], [];
    ws, actions := StartWaits(ws, actions, args);
    ws, actions := StartFinishes(ws, actions, args, r);
  }

  /** A whole run: one idle event after the other finds `texts`, none of which says that the
      task is done, and then `last`. If `last` says so, or the bound is reached, the run is over
      with exactly `|texts|` continuations sent, labelled from 1, and no record left. */
  lemma LoopEndsAfter(args: StartArgs, r: string, texts: seq<string>, last: string) returns (ws: seq<World>, actions: seq<Action>)
    requires ValidArgs(args) && args.sessionID != "" && r != ""
    requires |texts| <= args.maxIterations && forall text | text in texts :: !SaysDone(text, args.sentinel)
    requires SaysDone(last, args.sentinel) || |texts| == args.maxIterations
    ensures History(ws, actions) && ws[|actions|].file == Absent
    ensures var sent := Labels(ws[|actions|].log, r); |sent| == |texts| && forall k | 0 <= k < |sent| :: sent[k] == k + 1
  {
    hide SaysDone, ValidArgs, Labels, Step, Shape, Read, Quiet, OrderedLabels, WithinBudget, FailuresCounted;
    ws, actions := FreshRun(args, r);
    var d: LoopState;
    ws, actions, d := PassesGoOn(ws, actions, NewRun(args, r), texts);
    ws, actions := OnePass(ws, actions, d, last);
    HistoryKeeps(ws, actions, |actions|, r);
    OneToCounts(|Labels(ws[|actions|].log, r)|);
  }
}
