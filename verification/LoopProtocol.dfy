/** Everything that can happen around one loop state file: idle events, the replies a
    waiting handler gets, the two tools, session deletion and the death of the server,
    in any order. Each action is one stretch of code between two awaits. */
module LoopProtocol {
  import opened Wrappers
  import opened Text
  import opened Sentinel
  import opened LoopModel

  /** A `processIdle` call that has not returned. `pending` lives in its tracker. */
  datatype Activation = Activation(phase: Phase, pending: bool, rerun: bool)

  datatype CallResult = NoCall | PromptOk | CallFailed

  /** One handler stretch: whose snapshot ran, how the call it waited for ended, the
      run whose record it changed, and the continuation it sent. */
  datatype Entry = Entry(runID: string, result: CallResult, changed: Option<string>, sent: Option<Prompt>)

  datatype World = World(
    file: File,
    inFlight: set<string>,
    active: map<string, Activation>,
    starts: multiset<StartArgs>,
    runs: map<string, int>,
    deleted: set<string>,
    log: seq<Entry>
  )

  datatype Action =
    | Idle(sessionID: string)
    | KindReply(sessionID: string, kind: Kind)
    | MessagesReply(sessionID: string, reply: Reply)
    | PromptReply(sessionID: string, ok: bool)
    | Resume(sessionID: string)
    | StartTool(args: StartArgs)
    | StartChecked(args: StartArgs, kind: Kind, runID: string)
    | StopTool
    | SessionDeleted(sessionID: string)
    | Crash
    | CrashAfterBump(sessionID: string, text: string)

  /** Run ids are fresh, and a session id is not used again once the plugin has seen
      its deletion; everything else is up to the environment. */
  predicate Enabled(w: World, a: Action) {
    match a
    case Idle(s) => s != "" && s !in w.deleted
    case KindReply(s, _) => s in w.active && w.active[s].phase.AwaitKind?
    case MessagesReply(s, _) => s in w.active && w.active[s].phase.AwaitMessages?
    case PromptReply(s, _) => s in w.active && w.active[s].phase.AwaitPrompt?
    case Resume(s) => s in w.active && w.active[s].phase.Returned?
    case StartTool(args) => args.sessionID != ""
    case StartChecked(args, _, runID) => args in w.starts && runID != "" && runID !in w.runs
    case StopTool => true
    case SessionDeleted(_) => true
    case Crash => true
    case CrashAfterBump(s, text) =>
      && s in w.active && w.active[s].phase.AwaitMessages?
      && AfterMessages(w.file, w.active[s].phase.snap, Said(text)).phase.AwaitPrompt?
  }

  predicate Crashes(a: Action) {
    a.Crash? || a.CrashAfterBump?
  }

  function RunOnDisk(f: File): Option<string> {
    if Read(f).Some? then Some(Read(f).value.runID) else None
  }

  function ChangedRun(before: File, after: File): Option<string> {
    if Read(before) == Read(after) then None else RunOnDisk(before)
  }

  /** A waiting pass runs one stretch. */
  function Advance(w: World, s: string, st: Stretch, result: CallResult): World
    requires s in w.active && !w.active[s].phase.Returned? && |st.prompts| <= 1
  {
    var entry := Entry(w.active[s].phase.snap.runID, result, ChangedRun(w.file, st.file),
                       if st.prompts == [] then None else Some(st.prompts[0]));
    w.(file := st.file, active := w.active[s := w.active[s].(phase := st.phase)], log := w.log + [entry])
  }

  function Begin(w: World, s: string, rerun: bool): World {
    var st := BeginPass(w.file, s);
    w.(file := st.file, inFlight := if rerun then w.inFlight else w.inFlight + {s},
       active := w.active[s := Activation(st.phase, false, rerun)])
  }

  function Restarted(w: World): World {
    w.(inFlight := {}, active := map[], starts := multiset{}, deleted := {})
  }

  function Step(w: World, a: Action): World
    requires Enabled(w, a)
  {
    match a
    case Idle(s) =>
      if s in w.inFlight && s in w.active then w.(active := w.active[s := w.active[s].(pending := true)])
      else Begin(w, s, false)
    case KindReply(s, kind) => Advance(w, s, AfterKind(w.file, w.active[s].phase.snap, kind), NoCall)
    case MessagesReply(s, reply) =>
      Advance(w, s, AfterMessages(w.file, w.active[s].phase.snap, reply), if reply.Failed? then CallFailed else NoCall)
    case PromptReply(s, ok) =>
      Advance(w, s, AfterPrompt(w.file, w.active[s].phase.snap, ok), if ok then PromptOk else CallFailed)
    case Resume(s) =>
      if w.active[s].pending && !w.active[s].rerun then Begin(w, s, true)
      else w.(active := w.active - {s}, inFlight := w.inFlight - {s})
    case StartTool(args) =>
      if !ValidArgs(args) || Read(w.file).Some? then w
      else w.(file := AfterRead(w.file), starts := w.starts + multiset{args})
    case StartChecked(args, kind, runID) =>
      var w' := w.(starts := w.starts - multiset{args});
      if kind.Root? then w'.(file := Record(NewRun(args, runID)), runs := w.runs[runID := args.maxIterations]) else w'
    case StopTool => w.(file := Absent)
    case SessionDeleted(s) =>
      var mine := Read(w.file).Some? && Read(w.file).value.sessionID == s;
      w.(file := if mine then Absent else AfterRead(w.file),
         inFlight := w.inFlight - {s}, deleted := w.deleted + {s})
    case Crash => Restarted(w)
    case CrashAfterBump(s, text) =>
      var st := AfterMessages(w.file, w.active[s].phase.snap, Said(text));
      Restarted(Advance(w, s, st.(prompts := []), NoCall))
  }

  // ---- What the log says about a run ----

  function Labels(log: seq<Entry>, r: string): seq<int> {
    if log == [] then []
    else
      var before, e := Labels(log[..|log| - 1], r), log[|log| - 1];
      if e.sent.Some? && e.sent.value.runID == r then before + [e.sent.value.number] else before
  }

  /** Failed calls since the run's last successful prompt. */
  function Failures(log: seq<Entry>, r: string): nat {
    if log == [] then 0
    else
      var before, e := Failures(log[..|log| - 1], r), log[|log| - 1];
      if e.runID != r || e.result.NoCall? then before
      else if e.result.PromptOk? then 0
      else before + 1
  }

  /** Handler stretches that changed the run's record. */
  function Changes(log: seq<Entry>, r: string): nat {
    if log == [] then 0
    else Changes(log[..|log| - 1], r) + if log[|log| - 1].changed == Some(r) then 1 else 0
  }

  lemma LogStep(log: seq<Entry>, e: Entry, r: string)
    ensures Labels(log + [e], r) == Labels(log, r) + if e.sent.Some? && e.sent.value.runID == r then [e.sent.value.number] else []
    ensures Changes(log + [e], r) == Changes(log, r) + if e.changed == Some(r) then 1 else 0
    ensures Failures(log + [e], r)
         == if e.runID != r || e.result.NoCall? then Failures(log, r)
            else if e.result.PromptOk? then 0 else Failures(log, r) + 1
  {
    assert (log + [e])[..|log|] == log;
  }

  function OneTo(n: nat): seq<int> {
    if n == 0 then [] else OneTo(n - 1) + [n]
  }

  /** 3 * (iterations left) + (failures left): every change of the record lowers it. */
  function Potential(s: LoopState): int {
    3 * (s.maxIterations - s.iteration) + (3 - s.consecutiveFailures)
  }

  // ---- Invariants ----

  predicate Sane(s: LoopState) {
    Accepts(s) && s.iteration <= s.maxIterations && s.consecutiveFailures < MAX_CONSECUTIVE_FAILURES
  }

  /** A waiting snapshot either agrees with the record of its run or its run is gone. */
  predicate SnapshotHolds(w: World, s: string, p: Phase) {
    !p.Returned? ==>
      && Sane(p.snap) && p.snap.sessionID == s
      && p.snap.runID in w.runs && w.runs[p.snap.runID] == p.snap.maxIterations
      && (RunOnDisk(w.file) == Some(p.snap.runID) ==>
            Read(w.file).value == if p.AwaitPrompt? then p.snap.(consecutiveFailures := 0) else p.snap)
  }

  predicate DiskHolds(w: World) {
    Read(w.file).Some? ==>
      var d := Read(w.file).value;
      Sane(d) && d.runID in w.runs && w.runs[d.runID] == d.maxIterations
  }

  predicate SingleFlight(w: World) {
    w.inFlight <= w.active.Keys && forall s | s in w.active :: s in w.inFlight || s in w.deleted
  }

  predicate Shape(w: World) {
    && DiskHolds(w)
    && SingleFlight(w)
    && (forall a | a in w.starts :: ValidArgs(a) && a.sessionID != "")
    && (forall s | s in w.active :: SnapshotHolds(w, s, w.active[s].phase))
  }

  predicate Init(w: World) {
    && Read(w.file).None? && w.inFlight == {} && w.active == map[] && w.starts == multiset{}
    && w.runs == map[] && w.deleted == {} && w.log == []
  }

  /** The part of `SnapshotHolds` a stretch needs. */
  predicate Agrees(f: File, p: Phase) {
    && !p.Returned? && Sane(p.snap)
    && (RunOnDisk(f) == Some(p.snap.runID) ==>
          Read(f).value == if p.AwaitPrompt? then p.snap.(consecutiveFailures := 0) else p.snap)
  }

  /** What one stretch may do to the record, whoever runs it. */
  predicate SafeStretch(f: File, p: Phase, st: Stretch)
    requires !p.Returned?
  {
    && |st.prompts| <= 1
    && (Read(st.file) == Read(f) || Read(st.file).None? || (
          && RunOnDisk(f) == RunOnDisk(st.file) == Some(p.snap.runID)
          && Sane(Read(st.file).value) && Read(st.file).value.maxIterations == p.snap.maxIterations))
    && (!st.phase.Returned? ==>
          && Agrees(st.file, st.phase) && st.phase.snap.sessionID == p.snap.sessionID
          && st.phase.snap.runID == p.snap.runID && st.phase.snap.maxIterations == p.snap.maxIterations)
  }

  lemma FailureIsSafe(f: File, p: Phase)
    requires Agrees(f, p)
    ensures SafeStretch(f, p, AfterFailure(f, p.snap))
  {
    hide ValidSentinel, Trim;
  }

  lemma KindIsSafe(f: File, p: Phase, kind: Kind)
    requires Agrees(f, p) && p.AwaitKind?
    ensures SafeStretch(f, p, AfterKind(f, p.snap, kind))
  {
    hide ValidSentinel, Trim;
  }

  lemma MessagesIsSafe(f: File, p: Phase, reply: Reply)
    requires Agrees(f, p) && p.AwaitMessages?
    ensures SafeStretch(f, p, AfterMessages(f, p.snap, reply))
  {
    hide ValidSentinel, Trim, Matches, AfterFailure;
    if reply.Failed? {
      FailureIsSafe(f, p);
    }
  }

  lemma PromptIsSafe(f: File, p: Phase, ok: bool)
    requires Agrees(f, p)
    ensures SafeStretch(f, p, AfterPrompt(f, p.snap, ok))
  {
    hide AfterFailure, Accepts;
    if !ok {
      FailureIsSafe(f, p);
    }
  }

  lemma SafeStretchKeepsShape(w: World, s: string, st: Stretch, result: CallResult)
    requires Shape(w) && s in w.active && !w.active[s].phase.Returned?
    requires SafeStretch(w.file, w.active[s].phase, st)
    ensures Shape(Advance(w, s, st, result))
    ensures Shape(Advance(w, s, st.(prompts := []), result))
  {
    hide Accepts;
    var w' := Advance(w, s, st, result);
    assert SnapshotHolds(w, s, w.active[s].phase);
    forall o | o in w'.active
      ensures SnapshotHolds(w', o, w'.active[o].phase)
    {
      if o != s {
        assert SnapshotHolds(w, o, w.active[o].phase);
      }
    }
  }

  lemma BeginKeepsShape(w: World, s: string, rerun: bool)
    requires Shape(w) && (if rerun then s in w.active else s !in w.active)
    ensures Shape(Begin(w, s, rerun))
  {
    var w' := Begin(w, s, rerun);
    forall o | o in w'.active
      ensures SnapshotHolds(w', o, w'.active[o].phase)
      ensures o in w'.inFlight || o in w'.deleted
    {
      if o != s {
        assert SnapshotHolds(w, o, w.active[o].phase);
      }
    }
  }

  lemma EndKeepsShape(w: World, s: string)
    requires Shape(w) && s in w.active
    ensures Shape(w.(active := w.active - {s}, inFlight := w.inFlight - {s}))
  {
    var w' := w.(active := w.active - {s}, inFlight := w.inFlight - {s});
    forall o | o in w'.active
      ensures SnapshotHolds(w', o, w'.active[o].phase)
    {
      assert SnapshotHolds(w, o, w.active[o].phase);
    }
  }

  /** A tool or a deletion touches no waiting pass: it removes the record, or writes
      one whose run id no snapshot can hold. */
  lemma FileChangeKeepsSnapshots(w: World, w': World)
    requires Shape(w) && w'.active == w.active
    requires (w'.runs == w.runs && w'.file in {w.file, AfterRead(w.file), Absent})
          || exists args: StartArgs, runID: string :: runID !in w.runs && w'.runs == w.runs[runID := args.maxIterations] && w'.file == Record(NewRun(args, runID))
    ensures forall s | s in w'.active :: SnapshotHolds(w', s, w'.active[s].phase)
  {
    forall s | s in w'.active
      ensures SnapshotHolds(w', s, w'.active[s].phase)
    {
      assert SnapshotHolds(w, s, w.active[s].phase);
    }
  }

  predicate HandlerStretch(a: Action) {
    a.KindReply? || a.MessagesReply? || a.PromptReply? || a.CrashAfterBump?
  }

  /** The stretch a handler action runs. */
  function StretchOf(w: World, a: Action): Stretch
    requires Enabled(w, a) && HandlerStretch(a)
  {
    var snap := w.active[a.sessionID].phase.snap;
    match a
    case KindReply(_, kind) => AfterKind(w.file, snap, kind)
    case MessagesReply(_, reply) => AfterMessages(w.file, snap, reply)
    case PromptReply(_, ok) => AfterPrompt(w.file, snap, ok)
    case CrashAfterBump(_, text) => AfterMessages(w.file, snap, Said(text))
  }

  lemma HandlerIsSafe(w: World, a: Action)
    requires Shape(w) && Enabled(w, a) && HandlerStretch(a)
    ensures SafeStretch(w.file, w.active[a.sessionID].phase, StretchOf(w, a))
  {
    hide SafeStretch, AfterKind, AfterPrompt, AfterMessages, Accepts, Read;
    var p := w.active[a.sessionID].phase;
    assert SnapshotHolds(w, a.sessionID, p);
    match a
    case KindReply(_, kind) => KindIsSafe(w.file, p, kind);
    case MessagesReply(_, reply) => MessagesIsSafe(w.file, p, reply);
    case PromptReply(_, ok) => PromptIsSafe(w.file, p, ok);
    case CrashAfterBump(_, text) => MessagesIsSafe(w.file, p, Said(text));
  }

  lemma HandlerKeepsShape(w: World, a: Action)
    requires Shape(w) && Enabled(w, a) && HandlerStretch(a)
    ensures Shape(Step(w, a))
  {
    hide AfterKind, AfterPrompt, AfterMessages, Accepts, Sane, Advance, SnapshotHolds, SafeStretch, Agrees;
    HandlerIsSafe(w, a);
    var st := StretchOf(w, a);
    assert |st.prompts| <= 1 by { SafeStretchIsShort(w.file, w.active[a.sessionID].phase, st); }
    SafeStretchKeepsShape(w, a.sessionID, st, NoCall);
    SafeStretchKeepsShape(w, a.sessionID, st, PromptOk);
    SafeStretchKeepsShape(w, a.sessionID, st, CallFailed);
  }

  lemma SafeStretchIsShort(f: File, p: Phase, st: Stretch)
    requires !p.Returned? && SafeStretch(f, p, st)
    ensures |st.prompts| <= 1
  {
  }

  lemma FlightKeepsShape(w: World, a: Action)
    requires Shape(w) && Enabled(w, a) && (a.Idle? || a.Resume?)
    ensures Shape(Step(w, a))
  {
    var s := a.sessionID;
    if a.Idle? && s in w.inFlight {
      var w' := Step(w, a);
      forall o | o in w'.active
        ensures SnapshotHolds(w', o, w'.active[o].phase)
      {
        assert SnapshotHolds(w, o, w.active[o].phase);
      }
    } else if a.Idle? {
      BeginKeepsShape(w, s, false);
    } else if w.active[s].pending && !w.active[s].rerun {
      BeginKeepsShape(w, s, true);
    } else {
      EndKeepsShape(w, s);
    }
  }

  lemma StartKeepsShape(w: World, a: Action)
    requires Shape(w) && Enabled(w, a) && (a.StartTool? || a.StartChecked?)
    ensures Shape(Step(w, a))
  {
    hide ValidSentinel, Trim;
    var w' := Step(w, a);
    if a.StartChecked? {
      assert a.args in w.starts;
      assert forall x | x in w'.starts :: x in w.starts;
    }
    if a.StartChecked? && a.kind.Root? {
      assert w'.file == Record(NewRun(a.args, a.runID));
      assert Sane(w'.file.state);
    }
    FileChangeKeepsSnapshots(w, w');
  }

  lemma StepKeepsShape(w: World, a: Action)
    requires Shape(w) && Enabled(w, a)
    ensures Shape(Step(w, a))
  {
    if HandlerStretch(a) {
      HandlerKeepsShape(w, a);
    } else if a.Idle? || a.Resume? {
      FlightKeepsShape(w, a);
    } else if a.StartTool? || a.StartChecked? {
      StartKeepsShape(w, a);
    } else if !a.Crash? {
      assert a.StopTool? || a.SessionDeleted?;
      FileChangeKeepsSnapshots(w, Step(w, a));
    }
  }
}
