/** What holds over every run of the loop driver. */
module LoopTheorems {
  import opened Wrappers
  import opened Text
  import opened Sentinel
  import opened LoopModel
  import opened LoopProtocol

  predicate OnDisk(w: World, r: string) {
    RunOnDisk(w.file) == Some(r)
  }

  // ---- One run seen through the log ----

  /** The labels sent for `r` are 1, 2, ..., n within its bound, and n is what the record says. */
  predicate ExactLabels(w: World, r: string) {
    var sent := Labels(w.log, r);
    && sent == OneTo(|sent|)
    && |sent| <= (if r in w.runs then w.runs[r] else 0)
    && (OnDisk(w, r) ==> |sent| == Read(w.file).value.iteration)
  }

  predicate Increasing(s: seq<int>, bound: int) {
    && (forall i, j | 0 <= i < j < |s| :: s[i] < s[j])
    && (forall i | 0 <= i < |s| :: 1 <= s[i] <= bound)
  }

  predicate OrderedLabels(w: World, r: string) {
    && Increasing(Labels(w.log, r), if r in w.runs then w.runs[r] else 0)
    && (OnDisk(w, r) ==> Increasing(Labels(w.log, r), Read(w.file).value.iteration))
  }

  function Budget(w: World, r: string): int {
    if r in w.runs then 3 * (w.runs[r] + 1) else 0
  }

  predicate WithinBudget(w: World, r: string) {
    && Changes(w.log, r) <= Budget(w, r)
    && (OnDisk(w, r) ==> Changes(w.log, r) + Potential(Read(w.file).value) <= Budget(w, r))
  }

  /** A pass over the record of `r` that has read it and not finished with it. */
  predicate PassOver(w: World, r: string, s: string) {
    s in w.active && !w.active[s].phase.Returned? && w.active[s].phase.snap.runID == r
  }

  /** The count the next failure adds to: a waiting pass has it in its snapshot, because
      the bump already reset the record; otherwise it is the record's own. */
  function KnownFailures(w: World, r: string): int
    requires OnDisk(w, r)
  {
    var d := Read(w.file).value;
    if PassOver(w, r, d.sessionID) then w.active[d.sessionID].phase.snap.consecutiveFailures else d.consecutiveFailures
  }

  predicate FailuresCounted(w: World, r: string) {
    && (r !in w.runs ==> Failures(w.log, r) == 0)
    && (OnDisk(w, r) ==> Failures(w.log, r) == KnownFailures(w, r))
  }

  lemma {:induction false} OneToCounts(n: nat)
    ensures |OneTo(n)| == n && forall k | 0 <= k < n :: OneTo(n)[k] == k + 1
  {
    if n > 0 {
      OneToCounts(n - 1);
    }
  }

  // ---- The five things a step can do to the record ----

  datatype Effect = Untouched | Cleared | Bumped | FailureNoted | Started

  /** How a stretch of a pass with snapshot `snap` changes the readable record. */
  predicate StretchEffect(before: Option<LoopState>, snap: LoopState, after: Option<LoopState>, e: Effect) {
    match e
    case Untouched => after == before
    case Cleared => before.Some? && after.None?
    case Bumped =>
      && before == Some(snap) && snap.iteration < snap.maxIterations
      && after == Some(snap.(iteration := snap.iteration + 1, consecutiveFailures := 0))
    case FailureNoted =>
      && before.Some? && before.value.runID == snap.runID
      && before.value.consecutiveFailures < snap.consecutiveFailures + 1 < MAX_CONSECUTIVE_FAILURES
      && after == Some(before.value.(consecutiveFailures := snap.consecutiveFailures + 1))
    case Started => false
  }

  lemma FailureEffect(f: File, p: Phase) returns (e: Effect)
    requires Agrees(f, p)
    ensures StretchEffect(Read(f), p.snap, Read(AfterFailure(f, p.snap).file), e) && !e.Bumped?
    ensures AfterFailure(f, p.snap).prompts == []
    ensures e.Untouched? <==> Read(AfterFailure(f, p.snap).file) == Read(f)
  {
    e := if Read(AfterFailure(f, p.snap).file) == Read(f) then Untouched
         else if p.snap.consecutiveFailures + 1 >= MAX_CONSECUTIVE_FAILURES then Cleared else FailureNoted;
  }

  lemma MessagesEffect(f: File, p: Phase, reply: Reply) returns (e: Effect)
    requires Agrees(f, p) && p.AwaitMessages?
    ensures var st := AfterMessages(f, p.snap, reply);
      && StretchEffect(Read(f), p.snap, Read(st.file), e)
      && st.prompts == (if e.Bumped? then [Prompt(p.snap.runID, p.snap.iteration + 1, p.snap.maxIterations)] else [])
      && (e.Untouched? <==> Read(st.file) == Read(f))
      && (e.Bumped? ==> !reply.Failed?)
  {
    if reply.Failed? {
      e := FailureEffect(f, p);
    } else {
      var st := AfterMessages(f, p.snap, reply);
      e := if Read(st.file) == Read(f) then Untouched else if st.phase.AwaitPrompt? then Bumped else Cleared;
    }
  }

  /** The entry a handler stretch leaves in the log, for effect `e`. */
  predicate LogEffect(w: World, a: Action, e: Effect)
    requires Enabled(w, a) && HandlerStretch(a)
  {
    var w', snap := Step(w, a), w.active[a.sessionID].phase.snap;
    && |w'.log| == |w.log| + 1 && w'.log[..|w.log|] == w.log
    && var entry := w'.log[|w.log|];
       && entry.runID == snap.runID
       && entry.changed == (if e.Untouched? then None else RunOnDisk(w.file))
       && entry.sent == (if e.Bumped? && !Crashes(a)
                         then Some(Prompt(snap.runID, snap.iteration + 1, snap.maxIterations)) else None)
       && entry.result == (if (a.MessagesReply? && a.reply.Failed?) || (a.PromptReply? && !a.ok) then CallFailed
                           else if a.PromptReply? then PromptOk else NoCall)
       && (entry.result.CallFailed? ==> !e.Bumped?)
       && (entry.result.PromptOk? ==> e.Untouched?)
  }

  lemma HandlerEffect(w: World, a: Action) returns (e: Effect)
    requires Shape(w) && Enabled(w, a) && HandlerStretch(a)
    ensures StretchEffect(Read(w.file), w.active[a.sessionID].phase.snap, Read(Step(w, a).file), e)
    ensures LogEffect(w, a, e) && Step(w, a).runs == w.runs
  {
    hide Matches, ValidSentinel, AfterMessages, Accepts;
    var p := w.active[a.sessionID].phase;
    assert SnapshotHolds(w, a.sessionID, p);
    match a
    case KindReply(_, kind) => e := if kind.Missing? && Read(w.file).Some? then Cleared else Untouched;
    case MessagesReply(_, reply) => e := MessagesEffect(w.file, p, reply);
    case CrashAfterBump(_, text) => e := MessagesEffect(w.file, p, Said(text));
    case PromptReply(_, ok) =>
      if ok {
        e := Untouched;
      } else {
        e := FailureEffect(w.file, p);
      }
  }

  /** Every other action leaves the log alone and keeps, removes or freshly starts the record. */
  lemma QuietEffect(w: World, a: Action)
    requires Shape(w) && Enabled(w, a) && !HandlerStretch(a)
    ensures var w' := Step(w, a);
      && w'.log == w.log
      && if a.StartChecked? && a.kind.Root?
         then w'.runs == w.runs[a.runID := a.args.maxIterations] && Read(w'.file) == Some(NewRun(a.args, a.runID))
              && a.args.maxIterations >= 1
         else w'.runs == w.runs && (Read(w'.file) == Read(w.file) || Read(w'.file).None?)
  {
    hide Matches, ValidSentinel, Trim;
    if a.StartChecked? && a.kind.Root? {
      assert a.args in w.starts;
      assert Accepts(NewRun(a.args, a.runID));
    }
  }

  /** A handler stretch as the log of run `r` sees it; nothing below looks at `Step` again. */
  predicate Handled(w: World, w': World, p: Phase, e: Effect, result: CallResult, crashed: bool, r: string) {
    && Agrees(w.file, p) && DiskHolds(w) && DiskHolds(w')
    && StretchEffect(Read(w.file), p.snap, Read(w'.file), e)
    && w'.runs == w.runs && p.snap.runID in w.runs && w.runs[p.snap.runID] == p.snap.maxIterations
    && Labels(w'.log, r) == Labels(w.log, r) + (if e.Bumped? && !crashed && p.snap.runID == r then [p.snap.iteration + 1] else [])
    && Changes(w'.log, r) == Changes(w.log, r) + (if !e.Untouched? && OnDisk(w, r) then 1 else 0)
    && Failures(w'.log, r) == (if p.snap.runID != r || result.NoCall? then Failures(w.log, r)
                               else if result.PromptOk? then 0 else Failures(w.log, r) + 1)
  }

  lemma HandlerLog(w: World, a: Action, r: string) returns (e: Effect, result: CallResult)
    requires Shape(w) && Enabled(w, a) && HandlerStretch(a)
    ensures Handled(w, Step(w, a), w.active[a.sessionID].phase, e, result, Crashes(a), r)
    ensures result == (if (a.MessagesReply? && a.reply.Failed?) || (a.PromptReply? && !a.ok) then CallFailed
                       else if a.PromptReply? then PromptOk else NoCall)
    ensures (result.CallFailed? ==> !e.Bumped?) && (result.PromptOk? ==> e.Untouched?)
  {
    hide Matches, ValidSentinel, Step, StretchEffect, Labels, Changes, Failures, Accepts;
    StepKeepsShape(w, a);
    e := HandlerEffect(w, a);
    assert SnapshotHolds(w, a.sessionID, w.active[a.sessionID].phase);
    var log, log' := w.log, Step(w, a).log;
    result := log'[|log|].result;
    assert log' == log + [log'[|log|]];
    LogStep(log, log'[|log|], r);
  }

  lemma HandledExact(w: World, w': World, p: Phase, e: Effect, result: CallResult, r: string)
    requires Handled(w, w', p, e, result, false, r) && ExactLabels(w, r)
    ensures ExactLabels(w', r)
  {
    OneToCounts(|Labels(w.log, r)|);
  }

  lemma StepKeepsExactLabels(w: World, a: Action, r: string)
    requires Shape(w) && Enabled(w, a) && !Crashes(a) && ExactLabels(w, r)
    ensures ExactLabels(Step(w, a), r)
  {
    if HandlerStretch(a) {
      var e, result := HandlerLog(w, a, r);
      HandledExact(w, Step(w, a), w.active[a.sessionID].phase, e, result, r);
    } else {
      QuietEffect(w, a);
    }
  }

  lemma IncreasingAppend(s: seq<int>, x: int, bound: int)
    requires Increasing(s, x - 1) && 1 <= x <= bound
    ensures Increasing(s + [x], bound) && Increasing(s, bound)
  {
  }

  lemma HandledOrdered(w: World, w': World, p: Phase, e: Effect, result: CallResult, crashed: bool, r: string)
    requires Handled(w, w', p, e, result, crashed, r) && OrderedLabels(w, r)
    ensures OrderedLabels(w', r)
  {
    hide Changes, Failures, Labels, ValidSentinel, Trim;
    if e.Bumped? && p.snap.runID == r {
      IncreasingAppend(Labels(w.log, r), p.snap.iteration + 1, p.snap.iteration + 1);
      IncreasingAppend(Labels(w.log, r), p.snap.iteration + 1, p.snap.maxIterations);
    }
  }

  lemma StepKeepsOrderedLabels(w: World, a: Action, r: string)
    requires Shape(w) && Enabled(w, a) && OrderedLabels(w, r)
    ensures OrderedLabels(Step(w, a), r)
  {
    hide Matches, ValidSentinel;
    if HandlerStretch(a) {
      var e, result := HandlerLog(w, a, r);
      HandledOrdered(w, Step(w, a), w.active[a.sessionID].phase, e, result, Crashes(a), r);
    } else {
      QuietEffect(w, a);
    }
  }

  lemma HandledBudget(w: World, w': World, p: Phase, e: Effect, result: CallResult, crashed: bool, r: string)
    requires Handled(w, w', p, e, result, crashed, r) && WithinBudget(w, r)
    ensures WithinBudget(w', r)
  {
  }

  lemma StepKeepsBudget(w: World, a: Action, r: string)
    requires Shape(w) && Enabled(w, a) && WithinBudget(w, r)
    ensures WithinBudget(Step(w, a), r)
  {
    hide Matches, ValidSentinel;
    if HandlerStretch(a) {
      var e, result := HandlerLog(w, a, r);
      HandledBudget(w, Step(w, a), w.active[a.sessionID].phase, e, result, Crashes(a), r);
    } else {
      QuietEffect(w, a);
    }
  }

  /** Only the pass of session `s` moved, and it kept its run. */
  predicate SamePasses(w: World, w': World, s: string) {
    && w'.active.Keys == w.active.Keys && s in w.active && !w.active[s].phase.Returned?
    && (forall o | o in w.active && o != s :: w'.active[o] == w.active[o])
    && (w'.active[s].phase.Returned? || w'.active[s].phase.snap.runID == w.active[s].phase.snap.runID)
  }

  lemma HandlerMovesOnePass(w: World, a: Action)
    requires Enabled(w, a) && !Crashes(a) && HandlerStretch(a)
    ensures SamePasses(w, Step(w, a), a.sessionID)
  {
  }

  /** A pass over another run than `r`, or in another session, leaves the count of `r` alone. */
  lemma OtherPassKeepsFailures(w: World, w': World, a: Action, e: Effect, result: CallResult, r: string)
    requires Enabled(w, a) && HandlerStretch(a) && SamePasses(w, w', a.sessionID)
    requires Handled(w, w', w.active[a.sessionID].phase, e, result, false, r)
    requires FailuresCounted(w, r) && OnDisk(w', r) && w.active[a.sessionID].phase.snap.runID != r
    ensures FailuresCounted(w', r)
  {
    assert Read(w'.file) == Read(w.file);
    var o := Read(w.file).value.sessionID;
    assert PassOver(w', r, o) <==> PassOver(w, r, o);
  }

  lemma OwnPassKeepsFailures(w: World, a: Action, r: string)
    requires Shape(w) && Enabled(w, a) && !Crashes(a) && FailuresCounted(w, r) && HandlerStretch(a)
    requires OnDisk(Step(w, a), r) && w.active[a.sessionID].phase.snap.runID == r
    ensures FailuresCounted(Step(w, a), r)
  {
    hide Matches, ValidSentinel, Labels, Changes, Failures;
    var e, result := HandlerLog(w, a, r);
    var s, p := a.sessionID, w.active[a.sessionID].phase;
    assert SnapshotHolds(w, s, p);
    assert OnDisk(w, r) && Read(w.file).value.sessionID == s == Read(Step(w, a).file).value.sessionID;
    assert PassOver(w, r, s);
  }

  lemma HandlerKeepsFailures(w: World, a: Action, r: string)
    requires Shape(w) && Enabled(w, a) && !Crashes(a) && FailuresCounted(w, r) && HandlerStretch(a)
    ensures FailuresCounted(Step(w, a), r)
  {
    var e, result := HandlerLog(w, a, r);
    if OnDisk(Step(w, a), r) {
      if w.active[a.sessionID].phase.snap.runID == r {
        OwnPassKeepsFailures(w, a, r);
      } else {
        HandlerMovesOnePass(w, a);
        OtherPassKeepsFailures(w, Step(w, a), a, e, result, r);
      }
    }
  }

  lemma StepKeepsFailures(w: World, a: Action, r: string)
    requires Shape(w) && Enabled(w, a) && !Crashes(a) && FailuresCounted(w, r)
    ensures FailuresCounted(Step(w, a), r)
  {
    hide Matches, ValidSentinel, Labels, Changes, Failures;
    if HandlerStretch(a) {
      HandlerKeepsFailures(w, a, r);
    } else {
      QuietEffect(w, a);
      var w' := Step(w, a);
      if OnDisk(w', r) {
        var d := Read(w'.file).value;
        if d.sessionID in w.active {
          assert SnapshotHolds(w, d.sessionID, w.active[d.sessionID].phase);
        }
      }
    }
  }

  // ---- Over whole runs ----

  /** A history of the plugin from a workspace without a loop. */
  predicate History(ws: seq<World>, actions: seq<Action>) {
    && |ws| == |actions| + 1
    && Init(ws[0])
    && forall i | 0 <= i < |actions| :: Enabled(ws[i], actions[i]) && ws[i + 1] == Step(ws[i], actions[i])
  }

  predicate NoRestart(actions: seq<Action>) {
    forall i | 0 <= i < |actions| :: !Crashes(actions[i])
  }

  lemma {:induction false} HistoryKeeps(ws: seq<World>, actions: seq<Action>, i: nat, r: string)
    requires History(ws, actions) && i < |ws|
    ensures Shape(ws[i]) && OrderedLabels(ws[i], r) && WithinBudget(ws[i], r)
    ensures NoRestart(actions) ==> ExactLabels(ws[i], r) && FailuresCounted(ws[i], r)
  {
    hide Step, Enabled;
    if i > 0 {
      HistoryKeeps(ws, actions, i - 1, r);
      StepKeepsShape(ws[i - 1], actions[i - 1]);
      StepKeepsOrderedLabels(ws[i - 1], actions[i - 1], r);
      StepKeepsBudget(ws[i - 1], actions[i - 1], r);
      if NoRestart(actions) {
        StepKeepsExactLabels(ws[i - 1], actions[i - 1], r);
        StepKeepsFailures(ws[i - 1], actions[i - 1], r);
      }
    }
  }

  /** Without a restart the continuations of a run are labelled exactly 1, 2, ..., n,
      never beyond its bound, and the stored iteration is the number sent. */
  lemma LabelsAreConsecutive(ws: seq<World>, actions: seq<Action>, i: nat, r: string)
    requires History(ws, actions) && NoRestart(actions) && i < |ws| && r in ws[i].runs
    ensures var sent := Labels(ws[i].log, r);
      && |sent| <= ws[i].runs[r]
      && (forall k | 0 <= k < |sent| :: sent[k] == k + 1)
      && (OnDisk(ws[i], r) ==> Read(ws[i].file).value.iteration == |sent|)
  {
    HistoryKeeps(ws, actions, i, r);
    OneToCounts(|Labels(ws[i].log, r)|);
  }

  /** With the server killed and restarted anywhere, even between the bump and the call,
      labels still only grow and stay within the bound. */
  lemma LabelsGrowAcrossRestarts(ws: seq<World>, actions: seq<Action>, i: nat, r: string)
    requires History(ws, actions) && i < |ws| && r in ws[i].runs
    ensures var sent := Labels(ws[i].log, r);
      && (forall j, k | 0 <= j < k < |sent| :: sent[j] < sent[k])
      && (forall k | 0 <= k < |sent| :: 1 <= sent[k] <= ws[i].runs[r])
  {
    HistoryKeeps(ws, actions, i, r);
  }

  /** The stored failure count stays below the cap, and with no pass over the run under
      way it is the number of failed calls since the run's last successful prompt. */
  lemma FailureCountIsExact(ws: seq<World>, actions: seq<Action>, i: nat, r: string)
    requires History(ws, actions) && NoRestart(actions) && i < |ws| && OnDisk(ws[i], r)
    ensures var d := Read(ws[i].file).value;
      && 0 <= d.consecutiveFailures < MAX_CONSECUTIVE_FAILURES
      && (!PassOver(ws[i], r, d.sessionID) ==> d.consecutiveFailures == Failures(ws[i].log, r))
  {
    HistoryKeeps(ws, actions, i, r);
  }

  /** Handlers change the record of one run at most 3 * (maxIterations + 1) times, restarts included. */
  lemma ChangesAreBounded(ws: seq<World>, actions: seq<Action>, i: nat, r: string)
    requires History(ws, actions) && i < |ws| && r in ws[i].runs
    ensures Changes(ws[i].log, r) <= 3 * (ws[i].runs[r] + 1)
  {
    HistoryKeeps(ws, actions, i, r);
  }

  /** Every handler change of a record that stays lowers (iterations left, failures left)
      lexicographically, and is made by a pass of that very run and session. */
  lemma ChangeLowersBudget(w: World, a: Action)
    requires Shape(w) && Enabled(w, a) && HandlerStretch(a)
    requires Read(w.file).Some? && Read(Step(w, a).file).Some? && Read(Step(w, a).file) != Read(w.file)
    ensures var d, d', snap := Read(w.file).value, Read(Step(w, a).file).value, w.active[a.sessionID].phase.snap;
      && d'.runID == d.runID == snap.runID && d'.sessionID == d.sessionID == snap.sessionID
      && d'.maxIterations == d.maxIterations && d'.sentinel == d.sentinel && d'.task == d.task
      && (|| d'.maxIterations - d'.iteration < d.maxIterations - d.iteration
          || (d'.iteration == d.iteration && 3 - d'.consecutiveFailures < 3 - d.consecutiveFailures))
      && Potential(d') < Potential(d)
  {
    hide Matches, ValidSentinel;
    var e := HandlerEffect(w, a);
    assert SnapshotHolds(w, a.sessionID, w.active[a.sessionID].phase);
  }

  lemma StepKeepsRetired(w: World, a: Action, r: string)
    requires Shape(w) && Enabled(w, a) && r in w.runs && !OnDisk(w, r)
    ensures r in Step(w, a).runs && !OnDisk(Step(w, a), r)
  {
    if HandlerStretch(a) {
      var e := HandlerEffect(w, a);
    } else {
      QuietEffect(w, a);
    }
  }

  /** A run whose record was cleared or replaced is never written back, whatever handlers
      were waiting at the time. */
  lemma {:induction false} RetiredRunsStayRetired(ws: seq<World>, actions: seq<Action>, i: nat, j: nat, r: string)
    requires History(ws, actions) && i <= j < |ws|
    requires r in ws[i].runs && !OnDisk(ws[i], r)
    ensures r in ws[j].runs && !OnDisk(ws[j], r)
  {
    hide Step, Shape, OrderedLabels, WithinBudget, ExactLabels, FailuresCounted, OnDisk;
    if i < j {
      RetiredRunsStayRetired(ws, actions, i, j - 1, r);
      HistoryKeeps(ws, actions, j - 1, r);
      StepKeepsRetired(ws[j - 1], actions[j - 1], r);
    }
  }

  // ---- What a stale handler can still do ----

  /** The outcomes after which a handler removes the state file without looking whose it is. */
  predicate ClearsUnchecked(w: World, a: Action)
    requires Enabled(w, a) && HandlerStretch(a)
  {
    var snap := w.active[a.sessionID].phase.snap;
    var lastFailure := snap.consecutiveFailures + 1 >= MAX_CONSECUTIVE_FAILURES;
    match a
    case KindReply(_, kind) => kind.Missing?
    case MessagesReply(_, Failed) => lastFailure
    case MessagesReply(_, Said(text)) => Matches(text, snap.sentinel) || snap.iteration >= snap.maxIterations
    case PromptReply(_, ok) => !ok && lastFailure
    case _ => false
  }

  /** A handler whose run is no longer the stored one sends nothing, and the newer run's
      record survives it if and only if its outcome is not one of the unchecked clears. */
  lemma StaleHandlerSparesNewerRun(w: World, a: Action)
    requires Shape(w) && Enabled(w, a) && HandlerStretch(a)
    requires Read(w.file).Some? && !OnDisk(w, w.active[a.sessionID].phase.snap.runID)
    ensures Read(Step(w, a).file) == Read(w.file) <==> !ClearsUnchecked(w, a)
    ensures ClearsUnchecked(w, a) ==> Step(w, a).file == Absent
    ensures Step(w, a).log[|w.log|].sent.None?
  {
    hide Matches, ValidSentinel;
    var e := HandlerEffect(w, a);
    assert !e.Bumped? && !e.FailureNoted?;
  }

  lemma Extend(ws: seq<World>, actions: seq<Action>, a: Action)
    requires History(ws, actions) && Enabled(ws[|actions|], a)
    ensures History(ws + [Step(ws[|actions|], a)], actions + [a])
  {
    var ws', actions' := ws + [Step(ws[|actions|], a)], actions + [a];
    forall i | 0 <= i < |actions'|
      ensures Enabled(ws'[i], actions'[i]) && ws'[i + 1] == Step(ws'[i], actions'[i])
    {
      if i < |actions| {
        assert ws'[i] == ws[i] && ws'[i + 1] == ws[i + 1];
      }
    }
  }

  /** A loop-start call that finds no record and goes on to check its session. */
  lemma StartWaits(ws: seq<World>, actions: seq<Action>, args: StartArgs)
    returns (ws': seq<World>, actions': seq<Action>)
    requires History(ws, actions) && NoRestart(actions) && ws[|actions|].file == Absent
    requires ValidArgs(args) && args.sessionID != ""
    ensures History(ws', actions') && NoRestart(actions')
    ensures ws'[|actions'|] == ws[|actions|].(starts := ws[|actions|].starts + multiset{args})
  {
    hide ValidArgs;
    Extend(ws, actions, StartTool(args));
    ws', actions' := ws + [Step(ws[|actions|], StartTool(args))], actions + [StartTool(args)];
  }

  /** A waiting loop-start call writes its record, whatever is stored by then. */
  lemma StartFinishes(ws: seq<World>, actions: seq<Action>, args: StartArgs, r: string)
    returns (ws': seq<World>, actions': seq<Action>)
    requires History(ws, actions) && NoRestart(actions) && args in ws[|actions|].starts
    requires r !in ws[|actions|].runs && r != "" && ValidArgs(args) && args.sessionID != ""
    ensures History(ws', actions') && NoRestart(actions')
    ensures |actions'| == |actions| + 1 && actions'[|actions|].StartChecked? && ws'[|actions|] == ws[|actions|]
    ensures var w, w' := ws[|actions|], ws'[|actions'|];
      && w' == w.(file := Record(NewRun(args, r)), runs := w.runs[r := args.maxIterations],
                  starts := w.starts - multiset{args})
      && OnDisk(w', r)
  {
    hide ValidSentinel, Trim;
    var a := StartChecked(args, Root, r);
    Extend(ws, actions, a);
    ws', actions' := ws + [Step(ws[|actions|], a)], actions + [a];
    assert Accepts(NewRun(args, r));
  }

  /** An idle event for the stored session, up to the wait for its messages. */
  lemma IdleReachesMessages(ws: seq<World>, actions: seq<Action>)
    returns (ws': seq<World>, actions': seq<Action>)
    requires History(ws, actions) && NoRestart(actions)
    requires var w := ws[|actions|]; Read(w.file).Some? && Read(w.file).value.sessionID !in w.inFlight + w.deleted
    ensures History(ws', actions') && NoRestart(actions')
    ensures var w, w' := ws[|actions|], ws'[|actions'|];
      var s := Read(w.file).value.sessionID;
      && w'.file == w.file && w'.starts == w.starts && w'.runs == w.runs
      && s in w'.active && w'.active[s].phase == AwaitMessages(Read(w.file).value)
  {
    var w := ws[|actions|];
    var s := Read(w.file).value.sessionID;
    var w1 := Step(w, Idle(s));
    Extend(ws, actions, Idle(s));
    Extend(ws + [w1], actions + [Idle(s)], KindReply(s, Root));
    ws' := ws + [w1] + [Step(w1, KindReply(s, Root))];
    actions' := actions + [Idle(s)] + [KindReply(s, Root)];
  }

  /** A handler of a stopped run finds the sentinel in a late reply and deletes the record
      of the run started after it, in the same session, which it never looked at. */
  lemma StaleHandlerCanClearNewerRun(args: StartArgs, text: string, first: string, second: string)
    returns (ws: seq<World>, actions: seq<Action>)
    requires ValidArgs(args) && args.sessionID != "" && Matches(text, args.sentinel)
    requires first != "" && second != "" && first != second
    ensures History(ws, actions) && NoRestart(actions) && |actions| > 0
    ensures var w := ws[|actions| - 1];
      && OnDisk(w, second)
      && actions[|actions| - 1] == MessagesReply(args.sessionID, Said(text))
      && args.sessionID in w.active && w.active[args.sessionID].phase == AwaitMessages(NewRun(args, first))
      && ws[|actions|].file == Absent
  {
    hide ValidSentinel, ValidArgs;
    ws, actions := [World(Absent, {}, map[], multiset{}, map[], {}, [])], [];
    ws, actions := StartWaits(ws, actions, args);
    ws, actions := StartFinishes(ws, actions, args, first);
    assert Read(ws[|actions|].file) == Some(NewRun(args, first));
    ws, actions := IdleReachesMessages(ws, actions);
    Extend(ws, actions, StopTool);
    ws, actions := ws + [Step(ws[|actions|], StopTool)], actions + [StopTool];
    ws, actions := StartWaits(ws, actions, args);
    ws, actions := StartFinishes(ws, actions, args, second);
    var late := MessagesReply(args.sessionID, Said(text));
    Extend(ws, actions, late);
    ws, actions := ws + [Step(ws[|actions|], late)], actions + [late];
  }

  /** Two overlapping loop-starts both find no record, and the second replaces the first's run. */
  lemma OverlappingStartsReplace(first: StartArgs, second: StartArgs, r1: string, r2: string)
    returns (ws: seq<World>, actions: seq<Action>)
    requires ValidArgs(first) && first.sessionID != "" && ValidArgs(second) && second.sessionID != ""
    requires r1 != "" && r2 != "" && r1 != r2
    ensures History(ws, actions) && |actions| > 0 && actions[|actions| - 1].StartChecked?
    ensures OnDisk(ws[|actions| - 1], r1) && OnDisk(ws[|actions|], r2)
  {
    ws, actions := [World(Absent, {}, map[], multiset{}, map[], {}, [])], [];
    ws, actions := StartWaits(ws, actions, first);
    ws, actions := StartWaits(ws, actions, second);
    ws, actions := StartFinishes(ws, actions, first, r1);
    ws, actions := StartFinishes(ws, actions, second, r2);
  }

  /** A loop-start call with good arguments that finds no stored record and goes on to wait. */
  predicate Passes(w: World, a: Action) {
    a.StartTool? && ValidArgs(a.args) && Read(w.file).None?
  }

  /** Between the two times some loop-start wrote a record, and it is the one still stored. */
  predicate WrittenSince(ws: seq<World>, actions: seq<Action>, c: nat, i: nat)
    requires History(ws, actions) && c < i < |ws|
  {
    exists j | c < j < i :: actions[j].StartChecked? && actions[j].kind.Root? && OnDisk(ws[i], actions[j].runID)
  }

  /** Handlers rewrite the record that is there; only loop-start stores another. */
  lemma HandlerStoresNothing(w: World, a: Action)
    requires Shape(w) && Enabled(w, a) && HandlerStretch(a) && Read(Step(w, a).file).Some?
    ensures RunOnDisk(Step(w, a).file) == RunOnDisk(w.file) != None
  {
    hide AfterMessages, AfterKind, AfterPrompt, Read, Shape, LogEffect;
    var e := HandlerEffect(w, a);
  }

  lemma QuietStoresStarts(w: World, a: Action)
    requires Shape(w) && Enabled(w, a) && !HandlerStretch(a) && Read(Step(w, a).file).Some?
    ensures if a.StartChecked? && a.kind.Root? then OnDisk(Step(w, a), a.runID) else RunOnDisk(Step(w, a).file) == RunOnDisk(w.file) != None
  {
    hide Accepts, Begin, Shape, Step;
    QuietEffect(w, a);
  }

  lemma {:induction false} StoredSince(ws: seq<World>, actions: seq<Action>, c: nat, i: nat)
    requires History(ws, actions) && c < i < |ws| && Read(ws[c + 1].file).None?
    ensures Read(ws[i].file).Some? ==> WrittenSince(ws, actions, c, i)
  {
    hide Step, Enabled, Shape, OrderedLabels, WithinBudget, Read;
    if i > c + 1 && Read(ws[i].file).Some? {
      var w, a := ws[i - 1], actions[i - 1];
      HistoryKeeps(ws, actions, i - 1, "");
      if HandlerStretch(a) {
        HandlerStoresNothing(w, a);
        StoredSince(ws, actions, c, i - 1);
      } else {
        QuietStoresStarts(w, a);
        if !(a.StartChecked? && a.kind.Root?) {
          StoredSince(ws, actions, c, i - 1);
        }
      }
    }
  }

  /** When a loop-start that passed its check comes to write, it replaces a stored run if and
      only if another loop-start has written that run since the check and it is still there. */
  lemma StartReplacesIff(ws: seq<World>, actions: seq<Action>, c: nat, i: nat)
    requires History(ws, actions) && c < i < |actions| && Passes(ws[c], actions[c])
    requires actions[i].StartChecked? && actions[i].args == actions[c].args && actions[i].kind.Root?
    ensures Read(ws[i].file).Some? <==> WrittenSince(ws, actions, c, i)
    ensures OnDisk(ws[i + 1], actions[i].runID) && !OnDisk(ws[i], actions[i].runID)
  {
    StoredSince(ws, actions, c, i);
    HistoryKeeps(ws, actions, i, "");
    StartIsStored(ws[i], actions[i]);
  }

  lemma StartIsStored(w: World, a: Action)
    requires Shape(w) && Enabled(w, a) && a.StartChecked? && a.kind.Root?
    ensures OnDisk(Step(w, a), a.runID) && !OnDisk(w, a.runID)
  {
    hide Accepts;
    QuietEffect(w, a);
  }

  /** How the waiting loop-start calls change. */
  lemma StartsStep(w: World, a: Action)
    requires Enabled(w, a) && |w.starts| <= 1 && !Passes(w, a)
    ensures Step(w, a).starts != multiset{} ==> w.starts != multiset{} && !a.StartChecked?
  {
    hide AfterMessages, AfterKind, AfterPrompt, ValidArgs, Read, BeginPass;
    if a.StartChecked? {
      assert |w.starts - multiset{a.args}| == |w.starts| - 1 == 0;
    }
  }

  /** The check behind a lone waiting call, with no other call writing since. */
  lemma {:induction false} LastCheck(ws: seq<World>, actions: seq<Action>, i: nat) returns (c: nat)
    requires History(ws, actions) && i < |ws| && ws[i].starts != multiset{}
    requires forall j | 0 <= j <= i :: |ws[j].starts| <= 1
    ensures c < i && Passes(ws[c], actions[c]) && forall j | c < j < i :: !actions[j].StartChecked?
  {
    hide Passes;
    if Passes(ws[i - 1], actions[i - 1]) {
      c := i - 1;
    } else {
      StartsStep(ws[i - 1], actions[i - 1]);
      c := LastCheck(ws, actions, i - 1);
    }
  }

  /** As long as loop-start calls do not overlap, none replaces a run that is still stored. */
  lemma LoneStartsNeverReplace(ws: seq<World>, actions: seq<Action>, i: nat)
    requires History(ws, actions) && i < |actions| && actions[i].StartChecked?
    requires forall j | 0 <= j <= i :: |ws[j].starts| <= 1
    ensures Read(ws[i].file).None?
  {
    assert actions[i].args in ws[i].starts;
    var c := LastCheck(ws, actions, i);
    StoredSince(ws, actions, c, i);
  }
}
