/** The notification debounce: a map of timers against a rule over the trace of calls. */
module Debounce {

  datatype Event = SessionIdle | SessionError | PermissionAsked

  function Name(e: Event): string {
    match e
    case SessionIdle => "session.idle"
    case SessionError => "session.error"
    case PermissionAsked => "permission.asked"
  }

  datatype Notice = Notice(event: Event, sessionID: string, text: string)

  /** The debounce key, `${sessionId}|${event}`. */
  function Key(sessionID: string, e: Event): string {
    sessionID + "|" + Name(e)
  }

  /** Distinct sessions or events never share a key, whatever the session id looks like. */
  lemma KeyIsInjective(s: string, e: Event, s': string, e': Event)
    requires Key(s, e) == Key(s', e')
    ensures s == s' && e == e'
  {
    var k := Key(s, e);
    assert k[|k| - 1] == Name(e)[|Name(e)| - 1] == Name(e')[|Name(e')| - 1];
    assert Name(e) == Name(e');
    assert k[..|s|] == s && Key(s', e')[..|s'|] == s';
  }

  /** A call of `scheduleNotification`, a millisecond passing, or `dispose`. */
  datatype Command = Schedule(notice: Notice, delay: int) | Tick | Dispose

  datatype Timer = Timer(key: string, due: int)

  /** `Send(i, t)`: the notice of command `i` goes out at time `t`. */
  datatype Send = Send(ticket: nat, time: int)

  /** The runtime's live timers by handle, the plugin's map from keys to handles, and every send
      that was made, counted. A timer's handle is the number of the call that set it. */
  datatype State = State(
    calls: nat,
    now: int,
    live: map<nat, Timer>,
    timers: map<string, nat>,
    disposed: bool,
    sent: multiset<Send>)

  const START := State(0, 0, map[], map[], false, multiset{})

  function KeyOf(n: Notice): string {
    Key(n.sessionID, n.event)
  }

  function ClearKey(s: State, key: string): State {
    if key in s.timers then s.(live := s.live - {s.timers[key]}) else s
  }

  function Due(s: State): set<nat> {
    set h | h in s.live && s.live[h].due <= s.now
  }

  function KeysOf(live: map<nat, Timer>, handles: set<nat>): set<string> {
    set h | h in handles && h in live :: live[h].key
  }

  function SendsAt(handles: set<nat>, now: int): set<Send> {
    set h | h in handles :: Send(h, now)
  }

  /** The callbacks of some live timers. */
  function Fire(s: State, handles: set<nat>): State {
    s.(live := s.live - handles,
       timers := s.timers - KeysOf(s.live, handles),
       sent := s.sent + if s.disposed then multiset{} else multiset(SendsAt(handles, s.now)))
  }

  /** All callbacks due by now. */
  function FireDue(s: State): State {
    Fire(s, Due(s))
  }

  function Do(s: State, c: Command): State {
    var after :=
      match c
      case Schedule(n, delay) =>
        if s.disposed then s
        else if delay <= 0 then
          var t := ClearKey(s, KeyOf(n));
          t.(timers := t.timers - {KeyOf(n)}, sent := t.sent + multiset{Send(s.calls, s.now)})
        else
          var t := ClearKey(s, KeyOf(n));
          t.(live := t.live[s.calls := Timer(KeyOf(n), s.now + delay)], timers := t.timers[KeyOf(n) := s.calls])
      case Tick => FireDue(s.(now := s.now + 1))
      case Dispose => s.(disposed := true, live := s.live - s.timers.Values, timers := map[]);
    after.(calls := s.calls + 1)
  }

  function Run(trace: seq<Command>): State {
    if trace == [] then START else Do(Run(trace[..|trace| - 1]), trace[|trace| - 1])
  }

  // ---- The rule ----

  function Clock(trace: seq<Command>): nat {
    if trace == [] then 0 else Clock(trace[..|trace| - 1]) + if trace[|trace| - 1].Tick? then 1 else 0
  }

  function TimeOf(trace: seq<Command>, i: nat): nat
    requires i <= |trace|
  {
    Clock(trace[..i])
  }

  predicate DisposedIn(trace: seq<Command>) {
    Dispose in trace
  }

  /** A call that was not ignored. */
  predicate Accepted(trace: seq<Command>, i: nat) {
    i < |trace| && trace[i].Schedule? && !DisposedIn(trace[..i])
  }

  /** A later command that ends the wait of call `i`: the same key again, or `dispose`. */
  predicate Ends(trace: seq<Command>, i: nat, j: nat)
    requires i < |trace| && trace[i].Schedule?
  {
    && i < j < |trace|
    && (trace[j].Dispose? || (trace[j].Schedule? && KeyOf(trace[j].notice) == KeyOf(trace[i].notice)))
  }

  function DueTime(trace: seq<Command>, i: nat): int
    requires i < |trace| && trace[i].Schedule?
  {
    TimeOf(trace, i) + trace[i].delay
  }

  /** Nothing ended the wait before it was over. */
  predicate Undisturbed(trace: seq<Command>, i: nat)
    requires i < |trace| && trace[i].Schedule?
  {
    forall j | i < j < |trace| :: Ends(trace, i, j) ==> TimeOf(trace, j) >= DueTime(trace, i)
  }

  /** The rule: at once, or exactly `delay` later if nothing came in between. */
  predicate SentBy(trace: seq<Command>, i: nat, t: int) {
    Accepted(trace, i) &&
    if trace[i].delay <= 0 then t == TimeOf(trace, i)
    else t == DueTime(trace, i) && t <= Clock(trace) && Undisturbed(trace, i)
  }

  predicate Waiting(trace: seq<Command>, i: nat) {
    && Accepted(trace, i) && trace[i].delay > 0
    && DueTime(trace, i) > Clock(trace) && Undisturbed(trace, i)
  }

  /** The command that cut the wait short. */
  predicate CutBy(trace: seq<Command>, i: nat, j: nat) {
    && Accepted(trace, i) && trace[i].delay > 0
    && Ends(trace, i, j) && TimeOf(trace, j) < DueTime(trace, i)
    && forall k | i < k < j :: !Ends(trace, i, k)
  }

  predicate Superseded(trace: seq<Command>, i: nat) {
    exists j | 0 <= j < |trace| :: CutBy(trace, i, j) && trace[j].Schedule?
  }

  predicate Discarded(trace: seq<Command>, i: nat) {
    exists j | 0 <= j < |trace| :: CutBy(trace, i, j) && trace[j].Dispose?
  }

  // ---- One more command ----

  lemma ClockAppend(trace: seq<Command>, c: Command)
    ensures Clock(trace + [c]) == Clock(trace) + if c.Tick? then 1 else 0
    ensures forall i: nat | i <= |trace| :: TimeOf(trace + [c], i) == TimeOf(trace, i)
  {
    var all := trace + [c];
    assert all[..|trace|] == trace && all[|trace|] == c;
    forall i: nat | i <= |trace|
      ensures TimeOf(all, i) == TimeOf(trace, i)
    {
      assert all[..i] == trace[..i];
    }
  }

  lemma {:induction false} ClockGrows(trace: seq<Command>, i: nat)
    requires i <= |trace|
    ensures TimeOf(trace, i) <= Clock(trace)
  {
    if i == |trace| {
      assert trace[..i] == trace;
    } else {
      assert trace[..|trace| - 1][..i] == trace[..i];
      ClockGrows(trace[..|trace| - 1], i);
    }
  }

  lemma AcceptedAppend(trace: seq<Command>, c: Command, i: nat)
    ensures i < |trace| ==> (Accepted(trace + [c], i) <==> Accepted(trace, i))
    ensures i == |trace| ==> (Accepted(trace + [c], i) <==> c.Schedule? && !DisposedIn(trace))
  {
    var all := trace + [c];
    if i < |trace| {
      assert all[..i] == trace[..i];
    } else if i == |trace| {
      assert all[..i] == trace;
    }
  }

  /** A command ends the waits of its key, or all of them. */
  predicate EndsWait(c: Command, key: string) {
    c.Dispose? || (c.Schedule? && KeyOf(c.notice) == key)
  }

  lemma UndisturbedAppend(trace: seq<Command>, c: Command, i: nat)
    requires i < |trace| && trace[i].Schedule?
    ensures DueTime(trace + [c], i) == DueTime(trace, i)
    ensures Undisturbed(trace + [c], i)
      <==> (Undisturbed(trace, i) && (EndsWait(c, KeyOf(trace[i].notice)) ==> Clock(trace) >= DueTime(trace, i)))
  {
    hide KeyOf, Clock;
    var all := trace + [c];
    ClockAppend(trace, c);
    assert all[|trace|] == c && all[i] == trace[i];
    assert trace[..|trace|] == trace;
    forall j | i < j < |trace|
      ensures Ends(all, i, j) <==> Ends(trace, i, j)
    {
      assert all[j] == trace[j];
    }
    assert Ends(all, i, |trace|) <==> EndsWait(c, KeyOf(trace[i].notice));
    assert TimeOf(all, |trace|) == Clock(trace);
  }

  lemma WaitingAppend(trace: seq<Command>, c: Command, i: nat)
    ensures i < |trace| ==> (Waiting(trace + [c], i)
      <==> (Waiting(trace, i) && DueTime(trace, i) > Clock(trace + [c]) && !EndsWait(c, KeyOf(trace[i].notice))))
    ensures i == |trace| ==> (Waiting(trace + [c], i) <==> c.Schedule? && !DisposedIn(trace) && c.delay > 0)
    ensures i == |trace| && c.Schedule? ==> DueTime(trace + [c], i) == Clock(trace) + c.delay
  {
    hide KeyOf, Clock, DisposedIn, Undisturbed, EndsWait;
    ClockAppend(trace, c);
    AcceptedAppend(trace, c, i);
    assert trace[..|trace|] == trace;
    if i < |trace| && trace[i].Schedule? {
      UndisturbedAppend(trace, c, i);
      assert (trace + [c])[i] == trace[i];
    } else if i == |trace| && c.Schedule? {
      assert Undisturbed(trace + [c], i) by { NothingAfter(trace + [c]); }
    }
  }

  lemma NothingAfter(trace: seq<Command>)
    requires trace != [] && trace[|trace| - 1].Schedule?
    ensures Undisturbed(trace, |trace| - 1)
  {
  }

  lemma SentAppend(trace: seq<Command>, c: Command, i: nat, t: int)
    ensures i < |trace| ==> (SentBy(trace + [c], i, t)
      <==> (SentBy(trace, i, t) || (c.Tick? && t == Clock(trace) + 1 && Waiting(trace, i) && DueTime(trace, i) == t)))
    ensures i == |trace| ==> (SentBy(trace + [c], i, t)
      <==> (c.Schedule? && !DisposedIn(trace) && c.delay <= 0 && t == Clock(trace)))
  {
    hide KeyOf, Clock, DisposedIn, Undisturbed;
    ClockAppend(trace, c);
    AcceptedAppend(trace, c, i);
    assert trace[..|trace|] == trace;
    if i < |trace| && trace[i].Schedule? {
      UndisturbedAppend(trace, c, i);
      assert (trace + [c])[i] == trace[i];
    }
  }

  // ---- The timer map refines the rule ----

  /** The plugin's map and the runtime's live timers are inverse to each other, so each key
      has at most one live timer. */
  predicate OneEach(s: State) {
    && (forall k | k in s.timers :: s.timers[k] in s.live && s.live[s.timers[k]].key == k)
    && (forall h | h in s.live :: s.live[h].key in s.timers && s.timers[s.live[h].key] == h)
  }

  ghost predicate TimersWait(trace: seq<Command>, s: State) {
    && (forall h: nat :: h in s.live <==> Waiting(trace, h))
    && (forall h | h in s.live :: s.live[h] == Timer(KeyOf(trace[h].notice), DueTime(trace, h)))
  }

  ghost predicate SendsFollow(trace: seq<Command>, s: State) {
    forall i: nat, t: int :: s.sent[Send(i, t)] == if SentBy(trace, i, t) then 1 else 0
  }

  predicate Counts(trace: seq<Command>, s: State) {
    s.calls == |trace| && s.now == Clock(trace) && (s.disposed <==> DisposedIn(trace))
  }

  ghost predicate Refines(trace: seq<Command>, s: State) {
    Counts(trace, s) && OneEach(s) && TimersWait(trace, s) && SendsFollow(trace, s) && (s.disposed ==> s.live == map[])
  }

  lemma CountsStep(trace: seq<Command>, s: State, c: Command)
    requires Counts(trace, s)
    ensures Counts(trace + [c], Do(s, c))
  {
    hide Clock;
    ClockAppend(trace, c);
  }

  lemma OneEachStep(s: State, c: Command)
    requires OneEach(s) && s.calls !in s.live && (s.disposed ==> s.live == map[])
    ensures OneEach(Do(s, c)) && (Do(s, c).disposed ==> Do(s, c).live == map[])
  {
    hide OneEach, FireDue, ClearKey;
    match c
    case Schedule(n, delay) =>
      if !s.disposed {
        ScheduleKeepsOneEach(s, n, delay);
      }
      OneEachIgnoresCalls(s);
    case Tick => TickKeepsOneEach(s);
    case Dispose => DisposeKeepsOneEach(s);
  }

  lemma OneEachIgnoresCalls(s: State)
    ensures OneEach(s) ==> OneEach(s.(calls := s.calls + 1))
  {
  }

  lemma ScheduleKeepsOneEach(s: State, n: Notice, delay: int)
    requires OneEach(s) && s.calls !in s.live && !s.disposed
    ensures OneEach(Do(s, Schedule(n, delay))) && !Do(s, Schedule(n, delay)).disposed
  {
    hide KeyOf;
  }

  lemma DisposeKeepsOneEach(s: State)
    requires OneEach(s)
    ensures OneEach(Do(s, Dispose)) && Do(s, Dispose).live == map[]
  {
    assert forall h | h in s.live :: h in s.timers.Values;
  }

  lemma TickKeepsOneEach(s: State)
    requires OneEach(s)
    ensures OneEach(Do(s, Tick)) && Do(s, Tick).disposed == s.disposed
    ensures s.live == map[] ==> Do(s, Tick).live == map[]
  {
    var f := Do(s, Tick);
    var due := Due(s.(now := s.now + 1));
    forall k | k in f.timers
      ensures f.timers[k] in f.live && f.live[f.timers[k]].key == k
    {
      assert k in s.timers && k !in KeysOf(s.live, due);
      assert s.timers[k] !in due;
    }
  }

  /** The waits a command ends are those of the timers it clears. */
  lemma TimersStep(trace: seq<Command>, s: State, c: Command)
    requires Counts(trace, s) && OneEach(s) && TimersWait(trace, s) && (s.disposed ==> s.live == map[])
    ensures TimersWait(trace + [c], Do(s, c))
  {
    hide Clock, Waiting, DueTime, KeyOf, DisposedIn;
    var all, s' := trace + [c], Do(s, c);
    forall h: nat
      ensures h in s'.live <==> Waiting(all, h)
      ensures h in s'.live ==> h < |all| && all[h].Schedule? && s'.live[h] == Timer(KeyOf(all[h].notice), DueTime(all, h))
    {
      OneTimerStep(trace, s, c, h);
    }
  }

  lemma WaitingIsSchedule(trace: seq<Command>, i: nat)
    requires Waiting(trace, i)
    ensures i < |trace| && trace[i].Schedule? && DueTime(trace, i) > Clock(trace)
  {
  }

  lemma DueAppend(trace: seq<Command>, c: Command, i: nat)
    requires i < |trace| && trace[i].Schedule?
    ensures DueTime(trace + [c], i) == DueTime(trace, i) && (trace + [c])[i] == trace[i]
  {
    hide Clock;
    ClockAppend(trace, c);
  }

  lemma OneTimerStep(trace: seq<Command>, s: State, c: Command, h: nat)
    requires Counts(trace, s) && OneEach(s) && TimersWait(trace, s) && (s.disposed ==> s.live == map[])
    ensures h in Do(s, c).live <==> Waiting(trace + [c], h)
    ensures h in Do(s, c).live ==>
      h <= |trace| && (trace + [c])[h].Schedule? && Do(s, c).live[h] == Timer(KeyOf((trace + [c])[h].notice), DueTime(trace + [c], h))
  {
    hide Clock, Waiting, DueTime, KeyOf, DisposedIn;
    WaitingAppend(trace, c, h);
    ClockAppend(trace, c);
    if Waiting(trace, h) {
      WaitingIsSchedule(trace, h);
      DueAppend(trace, c, h);
      assert s.live[h].key in s.timers && h in s.timers.Values;
    }
    if Waiting(trace + [c], h) {
      WaitingIsSchedule(trace + [c], h);
    }
  }

  lemma SendsStep(trace: seq<Command>, s: State, c: Command)
    requires Counts(trace, s) && TimersWait(trace, s) && SendsFollow(trace, s) && (s.disposed ==> s.live == map[])
    ensures SendsFollow(trace + [c], Do(s, c))
  {
    hide Clock, Waiting, DueTime, KeyOf, DisposedIn, SentBy;
    var s' := Do(s, c);
    forall i: nat, t: int
      ensures s'.sent[Send(i, t)] == if SentBy(trace + [c], i, t) then 1 else 0
    {
      OneSendStep(trace, s, c, i, t);
    }
  }

  lemma OneSendStep(trace: seq<Command>, s: State, c: Command, i: nat, t: int)
    requires Counts(trace, s) && TimersWait(trace, s) && SendsFollow(trace, s) && (s.disposed ==> s.live == map[])
    ensures Do(s, c).sent[Send(i, t)] == if SentBy(trace + [c], i, t) then 1 else 0
  {
    hide Clock, Waiting, DueTime, KeyOf, DisposedIn, SentBy;
    SentAppend(trace, c, i, t);
    if Waiting(trace, i) {
      WaitingIsSchedule(trace, i);
      WaitingIsUnsent(trace, i, t);
    }
    if i >= |trace| {
      SentIsPast(trace, i, t);
    }
    if i > |trace| {
      SentIsPast(trace + [c], i, t);
    }
  }

  lemma WaitingIsUnsent(trace: seq<Command>, i: nat, t: int)
    requires Waiting(trace, i)
    ensures !SentBy(trace, i, t)
  {
  }

  lemma SentIsPast(trace: seq<Command>, i: nat, t: int)
    ensures SentBy(trace, i, t) ==> i < |trace|
  {
  }

  /** Over every trace the plugin's timers are the waits of the rule, and it sends what the
      rule says, when the rule says. */
  lemma {:induction false} TimersRefineRule(trace: seq<Command>)
    ensures Refines(trace, Run(trace))
    decreases |trace|
  {
    hide OneEach, TimersWait, SendsFollow, Do;
    if trace == [] {
      NothingRefines();
    } else {
      var n := |trace| - 1;
      var before, c := trace[..n], trace[n];
      TimersRefineRule(before);
      assert trace == before + [c];
      CountsStep(before, Run(before), c);
      assert Run(before).calls !in Run(before).live by { FreshTicket(before, Run(before)); }
      OneEachStep(Run(before), c);
      TimersStep(before, Run(before), c);
      SendsStep(before, Run(before), c);
    }
  }

  lemma FreshTicket(trace: seq<Command>, s: State)
    requires Counts(trace, s) && TimersWait(trace, s)
    ensures s.calls !in s.live
  {
    if Waiting(trace, s.calls) {
      WaitingIsSchedule(trace, s.calls);
    }
  }

  lemma NothingRefines()
    ensures Refines([], START)
  {
  }

  // ---- Conservation ----

  ghost predicate Sent(trace: seq<Command>, i: nat) {
    exists t :: SentBy(trace, i, t)
  }

  lemma SentMeans(trace: seq<Command>, i: nat)
    requires Accepted(trace, i)
    ensures Sent(trace, i) <==> trace[i].delay <= 0 || (DueTime(trace, i) <= Clock(trace) && Undisturbed(trace, i))
  {
    hide Clock, Undisturbed, DisposedIn;
    if trace[i].delay <= 0 {
      assert SentBy(trace, i, TimeOf(trace, i));
    } else if DueTime(trace, i) <= Clock(trace) && Undisturbed(trace, i) {
      assert SentBy(trace, i, DueTime(trace, i));
    }
  }

  lemma CutIsUnique(trace: seq<Command>, i: nat, j: nat, k: nat)
    requires CutBy(trace, i, j) && CutBy(trace, i, k)
    ensures j == k
  {
    hide Clock, DisposedIn;
  }

  lemma CutMeans(trace: seq<Command>, i: nat)
    requires Accepted(trace, i)
    ensures Superseded(trace, i) || Discarded(trace, i) <==> trace[i].delay > 0 && !Undisturbed(trace, i)
    ensures !(Superseded(trace, i) && Discarded(trace, i))
  {
    hide Clock, DisposedIn, Ends, TimeOf, DueTime;
    if Superseded(trace, i) && Discarded(trace, i) {
      var j: nat :| j < |trace| && CutBy(trace, i, j) && trace[j].Schedule?;
      var k: nat :| k < |trace| && CutBy(trace, i, k) && trace[k].Dispose?;
      CutIsUnique(trace, i, j, k);
    }
    if trace[i].delay > 0 && !Undisturbed(trace, i) {
      var j: nat :| i < j < |trace| && Ends(trace, i, j) && TimeOf(trace, j) < DueTime(trace, i);
      var k := FirstEnd(trace, i, j);
      assert CutBy(trace, i, k);
      EndIsEither(trace, i, k);
    }
    forall j: nat | j < |trace| && CutBy(trace, i, j)
      ensures !Undisturbed(trace, i)
    {
      EndIsEither(trace, i, j);
    }
  }

  /** Each accepted call meets exactly one end: sent, waiting, superseded or discarded. */
  lemma OneFate(trace: seq<Command>, i: nat)
    requires Accepted(trace, i)
    ensures Sent(trace, i) || Waiting(trace, i) || Superseded(trace, i) || Discarded(trace, i)
    ensures !(Sent(trace, i) && Waiting(trace, i)) && !(Superseded(trace, i) && Discarded(trace, i))
    ensures !((Sent(trace, i) || Waiting(trace, i)) && (Superseded(trace, i) || Discarded(trace, i)))
  {
    hide Clock, Sent, Superseded, Discarded, Undisturbed, DueTime;
    SentMeans(trace, i);
    CutMeans(trace, i);
  }

  lemma EndIsEither(trace: seq<Command>, i: nat, j: nat)
    requires i < |trace| && trace[i].Schedule? && Ends(trace, i, j)
    ensures i < j < |trace| && (trace[j].Schedule? || trace[j].Dispose?)
  {
  }

  lemma {:induction false} TimeGrows(trace: seq<Command>, i: nat, j: nat)
    requires i <= j <= |trace|
    ensures TimeOf(trace, i) <= TimeOf(trace, j)
  {
    ClockGrows(trace[..j], i);
    assert trace[..j][..i] == trace[..i];
  }

  lemma {:induction false} FirstEnd(trace: seq<Command>, i: nat, j: nat) returns (k: nat)
    requires i < |trace| && trace[i].Schedule? && i < j < |trace| && Ends(trace, i, j) && TimeOf(trace, j) < DueTime(trace, i)
    ensures i < k <= j && Ends(trace, i, k) && TimeOf(trace, k) < DueTime(trace, i)
    ensures forall m | i < m < k :: !Ends(trace, i, m)
    decreases j
  {
    hide Clock, Ends, DueTime, TimeOf;
    if m :| i < m < j && Ends(trace, i, m) {
      TimeGrows(trace, m, j);
      k := FirstEnd(trace, i, m);
    } else {
      k := j;
    }
  }

  ghost function AcceptedCalls(trace: seq<Command>): set<nat> {
    set i: nat | i < |trace| && Accepted(trace, i)
  }

  ghost function SentCalls(trace: seq<Command>): set<nat> {
    set i: nat | i < |trace| && Accepted(trace, i) && Sent(trace, i)
  }

  ghost function WaitingCalls(trace: seq<Command>): set<nat> {
    set i: nat | i < |trace| && Waiting(trace, i)
  }

  ghost function SupersededCalls(trace: seq<Command>): set<nat> {
    set i: nat | i < |trace| && Accepted(trace, i) && Superseded(trace, i)
  }

  ghost function DiscardedCalls(trace: seq<Command>): set<nat> {
    set i: nat | i < |trace| && Accepted(trace, i) && Discarded(trace, i)
  }

  lemma DisjointSizes(a: set<nat>, b: set<nat>)
    requires a * b == {}
    ensures |a + b| == |a| + |b|
  {
  }

  /** When a call that was sent was sent. */
  function SendTime(trace: seq<Command>, i: nat): int {
    if i < |trace| && trace[i].Schedule? then
      if trace[i].delay <= 0 then TimeOf(trace, i) else DueTime(trace, i)
    else 0
  }

  ghost function RuleSends(trace: seq<Command>): set<Send> {
    set i | i in SentCalls(trace) :: Send(i, SendTime(trace, i))
  }

  lemma SentAtItsTime(trace: seq<Command>, i: nat, t: int)
    ensures SentBy(trace, i, t) <==> i in SentCalls(trace) && t == SendTime(trace, i)
  {
    hide Clock, Undisturbed, DisposedIn;
    if SentBy(trace, i, t) {
      assert Sent(trace, i);
    }
  }

  lemma {:induction false} OneSendEach(trace: seq<Command>, calls: set<nat>)
    ensures |set i | i in calls :: Send(i, SendTime(trace, i))| == |calls|
    decreases |calls|
  {
    hide SendTime;
    if calls != {} {
      var c :| c in calls;
      var rest := calls - {c};
      OneSendEach(trace, rest);
      assert (set i | i in calls :: Send(i, SendTime(trace, i))) == (set i | i in rest :: Send(i, SendTime(trace, i))) + {Send(c, SendTime(trace, c))};
    }
  }

  /** What the code has sent is what the rule says, each notice once. */
  lemma SendsAreCounted(trace: seq<Command>)
    ensures Run(trace).sent == multiset(RuleSends(trace)) && |Run(trace).sent| == |SentCalls(trace)|
  {
    hide Run, SentBy, SentCalls, SendTime, OneEach, TimersWait, Counts;
    TimersRefineRule(trace);
    forall x: Send
      ensures Run(trace).sent[x] == multiset(RuleSends(trace))[x]
    {
      SentAtItsTime(trace, x.ticket, x.time);
    }
    OneSendEach(trace, SentCalls(trace));
  }

  /** Nothing is lost: of the accepted calls, those the code has sent, those superseded, those
      whose timers are live and those discarded add up. */
  lemma CallsAreConserved(trace: seq<Command>)
    ensures |AcceptedCalls(trace)| == |Run(trace).sent| + |SupersededCalls(trace)| + |Run(trace).live| + |DiscardedCalls(trace)|
  {
    hide Run, SentCalls, SupersededCalls, WaitingCalls, DiscardedCalls, AcceptedCalls;
    FatesAddUp(trace);
    SendsAreCounted(trace);
    LiveIsWaiting(trace);
    assert |Run(trace).live| == |Run(trace).live.Keys|;
  }

  lemma FatesAddUp(trace: seq<Command>)
    ensures |AcceptedCalls(trace)| == |SentCalls(trace)| + |SupersededCalls(trace)| + |WaitingCalls(trace)| + |DiscardedCalls(trace)|
  {
    hide Sent, Superseded, Discarded, Accepted, Waiting;
    var a, b, c, d := SentCalls(trace), SupersededCalls(trace), WaitingCalls(trace), DiscardedCalls(trace);
    forall i: nat | i < |trace|
      ensures i in AcceptedCalls(trace) <==> i in a || i in b || i in c || i in d
      ensures !(i in a && i in b) && !(i in c && (i in a || i in b)) && !(i in d && (i in a || i in b || i in c))
    {
      WaitingIsAccepted(trace, i);
      if Accepted(trace, i) {
        OneFate(trace, i);
      }
    }
    DisjointSizes(a, b);
    DisjointSizes(a + b, c);
    DisjointSizes(a + b + c, d);
    assert AcceptedCalls(trace) == a + b + c + d;
  }

  lemma WaitingIsAccepted(trace: seq<Command>, i: nat)
    ensures Waiting(trace, i) ==> Accepted(trace, i)
  {
  }

  /** After `dispose` nothing is ever sent again. */
  lemma {:induction false} SilentAfterDispose(trace: seq<Command>, more: seq<Command>)
    requires DisposedIn(trace)
    ensures Run(trace + more).sent == Run(trace).sent
    decreases |more|
  {
    hide Do, Refines;
    if more == [] {
      assert trace + more == trace;
    } else {
      var n := |more| - 1;
      var all := trace + more;
      assert all[..|all| - 1] == trace + more[..n] && all[|all| - 1] == more[n];
      SilentAfterDispose(trace, more[..n]);
      TimersRefineRule(trace + more[..n]);
      DisposedIsQuiet(trace + more[..n], Run(trace + more[..n]), more[n]);
    }
  }

  lemma DisposedIsQuiet(trace: seq<Command>, s: State, c: Command)
    requires Refines(trace, s) && DisposedIn(trace)
    ensures Do(s, c).sent == s.sent
  {
    hide KeyOf, Clock, TimersWait, SendsFollow, OneEach;
  }

  /** The live timers are exactly the pending calls. */
  lemma LiveIsWaiting(trace: seq<Command>)
    ensures Run(trace).live.Keys == WaitingCalls(trace)
  {
    hide Run, Waiting, OneEach, SendsFollow, Counts;
    TimersRefineRule(trace);
    forall h: nat
      ensures h in Run(trace).live.Keys <==> h in WaitingCalls(trace)
    {
      if Waiting(trace, h) {
        WaitingIsSchedule(trace, h);
      }
    }
  }
}
