/** What becomes of one notification call, in terms of the calls made after it. */
module DebounceCases {
  import opened Debounce

  /** Milliseconds in which nothing is called. */
  function Quiet(k: nat): (r: seq<Command>)
    ensures |r| == k && forall i | 0 <= i < k :: r[i] == Tick
  {
    seq(k, _ => Tick)
  }

  lemma {:induction false} ClockAfter(trace: seq<Command>, k: nat)
    ensures Clock(trace + Quiet(k)) == Clock(trace) + k
    decreases k
  {
    if k == 0 {
      assert trace + Quiet(0) == trace;
    } else {
      ClockAfter(trace, k - 1);
      assert trace + Quiet(k) == (trace + Quiet(k - 1)) + [Tick];
      ClockAppend(trace + Quiet(k - 1), Tick);
    }
  }

  /** The call, with what comes after it. */
  function Called(trace: seq<Command>, n: Notice, delay: int): seq<Command> {
    trace + [Schedule(n, delay)]
  }

  lemma CalledMeans(trace: seq<Command>, n: Notice, delay: int, more: seq<Command>)
    ensures var all, i := Called(trace, n, delay) + more, |trace|;
      && i < |all| && all[i] == Schedule(n, delay) && all[..i] == trace && TimeOf(all, i) == Clock(trace) && DueTime(all, i) == Clock(trace) + delay
      && forall j | 0 <= j < |more| :: all[i + 1 + j] == more[j] && TimeOf(all, i + 1 + j) == Clock(Called(trace, n, delay) + more[..j])
  {
    hide Clock;
    var all, i := Called(trace, n, delay) + more, |trace|;
    forall j | 0 <= j < |more|
      ensures all[..i + 1 + j] == Called(trace, n, delay) + more[..j]
    {
    }
  }

  lemma ClockOfCall(trace: seq<Command>, n: Notice, delay: int)
    ensures Clock(Called(trace, n, delay)) == Clock(trace)
  {
    ClockAppend(trace, Schedule(n, delay));
  }

  lemma SentIs(trace: seq<Command>, i: nat, t: int)
    ensures Run(trace).sent[Send(i, t)] == if SentBy(trace, i, t) then 1 else 0
  {
    hide Run, SentBy, OneEach, TimersWait, Counts;
    TimersRefineRule(trace);
  }

  /** A call with nothing after it for `k` milliseconds: before `dispose` its notice goes out
      once, at once if there is no delay, else in the millisecond the delay is over. */
  lemma LoneCall(trace: seq<Command>, n: Notice, delay: int, k: nat, t: int)
    requires Dispose !in trace
    ensures Run(Called(trace, n, delay) + Quiet(k)).sent[Send(|trace|, t)]
      == if t == Clock(trace) + (if delay <= 0 then 0 else delay) && delay <= k then 1 else 0
  {
    hide Run, Clock, TimeOf, DueTime, KeyOf;
    var all, i := Called(trace, n, delay) + Quiet(k), |trace|;
    SentIs(all, i, t);
    CalledMeans(trace, n, delay, Quiet(k));
    ClockOfCall(trace, n, delay);
    ClockAfter(Called(trace, n, delay), k);
    assert forall j | i < j < |all| :: all[j] == Tick by {
      assert forall j | i < j < |all| :: all[j] == Quiet(k)[j - (i + 1)];
    }
  }

  /** A call whose session and event are called again, or after which the plugin is disposed of,
      before its delay is over, is never sent, whatever happens later. */
  lemma CutShort(trace: seq<Command>, n: Notice, delay: int, k: nat, c: Command, more: seq<Command>, t: int)
    requires k < delay
    requires c == Dispose || (c.Schedule? && c.notice.sessionID == n.sessionID && c.notice.event == n.event)
    ensures Run(Called(trace, n, delay) + (Quiet(k) + [c] + more)).sent[Send(|trace|, t)] == 0
  {
    hide Run, Clock, TimeOf, DueTime;
    var rest := Quiet(k) + [c] + more;
    var all, i := Called(trace, n, delay) + rest, |trace|;
    SentIs(all, i, t);
    CalledMeans(trace, n, delay, rest);
    ClockOfCall(trace, n, delay);
    ClockAfter(Called(trace, n, delay), k);
    assert rest[..k] == Quiet(k) && rest[k] == c;
    assert all[i + 1 + k] == c && Ends(all, i, i + 1 + k);
    assert TimeOf(all, i + 1 + k) == Clock(trace) + k;
  }

  lemma NotEnded(all: seq<Command>, i: nat, t: int)
    requires i < |all| && all[i].Schedule? && all[i].delay > 0 && Dispose !in all[..i]
    requires forall m | i < m < |all| :: !EndsWait(all[m], KeyOf(all[i].notice))
    requires t == DueTime(all, i) && t <= Clock(all)
    ensures SentBy(all, i, t)
  {
    hide Clock, TimeOf, DueTime, KeyOf;
    assert forall m | i < m < |all| :: !Ends(all, i, m);
  }

  lemma OtherKey(n: Notice, other: Notice, delay: int)
    requires other.sessionID != n.sessionID || other.event != n.event
    ensures !EndsWait(Schedule(other, delay), KeyOf(n)) && !EndsWait(Tick, KeyOf(n))
  {
    if KeyOf(other) == KeyOf(n) {
      KeyIsInjective(other.sessionID, other.event, n.sessionID, n.event);
    }
  }

  lemma ClockAfterOther(trace: seq<Command>, n: Notice, delay: int, j: nat, c: Command, k: nat)
    requires c.Schedule?
    ensures Clock(Called(trace, n, delay) + (Quiet(j) + [c] + Quiet(k))) == Clock(trace) + j + k
  {
    hide Clock;
    var called := Called(trace, n, delay);
    ClockOfCall(trace, n, delay);
    ClockAfter(called, j);
    ClockAppend(called + Quiet(j), c);
    ClockAfter(called + Quiet(j) + [c], k);
    assert called + (Quiet(j) + [c] + Quiet(k)) == called + Quiet(j) + [c] + Quiet(k);
  }

  /** A call for another session or another event does not matter to it. */
  lemma OtherCallIsApart(trace: seq<Command>, n: Notice, delay: int, j: nat, other: Notice, otherDelay: int, k: nat)
    requires Dispose !in trace && j < delay <= j + k
    requires other.sessionID != n.sessionID || other.event != n.event
    ensures Run(Called(trace, n, delay) + (Quiet(j) + [Schedule(other, otherDelay)] + Quiet(k))).sent[Send(|trace|, Clock(trace) + delay)] == 1
  {
    hide Run, Clock, TimeOf, DueTime, SentBy, KeyOf, EndsWait, Called, Quiet;
    var c := Schedule(other, otherDelay);
    var rest := Quiet(j) + [c] + Quiet(k);
    var all, i, t := Called(trace, n, delay) + rest, |trace|, Clock(trace) + delay;
    CalledMeans(trace, n, delay, rest);
    ClockAfterOther(trace, n, delay, j, c, k);
    OtherKey(n, other, otherDelay);
    OneOther(j, c, k);
    NothingEnds(trace, n, delay, rest);
    NotEnded(all, i, t);
    SentIs(all, i, t);
  }

  lemma OneOther(j: nat, c: Command, k: nat)
    ensures forall m | 0 <= m < j + 1 + k :: (Quiet(j) + [c] + Quiet(k))[m] in {Tick, c}
  {
  }

  lemma NothingEnds(trace: seq<Command>, n: Notice, delay: int, rest: seq<Command>)
    requires forall m | 0 <= m < |rest| :: !EndsWait(rest[m], KeyOf(n))
    ensures var all := Called(trace, n, delay) + rest; forall m | |trace| < m < |all| :: !EndsWait(all[m], KeyOf(n))
  {
    hide EndsWait, KeyOf;
    var all := Called(trace, n, delay) + rest;
    assert forall m | |trace| < m < |all| :: all[m] == rest[m - |trace| - 1];
  }
}
