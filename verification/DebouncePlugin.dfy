/** The notification plugin's timer code: the closure's map and flag, and the host's timers. */
module DebouncePlugin {
  import opened Debounce

  class Notifier {
    // The host: a clock and the timers it has been asked for, with the calls that set them.
    var now: int
    var live: map<nat, Timer>
    var calls: nat
    var sent: multiset<Send>
    // The closure.
    var timers: map<string, nat>
    var disposed: bool

    constructor ()
      ensures View() == START
    {
      now, live, calls, sent, timers, disposed := 0, map[], 0, multiset{}, map[], false;
    }

    ghost function View(): State
      reads this
    {
      State(calls, now, live, timers, disposed, sent)
    }

    method ClearTimeout(handle: nat)
      modifies `live
      ensures live == old(live) - {handle}
    {
      live := live - {handle};
    }

    method SendNotification(ticket: nat)
      modifies `sent
      ensures sent == if disposed then old(sent) else old(sent) + multiset{Send(ticket, now)}
    {
      if disposed {
        return;
      }
      sent := sent + multiset{Send(ticket, now)};
    }

    method ScheduleNotification(notice: Notice, notifyAfterMs: int)
      modifies this
      ensures View() == Do(old(View()), Schedule(notice, notifyAfterMs))
    {
      hide KeyOf;
      var ticket := calls;
      calls := calls + 1;
      if disposed {
        return;
      }
      var key := KeyOf(notice);
      if key in timers {
        ClearTimeout(timers[key]);
      }
      if notifyAfterMs <= 0 {
        timers := timers - {key};
        SendNotification(ticket);
        return;
      }
      live := live[ticket := Timer(key, now + notifyAfterMs)];
      timers := timers[key := ticket];
    }

    /** What the host runs when a timer is up. */
    method Callback(handle: nat, key: string)
      modifies `timers, `sent
      ensures timers == old(timers) - {key}
      ensures sent == if disposed then old(sent) else old(sent) + multiset{Send(handle, now)}
    {
      timers := timers - {key};
      if disposed {
        return;
      }
      SendNotification(handle);
    }

    /** The host takes a timer off and runs its callback. */
    method RunTimer(h: nat)
      requires h in live
      modifies `live, `timers, `sent
      ensures View() == FireOne(old(View()), h)
    {
      var key := live[h].key;
      live := live - {h};
      Callback(h, key);
    }

    /** The callbacks of some timers, in any order. */
    method RunTimers(due: set<nat>)
      requires due <= live.Keys
      modifies `live, `timers, `sent
      ensures View() == Fire(old(View()), due)
    {
      hide Fire;
      ghost var start := View();
      var left := due;
      ghost var fired: set<nat> := {};
      NoneFired(start);
      while left != {}
        invariant left <= due && fired == due - left
        invariant View() == Fire(start, fired) && live == start.live - fired
      {
        var h :| h in left;
        FireOneMore(start, fired, h);
        RunTimer(h);
        left, fired := left - {h}, fired + {h};
      }
      assert fired == due;
    }

    /** A millisecond passes and the host runs every callback now due. */
    method Elapse()
      modifies this
      ensures View() == Do(old(View()), Tick)
    {
      calls := calls + 1;
      now := now + 1;
      assert (set h | h in live && live[h].due <= now) == Due(View());
      RunTimers(set h | h in live && live[h].due <= now);
      CallsCommute(old(View()));
    }

    method Dispose()
      modifies this
      ensures View() == Do(old(View()), Command.Dispose)
    {
      calls := calls + 1;
      disposed := true;
      var was := timers.Values;
      var left := was;
      while left != {}
        invariant left <= was && live == old(live) - (was - left)
        invariant calls == old(calls) + 1 && disposed && now == old(now) && sent == old(sent) && timers == old(timers)
      {
        var timer :| timer in left;
        ClearTimeout(timer);
        left := left - {timer};
      }
      timers := map[];
      assert was - {} == was;
    }
  }

  /** One callback. */
  function FireOne(s: State, h: nat): State
    requires h in s.live
  {
    s.(live := s.live - {h}, timers := s.timers - {s.live[h].key},
       sent := if s.disposed then s.sent else s.sent + multiset{Send(h, s.now)})
  }

  lemma NoneFired(s: State)
    ensures Fire(s, {}) == s
  {
    assert KeysOf(s.live, {}) == {} && SendsAt({}, s.now) == {};
  }

  lemma KeysGrow(live: map<nat, Timer>, handles: set<nat>, h: nat)
    requires h in live
    ensures KeysOf(live, handles + {h}) == KeysOf(live, handles) + {live[h].key}
  {
  }

  lemma SendsGrow(handles: set<nat>, h: nat, now: int)
    requires h !in handles
    ensures multiset(SendsAt(handles + {h}, now)) == multiset(SendsAt(handles, now)) + multiset{Send(h, now)}
  {
    assert SendsAt(handles + {h}, now) == SendsAt(handles, now) + {Send(h, now)};
  }

  lemma FireOneMore(s: State, fired: set<nat>, h: nat)
    requires h in s.live && h !in fired
    ensures h in Fire(s, fired).live && Fire(s, fired + {h}) == FireOne(Fire(s, fired), h)
  {
    hide KeysOf, SendsAt;
    KeysGrow(s.live, fired, h);
    SendsGrow(fired, h, s.now);
    assert s.live - (fired + {h}) == s.live - fired - {h};
    assert s.timers - (KeysOf(s.live, fired) + {s.live[h].key}) == s.timers - KeysOf(s.live, fired) - {s.live[h].key};
  }

  /** Numbering the call does not matter to what fires. */
  lemma CallsCommute(s: State)
    ensures var t := s.(calls := s.calls + 1, now := s.now + 1); Fire(t, Due(t)) == Do(s, Tick)
  {
  }

  /** A session of calls on a fresh notifier: what has gone out is what the rule says. */
  method Play(trace: seq<Command>) returns (notifier: Notifier)
    ensures fresh(notifier) && notifier.View() == Run(trace)
    ensures forall i: nat, t: int :: notifier.sent[Send(i, t)] == if SentBy(trace, i, t) then 1 else 0
  {
    hide Do, SentBy, Refines;
    notifier := new Notifier();
    assert trace[..0] == [];
    for n := 0 to |trace|
      invariant fresh(notifier) && notifier.View() == Run(trace[..n])
    {
      assert trace[..n + 1][..n] == trace[..n] && trace[..n + 1][n] == trace[n];
      match trace[n]
      case Schedule(notice, delay) => notifier.ScheduleNotification(notice, delay);
      case Tick => notifier.Elapse();
      case Dispose => notifier.Dispose();
    }
    assert trace[..|trace|] == trace;
    RefinedSends(trace);
  }

  lemma RefinedSends(trace: seq<Command>)
    ensures forall i: nat, t: int :: Run(trace).sent[Send(i, t)] == if SentBy(trace, i, t) then 1 else 0
  {
    hide Run, SentBy;
    TimersRefineRule(trace);
  }
}
