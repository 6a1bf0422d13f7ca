/** One process running `ensureFresh`, while any others take their own steps between its
    system calls. It plays the protocol's actions for its own process id and no others. */
module AuthClient {
  import opened Wrappers
  import opened AuthProtocol
  import opened AuthTheorems

  /** The token a process holds in memory, updated in place. */
  class TokenFile {
    var version: nat
    var rt: nat
    var expiresAt: int

    constructor (t: Token)
      ensures Value() == t
    {
      version, rt, expiresAt := t.version, t.rt, t.expiresAt;
    }

    function Value(): Token
      reads this
    {
      Token(version, rt, expiresAt)
    }

    /** `applyRefreshedToken`: an answer without expiry is refused and changes nothing; one
        without a refresh token keeps the old one. */
    method Apply(refreshToken: Option<nat>, expiry: Option<int>, next: nat) returns (ok: bool)
      modifies this
      ensures ok <==> expiry.Some?
      ensures !ok ==> Value() == old(Value())
      ensures ok ==> Value() == Token(next, if refreshToken.Some? then refreshToken.value else old(rt), expiry.value)
    {
      if expiry.None? {
        return false;
      }
      if refreshToken.Some? {
        rt := refreshToken.value;
      }
      expiresAt := expiry.value;
      version := next;
      ok := true;
    }
  }

  datatype Freshness = Fresh(token: Token) | NotLoggedIn | Failed

  /** Between two system calls others may act; then this call fares as told. */
  datatype Reply = Reply(others: seq<Action>, answer: Answer, save: SaveResult)

  predicate ByOther(a: Action, pid: nat) {
    !a.ClockTicks? && !a.ProviderRevokes? ==> a.pid != pid
  }

  /** A play of the protocol: the actions so far and the worlds they led through. */
  datatype Trace = Trace(worlds: seq<World>, actions: seq<Action>)

  predicate Protocol(t: Trace) {
    Plays(t.worlds, t.actions)
  }

  function Last(t: Trace): World
    requires Protocol(t)
  {
    t.worlds[|t.actions|]
  }

  predicate Extends(t: Trace, t': Trace) {
    t.worlds <= t'.worlds && t.actions <= t'.actions
  }

  /** The process's own actions, in order. */
  function Own(actions: seq<Action>, pid: nat): seq<Action> {
    if actions == [] then []
    else
      var before, a := Own(actions[..|actions| - 1], pid), actions[|actions| - 1];
      if ByOther(a, pid) then before else before + [a]
  }

  lemma OwnAppend(actions: seq<Action>, a: Action, pid: nat)
    ensures Own(actions + [a], pid) == Own(actions, pid) + if ByOther(a, pid) then [] else [a]
  {
    assert (actions + [a])[..|actions|] == actions;
  }

  /** One more action. */
  function Then(t: Trace, a: Action): Trace
    requires Protocol(t) && Enabled(Last(t), a)
  {
    Trace(t.worlds + [Step(Last(t), a)], t.actions + [a])
  }

  lemma ThenPlays(t: Trace, a: Action, pid: nat)
    requires Protocol(t) && Enabled(Last(t), a)
    ensures Protocol(Then(t, a)) && Last(Then(t, a)) == Step(Last(t), a) && Extends(t, Then(t, a))
    ensures Own(Then(t, a).actions, pid) == Own(t.actions, pid) + if ByOther(a, pid) then [] else [a]
  {
    hide Step, Enabled;
    PlaysOn(t.worlds, t.actions, a);
    OwnAppend(t.actions, a, pid);
  }

  /** The enabled ones among `others` happen, in order. */
  function Moved(t: Trace, others: seq<Action>, pid: nat): Trace
    requires Protocol(t)
    ensures Protocol(Moved(t, others, pid))
    decreases |others|
  {
    if others == [] then t
    else
      var before, a := Moved(t, others[..|others| - 1], pid), others[|others| - 1];
      if Enabled(Last(before), a) && ByOther(a, pid) then
        ThenPlays(before, a, pid);
        Then(before, a)
      else before
  }

  /** What the process can rely on while it waits: the moves of the others are the protocol's,
      and they leave its place, its lock and, if it has the lock, the file as they were. */
  lemma {:induction false} MovedKeeps(t: Trace, others: seq<Action>, pid: nat)
    requires Protocol(t) && Inv(Last(t))
    ensures var t' := Moved(t, others, pid);
      && Extends(t, t') && Own(t'.actions, pid) == Own(t.actions, pid)
      && var w, w' := Last(t), Last(t');
         && Inv(w')
         && (pid in w'.procs <==> pid in w.procs)
         && (pid in w.procs ==> w'.procs[pid] == w.procs[pid])
         && (w'.lock == Some(pid) <==> w.lock == Some(pid))
         && (w.lock == Some(pid) ==> w'.disk == w.disk)
    decreases |others|
  {
    hide Inv, Step, Enabled, Protocol;
    if others != [] {
      MovedKeeps(t, others[..|others| - 1], pid);
      var before, a := Moved(t, others[..|others| - 1], pid), others[|others| - 1];
      if Enabled(Last(before), a) && ByOther(a, pid) {
        ThenPlays(before, a, pid);
        InvStep(Last(before), a);
        OtherStep(Last(before), a, pid);
      }
    }
  }

  lemma OtherStep(w: World, a: Action, pid: nat)
    requires Inv(w) && Enabled(w, a) && ByOther(a, pid)
    ensures var w' := Step(w, a);
      && (pid in w'.procs <==> pid in w.procs)
      && (pid in w.procs ==> w'.procs[pid] == w.procs[pid])
      && (w'.lock == Some(pid) <==> w.lock == Some(pid))
      && (w.lock == Some(pid) ==> w'.disk == w.disk)
  {
    hide IdsFresh, StoredUsable;
  }

  /** The calls of one `ensureFresh`, and what it returns for them: nothing at all when the file
      is missing or fresh; a lock that is not granted; a second look under the lock that
      finds the same; a refresh that fails or cannot be used; or a refresh and its save. */
  predicate Course(took: seq<Action>, pid: nat, result: Freshness) {
    || (took == [] && !result.Failed?)
    || (took == [AuthProtocol.EnsureFresh(pid), LockTimesOut(pid)] && result.Failed?)
    || (|took| >= 3 && took[..3] == [AuthProtocol.EnsureFresh(pid), Lock(pid), RereadDone(pid)] && Asked(took[3..], pid, result))
  }

  predicate Asked(took: seq<Action>, pid: nat, result: Freshness) {
    || (took == [] && !result.Failed?)
    || RefreshCourse(took, pid, result)
  }

  predicate RefreshCourse(took: seq<Action>, pid: nat, result: Freshness) {
    && 1 <= |took| <= 2 && took[0].RefreshAnswered? && took[0].pid == pid
    && var answer := took[0].answer;
       if Success(answer) && answer.usable then
         && |took| == 2 && took[1].SaveDone? && took[1].pid == pid
         && (result.Fresh? <==> took[1].result.Saved?) && !result.NotLoggedIn?
       else |took| == 1 && result == if answer.Rejected? then NotLoggedIn else Failed
  }

  /** What the process was told, call by call from the reply `start` on, is what it acted on; a
      success counts as a rejection when the provider no longer takes the token. */
  predicate Told(took: seq<Action>, replies: nat -> Reply, start: nat) {
    && 1 <= |took| && took[0].RefreshAnswered?
    && (took[0].answer == replies(start).answer || (Success(replies(start).answer) && took[0].answer == Rejected))
    && (|took| == 2 ==> took[1].SaveDone? && took[1].result == replies(start + 1).save)
  }

  lemma {:induction false} OwnHas(t: Trace, t': Trace, pid: nat, took: seq<Action>, k: nat)
    requires Extends(t, t') && Own(t'.actions, pid) == Own(t.actions, pid) + took
    requires |t.actions| <= k < |t'.actions| && !ByOther(t'.actions[k], pid)
    ensures t'.actions[k] in took
    decreases |t'.actions|
  {
    var n := |t'.actions| - 1;
    OwnGrows(t.actions, t'.actions[..n], pid);
    var before := Own(t'.actions[..n], pid);
    if k == n {
      assert Own(t'.actions, pid)[|before|] == t'.actions[n];
      assert took[|before| - |Own(t.actions, pid)|] == t'.actions[n];
    } else {
      OwnHas(t, Trace(t'.worlds, t'.actions[..n]), pid, before[|Own(t.actions, pid)|..], k);
      assert before <= Own(t'.actions, pid);
      assert before[|Own(t.actions, pid)|..] <= took;
    }
  }

  lemma {:induction false} OwnGrows(a: seq<Action>, b: seq<Action>, pid: nat)
    requires a <= b
    ensures Own(a, pid) <= Own(b, pid)
    decreases |b|
  {
    if |a| < |b| {
      OwnGrows(a, b[..|b| - 1], pid);
    } else {
      assert a == b;
    }
  }

  /** A process that ran `ensureFresh` has changed the file at most once: by saving the token it
      returns, or by a save that failed only after the rename. A rejected, lost, unusable or
      timed-out refresh, and a save that failed earlier, leave the stored tokens as they were. */
  lemma FailedRefreshStoresNothing(t: Trace, t': Trace, pid: nat, took: seq<Action>, result: Freshness, k: nat)
    requires Protocol(t') && Extends(t, t') && Own(t'.actions, pid) == Own(t.actions, pid) + took && Course(took, pid, result)
    requires |t.actions| <= k < |t'.actions| && !ByOther(t'.actions[k], pid)
    requires t'.worlds[k + 1].disk != t'.worlds[k].disk
    ensures t'.actions[k].SaveDone? && took != [] && t'.actions[k] == took[|took| - 1]
    ensures if result.Fresh? then t'.actions[k].result.Saved? else t'.actions[k].result.FailedAfter?
  {
    hide Step, Enabled, Own;
    OwnHas(t, t', pid, took, k);
    OnlySavesChangeTheFile(t'.worlds[k], t'.actions[k]);
    assert took[3..][0] == took[3] && (|took| > 4 ==> took[3..][1] == took[4]);
    assert forall a | a in took :: a in took[..3] || a in took[3..] by {
      assert took == took[..3] + took[3..];
    }
  }

  lemma WorldsStay(t: Trace, t': Trace)
    requires Protocol(t') && Extends(t, t')
    ensures forall w | w in t.worlds :: w in t'.worlds
    ensures Last(t') in t'.worlds
  {
    hide Enabled, Step;
  }

  class Client {
    const pid: nat
    const replies: nat -> Reply
    var world: World
    var next: nat
    /** Everything that has happened, this process's own actions among it. */
    var trace: Trace
    /** Refresh requests this process has made. */
    ghost var asked: nat

    ghost predicate Valid()
      reads this
    {
      && Protocol(trace) && Last(trace) == world
      && Inv(world) && (world.lock == Some(pid) ==> pid in world.procs && Holds(world.procs[pid]))
    }

    ghost predicate Out()
      reads this
    {
      Valid() && pid !in world.procs
    }

    ghost predicate In(pc: Pc)
      reads this
    {
      Valid() && pid in world.procs && world.procs[pid] == pc
    }

    constructor (pid: nat, replies: nat -> Reply, trace: Trace)
      requires Protocol(trace) && Inv(Last(trace)) && pid !in Last(trace).procs && Last(trace).lock != Some(pid)
      ensures Out() && this.trace == trace && this.pid == pid
    {
      this.pid, this.replies, this.trace, this.world, this.next, this.asked := pid, replies, trace, Last(trace), 0, 0;
    }

    /** What this process itself has done so far. */
    ghost function Done(): seq<Action>
      reads this
    {
      Own(trace.actions, pid)
    }

    /** The next system call: others have moved on meanwhile. */
    method Await() returns (r: Reply)
      requires Valid()
      modifies this`world, this`trace, this`next
      ensures Valid() && r == replies(old(next)) && next == old(next) + 1
      ensures Extends(old(trace), trace) && Done() == old(Done())
      ensures pid in world.procs <==> pid in old(world).procs
      ensures pid in world.procs ==> world.procs[pid] == old(world).procs[pid]
      ensures old(world).lock == Some(pid) ==> world.disk == old(world).disk && world.lock == Some(pid)
    {
      hide Inv, Protocol;
      r := replies(next);
      next := next + 1;
      MovedKeeps(trace, r.others, pid);
      trace := Moved(trace, r.others, pid);
      world := Last(trace);
    }

    /** This process takes a step of the protocol. */
    method Act(a: Action)
      requires Valid() && Enabled(world, a) && !ByOther(a, pid) && !a.Dies?
      modifies this`world, this`trace
      ensures Valid() && world == Step(old(world), a)
      ensures Extends(old(trace), trace) && Done() == old(Done()) + [a]
    {
      InvStep(world, a);
      ThenPlays(trace, a, pid);
      trace := Then(trace, a);
      world := Last(trace);
    }

    /** `acquireLock` for a refresh: poll until the lock is free or the context is done. `seen`
        are the worlds the polls found: the lock is taken as soon as one of them has it free. */
    method AcquireLock(polls: nat) returns (ok: bool, ghost seen: seq<World>)
      requires In(WantLock(RefreshOp))
      modifies this`world, this`trace, this`next
      ensures next == old(next) + |seen| && (forall w | w in seen :: w in trace.worlds)
      ensures if ok then 0 < |seen| <= polls && seen[|seen| - 1].lock.None? else |seen| == polls
      ensures forall k | 0 <= k < (if ok then |seen| - 1 else |seen|) :: seen[k].lock.Some?
      ensures if ok then In(Reread) && world.lock == Some(pid) else Out()
      ensures Extends(old(trace), trace) && Done() == old(Done()) + [if ok then Lock(pid) else LockTimesOut(pid)]
    {
      hide Inv, Protocol;
      var left := polls;
      seen := [];
      while left > 0
        invariant In(WantLock(RefreshOp)) && Extends(old(trace), trace) && Done() == old(Done())
        invariant |seen| == polls - left && next == old(next) + |seen|
        invariant forall w | w in seen :: w in trace.worlds && w.lock.Some?
      {
        ghost var before := trace;
        var r := Await();
        seen := seen + [world];
        WorldsStay(before, trace);
        if world.lock.None? {
          before := trace;
          Act(Lock(pid));
          WorldsStay(before, trace);
          return true, seen;
        }
        left := left - 1;
      }
      ghost var before := trace;
      Act(LockTimesOut(pid));
      WorldsStay(before, trace);
      ok := false;
    }

    /** The first look, without the lock: a token that will not do, and the call that follows. */
    method LookUnlocked() returns (stored: Option<Token>, expired: bool)
      requires Out()
      modifies this`world, this`trace, this`next
      ensures Extends(old(trace), trace) && stored == world.disk && (expired ==> stored.Some?) && next == old(next) + 1
      ensures Done() == old(Done()) + if expired then [AuthProtocol.EnsureFresh(pid)] else []
      ensures if expired then In(WantLock(RefreshOp)) else Out()
      ensures expired <==> stored.Some? && world.now > stored.value.expiresAt - 30
    {
      hide Inv, Protocol, Own;
      var r := Await();
      stored := world.disk;
      expired := stored.Some? && Expired(stored.value, world.now);
      if expired {
        Act(AuthProtocol.EnsureFresh(pid));
      }
    }

    /** The second look, under the lock, which is kept only for an expired token. */
    method LookLocked() returns (stored: Option<Token>, expired: bool)
      requires In(Reread) && world.lock == Some(pid)
      modifies this`world, this`trace, this`next
      ensures Extends(old(trace), trace) && stored == world.disk && (expired ==> stored.Some?)
      ensures Done() == old(Done()) + [RereadDone(pid)]
      ensures if expired then In(Present(stored.value)) && world.lock == Some(pid) else Out()
      ensures expired <==> stored.Some? && world.now > stored.value.expiresAt - 30
    {
      hide Inv, Protocol, Own;
      var r := Await();
      stored := world.disk;
      expired := stored.Some? && Expired(stored.value, world.now);
      Act(RereadDone(pid));
    }

    /** `ensureFresh`, as a play of the protocol: others act in between, and this process's own
        actions are one of the courses above. A token it returns is the one stored at that
        moment, and it is not expired or was issued by the provider in this very call, which
        asks at most once. Every outcome leaves the process without the lock. */
    method EnsureFresh(polls: nat) returns (result: Freshness)
      requires Out()
      modifies this
      ensures Out() && Extends(old(trace), trace)
      ensures old(Done()) <= Done() && Course(Done()[|old(Done())|..], pid, result)
      ensures result.Fresh? ==> world.disk == Some(result.token)
      ensures asked <= old(asked) + 1
      ensures asked > old(asked) ==>
        var took := Done()[|old(Done())|..]; |took| > 3 && next >= |took| - 3 && Told(took[3..], replies, next - (|took| - 3))
      ensures asked == old(asked) && !result.Failed? ==> result == if world.disk.None? then NotLoggedIn else Fresh(world.disk.value)
      ensures Done() == old(Done()) + [AuthProtocol.EnsureFresh(pid), LockTimesOut(pid)] ==> next == old(next) + 1 + polls
      ensures result.Fresh? && asked == old(asked) ==> world.now <= result.token.expiresAt - 30
    {
      hide Valid, Done, Expired, RefreshCourse, Told;
      ghost var before := Done();
      var stored, expired := LookUnlocked();
      if !expired {
        return if stored.None? then NotLoggedIn else Fresh(stored.value);
      }
      var locked, _ := AcquireLock(polls);
      if !locked {
        assert Done() == before + [AuthProtocol.EnsureFresh(pid), LockTimesOut(pid)];
        return Failed;
      }
      stored, expired := LookLocked();
      assert Done() == before + [AuthProtocol.EnsureFresh(pid), Lock(pid), RereadDone(pid)];
      if !expired {
        return if stored.None? then NotLoggedIn else Fresh(stored.value);
      }
      ghost var sofar := Done();
      result := RefreshStored(stored.value);
      assert Done()[|before|..][..3] == sofar[|before|..];
      assert Done()[|before|..][3..] == Done()[|sofar|..] && |Done()[|before|..]| == |Done()| - |before|;
    }

    /** The request to the provider, which succeeds only with a token still good there. If its
        answer can be used, `t` now holds the token to save. */
    method Ask(t: TokenFile) returns (answer: Answer, ok: bool)
      requires In(Present(t.Value())) && world.lock == Some(pid)
      modifies this`world, this`trace, this`next, this`asked, t
      ensures Extends(old(trace), trace) && Done() == old(Done()) + [RefreshAnswered(pid, answer)]
      ensures ok == (Success(answer) && answer.usable) && asked == old(asked) + 1
      ensures var reply := replies(old(next)).answer;
        answer == reply || (Success(reply) && answer == Rejected && old(t.rt) in world.replaced + world.revoked)
      ensures next == old(next) + 1
      ensures if ok then In(Answered(old(t.Value()), t.Value())) && world.lock == Some(pid) else Out()
    {
      hide Inv, Protocol, Own;
      var r := Await();
      answer := r.answer;
      if Success(answer) && t.rt in world.replaced + world.revoked {
        answer := Rejected;
      }
      var refreshToken := if answer.Rotated? then Some(world.issued) else None;
      var version := world.versions;
      Act(RefreshAnswered(pid, answer));
      asked := asked + 1;
      if !Success(answer) {
        return answer, false;
      }
      ok := t.Apply(refreshToken, if answer.usable then Some(answer.expiresAt) else None, version);
    }

    /** Under the lock with an expired token: ask the provider, apply its answer, save. A
        failed refresh makes no save, and a save that fails is not reported as fresh. */
    method RefreshStored(stored: Token) returns (result: Freshness)
      requires In(Present(stored)) && world.lock == Some(pid)
      modifies this
      ensures Out() && Extends(old(trace), trace)
      ensures old(Done()) <= Done() && RefreshCourse(Done()[|old(Done())|..], pid, result)
      ensures result.Fresh? ==> world.disk == Some(result.token)
      ensures asked == old(asked) + 1
      ensures next == old(next) + |Done()| - |old(Done())| && next > old(next)
      ensures Told(Done()[|old(Done())|..], replies, old(next))
    {
      hide Valid, Done;
      ghost var before := Done();
      var t := new TokenFile(stored);
      var answer, ok := Ask(t);
      if !ok {
        assert Done()[|before|..] == [RefreshAnswered(pid, answer)];
        return if answer.Rejected? then NotLoggedIn else Failed;
      }
      var saved := Save(stored, t);
      assert Done()[|before|..] == [RefreshAnswered(pid, answer), SaveDone(pid, saved)];
      result := if saved.Saved? then Fresh(t.Value()) else Failed;
    }

    /** `saveTokensUnlocked` under the lock, and the release. */
    method Save(ghost stored: Token, t: TokenFile) returns (saved: SaveResult)
      requires In(Answered(stored, t.Value())) && world.lock == Some(pid)
      modifies this`world, this`trace, this`next
      ensures Out() && Extends(old(trace), trace) && Done() == old(Done()) + [SaveDone(pid, saved)]
      ensures saved == replies(old(next)).save && next == old(next) + 1
      ensures saved.Saved? ==> world.disk == Some(t.Value())
    {
      hide Inv, Protocol, Own;
      var r := Await();
      saved := r.save;
      Act(SaveDone(pid, saved));
    }
  }
}
