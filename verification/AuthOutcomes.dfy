/** What logging in, logging out and refreshing leave in the token file. */
module AuthOutcomes {
  import opened Wrappers
  import opened AuthProtocol
  import opened AuthTheorems

  // ---- What one action stores ----

  /** A save that gets as far as its rename. */
  predicate Stores(a: Action) {
    a.SaveDone? && a.result != FailedBefore
  }

  predicate Removes(a: Action) {
    a.DeleteDone? && a.ok
  }

  lemma {:induction false} FileStays(ws: seq<World>, actions: seq<Action>, i: nat, j: nat)
    requires History(ws, actions) && i <= j < |ws|
    requires forall k | i <= k < j :: !Stores(actions[k]) && !Removes(actions[k])
    ensures ws[j].disk == ws[i].disk
  {
    hide Step, Enabled, Init;
    if i < j {
      FileStays(ws, actions, i, j - 1);
      if ws[j].disk != ws[j - 1].disk {
        OnlySavesChangeTheFile(ws[j - 1], actions[j - 1]);
      }
    }
  }

  /** A logout whose removal succeeded leaves no tokens, and none are stored until a login
      saves: no refresh brings them back. One whose removal failed leaves the file alone. */
  lemma LogoutRemoves(ws: seq<World>, actions: seq<Action>, i: nat, j: nat)
    requires History(ws, actions) && i < j < |ws| && actions[i].DeleteDone?
    requires forall k | i < k < j :: !SavesLogin(ws[k], actions[k])
    ensures actions[i].ok ==> ws[j].disk == None
    ensures !actions[i].ok ==> ws[i + 1].disk == ws[i].disk
  {
    if actions[i].ok {
      LoggedOutUntilLogin(ws, actions, i + 1, j);
    }
  }

  /** A login's save that reports success, or an error after the rename, leaves the granted
      token in the file, until another save is made or a removal succeeds. */
  lemma LoginIsStored(ws: seq<World>, actions: seq<Action>, i: nat, j: nat)
    requires History(ws, actions) && i < j < |ws| && SavesLogin(ws[i], actions[i])
    requires forall k | i < k < j :: !Stores(actions[k]) && !Removes(actions[k])
    ensures ws[j].disk == if actions[i].result == FailedBefore then ws[i].disk else Some(ws[i].procs[actions[i].pid].granted)
  {
    FileStays(ws, actions, i + 1, j);
  }

  /** The same for the save of a refresh. */
  lemma RefreshIsStored(ws: seq<World>, actions: seq<Action>, i: nat, j: nat)
    requires History(ws, actions) && i < j < |ws| && actions[i].SaveDone? && ws[i].procs[actions[i].pid].Answered?
    requires forall k | i < k < j :: !Stores(actions[k]) && !Removes(actions[k])
    ensures ws[j].disk == Some(if actions[i].result == FailedBefore then ws[i].procs[actions[i].pid].stored else ws[i].procs[actions[i].pid].refreshed)
  {
    FileStays(ws, actions, i + 1, j);
    HistoryKeeps(ws, actions, i, 0);
  }

  /** Nobody holds the refresh token `rt`: not the file, no process, and it was not replaced. */
  predicate Unused(w: World, rt: nat) {
    && (w.disk.Some? ==> w.disk.value.rt != rt) && rt !in w.replaced
    && forall p | p in w.procs && Pending(w, p) :: PendingToken(w, p).rt != rt
  }

  lemma NextIsUnused(w: World)
    requires Inv(w)
    ensures Unused(w, w.issued)
  {
  }

  /** What a usable answer leaves to be saved: the provider's expiry, and its new refresh token if
      it sent one, which is then new to everybody, else the old one. */
  lemma AnswerIsApplied(w: World, p: nat, answer: Answer)
    requires Inv(w) && Enabled(w, RefreshAnswered(p, answer)) && Success(answer) && answer.usable
    ensures var w', stored := Step(w, RefreshAnswered(p, answer)), w.procs[p].stored;
      && w'.disk == w.disk == Some(stored) && w'.lock == Some(p)
      && p in w'.procs && w'.procs[p].Answered? && w'.procs[p].stored == stored
      && var t := w'.procs[p].refreshed;
         && t.expiresAt == answer.expiresAt && t.version != stored.version
         && if answer.Rotated? then Unused(w, t.rt) && w'.replaced == w.replaced + {stored.rt}
            else t.rt == stored.rt && w'.replaced == w.replaced
  {
    NextIsUnused(w);
  }

  // ---- Who returns, and what the looks find ----

  /** A token is refreshed when less than 30 seconds are left, by both looks. */
  lemma LooksDecide(w: World, p: nat)
    requires Inv(w)
    ensures p !in w.procs ==>
      Step(w, EnsureFresh(p)) == if w.disk.Some? && w.now > w.disk.value.expiresAt - 30
        then w.(procs := w.procs[p := WantLock(RefreshOp)]) else w
    ensures p in w.procs && w.procs[p].Reread? ==>
      Step(w, RereadDone(p)) == if w.disk.Some? && w.now > w.disk.value.expiresAt - 30
        then w.(procs := w.procs[p := Present(w.disk.value)]) else w.(procs := w.procs - {p}, lock := None)
  {
  }

  /** Giving up the lock, a refused or unusable answer, a save, a removal and a death all end the
      call, without the lock; what others hold stays. */
  lemma ReturnsFree(w: World, a: Action)
    requires Inv(w) && Enabled(w, a)
    requires a.LockTimesOut? || a.SaveDone? || a.DeleteDone? || a.Dies? || (a.RefreshAnswered? && !(Success(a.answer) && a.answer.usable))
    ensures var w' := Step(w, a);
      && w'.procs == w.procs - {a.pid} && w'.lock == (if w.lock == Some(a.pid) then None else w.lock)
  {
    hide IdsFresh, StoredUsable;
  }

  // ---- Whole calls, with nobody in the way ----

  predicate Idle(w: World, p: nat) {
    p !in w.procs && w.lock.None?
  }

  /** A logout call: at its end the file is gone. */
  lemma LogoutCall(ws: seq<World>, actions: seq<Action>, p: nat) returns (ws': seq<World>, actions': seq<Action>)
    requires History(ws, actions) && Idle(ws[|actions|], p)
    ensures History(ws', actions') && ws'[|actions'|] == ws[|actions|].(disk := None)
  {
    hide Init;
    ws', actions' := Go(ws, actions, LogoutCalled(p));
    ws', actions' := Go(ws', actions', Lock(p));
    ws', actions' := Go(ws', actions', DeleteDone(p, true));
    assert ws'[|actions'|].procs == ws[|actions|].procs;
  }

  /** A login call: at its end the file holds what the provider granted. */
  lemma LoginCall(ws: seq<World>, actions: seq<Action>, p: nat, expiresAt: int) returns (ws': seq<World>, actions': seq<Action>)
    requires History(ws, actions) && Idle(ws[|actions|], p)
    ensures History(ws', actions') && Idle(ws'[|actions'|], p)
    ensures var w, w' := ws[|actions|], ws'[|actions'|];
      && w'.procs == w.procs && w'.replaced == w.replaced && w'.disk.Some?
      && w'.disk.value.expiresAt == expiresAt && Unused(w, w'.disk.value.rt)
  {
    hide Init, StoredUsable, CountsOk, StaleOnlyAfterLoss;
    HistoryKeeps(ws, actions, |actions|, 0);
    NextIsUnused(ws[|actions|]);
    ws', actions' := Go(ws, actions, LoginGranted(p, expiresAt));
    ws', actions' := Go(ws', actions', Lock(p));
    ws', actions' := Go(ws', actions', SaveDone(p, Saved));
    assert ws'[|actions'|].procs == ws[|actions|].procs;
  }

  /** A call that finds the token about to expire gets as far as presenting it. */
  lemma ReachesProvider(ws: seq<World>, actions: seq<Action>, p: nat) returns (ws': seq<World>, actions': seq<Action>)
    requires History(ws, actions) && Idle(ws[|actions|], p)
    requires var w := ws[|actions|]; w.disk.Some? && w.now > w.disk.value.expiresAt - 30
    ensures History(ws', actions')
    ensures var w := ws[|actions|]; ws'[|actions'|] == w.(procs := w.procs[p := Present(w.disk.value)], lock := Some(p))
  {
    hide Init;
    var w := ws[|actions|];
    ws', actions' := Go(ws, actions, EnsureFresh(p));
    ws', actions' := Go(ws', actions', Lock(p));
    ws', actions' := Go(ws', actions', RereadDone(p));
    assert ws'[|actions'|].procs == w.procs[p := Present(w.disk.value)];
  }

  /** A refresh call that finds the token about to expire and good at the provider: at its end
      the file holds the answer's expiry, with a refresh token the provider still takes. */
  lemma RefreshCall(ws: seq<World>, actions: seq<Action>, p: nat, answer: Answer) returns (ws': seq<World>, actions': seq<Action>)
    requires History(ws, actions) && Idle(ws[|actions|], p) && Success(answer) && answer.usable
    requires var w := ws[|actions|];
      w.disk.Some? && w.now > w.disk.value.expiresAt - 30 && w.disk.value.rt !in w.replaced + w.revoked
    ensures History(ws', actions') && Idle(ws'[|actions'|], p)
    ensures var w, w' := ws[|actions|], ws'[|actions'|];
      && w'.procs == w.procs && w'.disk.Some? && w'.disk.value.expiresAt == answer.expiresAt
      && w'.disk.value.rt !in w'.replaced
      && if answer.Rotated? then Unused(w, w'.disk.value.rt) && w.disk.value.rt in w'.replaced else w'.disk.value.rt == w.disk.value.rt
  {
    hide Init, StoredUsable, CountsOk, StaleOnlyAfterLoss;
    HistoryKeeps(ws, actions, |actions|, 0);
    NextIsUnused(ws[|actions|]);
    ws', actions' := ReachesProvider(ws, actions, p);
    ws', actions' := Go(ws', actions', RefreshAnswered(p, answer));
    ws', actions' := Go(ws', actions', SaveDone(p, Saved));
    assert ws'[|actions'|].procs == ws[|actions|].procs;
  }
}
