/** Over every interleaving of refreshes, logins and logouts. */
module AuthTheorems {
  import opened Wrappers
  import opened AuthProtocol

  predicate Holds(pc: Pc) {
    !pc.WantLock?
  }

  /** Only the lock holder is past `WantLock`, and what it has read is still stored. */
  predicate MutualExclusion(w: World) {
    && (forall p | p in w.procs && Holds(w.procs[p]) :: w.lock == Some(p))
    && (forall p | p in w.procs && w.procs[p].Present? :: w.disk == Some(w.procs[p].stored))
    && (forall p | p in w.procs && w.procs[p].Answered? :: w.disk == Some(w.procs[p].stored))
  }

  /** A token fresh from the provider that has not been stored yet. */
  predicate Pending(w: World, p: nat) {
    p in w.procs && (w.procs[p].SaveLogin? || w.procs[p].Answered? || (w.procs[p].WantLock? && w.procs[p].op.LoginOp?))
  }

  function PendingToken(w: World, p: nat): Token
    requires Pending(w, p)
  {
    var pc := w.procs[p];
    if pc.SaveLogin? then pc.granted else if pc.Answered? then pc.refreshed else pc.op.granted
  }

  predicate IdsFresh(w: World) {
    && (forall r | r in w.replaced :: r < w.issued)
    && (w.disk.Some? ==> w.disk.value.rt < w.issued && w.disk.value.version < w.versions)
    && (forall p | p in w.procs && Pending(w, p) ::
          var t := PendingToken(w, p);
          t.rt < w.issued && t.version < w.versions && t.rt !in w.replaced
          && (w.disk.Some? ==> t.version != w.disk.value.version)
          && (w.disk.Some? && t.rt == w.disk.value.rt ==> w.procs[p].Answered?))
    && (forall p, q | p in w.procs && q in w.procs && Pending(w, p) && Pending(w, q) && p != q ::
          PendingToken(w, p).rt != PendingToken(w, q).rt && PendingToken(w, p).version != PendingToken(w, q).version)
  }

  /** The stored refresh token is replaced only while its refresh is being saved, or after
      that refresh was lost. */
  predicate StoredUsable(w: World) {
    w.disk.Some? && w.disk.value.rt in w.replaced ==>
      w.disk.value.rt in w.lost || (w.lock.Some? && w.lock.value in w.procs && w.procs[w.lock.value].Answered?)
  }

  predicate Inv(w: World) {
    MutualExclusion(w) && IdsFresh(w) && StoredUsable(w)
  }

  /** How the successful refreshes of one stored version relate to the ones that were lost. */
  predicate CountsOk(w: World, v: nat) {
    var s, f := Successes(w.log, v), Faults(w.log, v);
    && f <= s <= f + 1
    && (v >= w.versions ==> s == 0)
    && (forall p | p in w.procs && Pending(w, p) && PendingToken(w, p).version == v :: s == 0)
    && (w.disk.Some? && w.disk.value.version == v ==>
          (s == f + 1 <==> w.lock.Some? && w.lock.value in w.procs && w.procs[w.lock.value].Answered?))
  }

  predicate StaleOnlyAfterLoss(w: World) {
    && (forall e | e in w.log && e.Presented? && e.stale :: e.token.rt in w.lost)
    && (w.lost != {} ==> exists e | e in w.log :: e.Fault?)
  }

  lemma StepKeepsExclusion(w: World, a: Action)
    requires MutualExclusion(w) && Enabled(w, a)
    ensures MutualExclusion(Step(w, a))
  {
  }

  /** Processes leave, wait or move without a new token. */
  lemma FewerPending(w: World, w': World)
    requires IdsFresh(w) && w'.replaced == w.replaced && w'.issued == w.issued && w'.versions == w.versions
    requires w'.disk == w.disk || w'.disk == None
    requires forall p | p in w'.procs && Pending(w', p) ::
      Pending(w, p) && PendingToken(w', p) == PendingToken(w, p) && (w'.procs[p].Answered? <==> w.procs[p].Answered?)
    ensures IdsFresh(w')
  {
  }

  lemma LoginKeepsIds(w: World, p: nat, expiresAt: int)
    requires Inv(w) && p !in w.procs
    ensures IdsFresh(Step(w, LoginGranted(p, expiresAt)))
  {
    var w' := Step(w, LoginGranted(p, expiresAt));
    forall q | q in w'.procs && Pending(w', q) && q != p
      ensures Pending(w, q) && PendingToken(w', q) == PendingToken(w, q)
    {
    }
  }

  lemma AnswerKeepsIds(w: World, p: nat, answer: Answer)
    requires Inv(w) && Enabled(w, RefreshAnswered(p, answer)) && Success(answer)
    ensures IdsFresh(Step(w, RefreshAnswered(p, answer)))
  {
    var w' := Step(w, RefreshAnswered(p, answer));
    forall q | q in w'.procs && Pending(w', q) && q != p
      ensures Pending(w, q) && PendingToken(w', q) == PendingToken(w, q) && !w.procs[q].Answered?
    {
    }
  }

  lemma SaveKeepsIds(w: World, p: nat, result: SaveResult)
    requires Inv(w) && Enabled(w, SaveDone(p, result))
    ensures IdsFresh(Step(w, SaveDone(p, result)))
  {
    var w' := Step(w, SaveDone(p, result));
    assert Pending(w, p);
    forall q | q in w'.procs && Pending(w', q)
      ensures q != p && Pending(w, q) && PendingToken(w', q) == PendingToken(w, q) && !w.procs[q].Answered?
    {
    }
  }

  lemma StepKeepsIds(w: World, a: Action)
    requires Inv(w) && Enabled(w, a)
    ensures IdsFresh(Step(w, a))
  {
    match a
    case LoginGranted(p, expiresAt) => LoginKeepsIds(w, p, expiresAt);
    case RefreshAnswered(p, answer) =>
      if Success(answer) {
        AnswerKeepsIds(w, p, answer);
      } else {
        FewerPending(w, Step(w, a));
      }
    case SaveDone(p, result) => SaveKeepsIds(w, p, result);
    case _ => FewerPending(w, Step(w, a));
  }

  lemma StepKeepsUsable(w: World, a: Action)
    requires Inv(w) && Enabled(w, a)
    ensures StoredUsable(Step(w, a))
  {
  }

  lemma LogAppend(log: seq<Entry>, e: Entry, v: nat)
    ensures Successes(log + [e], v) == Successes(log, v) + if e.Presented? && e.success && e.token.version == v then 1 else 0
    ensures Faults(log + [e], v) == Faults(log, v) + if e.Fault? && e.version == v then 1 else 0
  {
    assert (log + [e])[..|log|] == log;
  }

  predicate AnsweredHolder(w: World) {
    w.lock.Some? && w.lock.value in w.procs && w.procs[w.lock.value].Answered?
  }

  /** Where the world stands when the answer to `p`'s refresh comes back. */
  predicate Presenting(w: World, p: nat) {
    && p in w.procs && w.procs[p].Present?
    && w.lock == Some(p) && w.disk == Some(w.procs[p].stored) && w.disk.value.version < w.versions
    && forall q | q in w.procs && Pending(w, q) ::
         PendingToken(w, q).version != w.disk.value.version && PendingToken(w, q).version < w.versions
  }

  lemma HolderPresents(w: World, p: nat)
    requires Inv(w) && p in w.procs && w.procs[p].Present?
    ensures Presenting(w, p)
  {
  }

  lemma FailedAnswerKeepsCounts(w: World, p: nat, answer: Answer, v: nat)
    requires Presenting(w, p) && !Success(answer) && CountsOk(w, v)
    ensures CountsOk(Step(w, RefreshAnswered(p, answer)), v)
  {
    hide Successes, Faults;
    var stored := w.procs[p].stored;
    LogAppend(w.log, Presented(stored, stored.rt in w.replaced, false), v);
  }

  lemma LostAnswerKeepsCounts(w: World, p: nat, answer: Answer, v: nat)
    requires Presenting(w, p) && Enabled(w, RefreshAnswered(p, answer)) && Success(answer) && !answer.usable && CountsOk(w, v)
    ensures CountsOk(Step(w, RefreshAnswered(p, answer)), v)
  {
    hide Successes, Faults;
    var stored := w.procs[p].stored;
    var entry := Presented(stored, stored.rt in w.replaced, true);
    LogAppend(w.log, entry, v);
    LogAppend(w.log + [entry], Fault(stored.version), v);
  }

  lemma UsedAnswerKeepsCounts(w: World, p: nat, answer: Answer, v: nat)
    requires Presenting(w, p) && Enabled(w, RefreshAnswered(p, answer)) && Success(answer) && answer.usable && CountsOk(w, v)
    ensures CountsOk(Step(w, RefreshAnswered(p, answer)), v)
  {
    hide Successes, Faults;
    var stored := w.procs[p].stored;
    var w' := Step(w, RefreshAnswered(p, answer));
    LogAppend(w.log, Presented(stored, stored.rt in w.replaced, true), v);
    forall q | q in w'.procs && Pending(w', q) && q != p
      ensures Pending(w, q) && PendingToken(w', q) == PendingToken(w, q)
    {
    }
  }

  lemma AnswerKeepsCounts(w: World, p: nat, answer: Answer, v: nat)
    requires Inv(w) && Enabled(w, RefreshAnswered(p, answer)) && CountsOk(w, v)
    ensures CountsOk(Step(w, RefreshAnswered(p, answer)), v)
  {
    hide Inv, CountsOk, Step, Presenting;
    HolderPresents(w, p);
    if !Success(answer) {
      FailedAnswerKeepsCounts(w, p, answer, v);
    } else if answer.usable {
      UsedAnswerKeepsCounts(w, p, answer, v);
    } else {
      LostAnswerKeepsCounts(w, p, answer, v);
    }
  }

  lemma SaveKeepsCounts(w: World, p: nat, result: SaveResult, v: nat)
    requires Inv(w) && Enabled(w, SaveDone(p, result)) && CountsOk(w, v)
    ensures CountsOk(Step(w, SaveDone(p, result)), v)
  {
    var pc, w' := w.procs[p], Step(w, SaveDone(p, result));
    assert Pending(w, p);
    if pc.Answered? {
      LogAppend(w.log, Fault(pc.stored.version), v);
    }
    forall q | q in w'.procs && Pending(w', q)
      ensures q != p && Pending(w, q) && PendingToken(w', q) == PendingToken(w, q)
    {
    }
  }

  lemma DeathKeepsCounts(w: World, p: nat, v: nat)
    requires Inv(w) && p in w.procs && CountsOk(w, v)
    ensures CountsOk(Step(w, Dies(p)), v)
  {
    hide Successes, Faults;
    if w.procs[p].Answered? {
      LogAppend(w.log, Fault(w.procs[p].stored.version), v);
    }
    var w' := Step(w, Dies(p));
    forall q | q in w'.procs && Pending(w', q)
      ensures q != p && Pending(w, q) && PendingToken(w', q) == PendingToken(w, q)
    {
    }
  }

  lemma StepKeepsCounts(w: World, a: Action, v: nat)
    requires Inv(w) && Enabled(w, a) && CountsOk(w, v)
    ensures CountsOk(Step(w, a), v)
  {
    hide Inv, CountsOk, Step;
    match a
    case RefreshAnswered(p, answer) => AnswerKeepsCounts(w, p, answer, v);
    case SaveDone(p, result) => SaveKeepsCounts(w, p, result, v);
    case Dies(p) => DeathKeepsCounts(w, p, v);
    case _ => QuietKeepsCounts(w, a, v);
  }

  lemma QuietKeepsCounts(w: World, a: Action, v: nat)
    requires Inv(w) && Enabled(w, a) && CountsOk(w, v) && !a.RefreshAnswered? && !a.SaveDone? && !a.Dies?
    ensures CountsOk(Step(w, a), v)
  {
    hide Successes, Faults;
    var w' := Step(w, a);
    forall q | q in w'.procs && Pending(w', q) && PendingToken(w', q).version == v
      ensures Successes(w'.log, v) == 0
    {
      if !(a.LoginGranted? && q == a.pid) {
        assert Pending(w, q) && PendingToken(w', q) == PendingToken(w, q);
      }
    }
  }

  lemma StepKeepsStale(w: World, a: Action)
    requires Inv(w) && Enabled(w, a) && StaleOnlyAfterLoss(w)
    ensures StaleOnlyAfterLoss(Step(w, a))
  {
    hide IdsFresh;
    var w' := Step(w, a);
    if a.RefreshAnswered? {
      assert !AnsweredHolder(w);
    }
    if w.lost != {} {
      var e :| e in w.log && e.Fault?;
      assert e in w'.log;
    } else if w'.lost != {} {
      assert w'.log[|w'.log| - 1].Fault?;
    }
  }

  // ---- Over whole runs ----

  predicate Init(w: World) {
    && w.lock.None? && w.procs == map[] && w.replaced == {} && w.lost == {} && w.log == []
    && (w.disk.Some? ==> w.disk.value.rt < w.issued && w.disk.value.version < w.versions)
  }

  /** The worlds a sequence of enabled actions goes through. */
  predicate Plays(ws: seq<World>, actions: seq<Action>) {
    && |ws| == |actions| + 1
    && forall i | 0 <= i < |actions| :: Enabled(ws[i], actions[i]) && ws[i + 1] == Step(ws[i], actions[i])
  }

  predicate History(ws: seq<World>, actions: seq<Action>) {
    Plays(ws, actions) && Init(ws[0])
  }

  lemma {:induction false} HistoryKeeps(ws: seq<World>, actions: seq<Action>, i: nat, v: nat)
    requires History(ws, actions) && i < |ws|
    ensures Inv(ws[i]) && CountsOk(ws[i], v) && StaleOnlyAfterLoss(ws[i])
  {
    if i > 0 {
      hide Step, Enabled, Inv, CountsOk, StaleOnlyAfterLoss;
      HistoryKeeps(ws, actions, i - 1, v);
      InvStep(ws[i - 1], actions[i - 1]);
      StepKeepsCounts(ws[i - 1], actions[i - 1], v);
      StepKeepsStale(ws[i - 1], actions[i - 1]);
    }
  }

  lemma InvStep(w: World, a: Action)
    requires Inv(w) && Enabled(w, a)
    ensures Inv(Step(w, a))
  {
    hide Step, Enabled, MutualExclusion, IdsFresh, StoredUsable;
    StepKeepsExclusion(w, a);
    StepKeepsIds(w, a);
    StepKeepsUsable(w, a);
  }

  /** The provider has replaced the refresh token `rt`, and with this action its replacement is
      gone: the answer is lost or unusable, or the process that has it dies or fails to save. */
  predicate LosesRotation(w: World, a: Action, rt: nat)
    requires Enabled(w, a)
  {
    match a
    case RefreshAnswered(p, Rotated(_, usable)) => !usable && w.procs[p].stored.rt == rt
    case SaveDone(p, FailedBefore) => DropsRotation(w.procs[p], rt)
    case Dies(p) => DropsRotation(w.procs[p], rt)
    case _ => false
  }

  predicate DropsRotation(pc: Pc, rt: nat) {
    pc.Answered? && pc.stored.rt == rt && pc.refreshed.rt != rt
  }

  /** A process that is about to save a new refresh token knows the old one as replaced. */
  predicate RotationsReplace(w: World) {
    && w.lost <= w.replaced
    && forall p | p in w.procs && w.procs[p].Answered? && w.procs[p].refreshed.rt != w.procs[p].stored.rt ::
         w.procs[p].stored.rt in w.replaced
  }

  lemma StepKeepsRotations(w: World, a: Action)
    requires RotationsReplace(w) && Enabled(w, a)
    ensures RotationsReplace(Step(w, a))
  {
  }

  lemma HolderKeepsItsToken(w: World, p: nat)
    requires Inv(w) && p in w.procs && w.procs[p].Answered?
    ensures w.procs[p].refreshed.rt !in w.replaced
  {
    assert Pending(w, p);
  }

  lemma LostStep(w: World, a: Action, rt: nat)
    requires Inv(w) && RotationsReplace(w) && Enabled(w, a)
    ensures rt in Step(w, a).lost <==> rt in w.lost || LosesRotation(w, a, rt)
  {
    hide Inv;
    if (a.Dies? || a.SaveDone?) && w.procs[a.pid].Answered? {
      HolderKeepsItsToken(w, a.pid);
    }
  }

  lemma {:induction false} LostExactly(ws: seq<World>, actions: seq<Action>, i: nat, rt: nat)
    requires History(ws, actions) && i < |ws|
    ensures RotationsReplace(ws[i])
    ensures rt in ws[i].lost <==> exists j | 0 <= j < i :: LosesRotation(ws[j], actions[j], rt)
  {
    hide Step, Enabled, Inv, CountsOk, StaleOnlyAfterLoss, RotationsReplace, LosesRotation;
    if i == 0 {
      NothingRotated(ws[0]);
    } else {
      LostExactly(ws, actions, i - 1, rt);
      HistoryKeeps(ws, actions, i - 1, 0);
      StepKeepsRotations(ws[i - 1], actions[i - 1]);
      LostStep(ws[i - 1], actions[i - 1], rt);
    }
  }

  lemma NothingRotated(w: World)
    requires Init(w)
    ensures RotationsReplace(w)
  {
  }

  lemma StaleIffLost(w: World, p: nat)
    requires Inv(w) && w.lost <= w.replaced && p in w.procs && w.procs[p].Present?
    ensures w.procs[p].stored.rt in w.replaced <==> w.procs[p].stored.rt in w.lost
  {
    hide IdsFresh;
  }

  /** The refresh that is answered by action `k` presents a replaced refresh token if and only
      if a replacement of that very token was lost before. A stale request never succeeds, and
      in a history without a fault there is none. */
  lemma NoStaleRefresh(ws: seq<World>, actions: seq<Action>, i: nat)
    requires History(ws, actions) && i < |ws|
    ensures forall k | 0 <= k < i && actions[k].RefreshAnswered? ::
      StalePresented(ws, actions, k) <==> exists j | 0 <= j < k :: LosesRotation(ws[j], actions[j], ws[k].procs[actions[k].pid].stored.rt)
    ensures forall e | e in ws[i].log && e.Presented? && e.stale :: !e.success && e.token.rt in ws[i].lost
    ensures (forall e | e in ws[i].log :: !e.Fault?) ==> forall e | e in ws[i].log && e.Presented? :: !e.stale
  {
    hide Step, Inv, CountsOk, LosesRotation, StalePresented, RotationsReplace;
    forall k | 0 <= k < i && actions[k].RefreshAnswered?
      ensures StalePresented(ws, actions, k) <==> exists j | 0 <= j < k :: LosesRotation(ws[j], actions[j], ws[k].procs[actions[k].pid].stored.rt)
    {
      var p := actions[k].pid;
      HistoryKeeps(ws, actions, k, 0);
      LostExactly(ws, actions, k, ws[k].procs[p].stored.rt);
      assert ws[k].lost <= ws[k].replaced by { LostWereReplaced(ws[k]); }
      StaleIffLost(ws[k], p);
      PresentedIsLogged(ws, actions, k);
    }
    HistoryKeeps(ws, actions, i, 0);
    StaleNeverSucceeds(ws, actions, i);
  }

  lemma LostWereReplaced(w: World)
    requires RotationsReplace(w)
    ensures w.lost <= w.replaced
  {
  }

  /** The log entry of the request answered by action `k` says the token was stale. */
  predicate StalePresented(ws: seq<World>, actions: seq<Action>, k: nat)
    requires History(ws, actions) && k < |actions| && actions[k].RefreshAnswered?
  {
    var n := |ws[k].log|;
    n < |ws[k + 1].log| && ws[k + 1].log[n].Presented? && ws[k + 1].log[n].stale
  }

  lemma PresentedIsLogged(ws: seq<World>, actions: seq<Action>, k: nat)
    requires History(ws, actions) && k < |actions| && actions[k].RefreshAnswered?
    ensures StalePresented(ws, actions, k) <==> ws[k].procs[actions[k].pid].stored.rt in ws[k].replaced
  {
  }

  lemma {:induction false} StaleNeverSucceeds(ws: seq<World>, actions: seq<Action>, i: nat)
    requires History(ws, actions) && i < |ws|
    ensures forall e | e in ws[i].log && e.Presented? && e.stale :: !e.success
  {
    if i > 0 {
      StaleNeverSucceeds(ws, actions, i - 1);
    }
  }

  /** Each stored version is refreshed successfully at most once more often than its
      refreshes were lost; without a loss, at most once. */
  lemma RefreshedAtMostOnce(ws: seq<World>, actions: seq<Action>, i: nat, v: nat)
    requires History(ws, actions) && i < |ws|
    ensures Successes(ws[i].log, v) <= 1 + Faults(ws[i].log, v)
  {
    HistoryKeeps(ws, actions, i, v);
  }

  /** The file changes only in a save or a logout: a rejected, failed or unusable refresh, a
      lock timeout or a death leaves the stored tokens as they were. */
  lemma OnlySavesChangeTheFile(w: World, a: Action)
    requires Enabled(w, a) && Step(w, a).disk != w.disk
    ensures (a.SaveDone? && !a.result.FailedBefore?) || (a.DeleteDone? && a.ok)
    ensures a.SaveDone? ==> Step(w, a).disk == Some(if w.procs[a.pid].Answered? then w.procs[a.pid].refreshed else w.procs[a.pid].granted)
    ensures a.DeleteDone? ==> Step(w, a).disk == None
  {
  }

  predicate SavesLogin(w: World, a: Action) {
    a.SaveDone? && a.pid in w.procs && w.procs[a.pid].SaveLogin?
  }

  /** Once the file is gone it stays gone until a login saves, whatever refreshes were
      already past their first read. */
  lemma {:induction false} LoggedOutUntilLogin(ws: seq<World>, actions: seq<Action>, i: nat, j: nat)
    requires History(ws, actions) && i <= j < |ws| && ws[i].disk == None
    requires forall k | i <= k < j :: !SavesLogin(ws[k], actions[k])
    ensures ws[j].disk == None
  {
    if i < j {
      LoggedOutUntilLogin(ws, actions, i, j - 1);
      HistoryKeeps(ws, actions, j - 1, 0);
    }
  }

  /** Only one process at a time is between taking the lock and letting it go, and a refresh
      that is waiting for the provider or about to save still finds the token it presented. */
  lemma LockProtectsStoredToken(ws: seq<World>, actions: seq<Action>, i: nat, p: nat, q: nat)
    requires History(ws, actions) && i < |ws|
    requires p in ws[i].procs && q in ws[i].procs && Holds(ws[i].procs[p]) && Holds(ws[i].procs[q])
    ensures p == q
    ensures ws[i].procs[p].Present? || ws[i].procs[p].Answered? ==> ws[i].disk == Some(ws[i].procs[p].stored)
  {
    HistoryKeeps(ws, actions, i, 0);
  }

  lemma PlaysOn(ws: seq<World>, actions: seq<Action>, a: Action)
    requires Plays(ws, actions) && Enabled(ws[|actions|], a)
    ensures Plays(ws + [Step(ws[|actions|], a)], actions + [a])
  {
    hide Step, Enabled;
    var ws', actions' := ws + [Step(ws[|actions|], a)], actions + [a];
    forall i | 0 <= i < |actions'|
      ensures Enabled(ws'[i], actions'[i]) && ws'[i + 1] == Step(ws'[i], actions'[i])
    {
      if i < |actions| {
        assert ws'[i] == ws[i] && ws'[i + 1] == ws[i + 1];
      }
    }
  }

  lemma Go(ws: seq<World>, actions: seq<Action>, a: Action) returns (ws': seq<World>, actions': seq<Action>)
    requires History(ws, actions) && Enabled(ws[|actions|], a)
    ensures History(ws', actions') && ws'[0] == ws[0] && ws'[|actions'|] == Step(ws[|actions|], a)
  {
    hide Step, Enabled, Init;
    ws', actions' := ws + [Step(ws[|actions|], a)], actions + [a];
    PlaysOn(ws, actions, a);
  }

  /** The exception is real: a rotated answer that is lost leaves the replaced token in the
      file, and the next refresh presents it. */
  lemma LostAnswerGoesStale(t: Token, now: int) returns (ws: seq<World>, actions: seq<Action>)
    requires Expired(t, now)
    ensures History(ws, actions) && ws[0].disk == ws[|actions|].disk == Some(t)
    ensures exists e | e in ws[|actions|].log :: e.Presented? && e.stale && e.token == t
  {
    var start := World(Some(t), None, map[], now, t.rt + 1, t.version + 1, {}, {}, {}, []);
    ws, actions := [start], [];
    ws, actions := Refreshes(ws, actions, t, Rotated(now, false));
    ws, actions := Refreshes(ws, actions, t, Rejected);
    assert Presented(t, true, false) in ws[|actions|].log;
  }

  /** Process 0 finds the stored token expired and presents it, to an answer it cannot use. */
  lemma Refreshes(ws: seq<World>, actions: seq<Action>, t: Token, answer: Answer)
    returns (ws': seq<World>, actions': seq<Action>)
    requires History(ws, actions) && !answer.Unreachable? && (Success(answer) ==> !answer.usable)
    requires var w := ws[|actions|];
      && w.disk == Some(t) && Expired(t, w.now) && w.procs == map[] && w.lock.None?
      && (Success(answer) ==> t.rt !in w.replaced + w.revoked)
    ensures History(ws', actions') && ws'[0] == ws[0]
    ensures var w, w' := ws[|actions|], ws'[|actions'|];
      && w'.disk == w.disk && w'.now == w.now && w'.procs == map[] && w'.lock.None? && w'.revoked == w.revoked
      && w'.replaced == w.replaced + (if answer.Rotated? then {t.rt} else {})
      && w'.log == w.log + [Presented(t, t.rt in w.replaced, Success(answer))] + (if Success(answer) then [Fault(t.version)] else [])
  {
    hide Init;
    ws', actions' := Go(ws, actions, EnsureFresh(0));
    ws', actions' := Go(ws', actions', Lock(0));
    ws', actions' := Go(ws', actions', RereadDone(0));
    ws', actions' := Go(ws', actions', RefreshAnswered(0, answer));
  }
}
