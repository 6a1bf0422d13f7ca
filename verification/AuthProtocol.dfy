/** Any number of processes refreshing, logging in and logging out against one token file,
    one lock and an identity provider that may rotate refresh tokens. */
module AuthProtocol {
  import opened Wrappers

  /** `rt` names the refresh token; `version` tells one stored file from the next. */
  datatype Token = Token(version: nat, rt: nat, expiresAt: int)

  /** Seconds before expiry at which a token counts as expired. */
  const MARGIN := 30

  predicate Expired(t: Token, now: int) {
    now > t.expiresAt - MARGIN
  }

  datatype Op = RefreshOp | LoginOp(granted: Token) | LogoutOp

  /** Where a process is. All but `WantLock` hold the lock. `Answered` keeps the token it
      presented and the one it will save. */
  datatype Pc =
    | WantLock(op: Op)
    | Reread
    | Present(stored: Token)
    | Answered(stored: Token, refreshed: Token)
    | SaveLogin(granted: Token)
    | Deleting

  /** The provider's side of a refresh request. `Rotated` and `Kept` succeeded there;
      when `usable` is false the answer was lost or had no expiry. */
  datatype Answer =
    | Rotated(expiresAt: int, usable: bool)
    | Kept(expiresAt: int, usable: bool)
    | Rejected
    | Unreachable

  /** A save may fail before the rename, or after it: then it reports an error although
      the new file is in place. */
  datatype SaveResult = Saved | FailedBefore | FailedAfter

  datatype Entry =
    | Presented(token: Token, stale: bool, success: bool)
    | Fault(version: nat)

  datatype World = World(
    disk: Option<Token>,
    lock: Option<nat>,
    procs: map<nat, Pc>,
    now: int,
    issued: nat,
    versions: nat,
    replaced: set<nat>,
    revoked: set<nat>,
    lost: set<nat>,
    log: seq<Entry>
  )

  datatype Action =
    | EnsureFresh(pid: nat)
    | LoginGranted(pid: nat, expiresAt: int)
    | LogoutCalled(pid: nat)
    | Lock(pid: nat)
    | LockTimesOut(pid: nat)
    | RereadDone(pid: nat)
    | RefreshAnswered(pid: nat, answer: Answer)
    | SaveDone(pid: nat, result: SaveResult)
    | DeleteDone(pid: nat, ok: bool)
    | Dies(pid: nat)
    | ClockTicks
    | ProviderRevokes(rt: nat)

  predicate Success(a: Answer) {
    a.Rotated? || a.Kept?
  }

  /** A refresh succeeds only with a token that is neither replaced nor revoked. */
  predicate Enabled(w: World, a: Action) {
    match a
    case EnsureFresh(p) => p !in w.procs
    case LoginGranted(p, _) => p !in w.procs
    case LogoutCalled(p) => p !in w.procs
    case Lock(p) => p in w.procs && w.procs[p].WantLock? && w.lock.None?
    case LockTimesOut(p) => p in w.procs && w.procs[p].WantLock?
    case RereadDone(p) => p in w.procs && w.procs[p].Reread?
    case RefreshAnswered(p, answer) =>
      && p in w.procs && w.procs[p].Present?
      && (Success(answer) ==> w.procs[p].stored.rt !in w.replaced + w.revoked)
    case SaveDone(p, _) => p in w.procs && (w.procs[p].Answered? || w.procs[p].SaveLogin?)
    case DeleteDone(p, _) => p in w.procs && w.procs[p].Deleting?
    case Dies(p) => p in w.procs
    case ClockTicks => true
    case ProviderRevokes(_) => true
  }

  function At(w: World, p: nat, pc: Pc): World {
    w.(procs := w.procs[p := pc])
  }

  /** The process returns, or dies: its lock goes with it. */
  function Gone(w: World, p: nat): World {
    w.(procs := w.procs - {p}, lock := if w.lock == Some(p) then None else w.lock)
  }

  /** A refresh that succeeded at the provider will not reach the file. `lost` collects the
      refresh tokens whose replacement went missing that way. */
  function Faulted(w: World, stored: Token): World {
    w.(lost := if stored.rt in w.replaced then w.lost + {stored.rt} else w.lost, log := w.log + [Fault(stored.version)])
  }

  function AfterLock(op: Op): Pc {
    match op
    case RefreshOp => Reread
    case LoginOp(t) => SaveLogin(t)
    case LogoutOp => Deleting
  }

  function Refreshed(w: World, p: nat, stored: Token, answer: Answer): World
    requires Success(answer)
  {
    var rotated := answer.Rotated?;
    var w' := w.(log := w.log + [Presented(stored, stored.rt in w.replaced, true)],
                 issued := w.issued + if rotated then 1 else 0,
                 replaced := if rotated then w.replaced + {stored.rt} else w.replaced);
    if !answer.usable then Gone(Faulted(w', stored), p)
    else At(w'.(versions := w.versions + 1), p,
            Answered(stored, Token(w.versions, if rotated then w.issued else stored.rt, answer.expiresAt)))
  }

  function Step(w: World, a: Action): World
    requires Enabled(w, a)
  {
    match a
    case EnsureFresh(p) =>
      if w.disk.None? || !Expired(w.disk.value, w.now) then w else At(w, p, WantLock(RefreshOp))
    case LoginGranted(p, expiresAt) =>
      At(w.(issued := w.issued + 1, versions := w.versions + 1), p, WantLock(LoginOp(Token(w.versions, w.issued, expiresAt))))
    case LogoutCalled(p) => At(w, p, WantLock(LogoutOp))
    case Lock(p) => At(w.(lock := Some(p)), p, AfterLock(w.procs[p].op))
    case LockTimesOut(p) => Gone(w, p)
    case RereadDone(p) =>
      if w.disk.None? || !Expired(w.disk.value, w.now) then Gone(w, p) else At(w, p, Present(w.disk.value))
    case RefreshAnswered(p, answer) =>
      var stored := w.procs[p].stored;
      if Success(answer) then Refreshed(w, p, stored, answer)
      else Gone(w.(log := w.log + [Presented(stored, stored.rt in w.replaced, false)]), p)
    case SaveDone(p, result) =>
      var pc := w.procs[p];
      var t := if pc.Answered? then pc.refreshed else pc.granted;
      if !result.FailedBefore? then Gone(w.(disk := Some(t)), p)
      else if pc.Answered? then Gone(Faulted(w, pc.stored), p)
      else Gone(w, p)
    case DeleteDone(p, ok) => Gone(if ok then w.(disk := None) else w, p)
    case Dies(p) => if w.procs[p].Answered? then Gone(Faulted(w, w.procs[p].stored), p) else Gone(w, p)
    case ClockTicks => w.(now := w.now + 1)
    case ProviderRevokes(rt) => w.(revoked := w.revoked + {rt})
  }

  function Successes(log: seq<Entry>, version: nat): nat {
    if log == [] then 0
    else
      var e := log[|log| - 1];
      Successes(log[..|log| - 1], version) + if e.Presented? && e.success && e.token.version == version then 1 else 0
  }

  function Faults(log: seq<Entry>, version: nat): nat {
    if log == [] then 0
    else
      var e := log[|log| - 1];
      Faults(log[..|log| - 1], version) + if e.Fault? && e.version == version then 1 else 0
  }
}
