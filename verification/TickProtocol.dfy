/** Any number of `kfactory tick` processes for one scheduled task: they share a lock, talk
    to the server one request at a time, and may exit or die between any two requests. */
module TickProtocol {
  import opened Wrappers
  import opened TickServer

  datatype Mode = SkipIfExists | SkipIfDirty | Continue

  /** Where the lock holder is: the request it makes next. `Confirm...` counts the polls left. */
  datatype Pc =
    | ProgressList | ProgressSession | ProgressMessages(session: nat)
    | List | FindSession | CheckMessages(session: nat) | RecoverFind
    | CreateWorkspace | CreateSession(confirm: bool) | SendFirst(session: nat, confirm: bool)
    | ConfirmSession(polls: nat) | ConfirmMessages(session: nat, polls: nat)
    | CheckDirty | ContinueFind | SendContinuation(session: nat)

  /** One period of holding the lock; `sent` once the server accepted its first-run prompt. */
  datatype Hold = Hold(pid: nat, pc: Pc, sent: bool)

  datatype World = World(
    id: string,
    mode: Mode,
    server: Server,
    hold: Option<Hold>,
    waiting: set<nat>,
    confirmed: nat,
    unconfirmed: nat,
    finished: nat
  )

  /** A request takes effect and answers, takes effect and the answer is lost, or fails without effect. */
  datatype Outcome = Delivered | Lost | Refused

  /** What happens on the server without ticks: prompts become readable, the agent answers,
      sub-sessions appear and are written to, sessions are touched, others make workspaces. */
  datatype EnvStep =
    | Reveal(session: nat, index: nat)
    | Agent(session: nat, message: Message)
    | Child(updated: int)
    | Touch(session: nat, updated: int)
    | OtherWorkspace(id: string)

  datatype Action =
    | Env(step: EnvStep)
    | Start(pid: nat)
    | Granted(pid: nat)
    | WaiterDies(pid: nat)
    | HolderDies
    | GiveUp
    | Request(outcome: Outcome, dirty: bool)

  /** 15 seconds of polling every half second. */
  const POLLS: nat := 30

  predicate EnvEnabled(server: Server, id: string, e: EnvStep) {
    match e
    case Reveal(i, k) => i < |server.sessions| && k < |server.sessions[i].messages|
    case Agent(i, m) => i < |server.sessions| && !m.first && (m.user ==> !server.sessions[i].root)
    case Child(_) => true
    case Touch(i, _) => i < |server.sessions|
    case OtherWorkspace(other) => other != id
  }

  function ApplyEnv(server: Server, id: string, e: EnvStep): Server
    requires EnvEnabled(server, id, e)
  {
    var sessions := server.sessions;
    match e
    case Reveal(i, k) =>
      var messages := sessions[i].messages;
      SetSession(server, i, sessions[i].(messages := messages[k := messages[k].(visible := true)]))
    case Agent(i, m) => SetSession(server, i, sessions[i].(messages := sessions[i].messages + [m]))
    case Child(updated) => server.(sessions := sessions + [Session(false, updated, [])])
    case Touch(i, updated) => SetSession(server, i, sessions[i].(updated := updated))
    case OtherWorkspace(other) => server.(workspaces := server.workspaces + [other])
  }

  function SetSession(server: Server, i: nat, s: Session): Server
    requires i < |server.sessions|
  {
    server.(sessions := server.sessions[i := s])
  }

  function Post(server: Server, i: nat, m: Message): Server
    requires i < |server.sessions|
  {
    SetSession(server, i, server.sessions[i].(messages := server.sessions[i].messages + [m]))
  }

  function Goto(w: World, pc: Pc): World
    requires w.hold.Some?
  {
    w.(hold := Some(w.hold.value.(pc := pc)))
  }

  /** The hold ends: normally or not, its prompt seen readable or not. */
  function Release(w: World, ok: bool, seen: bool): World
    requires w.hold.Some?
  {
    var sent := w.hold.value.sent;
    w.(hold := None,
       confirmed := w.confirmed + if sent && seen then 1 else 0,
       unconfirmed := w.unconfirmed + if sent && !seen then 1 else 0,
       finished := w.finished + if ok then 1 else 0)
  }

  predicate PcFits(server: Server, pc: Pc) {
    match pc
    case ProgressMessages(i) => i < |server.sessions|
    case CheckMessages(i) => i < |server.sessions|
    case SendFirst(i, _) => i < |server.sessions|
    case ConfirmMessages(i, _) => i < |server.sessions|
    case SendContinuation(i) => i < |server.sessions|
    case _ => true
  }

  predicate Enabled(w: World, a: Action) {
    match a
    case Env(e) => EnvEnabled(w.server, w.id, e)
    case Start(p) => p !in w.waiting && (w.hold.Some? ==> w.hold.value.pid != p)
    case Granted(p) => p in w.waiting && w.hold.None?
    case WaiterDies(p) => p in w.waiting
    case HolderDies => w.hold.Some?
    case GiveUp => w.hold.Some? && (w.hold.value.pc.ConfirmSession? || w.hold.value.pc.ConfirmMessages?)
    case Request(_, _) => w.hold.Some? && PcFits(w.server, w.hold.value.pc)
  }

  /** Another poll, or the warning that the prompt is not visible yet. */
  function PollAgain(w: World, polls: nat): World
    requires w.hold.Some?
  {
    if polls <= 1 then Release(w, true, false) else Goto(w, ConfirmSession(polls - 1))
  }

  /** The holder's reads. `found` and `complete` are what the server answers. */
  function AfterRead(w: World, dirty: bool): World
    requires w.hold.Some? && PcFits(w.server, w.hold.value.pc)
  {
    var sessions := w.server.sessions;
    var found := w.id in w.server.workspaces;
    var newest := Newest(sessions);
    match w.hold.value.pc
    case ProgressList => Goto(w, if found then ProgressSession else List)
    case ProgressSession => Goto(w, if newest.Some? then ProgressMessages(newest.value) else List)
    case ProgressMessages(i) => if HasUserPrompt(sessions[i]) then Release(w, true, false) else Goto(w, List)
    case List => Goto(w, if found then FindSession else CreateWorkspace)
    case FindSession => Goto(w, if newest.Some? then CheckMessages(newest.value) else RecoverFind)
    case CheckMessages(i) =>
      if !HasUserPrompt(sessions[i]) then Goto(w, RecoverFind)
      else if w.mode.SkipIfExists? then Release(w, true, false)
      else Goto(w, if w.mode.SkipIfDirty? then CheckDirty else ContinueFind)
    case RecoverFind => Goto(w, if newest.Some? then SendFirst(newest.value, true) else CreateSession(true))
    case ConfirmSession(n) => if newest.Some? then Goto(w, ConfirmMessages(newest.value, n)) else PollAgain(w, n)
    case ConfirmMessages(i, n) => if HasUserPrompt(sessions[i]) then Release(w, true, true) else PollAgain(w, n)
    case CheckDirty => if dirty then Release(w, true, false) else Goto(w, ContinueFind)
    case ContinueFind => Goto(w, if newest.Some? then SendContinuation(newest.value) else CreateSession(false))
    case _ => w
  }

  predicate Writes(pc: Pc) {
    pc.CreateWorkspace? || pc.CreateSession? || pc.SendFirst? || pc.SendContinuation?
  }

  /** The holder's writes, as they change the server. */
  function Effect(w: World): World
    requires w.hold.Some? && PcFits(w.server, w.hold.value.pc) && Writes(w.hold.value.pc)
  {
    match w.hold.value.pc
    case CreateWorkspace => w.(server := w.server.(workspaces := w.server.workspaces + [w.id]))
    case CreateSession(_) => w.(server := w.server.(sessions := w.server.sessions + [Session(true, 0, [])]))
    case SendFirst(i, _) =>
      w.(server := Post(w.server, i, Message(true, false, true, false)), hold := Some(w.hold.value.(sent := true)))
    case SendContinuation(i) => w.(server := Post(w.server, i, Message(true, false, false, false)))
    case _ => w
  }

  /** Where a holder goes once its write was answered. */
  function AfterWrite(before: World, w: World): World
    requires before.hold.Some? && w.hold.Some?
  {
    match before.hold.value.pc
    case CreateWorkspace => Goto(w, CreateSession(true))
    case CreateSession(confirm) => Goto(w, SendFirst(|before.server.sessions|, confirm))
    case SendFirst(_, true) => Goto(w, ConfirmSession(POLLS))
    case _ => Release(w, true, false)
  }

  /** A failed request ends the process, except while confirming. */
  function AfterError(w: World): World
    requires w.hold.Some?
  {
    match w.hold.value.pc
    case ConfirmSession(n) => PollAgain(w, n)
    case ConfirmMessages(_, n) => PollAgain(w, n)
    case _ => Release(w, false, false)
  }

  function Do(w: World, outcome: Outcome, dirty: bool): World
    requires w.hold.Some? && PcFits(w.server, w.hold.value.pc)
  {
    if Writes(w.hold.value.pc) then
      match outcome
      case Delivered => AfterWrite(w, Effect(w))
      case Lost => AfterError(Effect(w))
      case Refused => AfterError(w)
    else if outcome.Delivered? then AfterRead(w, dirty)
    else AfterError(w)
  }

  function Step(w: World, a: Action): World
    requires Enabled(w, a)
  {
    match a
    case Env(e) => w.(server := ApplyEnv(w.server, w.id, e))
    case Start(p) =>
      if w.hold.None? then w.(hold := Some(Hold(p, List, false))) else w.(waiting := w.waiting + {p})
    case Granted(p) => w.(hold := Some(Hold(p, ProgressList, false)), waiting := w.waiting - {p})
    case WaiterDies(p) => w.(waiting := w.waiting - {p})
    case HolderDies => Release(w, false, false)
    case GiveUp => Release(w, true, false)
    case Request(outcome, dirty) => Do(w, outcome, dirty)
  }
}
