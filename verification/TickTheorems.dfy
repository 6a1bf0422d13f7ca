/** Over every interleaving of ticks of one task. */
module TickTheorems {
  import opened Wrappers
  import opened TickServer
  import opened TickProtocol

  /** The first run is visible: the task's root session shows a user prompt. */
  predicate Complete(server: Server) {
    exists s | s in server.sessions :: s.root && HasUserPrompt(s)
  }

  predicate AtMostOneRoot(sessions: seq<Session>) {
    forall i, j | 0 <= i < |sessions| && 0 <= j < |sessions| && sessions[i].root && sessions[j].root :: i == j
  }

  predicate SomeRoot(sessions: seq<Session>) {
    exists s | s in sessions :: s.root
  }

  /** Only first-run prompts come before the first one in a root session. */
  predicate PromptsStartTheRun(server: Server) {
    Accepted(server.sessions) == 0 ==> SilentRoots(server.sessions)
  }

  predicate SilentRoots(sessions: seq<Session>) {
    forall s, m | s in sessions && s.root && m in s.messages :: !m.user
  }

  predicate ServerOk(w: World) {
    && Count(w.server.workspaces, w.id) <= 1
    && AtMostOneRoot(w.server.sessions)
    && (SomeRoot(w.server.sessions) ==> w.id in w.server.workspaces)
    && PromptsStartTheRun(w.server)
  }

  /** What the holder's position says about the server. */
  predicate HoldOk(w: World) {
    w.hold.Some? ==>
      var h := w.hold.value;
      && PcFits(w.server, h.pc)
      && (h.sent <==> h.pc.ConfirmSession? || h.pc.ConfirmMessages?)
      && (h.sent || h.pc.CreateWorkspace? || h.pc.CreateSession? || h.pc.SendFirst? || h.pc.RecoverFind? ==> w.confirmed == 0)
      && match h.pc
         case CreateWorkspace => w.id !in w.server.workspaces
         case CreateSession(confirm) => confirm && w.id in w.server.workspaces && !SomeRoot(w.server.sessions)
         case SendFirst(i, confirm) => confirm && w.server.sessions[i].root
         case CheckMessages(i) => w.server.sessions[i].root
         case ProgressMessages(i) => w.server.sessions[i].root
         case ConfirmMessages(i, _) => w.server.sessions[i].root
         case CheckDirty => Complete(w.server)
         case ContinueFind => Complete(w.server)
         case SendContinuation(i) => w.server.sessions[i].root && Complete(w.server)
         case FindSession => w.id in w.server.workspaces
         case RecoverFind => w.id in w.server.workspaces
         case _ => true
  }

  predicate CountsOk(w: World) {
    && Accepted(w.server.sessions) == w.confirmed + w.unconfirmed + (if w.hold.Some? && w.hold.value.sent then 1 else 0)
    && w.confirmed <= 1
    && (w.confirmed == 1 ==> Complete(w.server))
    && (w.finished > 0 && w.unconfirmed == 0 ==> Complete(w.server))
  }

  predicate Inv(w: World) {
    ServerOk(w) && HoldOk(w) && CountsOk(w)
  }

  predicate Init(w: World) {
    && w.server.sessions == [] && w.id !in w.server.workspaces
    && w.hold.None? && w.waiting == {} && w.confirmed == 0 && w.unconfirmed == 0 && w.finished == 0
  }

  lemma {:induction false} CountAbsent(s: seq<string>, x: string)
    ensures Count(s, x) == 0 <==> x !in s
  {
    if s != [] {
      CountAbsent(s[..|s| - 1], x);
      assert s == s[..|s| - 1] + [s[|s| - 1]];
    }
  }

  lemma CountAppend(s: seq<string>, x: string, y: string)
    ensures Count(s + [y], x) == Count(s, x) + if y == x then 1 else 0
  {
    assert (s + [y])[..|s|] == s;
  }

  lemma InitHolds(w: World)
    requires Init(w)
    ensures Inv(w)
  {
    CountAbsent(w.server.workspaces, w.id);
  }

  /** Rewriting one session without changing its kind. */
  lemma SetKeepsRoots(sessions: seq<Session>, i: nat, s: Session)
    requires i < |sessions| && s.root == sessions[i].root
    ensures AtMostOneRoot(sessions) ==> AtMostOneRoot(sessions[i := s])
    ensures SomeRoot(sessions[i := s]) <==> SomeRoot(sessions)
  {
    var sessions' := sessions[i := s];
    assert forall j | 0 <= j < |sessions| :: sessions'[j].root == sessions[j].root;
    if SomeRoot(sessions) {
      var j :| 0 <= j < |sessions| && sessions[j].root;
      assert sessions'[j] in sessions';
    }
    if SomeRoot(sessions') {
      var j :| 0 <= j < |sessions'| && sessions'[j].root;
      assert sessions[j] in sessions;
    }
  }

  /** What was readable stays readable. */
  lemma SetKeepsComplete(server: Server, i: nat, s: Session)
    requires i < |server.sessions| && s.root == server.sessions[i].root
    requires HasUserPrompt(server.sessions[i]) ==> HasUserPrompt(s)
    ensures Complete(server) ==> Complete(server.(sessions := server.sessions[i := s]))
  {
    if Complete(server) {
      var j :| 0 <= j < |server.sessions| && server.sessions[j].root && HasUserPrompt(server.sessions[j]);
      assert server.sessions[i := s][j] in server.sessions[i := s];
    }
  }

  lemma SetKeepsSilence(sessions: seq<Session>, i: nat, s: Session)
    requires i < |sessions| && s.root == sessions[i].root
    requires s.root ==> forall m | m in s.messages && m.user :: exists m' | m' in sessions[i].messages :: m'.user
    ensures SilentRoots(sessions) ==> SilentRoots(sessions[i := s])
  {
    var sessions' := sessions[i := s];
    if SilentRoots(sessions) {
      forall x, m | x in sessions' && x.root && m in x.messages
        ensures !m.user
      {
        var j :| 0 <= j < |sessions'| && sessions'[j] == x;
        assert sessions[j] in sessions;
      }
    }
  }

  /** A session may be rewritten in place as long as it keeps its kind, its readable
      prompt and its first-run prompts, and gains no user message out of nothing. */
  lemma SetKeepsInv(w: World, i: nat, s: Session)
    requires Inv(w) && i < |w.server.sessions| && s.root == w.server.sessions[i].root
    requires HasUserPrompt(w.server.sessions[i]) ==> HasUserPrompt(s)
    requires FirstRunPrompts(s.messages) == FirstRunPrompts(w.server.sessions[i].messages)
    requires s.root ==> forall m | m in s.messages && m.user :: exists m' | m' in w.server.sessions[i].messages :: m'.user
    ensures Inv(w.(server := SetSession(w.server, i, s)))
  {
    hide HasUserPrompt, AtMostOneRoot, SomeRoot, SilentRoots, Complete, FirstRunPrompts;
    SetKeepsRoots(w.server.sessions, i, s);
    SetKeepsComplete(w.server, i, s);
    SetKeepsSilence(w.server.sessions, i, s);
    AcceptedUpdate(w.server.sessions, i, s);
  }

  lemma RevealKeepsPrompt(s: Session, k: nat)
    requires k < |s.messages|
    ensures var s' := s.(messages := s.messages[k := s.messages[k].(visible := true)]);
      && (HasUserPrompt(s) ==> HasUserPrompt(s'))
      && FirstRunPrompts(s'.messages) == FirstRunPrompts(s.messages)
      && forall m | m in s'.messages && m.user :: exists m' | m' in s.messages :: m'.user
  {
    var m := s.messages[k].(visible := true);
    var after := s.messages[k := m];
    FirstRunUpdate(s.messages, k, m);
    if HasUserPrompt(s) {
      var j :| 0 <= j < |s.messages| && s.messages[j].user && !s.messages[j].blank && s.messages[j].visible;
      assert after[j] in after;
    }
    forall x | x in after && x.user
      ensures exists m' | m' in s.messages :: m'.user
    {
      var j :| 0 <= j < |after| && after[j] == x;
      assert s.messages[j] in s.messages;
    }
  }

  lemma AppendKeepsPrompt(s: Session, m: Message)
    requires !m.first
    ensures var s' := s.(messages := s.messages + [m]);
      && (HasUserPrompt(s) ==> HasUserPrompt(s'))
      && FirstRunPrompts(s'.messages) == FirstRunPrompts(s.messages)
  {
    FirstRunAppend(s.messages, m);
  }

  lemma TouchKeepsPrompt(s: Session, updated: int)
    ensures HasUserPrompt(s.(updated := updated)) <==> HasUserPrompt(s)
  {
  }

  lemma AppendChildKeepsInv(w: World, s: Session)
    requires Inv(w) && !s.root && s.messages == []
    ensures Inv(w.(server := w.server.(sessions := w.server.sessions + [s])))
  {
    hide HasUserPrompt;
    var before, after := w.server.sessions, w.server.sessions + [s];
    AcceptedAppend(before, s);
    assert SomeRoot(after) ==> SomeRoot(before);
    assert forall x | x in before :: x in after;
  }

  lemma EnvKeeps(w: World, e: EnvStep)
    requires Inv(w) && EnvEnabled(w.server, w.id, e)
    ensures Inv(w.(server := ApplyEnv(w.server, w.id, e)))
  {
    hide Inv, HasUserPrompt;
    var sessions := w.server.sessions;
    match e
    case Reveal(i, k) =>
      RevealKeepsPrompt(sessions[i], k);
      SetKeepsInv(w, i, ApplyEnv(w.server, w.id, e).sessions[i]);
    case Agent(i, m) =>
      AppendKeepsPrompt(sessions[i], m);
      SetKeepsInv(w, i, sessions[i].(messages := sessions[i].messages + [m]));
    case Child(updated) => AppendChildKeepsInv(w, Session(false, updated, []));
    case Touch(i, updated) =>
      TouchKeepsPrompt(sessions[i], updated);
      SetKeepsInv(w, i, sessions[i].(updated := updated));
    case OtherWorkspace(id) => OtherWorkspaceKeepsInv(w, id);
  }

  lemma OtherWorkspaceKeepsInv(w: World, id: string)
    requires Inv(w) && id != w.id
    ensures Inv(w.(server := w.server.(workspaces := w.server.workspaces + [id])))
  {
    CountAppend(w.server.workspaces, w.id, id);
  }

  lemma ReleaseKeeps(w: World, ok: bool, seen: bool)
    requires Inv(w) && w.hold.Some?
    requires (seen && w.hold.value.sent) || (ok && !w.hold.value.sent) ==> Complete(w.server)
    ensures Inv(Release(w, ok, seen))
  {
    hide Complete, SomeRoot, AtMostOneRoot, PromptsStartTheRun;
  }

  lemma PollKeeps(w: World, polls: nat)
    requires Inv(w) && w.hold.Some? && w.hold.value.sent
    ensures Inv(PollAgain(w, polls))
  {
    hide Complete, SomeRoot, AtMostOneRoot, PromptsStartTheRun;
    if polls <= 1 {
      ReleaseKeeps(w, true, false);
    }
  }

  lemma ErrorKeeps(w: World)
    requires Inv(w) && w.hold.Some?
    ensures Inv(AfterError(w))
  {
    match w.hold.value.pc
    case ConfirmSession(n) => PollKeeps(w, n);
    case ConfirmMessages(_, n) => PollKeeps(w, n);
    case _ => ReleaseKeeps(w, false, false);
  }

  /** With a single root session, the first run is visible exactly when that session shows a prompt. */
  lemma CompleteInOnlyRoot(server: Server, i: nat)
    requires AtMostOneRoot(server.sessions) && i < |server.sessions| && server.sessions[i].root
    ensures Complete(server) <==> HasUserPrompt(server.sessions[i])
  {
    if Complete(server) {
      var j :| 0 <= j < |server.sessions| && server.sessions[j].root && HasUserPrompt(server.sessions[j]);
    }
  }

  lemma NewestMeansRoot(sessions: seq<Session>)
    ensures Newest(sessions).Some? <==> SomeRoot(sessions)
    ensures Newest(sessions).Some? ==> Newest(sessions).value < |sessions| && sessions[Newest(sessions).value].root
  {
    NewestIsRoot(sessions);
  }

  lemma CompleteHasRoot(server: Server)
    ensures Complete(server) ==> SomeRoot(server.sessions)
  {
  }

  lemma RootHere(sessions: seq<Session>, i: nat)
    requires i < |sessions| && sessions[i].root
    ensures SomeRoot(sessions)
  {
  }

  lemma ReadKeeps(w: World, dirty: bool)
    requires Inv(w) && w.hold.Some? && !Writes(w.hold.value.pc)
    ensures Inv(AfterRead(w, dirty))
  {
    hide HasUserPrompt, Newest, Complete, SomeRoot, AtMostOneRoot, PromptsStartTheRun;
    NewestMeansRoot(w.server.sessions);
    CompleteHasRoot(w.server);
    match w.hold.value.pc
    case ProgressMessages(i) =>
      CompleteInOnlyRoot(w.server, i);
      if HasUserPrompt(w.server.sessions[i]) {
        ReleaseKeeps(w, true, false);
      }
    case CheckMessages(i) =>
      CompleteInOnlyRoot(w.server, i);
      RootHere(w.server.sessions, i);
      if HasUserPrompt(w.server.sessions[i]) && w.mode.SkipIfExists? {
        ReleaseKeeps(w, true, false);
      }
    case ConfirmSession(n) => PollKeeps(w, n);
    case ConfirmMessages(i, n) =>
      CompleteInOnlyRoot(w.server, i);
      if HasUserPrompt(w.server.sessions[i]) {
        ReleaseKeeps(w, true, true);
      } else {
        PollKeeps(w, n);
      }
    case CheckDirty =>
      if dirty {
        ReleaseKeeps(w, true, false);
      }
    case _ =>
  }

  lemma CreateWorkspaceKeeps(w: World)
    requires Inv(w) && w.hold.Some? && w.hold.value.pc.CreateWorkspace?
    ensures Inv(Goto(Effect(w), CreateSession(true))) && Inv(Release(Effect(w), false, false))
  {
    CountAbsent(w.server.workspaces, w.id);
    CountAppend(w.server.workspaces, w.id, w.id);
    CompleteHasRoot(w.server);
  }

  lemma NoRootNothingAccepted(sessions: seq<Session>, s: Session)
    requires !SomeRoot(sessions) && s.root && s.messages == []
    ensures AtMostOneRoot(sessions + [s]) && SomeRoot(sessions + [s])
    ensures SilentRoots(sessions + [s]) && Accepted(sessions + [s]) == Accepted(sessions)
  {
    AcceptedAppend(sessions, s);
    assert s in sessions + [s];
    assert forall i | 0 <= i < |sessions| :: sessions[i] in sessions;
  }

  lemma CreateSessionKeeps(w: World)
    requires Inv(w) && w.hold.Some? && w.hold.value.pc.CreateSession?
    ensures Inv(Goto(Effect(w), SendFirst(|w.server.sessions|, true))) && Inv(Release(Effect(w), false, false))
  {
    hide HasUserPrompt;
    CompleteHasRoot(w.server);
    NoRootNothingAccepted(w.server.sessions, Session(true, 0, []));
  }

  /** A posted prompt joins a root session unread. */
  lemma PostEffect(w: World, i: nat, first: bool)
    requires i < |w.server.sessions| && w.server.sessions[i].root
    ensures var server := Post(w.server, i, Message(true, false, first, false));
      && (AtMostOneRoot(w.server.sessions) ==> AtMostOneRoot(server.sessions))
      && SomeRoot(server.sessions) && SomeRoot(w.server.sessions)
      && (Complete(w.server) ==> Complete(server))
      && Accepted(server.sessions) == Accepted(w.server.sessions) + if first then 1 else 0
  {
    var s, m := w.server.sessions[i], Message(true, false, first, false);
    var s' := s.(messages := s.messages + [m]);
    SetKeepsRoots(w.server.sessions, i, s');
    FirstRunAppend(s.messages, m);
    AcceptedUpdate(w.server.sessions, i, s');
    SetKeepsComplete(w.server, i, s');
  }

  lemma CompleteWasAccepted(server: Server)
    requires PromptsStartTheRun(server) && Complete(server)
    ensures Accepted(server.sessions) >= 1
  {
  }

  lemma SendFirstKeeps(w: World)
    requires Inv(w) && w.hold.Some? && w.hold.value.pc.SendFirst?
    ensures Inv(Goto(Effect(w), ConfirmSession(POLLS))) && Inv(Release(Effect(w), false, false))
  {
    hide HasUserPrompt, Complete, SomeRoot, AtMostOneRoot, SilentRoots;
    PostEffect(w, w.hold.value.pc.session, true);
  }

  lemma SendContinuationKeeps(w: World)
    requires Inv(w) && w.hold.Some? && w.hold.value.pc.SendContinuation?
    ensures Inv(Release(Effect(w), true, false)) && Inv(Release(Effect(w), false, false))
  {
    hide HasUserPrompt, Complete, SomeRoot, AtMostOneRoot, SilentRoots;
    PostEffect(w, w.hold.value.pc.session, false);
    CompleteWasAccepted(w.server);
  }

  lemma RequestKeeps(w: World, outcome: Outcome, dirty: bool)
    requires Inv(w) && w.hold.Some?
    ensures Inv(Do(w, outcome, dirty))
  {
    hide Accepted, SomeRoot, Complete, AfterRead, AtMostOneRoot, SilentRoots;
    var pc := w.hold.value.pc;
    if !Writes(pc) && outcome.Delivered? {
      ReadKeeps(w, dirty);
    } else if !Writes(pc) || outcome.Refused? {
      ErrorKeeps(w);
    } else if pc.CreateWorkspace? {
      CreateWorkspaceKeeps(w);
    } else if pc.CreateSession? {
      CreateSessionKeeps(w);
    } else if pc.SendFirst? {
      SendFirstKeeps(w);
    } else {
      SendContinuationKeeps(w);
    }
  }

  lemma StepKeeps(w: World, a: Action)
    requires Inv(w) && Enabled(w, a)
    ensures Inv(Step(w, a))
  {
    hide Accepted, SomeRoot, Complete, AtMostOneRoot, SilentRoots, ApplyEnv, Do;
    match a
    case Env(e) => EnvKeeps(w, e);
    case HolderDies => ReleaseKeeps(w, false, false);
    case GiveUp => ReleaseKeeps(w, true, false);
    case Request(outcome, dirty) => RequestKeeps(w, outcome, dirty);
    case _ =>
  }

  // ---- Over whole runs ----

  predicate History(ws: seq<World>, actions: seq<Action>) {
    && |ws| == |actions| + 1
    && Init(ws[0])
    && forall i | 0 <= i < |actions| :: Enabled(ws[i], actions[i]) && ws[i + 1] == Step(ws[i], actions[i])
  }

  lemma {:induction false} HistoryKeeps(ws: seq<World>, actions: seq<Action>, i: nat)
    requires History(ws, actions) && i < |ws|
    ensures Inv(ws[i]) && ws[i].id == ws[0].id
  {
    hide Inv, Step, Enabled, Init;
    if i == 0 {
      InitHolds(ws[0]);
    } else {
      HistoryKeeps(ws, actions, i - 1);
      StepKeeps(ws[i - 1], actions[i - 1]);
      StepKeepsId(ws[i - 1], actions[i - 1]);
    }
  }

  lemma StepKeepsId(w: World, a: Action)
    requires Enabled(w, a)
    ensures Step(w, a).id == w.id && Step(w, a).mode == w.mode
  {
  }

  /** Crashes, exits and lost answers included: the server never accepts more first-run
      prompts than one plus the number of lock holds that sent one and ended without
      seeing it readable. If no hold ended that way, then as soon as any tick has finished
      normally there is exactly one. */
  lemma FirstRunSentOnce(ws: seq<World>, actions: seq<Action>, i: nat)
    requires History(ws, actions) && i < |ws|
    ensures Accepted(ws[i].server.sessions) <= 1 + ws[i].unconfirmed
    ensures ws[i].finished > 0 && ws[i].unconfirmed == 0 ==> Accepted(ws[i].server.sessions) == 1
  {
    HistoryKeeps(ws, actions, i);
    if ws[i].finished > 0 && ws[i].unconfirmed == 0 {
      CompleteWasAccepted(ws[i].server);
    }
  }

  /** Whatever crashed ticks leave behind, there is at most one workspace with the stable
      id and at most one root session in it. */
  lemma OneWorkspaceOneRoot(ws: seq<World>, actions: seq<Action>, i: nat)
    requires History(ws, actions) && i < |ws|
    ensures Count(ws[i].server.workspaces, ws[i].id) <= 1
    ensures AtMostOneRoot(ws[i].server.sessions)
  {
    HistoryKeeps(ws, actions, i);
  }

  /** An upper bound on the requests a holder still makes. */
  function Rank(pc: Pc): nat {
    match pc
    case SendContinuation(_) => 1
    case ConfirmMessages(_, n) => 2 * n + 1
    case ConfirmSession(n) => 2 * n + 2
    case SendFirst(_, _) => 2 * POLLS + 3
    case CreateSession(_) => 2 * POLLS + 4
    case CreateWorkspace => 2 * POLLS + 5
    case RecoverFind => 2 * POLLS + 5
    case ContinueFind => 2 * POLLS + 5
    case CheckDirty => 2 * POLLS + 6
    case CheckMessages(_) => 2 * POLLS + 7
    case FindSession => 2 * POLLS + 8
    case List => 2 * POLLS + 9
    case ProgressMessages(_) => 2 * POLLS + 10
    case ProgressSession => 2 * POLLS + 11
    case ProgressList => 2 * POLLS + 12
  }

  lemma ErrorLowersRank(w: World)
    requires w.hold.Some?
    ensures AfterError(w).hold.None? || Rank(AfterError(w).hold.value.pc) < Rank(w.hold.value.pc)
  {
  }

  lemma ReadLowersRank(w: World, dirty: bool)
    requires w.hold.Some? && PcFits(w.server, w.hold.value.pc) && !Writes(w.hold.value.pc)
    ensures AfterRead(w, dirty).hold.None? || Rank(AfterRead(w, dirty).hold.value.pc) < Rank(w.hold.value.pc)
  {
    hide Newest, HasUserPrompt;
  }

  lemma RequestLowersRank(w: World, outcome: Outcome, dirty: bool)
    requires w.hold.Some? && PcFits(w.server, w.hold.value.pc)
    ensures Do(w, outcome, dirty).hold.None? || Rank(Do(w, outcome, dirty).hold.value.pc) < Rank(w.hold.value.pc)
  {
    hide AfterRead, Post;
    ErrorLowersRank(w);
    if !Writes(w.hold.value.pc) {
      ReadLowersRank(w, dirty);
    }
  }

  /** A tick alone: nothing but its own answered requests and the server's own steps. */
  predicate Alone(a: Action) {
    a.Env? || (a.Request? && a.outcome.Delivered?)
  }

  function Requests(actions: seq<Action>): nat {
    if actions == [] then 0
    else Requests(actions[..|actions| - 1]) + if actions[|actions| - 1].Request? then 1 else 0
  }

  /** Answered requests that end a hold leave the first run accepted. */
  lemma DeliveredEnds(w: World, dirty: bool)
    requires Inv(w) && w.hold.Some? && Do(w, Delivered, dirty).hold.None?
    ensures Accepted(Do(w, Delivered, dirty).server.sessions) >= 1
  {
    hide HasUserPrompt, Complete, SomeRoot, AtMostOneRoot, SilentRoots, Accepted, Newest;
    RequestKeeps(w, Delivered, dirty);
    var w' := Do(w, Delivered, dirty);
    match w.hold.value.pc
    case ProgressMessages(i) => CompleteInOnlyRoot(w.server, i); CompleteWasAccepted(w.server);
    case CheckMessages(i) => CompleteInOnlyRoot(w.server, i); CompleteWasAccepted(w.server);
    case CheckDirty => CompleteWasAccepted(w.server);
    case SendContinuation(i) => PostEffect(w, i, false); CompleteWasAccepted(w'.server);
    case _ =>
  }

  /** From every state ticks can leave behind, one tick that runs alone with its requests
      answered makes at most 2 * POLLS + 9 of them, and when it is done a first-run
      prompt has been accepted. */
  lemma {:induction false} TickAloneConverges(w: World, p: nat, ws: seq<World>, actions: seq<Action>)
    requires Inv(w) && w.hold.None? && Enabled(w, Start(p))
    requires |ws| == |actions| + 1 && ws[0] == Step(w, Start(p))
    requires forall i | 0 <= i < |actions| :: Alone(actions[i]) && Enabled(ws[i], actions[i]) && ws[i + 1] == Step(ws[i], actions[i])
    ensures Inv(ws[|actions|])
    ensures ws[|actions|].hold.Some? ==> Requests(actions) + Rank(ws[|actions|].hold.value.pc) <= 2 * POLLS + 9
    ensures ws[|actions|].hold.None? ==> Accepted(ws[|actions|].server.sessions) >= 1
    ensures Requests(actions) <= 2 * POLLS + 9
  {
    hide Inv, Do, Accepted, EnvEnabled, ApplyEnv, PcFits;
    var n := |actions|;
    if n == 0 {
      StepKeeps(w, Start(p));
    } else {
      TickAloneConverges(w, p, ws[..n], actions[..n - 1]);
      var before, a := ws[n - 1], actions[n - 1];
      StepKeeps(before, a);
      if a.Env? {
        EnvKeepsCounts(before, a.step);
      } else {
        RequestLowersRank(before, Delivered, a.dirty);
        if ws[n].hold.None? {
          DeliveredEnds(before, a.dirty);
        }
      }
    }
  }

  lemma EnvKeepsCounts(w: World, e: EnvStep)
    requires Inv(w) && EnvEnabled(w.server, w.id, e)
    ensures Accepted(ApplyEnv(w.server, w.id, e).sessions) == Accepted(w.server.sessions)
  {
    EnvKeeps(w, e);
  }

  // ---- The bound is reached ----

  lemma Go(ws: seq<World>, actions: seq<Action>, a: Action) returns (ws': seq<World>, actions': seq<Action>)
    requires History(ws, actions) && Enabled(ws[|actions|], a)
    ensures History(ws', actions') && ws'[|actions'|] == Step(ws[|actions|], a)
  {
    hide Step, Enabled, Init;
    ws', actions' := ws + [Step(ws[|actions|], a)], actions + [a];
    forall i | 0 <= i < |actions'|
      ensures Enabled(ws'[i], actions'[i]) && ws'[i + 1] == Step(ws'[i], actions'[i])
    {
      if i < |actions| {
        assert ws'[i] == ws[i] && ws'[i + 1] == ws[i + 1];
      }
    }
  }

  /** `n` first-run prompts nobody can read yet. */
  function Unread(n: nat): seq<Message> {
    if n == 0 then [] else Unread(n - 1) + [Message(true, false, true, false)]
  }

  lemma {:induction false} UnreadMeans(n: nat)
    ensures FirstRunPrompts(Unread(n)) == n && forall m | m in Unread(n) :: !m.visible
  {
    if n > 0 {
      UnreadMeans(n - 1);
      assert Unread(n)[..|Unread(n)| - 1] == Unread(n - 1);
    }
  }

  function OneSession(n: nat): seq<Session> {
    [Session(true, 0, Unread(n))]
  }

  lemma OneSessionMeans(n: nat)
    ensures Newest(OneSession(n)) == Some(0) && !HasUserPrompt(OneSession(n)[0]) && Accepted(OneSession(n)) == n
  {
    UnreadMeans(n);
    NewestIsRoot(OneSession(n));
    assert OneSession(n)[..0] == [];
  }

  /** `n` holders have sent their prompt and died. */
  function Crashed(id: string, mode: Mode, n: nat): World {
    World(id, mode, Server([id], OneSession(n)), None, {}, 0, n, 0)
  }

  /** One more holder finds the session without a readable prompt and sends its own. */
  lemma AnotherSends(ws: seq<World>, actions: seq<Action>, id: string, mode: Mode, n: nat)
    returns (ws': seq<World>, actions': seq<Action>)
    requires History(ws, actions) && ws[|actions|] == Crashed(id, mode, n)
    ensures History(ws', actions')
    ensures ws'[|actions'|] == Crashed(id, mode, n).(server := Server([id], OneSession(n + 1)), hold := Some(Hold(0, ConfirmSession(POLLS), true)))
  {
    hide History, Newest, HasUserPrompt, Accepted, FirstRunPrompts;
    OneSessionMeans(n);
    var ok := Request(Delivered, false);
    ws', actions' := Go(ws, actions, Start(0));
    ws', actions' := Go(ws', actions', ok);
    ws', actions' := Go(ws', actions', ok);
    ws', actions' := Go(ws', actions', ok);
    ws', actions' := Go(ws', actions', ok);
    ws', actions' := Go(ws', actions', ok);
    assert OneSession(n)[0 := Session(true, 0, Unread(n + 1))] == OneSession(n + 1);
  }

  /** The first holder gets as far as an empty session. */
  lemma FirstCreates(id: string, mode: Mode) returns (ws: seq<World>, actions: seq<Action>)
    ensures History(ws, actions) && ws[|actions|] == Crashed(id, mode, 0)
  {
    hide Newest, HasUserPrompt, Accepted, FirstRunPrompts;
    ws, actions := [World(id, mode, Server([], []), None, {}, 0, 0, 0)], [];
    var ok := Request(Delivered, false);
    ws, actions := Go(ws, actions, Start(0));
    ws, actions := Go(ws, actions, ok);
    ws, actions := Go(ws, actions, ok);
    ws, actions := Go(ws, actions, ok);
    ws, actions := Go(ws, actions, HolderDies);
    assert ws[|actions|].server.workspaces == [id] && ws[|actions|].server.sessions == OneSession(0);
  }

  lemma {:induction false} CrashedReachable(id: string, mode: Mode, n: nat) returns (ws: seq<World>, actions: seq<Action>)
    ensures History(ws, actions) && ws[|actions|] == Crashed(id, mode, n)
  {
    if n == 0 {
      ws, actions := FirstCreates(id, mode);
    } else {
      ws, actions := CrashedReachable(id, mode, n - 1);
      ws, actions := AnotherSends(ws, actions, id, mode, n - 1);
      ws, actions := Go(ws, actions, HolderDies);
    }
  }

  /** The bound is exact: for every number of unconfirmed holds some run has one more prompt. */
  lemma BoundIsReached(id: string, mode: Mode, n: nat) returns (ws: seq<World>, actions: seq<Action>)
    ensures History(ws, actions)
    ensures ws[|actions|].unconfirmed == n && Accepted(ws[|actions|].server.sessions) == n + 1
  {
    ws, actions := CrashedReachable(id, mode, n);
    ws, actions := AnotherSends(ws, actions, id, mode, n);
    OneSessionMeans(n + 1);
  }
}
