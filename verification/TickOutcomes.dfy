/** What a tick sends: first-run prompts and continuations, counted apart. */
module TickOutcomes {
  import opened Wrappers
  import opened TickServer
  import opened TickProtocol
  import opened TickTheorems

  /** User messages that are no first-run prompts. */
  function ContinuationsIn(messages: seq<Message>): nat {
    if messages == [] then 0
    else
      var m := messages[|messages| - 1];
      ContinuationsIn(messages[..|messages| - 1]) + if m.user && !m.first then 1 else 0
  }

  /** Those the server holds in the task's root session. */
  function Continuations(sessions: seq<Session>): nat {
    if sessions == [] then 0
    else
      var s := sessions[|sessions| - 1];
      Continuations(sessions[..|sessions| - 1]) + if s.root then ContinuationsIn(s.messages) else 0
  }

  lemma ContinuationsAppend(sessions: seq<Session>, s: Session)
    ensures Continuations(sessions + [s]) == Continuations(sessions) + if s.root then ContinuationsIn(s.messages) else 0
  {
    assert (sessions + [s])[..|sessions|] == sessions;
  }

  lemma {:induction false} ContinuationsUpdate(sessions: seq<Session>, i: nat, s: Session)
    requires i < |sessions| && s.root == sessions[i].root
    ensures Continuations(sessions[i := s])
      == Continuations(sessions) + if s.root then ContinuationsIn(s.messages) - ContinuationsIn(sessions[i].messages) else 0
    decreases |sessions|
  {
    var n := |sessions| - 1;
    if i < n {
      assert sessions[i := s][..n] == sessions[..n][i := s];
      ContinuationsUpdate(sessions[..n], i, s);
    } else {
      assert sessions[i := s][..n] == sessions[..n];
    }
  }

  lemma InAppend(messages: seq<Message>, m: Message)
    ensures ContinuationsIn(messages + [m]) == ContinuationsIn(messages) + if m.user && !m.first then 1 else 0
  {
    assert (messages + [m])[..|messages|] == messages;
  }

  lemma {:induction false} InUpdate(messages: seq<Message>, k: nat, m: Message)
    requires k < |messages| && m.user == messages[k].user && m.first == messages[k].first
    ensures ContinuationsIn(messages[k := m]) == ContinuationsIn(messages)
    decreases |messages|
  {
    var n := |messages| - 1;
    if k < n {
      assert messages[k := m][..n] == messages[..n][k := m];
      InUpdate(messages[..n], k, m);
    } else {
      assert messages[k := m][..n] == messages[..n];
    }
  }

  /** The server on its own sends no continuation. */
  lemma EnvSendsNone(server: Server, id: string, e: EnvStep)
    requires EnvEnabled(server, id, e)
    ensures Continuations(ApplyEnv(server, id, e).sessions) == Continuations(server.sessions)
  {
    match e
    case Reveal(i, k) =>
      var messages := server.sessions[i].messages;
      InUpdate(messages, k, messages[k].(visible := true));
      ContinuationsUpdate(server.sessions, i, server.sessions[i].(messages := messages[k := messages[k].(visible := true)]));
    case Agent(i, m) =>
      InAppend(server.sessions[i].messages, m);
      ContinuationsUpdate(server.sessions, i, server.sessions[i].(messages := server.sessions[i].messages + [m]));
    case Child(updated) => ContinuationsAppend(server.sessions, Session(false, updated, []));
    case Touch(i, updated) => ContinuationsUpdate(server.sessions, i, server.sessions[i].(updated := updated));
    case OtherWorkspace(_) =>
  }

  /** The first run stays complete, whatever the server does. */
  lemma EnvKeepsComplete(server: Server, id: string, e: EnvStep)
    requires EnvEnabled(server, id, e) && Complete(server)
    ensures Complete(ApplyEnv(server, id, e))
  {
    hide HasUserPrompt;
    match e
    case Reveal(i, k) =>
      RevealKeepsPrompt(server.sessions[i], k);
      SetKeepsComplete(server, i, ApplyEnv(server, id, e).sessions[i]);
    case Agent(i, m) =>
      AppendKeepsPrompt(server.sessions[i], m);
      SetKeepsComplete(server, i, ApplyEnv(server, id, e).sessions[i]);
    case Child(updated) =>
    case Touch(i, updated) =>
      TouchKeepsPrompt(server.sessions[i], updated);
      SetKeepsComplete(server, i, ApplyEnv(server, id, e).sessions[i]);
    case OtherWorkspace(_) =>
  }

  // ---- One request ----

  /** A prompt that is posted joins its session at the end: from the user, with some text, and
      readable as soon as the server shows it. No other session changes. */
  lemma PostedIsReadable(w: World, outcome: Outcome, dirty: bool)
    requires Inv(w) && w.hold.Some? && (w.hold.value.pc.SendFirst? || w.hold.value.pc.SendContinuation?)
    ensures var i, sessions, after := w.hold.value.pc.session, w.server.sessions, Do(w, outcome, dirty).server.sessions;
      if outcome == Refused then after == sessions
      else
        && |after| == |sessions| && after == sessions[i := after[i]] && after[i].root
        && |after[i].messages| == |sessions[i].messages| + 1 && after[i].messages[..|sessions[i].messages|] == sessions[i].messages
        && var m := after[i].messages[|sessions[i].messages|];
           && m.user && !m.blank && (m.first <==> w.hold.value.pc.SendFirst?)
           && var shown := ApplyEnv(Do(w, outcome, dirty).server, w.id, Reveal(i, |sessions[i].messages|)).sessions[i].messages;
              exists k | 0 <= k < |shown| :: shown[k].user && !shown[k].blank && shown[k].visible
  {
    hide HasUserPrompt, Newest, Complete, SomeRoot, AtMostOneRoot, PromptsStartTheRun, CountsOk, AfterRead;
    var i, sessions, after := w.hold.value.pc.session, w.server.sessions, Do(w, outcome, dirty).server.sessions;
    if outcome != Refused {
      var n := |sessions[i].messages|;
      var shown := ApplyEnv(Do(w, outcome, dirty).server, w.id, Reveal(i, n)).sessions[i].messages;
      assert shown[n].user && !shown[n].blank && shown[n].visible;
    }
  }

  /** A first-run prompt that was taken is looked for 30 times. */
  lemma SentIsConfirmed(w: World, dirty: bool)
    requires Inv(w) && w.hold.Some? && w.hold.value.pc.SendFirst?
    ensures var h := Do(w, Delivered, dirty).hold; h.Some? && h.value.pc == ConfirmSession(30) && h.value.sent
  {
    hide Post, ServerOk, CountsOk;
  }

  /** Whoever looks for a session finds the most recently updated root session, the one listed
      first among equals, and posts there; without one a session is created. */
  lemma FindDecides(w: World, dirty: bool)
    requires w.hold.Some? && (w.hold.value.pc.RecoverFind? || w.hold.value.pc.ContinueFind?)
    ensures Do(w, Delivered, dirty).server == w.server && Do(w, Delivered, dirty).hold.Some?
    ensures var sessions, pc := w.server.sessions, Do(w, Delivered, dirty).hold.value.pc;
      if exists i | 0 <= i < |sessions| :: sessions[i].root then
        exists b: nat | b < |sessions| && sessions[b].root ::
          && pc == (if w.hold.value.pc.RecoverFind? then SendFirst(b, true) else SendContinuation(b))
          && (forall i | 0 <= i < |sessions| && sessions[i].root :: sessions[i].updated <= sessions[b].updated)
          && (forall i | 0 <= i < b && sessions[i].root :: sessions[i].updated < sessions[b].updated)
      else pc == CreateSession(w.hold.value.pc.RecoverFind?)
  {
    hide HasUserPrompt, Newest;
    NewestIsRoot(w.server.sessions);
  }

  /** How a request changes the number of continuations. */
  lemma RequestSends(w: World, outcome: Outcome, dirty: bool)
    requires Inv(w) && w.hold.Some?
    ensures Continuations(Do(w, outcome, dirty).server.sessions)
      == Continuations(w.server.sessions) + if w.hold.value.pc.SendContinuation? && outcome != Refused then 1 else 0
    ensures Accepted(Do(w, outcome, dirty).server.sessions)
      == Accepted(w.server.sessions) + if w.hold.value.pc.SendFirst? && outcome != Refused then 1 else 0
  {
    hide HasUserPrompt, Newest, Complete, SomeRoot, AtMostOneRoot, PromptsStartTheRun, CountsOk, Accepted, Continuations, AfterRead, PollAgain;
    var pc, sessions := w.hold.value.pc, w.server.sessions;
    ReadsKeepServer(w, dirty);
    if pc.CreateSession? {
      AcceptedAppend(sessions, Session(true, 0, []));
      ContinuationsAppend(sessions, Session(true, 0, []));
    } else if pc.SendFirst? || pc.SendContinuation? {
      var i, first := pc.session, pc.SendFirst?;
      PostEffect(w, i, first);
      PostCounts(w.server, i, first);
    }
  }

  lemma ReadsKeepServer(w: World, dirty: bool)
    requires w.hold.Some? && PcFits(w.server, w.hold.value.pc)
    ensures AfterRead(w, dirty).server == w.server && AfterError(w).server == w.server
    ensures forall pc :: Goto(w, pc).server == w.server
    ensures forall ok, seen :: Release(w, ok, seen).server == w.server
  {
    hide Newest, HasUserPrompt;
  }

  lemma PostCounts(server: Server, i: nat, first: bool)
    requires i < |server.sessions| && server.sessions[i].root
    ensures Continuations(Post(server, i, Message(true, false, first, false)).sessions)
      == Continuations(server.sessions) + if first then 0 else 1
  {
    var s, m := server.sessions[i], Message(true, false, first, false);
    InAppend(s.messages, m);
    ContinuationsUpdate(server.sessions, i, s.(messages := s.messages + [m]));
  }

  /** A request that fails ends the tick with an error, except while the prompt is looked for:
      that only uses up one of the polls. */
  lemma FailureEnds(w: World, outcome: Outcome, dirty: bool)
    requires Inv(w) && w.hold.Some? && outcome != Delivered
    ensures var w', pc := Do(w, outcome, dirty), w.hold.value.pc;
      if pc.ConfirmSession? || pc.ConfirmMessages? then
        && w'.server == w.server
        && if pc.polls > 1 then w'.hold.Some? && w'.hold.value.pc == ConfirmSession(pc.polls - 1)
           else w'.hold.None? && w'.finished == w.finished + 1
      else w'.hold.None? && w'.finished == w.finished
  {
    hide ServerOk, CountsOk, Post;
  }

  /** Neither does a look that finds no session, or no readable prompt in it. */
  lemma UnseenIsPolledAgain(w: World, dirty: bool)
    requires Inv(w) && w.hold.Some? && w.hold.value.sent && !Complete(w.server)
    ensures var w', pc := Do(w, Delivered, dirty), w.hold.value.pc;
      && w'.server == w.server
      && if pc.ConfirmSession? && SomeRoot(w.server.sessions)
         then w'.hold.Some? && w'.hold.value.pc.ConfirmMessages? && w'.hold.value.pc.polls == pc.polls
         else if pc.polls > 1 then w'.hold.Some? && w'.hold.value.pc == ConfirmSession(pc.polls - 1)
         else w'.hold.None? && w'.unconfirmed == w.unconfirmed + 1
  {
    hide HasUserPrompt, Newest, Complete, SomeRoot, AtMostOneRoot, PromptsStartTheRun, CountsOk, Accepted;
    NewestMeansRoot(w.server.sessions);
    if w.hold.value.pc.ConfirmMessages? {
      CompleteInOnlyRoot(w.server, w.hold.value.pc.session);
    }
  }
}
