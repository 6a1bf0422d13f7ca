/** The server as scheduled ticks of one task see it: the workspace list, the sessions of
    the task's workspace, and prompts that are accepted before they become readable. */
module TickServer {
  import opened Wrappers

  /** `first` marks a first-run prompt; `blank` a text that trims to nothing. */
  datatype Message = Message(user: bool, blank: bool, first: bool, visible: bool)

  /** A session without a parent is a root session. */
  datatype Session = Session(root: bool, updated: int, messages: seq<Message>)

  datatype Server = Server(workspaces: seq<string>, sessions: seq<Session>)

  function Count<T(==)>(s: seq<T>, x: T): nat {
    if s == [] then 0 else Count(s[..|s| - 1], x) + if s[|s| - 1] == x then 1 else 0
  }

  /** The most recently updated root session; among equals the one listed first. */
  function Newest(sessions: seq<Session>): Option<nat> {
    if sessions == [] then None
    else
      var best, last := Newest(sessions[..|sessions| - 1]), sessions[|sessions| - 1];
      if last.root && (best.None? || best.value >= |sessions| - 1 || last.updated > sessions[best.value].updated)
      then Some(|sessions| - 1) else best
  }

  lemma {:induction false} NewestIsRoot(sessions: seq<Session>)
    ensures Newest(sessions).None? <==> forall i | 0 <= i < |sessions| :: !sessions[i].root
    ensures Newest(sessions).Some? ==>
      var b := Newest(sessions).value;
      && b < |sessions| && sessions[b].root
      && (forall i | 0 <= i < |sessions| && sessions[i].root :: sessions[i].updated <= sessions[b].updated)
      && (forall i | 0 <= i < b && sessions[i].root :: sessions[i].updated < sessions[b].updated)
  {
    if sessions != [] {
      NewestIsRoot(sessions[..|sessions| - 1]);
    }
  }

  /** `findMostRecentSession`: one pass keeping the best root session so far. */
  method FindMostRecentSession(sessions: seq<Session>) returns (best: Option<nat>)
    ensures best == Newest(sessions)
  {
    best := None;
    var i := 0;
    while i < |sessions|
      invariant 0 <= i <= |sessions|
      invariant best == Newest(sessions[..i])
      invariant best.Some? ==> best.value < i
    {
      assert sessions[..i + 1][..i] == sessions[..i];
      if sessions[i].root && (best.None? || sessions[i].updated > sessions[best.value].updated) {
        best := Some(i);
      }
      i := i + 1;
    }
    assert sessions[..i] == sessions;
  }

  /** A user message with some text in it can be read back. */
  predicate HasUserPrompt(s: Session) {
    exists m | m in s.messages :: m.user && !m.blank && m.visible
  }

  function FirstRunPrompts(messages: seq<Message>): nat {
    if messages == [] then 0
    else FirstRunPrompts(messages[..|messages| - 1]) + if messages[|messages| - 1].first then 1 else 0
  }

  /** First-run prompts the server has accepted, readable yet or not. */
  function Accepted(sessions: seq<Session>): nat {
    if sessions == [] then 0
    else Accepted(sessions[..|sessions| - 1]) + FirstRunPrompts(sessions[|sessions| - 1].messages)
  }

  lemma AcceptedAppend(sessions: seq<Session>, s: Session)
    ensures Accepted(sessions + [s]) == Accepted(sessions) + FirstRunPrompts(s.messages)
  {
    assert (sessions + [s])[..|sessions|] == sessions;
  }

  lemma {:induction false} AcceptedUpdate(sessions: seq<Session>, i: nat, s: Session)
    requires i < |sessions|
    ensures Accepted(sessions[i := s]) == Accepted(sessions) - FirstRunPrompts(sessions[i].messages) + FirstRunPrompts(s.messages)
    decreases |sessions|
  {
    var n := |sessions| - 1;
    if i < n {
      assert sessions[i := s][..n] == sessions[..n][i := s];
      AcceptedUpdate(sessions[..n], i, s);
    } else {
      assert sessions[i := s][..n] == sessions[..n];
    }
  }

  lemma FirstRunAppend(messages: seq<Message>, m: Message)
    ensures FirstRunPrompts(messages + [m]) == FirstRunPrompts(messages) + if m.first then 1 else 0
  {
    assert (messages + [m])[..|messages|] == messages;
  }

  lemma {:induction false} FirstRunUpdate(messages: seq<Message>, k: nat, m: Message)
    requires k < |messages| && m.first == messages[k].first
    ensures FirstRunPrompts(messages[k := m]) == FirstRunPrompts(messages)
    decreases |messages|
  {
    var n := |messages| - 1;
    if k < n {
      assert messages[k := m][..n] == messages[..n][k := m];
      FirstRunUpdate(messages[..n], k, m);
    } else {
      assert messages[k := m][..n] == messages[..n];
    }
  }
}
