/** The lock holder's own code, from the moment it has the lock to the moment it lets go:
    one request after another, each with its answer or its error, and a server that moves
    between them. It plays the protocol's `Request` actions and nothing else. */
module TickProcess {
  import opened Wrappers
  import opened TickServer
  import opened TickProtocol
  import opened TickTheorems
  import opened TickOutcomes
  import opened TickPlay

  lemma ReadsChangeNothing(w: World, dirty: bool)
    requires InTurn(w)
    ensures AfterRead(w, dirty).server == w.server && AfterRead(w, dirty).id == w.id && AfterRead(w, dirty).mode == w.mode
    ensures AfterError(w).server == w.server && AfterError(w).id == w.id && AfterError(w).mode == w.mode
  {
    hide Newest, HasUserPrompt;
  }

  lemma WritesEndInEffect(w: World)
    requires InTurn(w) && Writes(w.hold.value.pc)
    ensures var e := Effect(w);
      && e.hold.Some? && e.id == w.id && e.mode == w.mode && e.hold.value.pc == w.hold.value.pc
      && AfterWrite(w, e).server == e.server && AfterWrite(w, e).id == w.id && AfterWrite(w, e).mode == w.mode
      && AfterError(e).server == e.server && AfterError(e).id == w.id && AfterError(e).mode == w.mode
    ensures AfterError(Effect(w)).hold.None? && AfterError(w).hold.None?
    ensures AfterError(Effect(w)).finished == AfterError(w).finished == w.finished
  {
    hide Post;
  }

  class Tick {
    const id: string
    const mode: Mode
    const replies: nat -> Reply
    var server: Server
    var next: nat
    ghost const start: World
    ghost var w: World

    ghost predicate Valid()
      reads this
    {
      && w == Played(start, replies, next)
      && w.server == server && w.id == id && w.mode == mode
    }

    ghost predicate At(pc: Pc)
      reads this
    {
      Valid() && w.hold.Some? && w.hold.value.pc == pc && PcFits(server, pc)
    }

    ghost predicate Released()
      reads this
    {
      Valid() && w.hold.None?
    }

    constructor (id: string, mode: Mode, server: Server, replies: nat -> Reply, ghost start: World)
      requires start.server == server && start.id == id && start.mode == mode
      ensures this.id == id && this.mode == mode && this.replies == replies && this.start == start
      ensures Valid() && w == start && this.server == server && next == 0
    {
      this.id, this.mode, this.server, this.replies, next := id, mode, server, replies, 0;
      this.start, w := start, start;
    }

    /** A request is under way: the server has moved on. */
    method Await() returns (r: Reply)
      requires Valid() && w.hold.Some? && PcFits(server, w.hold.value.pc)
      modifies this`server, this`next
      ensures r == replies(old(next)) && next == old(next) + 1
      ensures server == Moved(old(server), id, r.env) && PcFits(server, w.hold.value.pc)
    {
      r := replies(next);
      next := next + 1;
      MovedKeeps(w, r.env);
      server := Moved(server, id, r.env);
    }

    /** A read request; the answer is the server as it is now. */
    method Get() returns (ok: bool, dirty: bool)
      requires Valid() && w.hold.Some? && PcFits(server, w.hold.value.pc) && !Writes(w.hold.value.pc)
      modifies this
      ensures Valid() && PcFits(server, old(w).hold.value.pc)
      ensures w == (if ok then AfterRead(old(w).(server := server), dirty) else AfterError(old(w).(server := server)))
    {
      hide Newest, HasUserPrompt, Effect, AfterRead, AfterError, AfterWrite;
      var r := Await();
      ok, dirty := r.outcome.Delivered?, r.dirty;
      ReadsChangeNothing(w.(server := server), dirty);
      w := Turn(w, r);
    }

    /** The server's answer to a list request, searched for the task's workspace. */
    method FindWorkspaceByID(workspaces: seq<string>) returns (found: bool)
      ensures found == (id in workspaces)
    {
      for i := 0 to |workspaces|
        invariant id !in workspaces[..i]
      {
        if workspaces[i] == id {
          return true;
        }
        assert workspaces[..i + 1] == workspaces[..i] + [workspaces[i]];
      }
      assert workspaces[..|workspaces|] == workspaces;
      found := false;
    }

    method SessionHasUserPrompt(s: Session) returns (found: bool)
      ensures found <==> exists k | 0 <= k < |s.messages| :: s.messages[k].user && !s.messages[k].blank && s.messages[k].visible
      ensures found == HasUserPrompt(s)
    {
      for i := 0 to |s.messages|
        invariant forall k | 0 <= k < i :: !(s.messages[k].user && !s.messages[k].blank && s.messages[k].visible)
      {
        if s.messages[i].user && !s.messages[i].blank && s.messages[i].visible {
          return true;
        }
      }
      found := false;
    }

    /** `readScheduledTaskProgress`, run by a tick that had to wait for the lock. */
    method ReadScheduledTaskProgress() returns (ok: bool, complete: bool)
      requires At(ProgressList)
      modifies this
      ensures Valid() && (if ok && !complete then At(List) else Released())
      ensures w.finished == old(w.finished) + if ok && complete then 1 else 0
    {
      hide HasUserPrompt, Newest, Played, Turn;
      ok, complete := false, false;
      var dirty;
      ok, dirty := Get();
      if !ok {
        return;
      }
      var found := FindWorkspaceByID(server.workspaces);
      if !found {
        return;
      }
      ok, dirty := Get();
      if !ok {
        return;
      }
      NewestIsRoot(server.sessions);
      var sess := FindMostRecentSession(server.sessions);
      if sess.None? {
        return;
      }
      ok, dirty := Get();
      if !ok {
        return;
      }
      complete := SessionHasUserPrompt(server.sessions[sess.value]);
    }

    /** `scheduledWorkspaceFirstRunComplete`, before a first run and while confirming one. */
    method FirstRunComplete(ghost polls: nat) returns (ok: bool, complete: bool)
      requires At(FindSession) || At(ConfirmSession(polls))
      modifies this
      ensures Valid()
      ensures old(w).hold.value.pc == FindSession ==>
        if !ok then Released()
        else if !complete then At(RecoverFind)
        else if mode.SkipIfExists? then Released()
        else At(if mode.SkipIfDirty? then CheckDirty else ContinueFind)
      ensures old(w).hold.value.pc != FindSession ==>
        if (ok && complete) || polls <= 1 then Released() else At(ConfirmSession(polls - 1))
      ensures w.finished == old(w.finished) + if w.hold.None? && (ok || old(w).hold.value.pc != FindSession) then 1 else 0
    {
      hide HasUserPrompt, Newest, Played, Turn;
      ok, complete := false, false;
      var dirty;
      ok, dirty := Get();
      if !ok {
        return;
      }
      NewestIsRoot(server.sessions);
      var sess := FindMostRecentSession(server.sessions);
      if sess.None? {
        return;
      }
      ok, dirty := Get();
      if !ok {
        return;
      }
      complete := SessionHasUserPrompt(server.sessions[sess.value]);
    }

    /** Polls until the prompt can be read back or the time is up. */
    method ConfirmFirstRunVisible()
      requires At(ConfirmSession(POLLS))
      modifies this
      ensures Released()
      ensures w.finished == old(w.finished) + 1
    {
      hide Played, Turn, Moved;
      var polls := POLLS;
      while true
        invariant polls > 0 && At(ConfirmSession(polls)) && w.finished == old(w.finished)
        decreases polls
      {
        var ok, complete := FirstRunComplete(polls);
        if ok && complete {
          return;
        }
        polls := polls - 1;
        if polls == 0 {
          return;
        }
      }
    }

    /** A write request: `doing` is what the server does with it if it arrives. */
    method PostRequest(doing: Server -> Server) returns (ok: bool, seen: Server)
      requires Valid() && w.hold.Some? && PcFits(server, w.hold.value.pc) && Writes(w.hold.value.pc)
      requires forall s: Server :: PcFits(s, w.hold.value.pc) ==> doing(s) == Effect(w.(server := s)).server
      modifies this
      ensures Valid() && PcFits(seen, old(w).hold.value.pc)
      ensures var w0 := old(w).(server := seen);
        ok ==> w == AfterWrite(w0, Effect(w0)) && server == Effect(w0).server
      ensures !ok ==> w.hold.None?
      ensures !ok ==> w.finished == old(w.finished)
    {
      hide Newest, HasUserPrompt, AfterRead, AfterError, AfterWrite, Effect;
      var r := Await();
      ReadsChangeNothing(w.(server := server), r.dirty);
      WritesEndInEffect(w.(server := server));
      seen := server;
      ok := r.outcome.Delivered?;
      if !r.outcome.Refused? {
        server := doing(server);
      }
      w := Turn(w, r);
    }

    /** Opens a session in the workspace and sends the first-run prompt to it. */
    method DispatchSessionAndPrompt(ghost confirm: bool) returns (ok: bool)
      requires At(CreateSession(confirm))
      modifies this
      ensures if ok && confirm then At(ConfirmSession(POLLS)) else Released()
      ensures w.finished == old(w.finished) + if ok && !confirm then 1 else 0
    {
      hide HasUserPrompt, Newest, Played, Turn, Moved;
      var seen;
      ok, seen := PostRequest((s: Server) => s.(sessions := s.sessions + [Session(true, 0, [])]));
      if !ok {
        return;
      }
      ok := SendPromptAsync(|seen.sessions|, true, confirm);
    }

    method SendPromptAsync(session: nat, first: bool, ghost confirm: bool) returns (ok: bool)
      requires At(if first then SendFirst(session, confirm) else SendContinuation(session))
      modifies this
      ensures if ok && first && confirm then At(ConfirmSession(POLLS)) else Released()
      ensures w.finished == old(w.finished) + if ok && !(first && confirm) then 1 else 0
    {
      hide HasUserPrompt, Newest, Played, Turn, Moved;
      var seen;
      ok, seen := PostRequest((s: Server) =>
        if session < |s.sessions| then Post(s, session, Message(true, false, first, false)) else s);
    }

    /** `postContinuation`: into the newest root session, or whatever `onNoSession` does. */
    method PostContinuation(first: bool) returns (ok: bool)
      requires At(if first then RecoverFind else ContinueFind)
      modifies this
      ensures if ok && first then At(ConfirmSession(POLLS)) else Released()
      ensures w.finished == old(w.finished) + if ok && !first then 1 else 0
    {
      hide HasUserPrompt, Newest, Played, Turn, Moved;
      var dirty;
      ok, dirty := Get();
      if !ok {
        return;
      }
      NewestIsRoot(server.sessions);
      var sess := FindMostRecentSession(server.sessions);
      if sess.None? {
        ok := DispatchSessionAndPrompt(first);
        return;
      }
      ok := SendPromptAsync(sess.value, first, true);
    }

    /** A missing workspace: create it, start its first run and confirm it. */
    method CreateFirstRun() returns (ok: bool)
      requires At(CreateWorkspace)
      modifies this
      ensures Released()
      ensures w.finished == old(w.finished) + if ok then 1 else 0
    {
      hide HasUserPrompt, Newest, Played, Turn, Moved;
      var seen;
      ok, seen := PostRequest((s: Server) => s.(workspaces := s.workspaces + [id]));
      if !ok {
        return;
      }
      ok := DispatchSessionAndPrompt(true);
      if ok {
        ConfirmFirstRunVisible();
      }
    }

    /** A completed first run: continue it if the mode allows. */
    method ContinueRun() returns (ok: bool)
      requires if mode.SkipIfExists? then Released() else At(if mode.SkipIfDirty? then CheckDirty else ContinueFind)
      modifies this
      ensures Released()
      ensures w.finished == old(w.finished) + if ok && !mode.SkipIfExists? then 1 else 0
      ensures mode.SkipIfExists? ==> ok
    {
      hide HasUserPrompt, Newest, Played, Turn, Moved;
      ok := true;
      if mode.SkipIfExists? {
        return;
      }
      if mode.SkipIfDirty? {
        var dirty;
        ok, dirty := Get();
        if !ok || dirty {
          return;
        }
      }
      ok := PostContinuation(false);
    }

    /** The scheduled branch once the lock is held: create or repair the first run, then
        do what the mode says. */
    method TickScheduled() returns (ok: bool)
      requires At(List)
      modifies this
      ensures Released()
      ensures w.finished == old(w.finished) + if ok then 1 else 0
    {
      hide HasUserPrompt, Newest, Played, Turn, Moved;
      var dirty, complete;
      ok, dirty := Get();
      if !ok {
        return;
      }
      var existing := FindWorkspaceByID(server.workspaces);
      if !existing {
        ok := CreateFirstRun();
        return;
      }
      ok, complete := FirstRunComplete(0);
      if !ok {
        return;
      }
      if !complete {
        ok := PostContinuation(true);
        if ok {
          ConfirmFirstRunVisible();
        }
        return;
      }
      ok := ContinueRun();
    }

    /** From the lock to its release. Whatever the answers, the code plays the protocol and
        stops; with every request answered, the server has accepted a first-run prompt. A tick
        that did not wait sends at most one continuation, and if it finds the first run complete
        and its requests are answered, exactly one where the mode asks for it. It reports success
        exactly when the hold ends normally. */
    method RunTick(waited: bool) returns (ok: bool)
      requires At(if waited then ProgressList else List)
      requires Inv(start) && start.hold.Some?
      modifies this
      ensures Released() && Inv(w) && w == Played(start, replies, next)
      ensures (forall k: nat | k < next :: replies(k).outcome.Delivered?) ==> Accepted(server.sessions) >= 1
      ensures Accepted(server.sessions) <= 1 + w.unconfirmed
      ensures old(next) == 0 && !waited ==>
        Continuations(start.server.sessions) <= Continuations(server.sessions) <= Continuations(start.server.sessions) + 1
      ensures old(next) == 0 && !waited && Complete(start.server) && (forall k: nat | k < next :: replies(k).outcome.Delivered?) ==>
        Continuations(server.sessions) == Continuations(start.server.sessions)
          + match mode case SkipIfExists => 0 case SkipIfDirty => if replies(3).dirty then 0 else 1 case Continue => 1
      ensures w.finished == old(w.finished) + if ok then 1 else 0
    {
      hide HasUserPrompt, Newest, Turn, Moved, AtMostOneRoot, SomeRoot, PromptsStartTheRun, Complete, Continuations;
      ghost var early := next == 0 && !waited;
      assert early ==> AtPc(start, List);
      ok := true;
      if waited {
        var complete;
        ok, complete := ReadScheduledTaskProgress();
        if ok && !complete {
          ok := TickScheduled();
        }
      } else {
        ok := TickScheduled();
      }
      PlayedKeeps(start, replies, next);
      if early {
        HoldSendsOnce(start, replies, next);
        if Complete(start.server) && forall k: nat | k < next :: replies(k).outcome.Delivered? {
          ContinuesIff(start, replies, next);
        }
      }
    }
  }
}
