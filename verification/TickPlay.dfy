/** The lock holder's requests, one after the other, each with its answer or its error, while
    the server moves between them: what a whole hold comes to. */
module TickPlay {
  import opened Wrappers
  import opened TickServer
  import opened TickProtocol
  import opened TickTheorems
  import opened TickOutcomes

  /** What the server does before a request arrives, and how the request fares. */
  datatype Reply = Reply(env: seq<EnvStep>, outcome: Outcome, dirty: bool)

  function Moved(server: Server, id: string, env: seq<EnvStep>): Server {
    if env == [] then server
    else
      var before := Moved(server, id, env[..|env| - 1]);
      var e := env[|env| - 1];
      if EnvEnabled(before, id, e) then ApplyEnv(before, id, e) else before
  }

  ghost predicate InTurn(w: World) {
    w.hold.Some? && PcFits(w.server, w.hold.value.pc)
  }

  /** One request of the holder, after the server has moved. */
  ghost function Turn(w: World, r: Reply): World {
    var w' := w.(server := Moved(w.server, w.id, r.env));
    if InTurn(w') then Do(w', r.outcome, r.dirty) else w'
  }

  ghost function Played(start: World, replies: nat -> Reply, n: nat): World {
    if n == 0 then start else Turn(Played(start, replies, n - 1), replies(n - 1))
  }

  lemma {:induction false} MovedKeeps(w: World, env: seq<EnvStep>)
    ensures Inv(w) ==> Inv(w.(server := Moved(w.server, w.id, env)))
    ensures Inv(w) ==> Accepted(Moved(w.server, w.id, env).sessions) == Accepted(w.server.sessions)
    ensures |Moved(w.server, w.id, env).sessions| >= |w.server.sessions|
  {
    hide Inv, Accepted;
    if env != [] {
      MovedKeeps(w, env[..|env| - 1]);
      var before, e := Moved(w.server, w.id, env[..|env| - 1]), env[|env| - 1];
      if EnvEnabled(before, w.id, e) && Inv(w) {
        EnvKeeps(w.(server := before), e);
        EnvKeepsCounts(w.(server := before), e);
      }
    }
  }

  /** However its requests fare, a holder keeps the protocol's invariant, and if they were
      all answered it lets go of the lock only with a first-run prompt accepted. */
  lemma {:induction false} PlayedKeeps(start: World, replies: nat -> Reply, n: nat)
    requires Inv(start) && start.hold.Some?
    ensures Inv(Played(start, replies, n))
    ensures (forall k: nat | k < n :: replies(k).outcome.Delivered?) ==>
      Played(start, replies, n).hold.Some? || Accepted(Played(start, replies, n).server.sessions) >= 1
  {
    hide Inv, Accepted, Do;
    if n > 0 {
      PlayedKeeps(start, replies, n - 1);
      var before, r := Played(start, replies, n - 1), replies(n - 1);
      MovedKeeps(before, r.env);
      var w := before.(server := Moved(before.server, before.id, r.env));
      if w.hold.Some? {
        InvFits(w);
      }
      if InTurn(w) {
        RequestKeeps(w, r.outcome, r.dirty);
        if r.outcome.Delivered? && Do(w, r.outcome, r.dirty).hold.None? {
          DeliveredEnds(w, r.dirty);
        }
      }
    }
  }

  lemma InvFits(w: World)
    requires Inv(w) && w.hold.Some?
    ensures PcFits(w.server, w.hold.value.pc)
  {
  }

  // ---- What a whole hold sends ----

  lemma {:induction false} MovedSendsNone(server: Server, id: string, env: seq<EnvStep>)
    ensures Continuations(Moved(server, id, env).sessions) == Continuations(server.sessions)
    ensures Complete(server) ==> Complete(Moved(server, id, env))
  {
    hide Complete, Continuations;
    if env != [] {
      MovedSendsNone(server, id, env[..|env| - 1]);
      var before, e := Moved(server, id, env[..|env| - 1]), env[|env| - 1];
      if EnvEnabled(before, id, e) {
        EnvSendsNone(before, id, e);
        if Complete(before) {
          EnvKeepsComplete(before, id, e);
        }
      }
    }
  }

  /** The world in which a request arrives. */
  ghost function Arriving(w: World, r: Reply): World {
    w.(server := Moved(w.server, w.id, r.env))
  }

  lemma Arrives(w: World, r: Reply)
    requires Inv(w)
    ensures var w' := Arriving(w, r);
      && Inv(w') && w'.hold == w.hold && w'.mode == w.mode && w'.id == w.id
      && Continuations(w'.server.sessions) == Continuations(w.server.sessions)
      && Accepted(w'.server.sessions) == Accepted(w.server.sessions)
      && (Complete(w.server) ==> Complete(w'.server))
      && (w.hold.Some? ==> PcFits(w'.server, w'.hold.value.pc) && Turn(w, r) == Do(w', r.outcome, r.dirty))
      && (w.hold.None? ==> Turn(w, r) == w')
      && Inv(Turn(w, r))
  {
    hide Inv, Complete, Continuations, Accepted, Do, Moved;
    MovedKeeps(w, r.env);
    MovedSendsNone(w.server, w.id, r.env);
    var w' := Arriving(w, r);
    if w.hold.Some? {
      InvFits(w');
      RequestKeeps(w', r.outcome, r.dirty);
    }
  }

  /** Where a holder that found the first run complete is after `n` answered requests. */
  predicate OnCourse(w: World, dirty: bool, n: nat) {
    match w.mode
    case SkipIfExists => if n < 3 then Looking(w, n) else w.hold.None?
    case SkipIfDirty =>
      if n < 3 then Looking(w, n)
      else if n == 3 then AtPc(w, CheckDirty)
      else if dirty then w.hold.None?
      else if n == 4 then AtPc(w, ContinueFind)
      else if n == 5 then w.hold.Some? && w.hold.value.pc.SendContinuation?
      else w.hold.None?
    case Continue =>
      if n < 3 then Looking(w, n)
      else if n == 3 then AtPc(w, ContinueFind)
      else if n == 4 then w.hold.Some? && w.hold.value.pc.SendContinuation?
      else w.hold.None?
  }

  predicate AtPc(w: World, pc: Pc) {
    w.hold.Some? && w.hold.value.pc == pc
  }

  predicate Looking(w: World, n: nat) {
    w.hold.Some? && if n == 0 then w.hold.value.pc == List else if n == 1 then w.hold.value.pc == FindSession else w.hold.value.pc.CheckMessages?
  }

  lemma CourseStep(w: World, dirty: bool, n: nat, d: bool)
    requires Inv(w) && Complete(w.server) && w.hold.Some? && OnCourse(w, dirty, n) && (n == 3 ==> d == dirty)
    ensures OnCourse(Do(w, Delivered, d), dirty, n + 1) && Do(w, Delivered, d).mode == w.mode
    ensures Complete(Do(w, Delivered, d).server)
  {
    hide HasUserPrompt, Newest, Complete, SomeRoot, AtMostOneRoot, PromptsStartTheRun, CountsOk, Accepted, Post;
    NewestMeansRoot(w.server.sessions);
    CompleteHasRoot(w.server);
    match w.hold.value.pc
    case CheckMessages(i) => CompleteInOnlyRoot(w.server, i);
    case SendContinuation(i) => PostEffect(w, i, false);
    case _ =>
  }

  lemma {:induction false} StaysOnCourse(start: World, replies: nat -> Reply, n: nat)
    requires Inv(start) && AtPc(start, List) && Complete(start.server)
    requires forall k: nat | k < n :: replies(k).outcome.Delivered?
    ensures var w := Played(start, replies, n);
      && Inv(w) && Complete(w.server) && w.mode == start.mode && OnCourse(w, replies(3).dirty, n)
      && Accepted(w.server.sessions) == Accepted(start.server.sessions)
      && Continuations(w.server.sessions) == Continuations(start.server.sessions)
           + if w.hold.None? && (start.mode.Continue? || (start.mode.SkipIfDirty? && !replies(3).dirty)) then 1 else 0
  {
    hide Inv, Complete, Continuations, Accepted, Do, Moved;
    if n > 0 {
      StaysOnCourse(start, replies, n - 1);
      var before, r := Played(start, replies, n - 1), replies(n - 1);
      Arrives(before, r);
      var w := Arriving(before, r);
      if w.hold.Some? {
        CourseStep(w, replies(3).dirty, n - 1, r.dirty);
        RequestSends(w, Delivered, r.dirty);
      }
    }
  }

  /** A tick that finds the first run complete, with all its requests answered, sends exactly
      one continuation if the mode is to continue, or is to skip dirty workspaces and this one
      was reported clean; otherwise none. It sends no first-run prompt. */
  lemma ContinuesIff(start: World, replies: nat -> Reply, n: nat)
    requires Inv(start) && AtPc(start, List) && Complete(start.server)
    requires (forall k: nat | k < n :: replies(k).outcome.Delivered?) && Played(start, replies, n).hold.None?
    ensures var after := Played(start, replies, n).server.sessions;
      && Accepted(after) == Accepted(start.server.sessions)
      && Continuations(after) == Continuations(start.server.sessions)
           + match start.mode case SkipIfExists => 0 case SkipIfDirty => if replies(3).dirty then 0 else 1 case Continue => 1
  {
    hide Inv, Complete, Continuations, Accepted, Played;
    StaysOnCourse(start, replies, n);
  }

  /** Where a holder creates or repairs a first run. */
  predicate FirstRunPc(pc: Pc) {
    pc.CreateWorkspace? || pc.CreateSession? || pc.SendFirst? || pc.RecoverFind? || pc.ConfirmSession? || pc.ConfirmMessages?
  }

  predicate ContinuePc(pc: Pc) {
    pc.CheckDirty? || pc.ContinueFind? || pc.SendContinuation?
  }

  ghost predicate CleanAt(start: World, replies: nat -> Reply, k: nat) {
    AtPc(Played(start, replies, k), CheckDirty) && replies(k).outcome.Delivered? && !replies(k).dirty
  }

  /** A dirty check of the hold was answered, and with clean. */
  ghost predicate CleanSeen(start: World, replies: nat -> Reply, n: nat) {
    exists k: nat | k < n :: CleanAt(start, replies, k)
  }

  ghost predicate WasInFirstRun(start: World, replies: nat -> Reply, n: nat) {
    exists k: nat | k <= n :: Played(start, replies, k).hold.Some? && FirstRunPc(Played(start, replies, k).hold.value.pc)
  }

  /** What a hold has sent so far, by where it is: `more` continuations and `firsts` first-run
      prompts. */
  predicate Tally(w: World, more: int, firsts: int, inFirstRun: bool, clean: bool) {
    && (more == 0 || (more == 1 && w.hold.None? && !inFirstRun))
    && (w.hold.Some? ==> (FirstRunPc(w.hold.value.pc) <==> inFirstRun))
    && (!inFirstRun ==> firsts == 0)
    && (more == 1 || (w.hold.Some? && ContinuePc(w.hold.value.pc)) ==> w.mode != SkipIfExists)
    && (w.mode == SkipIfDirty && (more == 1 || (w.hold.Some? && ContinuePc(w.hold.value.pc) && !w.hold.value.pc.CheckDirty?)) ==> clean)
    && (w.hold.Some? ==> var pc := w.hold.value.pc; !pc.ProgressList? && !pc.ProgressSession? && !pc.ProgressMessages?)
  }

  /** A request leads from one part of the code to another, never back. */
  lemma RequestLeads(w: World, outcome: Outcome, dirty: bool)
    requires Inv(w) && w.hold.Some? && !w.hold.value.pc.ProgressList? && !w.hold.value.pc.ProgressSession? && !w.hold.value.pc.ProgressMessages?
    ensures var w', pc := Do(w, outcome, dirty), w.hold.value.pc;
      && w'.mode == w.mode
      && (w'.hold.Some? ==>
            var pc' := w'.hold.value.pc;
            && !pc'.ProgressList? && !pc'.ProgressSession? && !pc'.ProgressMessages?
            && (FirstRunPc(pc) ==> FirstRunPc(pc')) && (ContinuePc(pc) ==> ContinuePc(pc'))
            && (ContinuePc(pc') ==> ContinuePc(pc) || w.mode != SkipIfExists)
            && (ContinuePc(pc') && !pc'.CheckDirty? && w.mode == SkipIfDirty ==>
                  (ContinuePc(pc) && !pc.CheckDirty?) || (pc.CheckDirty? && outcome.Delivered? && !dirty)))
  {
    hide HasUserPrompt, Newest, Complete, SomeRoot, AtMostOneRoot, PromptsStartTheRun, CountsOk, Accepted, Post;
    NewestMeansRoot(w.server.sessions);
    CompleteHasRoot(w.server);
  }

  lemma TallyStep(w: World, outcome: Outcome, dirty: bool, firsts: int, inFirstRun: bool, clean: bool)
    requires Inv(w) && w.hold.Some? && Tally(w, 0, firsts, inFirstRun, clean)
    ensures var w', pc := Do(w, outcome, dirty), w.hold.value.pc;
      && w'.mode == w.mode
      && Tally(w', if pc.SendContinuation? && outcome != Refused then 1 else 0,
               firsts + (if pc.SendFirst? && outcome != Refused then 1 else 0),
               inFirstRun || (w'.hold.Some? && FirstRunPc(w'.hold.value.pc)),
               clean || (pc.CheckDirty? && outcome.Delivered? && !dirty))
  {
    hide Inv, Do, ContinuePc, FirstRunPc;
    InvFits(w);
    RequestLeads(w, outcome, dirty);
    PcsApart(w.hold.value.pc);
    if Do(w, outcome, dirty).hold.Some? {
      PcsApart(Do(w, outcome, dirty).hold.value.pc);
    }
    if w.hold.value.pc.SendContinuation? {
      ContinuationEnds(w, outcome, dirty);
    }
  }

  lemma ContinuationEnds(w: World, outcome: Outcome, dirty: bool)
    requires Inv(w) && w.hold.Some? && w.hold.value.pc.SendContinuation?
    ensures Do(w, outcome, dirty).hold.None?
  {
    hide ServerOk, CountsOk, Post;
  }

  lemma {:induction false} SendsSoFar(start: World, replies: nat -> Reply, n: nat)
    requires Inv(start) && AtPc(start, List)
    ensures var w := Played(start, replies, n);
      && Inv(w) && w.mode == start.mode
      && Tally(w, Continuations(w.server.sessions) - Continuations(start.server.sessions), Accepted(w.server.sessions) - Accepted(start.server.sessions),
               WasInFirstRun(start, replies, n), CleanSeen(start, replies, n))
  {
    hide Inv, Continuations, Accepted, Tally, WasInFirstRun, CleanSeen, AtPc, Played;
    if n == 0 {
      assert Played(start, replies, 0) == start by { PlayedNothing(start, replies); }
      NothingSent(start, replies);
    } else {
      SendsSoFar(start, replies, n - 1);
      SendsNext(start, replies, n);
    }
  }

  lemma SendsNext(start: World, replies: nat -> Reply, n: nat)
    requires n > 0 && Inv(Played(start, replies, n - 1))
    requires var w := Played(start, replies, n - 1);
      Tally(w, Continuations(w.server.sessions) - Continuations(start.server.sessions), Accepted(w.server.sessions) - Accepted(start.server.sessions),
            WasInFirstRun(start, replies, n - 1), CleanSeen(start, replies, n - 1))
    ensures var w := Played(start, replies, n);
      && Inv(w) && w.mode == Played(start, replies, n - 1).mode
      && Tally(w, Continuations(w.server.sessions) - Continuations(start.server.sessions), Accepted(w.server.sessions) - Accepted(start.server.sessions),
               WasInFirstRun(start, replies, n), CleanSeen(start, replies, n))
  {
    hide Inv, Complete, Continuations, Accepted, Do, Moved, ContinuePc, FirstRunPc, WasInFirstRun, CleanSeen, Turn;
    var before, r := Played(start, replies, n - 1), replies(n - 1);
    Arrives(before, r);
    FirstRunGrows(start, replies, n);
    CleanGrows(start, replies, n);
    if before.hold.Some? {
      var w := Arriving(before, r);
      TallyStep(w, r.outcome, r.dirty, Accepted(before.server.sessions) - Accepted(start.server.sessions),
                WasInFirstRun(start, replies, n - 1), CleanSeen(start, replies, n - 1));
      RequestSends(w, r.outcome, r.dirty);
    }
  }

  lemma PlayedNothing(start: World, replies: nat -> Reply)
    ensures Played(start, replies, 0) == start
  {
  }

  lemma NothingSent(start: World, replies: nat -> Reply)
    requires AtPc(start, List)
    ensures Tally(start, 0, 0, WasInFirstRun(start, replies, 0), CleanSeen(start, replies, 0))
  {
    PlayedNothing(start, replies);
  }

  lemma PcsApart(pc: Pc)
    ensures !(FirstRunPc(pc) && ContinuePc(pc))
    ensures pc.SendFirst? ==> FirstRunPc(pc)
    ensures pc.SendContinuation? ==> ContinuePc(pc)
  {
  }

  lemma FirstRunGrows(start: World, replies: nat -> Reply, n: nat)
    requires n > 0
    ensures var w := Played(start, replies, n);
      WasInFirstRun(start, replies, n) <==> WasInFirstRun(start, replies, n - 1) || (w.hold.Some? && FirstRunPc(w.hold.value.pc))
  {
    hide Played, FirstRunPc;
  }

  lemma CleanGrows(start: World, replies: nat -> Reply, n: nat)
    requires n > 0
    ensures CleanSeen(start, replies, n) <==> CleanSeen(start, replies, n - 1) || CleanAt(start, replies, n - 1)
  {
    hide CleanAt;
  }

  /** However its requests fare, a hold sends at most one continuation, and only one: none in a
      hold that creates or repairs a first run, none when the mode is to skip what exists, and
      none when it is to skip dirty workspaces unless one was reported clean. A hold that does
      not create or repair sends no first-run prompt. */
  lemma HoldSendsOnce(start: World, replies: nat -> Reply, n: nat)
    requires Inv(start) && AtPc(start, List)
    ensures var before, after := start.server.sessions, Played(start, replies, n).server.sessions;
      && Continuations(before) <= Continuations(after) <= Continuations(before) + 1
      && (WasInFirstRun(start, replies, n) ==> Continuations(after) == Continuations(before))
      && (!WasInFirstRun(start, replies, n) ==> Accepted(after) == Accepted(before))
      && (Continuations(after) > Continuations(before) ==>
            start.mode != SkipIfExists && (start.mode == SkipIfDirty ==> CleanSeen(start, replies, n)))
  {
    hide Inv, Continuations, Accepted, Played, WasInFirstRun, CleanSeen;
    SendsSoFar(start, replies, n);
  }

  /** Where a tick that found no workspace is after `n` answered requests. */
  predicate FreshCourse(w: World, n: nat) {
    && w.hold.Some?
    && match n
       case 0 => w.hold.value.pc == List && w.id !in w.server.workspaces
       case 1 => w.hold.value.pc == CreateWorkspace
       case 2 => w.hold.value.pc == CreateSession(true)
       case 3 => w.hold.value.pc.SendFirst?
       case _ => w.hold.value.pc == ConfirmSession(30) && SomeRoot(w.server.sessions) && w.id in w.server.workspaces
  }

  lemma {:induction false} MovedAddsOthers(server: Server, id: string, env: seq<EnvStep>)
    ensures id in Moved(server, id, env).workspaces <==> id in server.workspaces
  {
    if env != [] {
      MovedAddsOthers(server, id, env[..|env| - 1]);
    }
  }

  lemma FreshStep(w: World, n: nat, dirty: bool)
    requires Inv(w) && n < 4 && FreshCourse(w, n)
    ensures FreshCourse(Do(w, Delivered, dirty), n + 1) && Do(w, Delivered, dirty).id == w.id
  {
    hide HasUserPrompt, Newest, Complete, SomeRoot, AtMostOneRoot, PromptsStartTheRun, CountsOk, Accepted, Post;
    if n == 3 {
      PostEffect(w, w.hold.value.pc.session, true);
      RequestKeeps(w, Delivered, dirty);
    }
  }

  lemma {:induction false} FreshSoFar(start: World, replies: nat -> Reply, n: nat)
    requires Inv(start) && FreshCourse(start, 0) && n <= 4
    requires forall k: nat | k < n :: replies(k).outcome.Delivered?
    ensures var w := Played(start, replies, n);
      && Inv(w) && FreshCourse(w, n) && w.id == start.id
      && Accepted(w.server.sessions) == Accepted(start.server.sessions) + (if n == 4 then 1 else 0)
      && Continuations(w.server.sessions) == Continuations(start.server.sessions)
  {
    hide Inv, Complete, Continuations, Accepted, Do, Moved, SomeRoot;
    if n > 0 {
      FreshSoFar(start, replies, n - 1);
      var before, r := Played(start, replies, n - 1), replies(n - 1);
      Arrives(before, r);
      MovedAddsOthers(before.server, before.id, r.env);
      FreshStep(Arriving(before, r), n - 1, r.dirty);
      RequestSends(Arriving(before, r), Delivered, r.dirty);
    }
  }

  /** A tick that finds no workspace, with its requests answered: after four of them the
      workspace is there, with a root session and a first-run prompt accepted in it, and the
      prompt will be looked for 30 times. */
  lemma FreshTaskIsStarted(start: World, replies: nat -> Reply)
    requires Inv(start) && AtPc(start, List) && start.id !in start.server.workspaces
    requires forall k: nat | k < 4 :: replies(k).outcome.Delivered?
    ensures var w := Played(start, replies, 4);
      && AtPc(w, ConfirmSession(30)) && start.id in w.server.workspaces && SomeRoot(w.server.sessions)
      && Accepted(w.server.sessions) == Accepted(start.server.sessions) + 1
      && Continuations(w.server.sessions) == Continuations(start.server.sessions)
  {
    hide Inv, Continuations, Accepted, SomeRoot, Played;
    FreshSoFar(start, replies, 4);
  }

  /** A prompt that is never read back, because no read succeeds, is looked for exactly
      `polls` times. */
  lemma {:induction false} PollsRunOut(start: World, replies: nat -> Reply, polls: nat, n: nat)
    requires Inv(start) && AtPc(start, ConfirmSession(polls)) && polls > 0
    requires forall k: nat | k < n :: !replies(k).outcome.Delivered?
    ensures Inv(Played(start, replies, n))
    ensures if n < polls then AtPc(Played(start, replies, n), ConfirmSession(polls - n)) else Played(start, replies, n).hold.None?
  {
    hide Inv, Moved, Do;
    if n > 0 {
      PollsRunOut(start, replies, polls, n - 1);
      var before, r := Played(start, replies, n - 1), replies(n - 1);
      Arrives(before, r);
      if before.hold.Some? {
        FailureEnds(Arriving(before, r), r.outcome, r.dirty);
      }
    }
  }

  /** A tick that waited for the lock and finds the first run complete leaves everything alone. */
  lemma {:induction false} WaiterLooks(start: World, replies: nat -> Reply, n: nat)
    requires Inv(start) && AtPc(start, ProgressList) && Complete(start.server)
    requires forall k: nat | k < n :: replies(k).outcome.Delivered?
    ensures var w := Played(start, replies, n);
      && Inv(w) && Complete(w.server)
      && Accepted(w.server.sessions) == Accepted(start.server.sessions)
      && Continuations(w.server.sessions) == Continuations(start.server.sessions)
      && (if n == 0 then AtPc(w, ProgressList) else if n == 1 then AtPc(w, ProgressSession)
          else if n == 2 then w.hold.Some? && w.hold.value.pc.ProgressMessages? else w.hold.None?)
  {
    hide Inv, Complete, Continuations, Accepted, Do, Moved;
    if n > 0 {
      WaiterLooks(start, replies, n - 1);
      var before, r := Played(start, replies, n - 1), replies(n - 1);
      Arrives(before, r);
      if before.hold.Some? {
        WaiterStep(Arriving(before, r), r.dirty);
        RequestSends(Arriving(before, r), Delivered, r.dirty);
      }
    }
  }

  predicate LooksFirst(pc: Pc) {
    pc.ProgressList? || pc.ProgressSession? || pc.ProgressMessages?
  }

  lemma WaiterStep(w: World, dirty: bool)
    requires Inv(w) && w.hold.Some? && LooksFirst(w.hold.value.pc) && Complete(w.server)
    ensures PastLook(Do(w, Delivered, dirty), w.hold.value.pc) && Do(w, Delivered, dirty).server == w.server
  {
    hide HasUserPrompt, Newest, Complete, SomeRoot, AtMostOneRoot, PromptsStartTheRun, CountsOk, Accepted;
    NewestMeansRoot(w.server.sessions);
    CompleteHasRoot(w.server);
    if w.hold.value.pc.ProgressMessages? {
      CompleteInOnlyRoot(w.server, w.hold.value.pc.session);
    }
  }

  /** Without a workspace, a root session or a readable prompt in it, the tick goes on as if it
      had not waited. */
  lemma WaiterGoesOn(w: World, dirty: bool)
    requires Inv(w) && w.hold.Some? && LooksFirst(w.hold.value.pc) && !Complete(w.server)
    ensures var w', pc := Do(w, Delivered, dirty), w.hold.value.pc;
      && w'.server == w.server
      && if (pc.ProgressList? && w.id in w.server.workspaces) || (pc.ProgressSession? && SomeRoot(w.server.sessions))
         then PastLook(w', pc) else AtPc(w', List)
  {
    hide HasUserPrompt, Newest, Complete, SomeRoot, AtMostOneRoot, PromptsStartTheRun, CountsOk, Accepted;
    NewestMeansRoot(w.server.sessions);
    if w.hold.value.pc.ProgressMessages? {
      CompleteInOnlyRoot(w.server, w.hold.value.pc.session);
    }
  }

  predicate PastLook(w: World, pc: Pc) {
    match pc
    case ProgressList => AtPc(w, ProgressSession)
    case ProgressSession => w.hold.Some? && w.hold.value.pc.ProgressMessages?
    case _ => w.hold.None?
  }
}
