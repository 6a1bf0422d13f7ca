/** The loop plugin's durable record and what each stretch of its handlers between
    two awaits does to it. */
module LoopModel {
  import opened Wrappers
  import opened Text
  import opened Sentinel

  const SCHEMA_VERSION := 2
  const MIN_MAX_ITERATIONS := 1
  const MAX_MAX_ITERATIONS := 10_000
  const MAX_CONSECUTIVE_FAILURES := 3

  datatype LoopState = LoopState(
    schemaVersion: int,
    runID: string,
    iteration: int,
    maxIterations: int,
    sentinel: string,
    sessionID: string,
    task: string,
    consecutiveFailures: int
  )

  /** The state file: missing, not a record of the expected shape, or a record. */
  datatype File = Absent | Junk | Record(state: LoopState)

  /** The field checks of `readState`. */
  predicate Accepts(s: LoopState) {
    && s.schemaVersion == SCHEMA_VERSION
    && s.runID != ""
    && s.iteration >= 0
    && MIN_MAX_ITERATIONS <= s.maxIterations <= MAX_MAX_ITERATIONS
    && ValidSentinel(s.sentinel)
    && s.sessionID != ""
    && Trim(s.task) != ""
    && s.consecutiveFailures >= 0
  }

  function Read(f: File): Option<LoopState> {
    if f.Record? && Accepts(f.state) then Some(f.state) else None
  }

  /** Reading deletes a file it cannot accept. */
  function AfterRead(f: File): File {
    if Read(f).Some? then f else Absent
  }

  /** `stateStillOurs`. */
  predicate Ours(f: File, original: LoopState) {
    && Read(f).Some?
    && Read(f).value.sessionID == original.sessionID
    && Read(f).value.runID == original.runID
  }

  /** What `session.get` told about a session. */
  datatype Kind = Root | Subagent | Missing | Unknown

  /** What `session.messages` gave: an error, no assistant message, or the text of the last one. */
  datatype Reply = Failed | NoAssistant | Said(text: string)

  /** Where a pass over an idle session waits, with its local snapshot of the record. */
  datatype Phase =
    | AwaitKind(snap: LoopState)
    | AwaitMessages(snap: LoopState)
    | AwaitPrompt(snap: LoopState)
    | Returned

  /** The first line of a continuation names the run's label and bound. */
  datatype Prompt = Prompt(runID: string, number: int, max: int)

  datatype Stretch = Stretch(file: File, phase: Phase, prompts: seq<Prompt>)

  function BeginPass(f: File, sessionID: string): Stretch {
    match Read(f)
    case Some(s) => Stretch(f, if s.sessionID == sessionID then AwaitKind(s) else Returned, [])
    case None => Stretch(AfterRead(f), Returned, [])
  }

  function AfterKind(f: File, snap: LoopState, kind: Kind): Stretch {
    match kind
    case Root => Stretch(f, AwaitMessages(snap), [])
    case Missing => Stretch(Absent, Returned, [])
    case _ => Stretch(f, Returned, [])
  }

  /** `onFailure`: only the write-back checks that the record is still this run's. */
  function AfterFailure(f: File, snap: LoopState): Stretch {
    var failures := snap.consecutiveFailures + 1;
    if failures >= MAX_CONSECUTIVE_FAILURES then Stretch(Absent, Returned, [])
    else if !Ours(f, snap) then Stretch(AfterRead(f), Returned, [])
    else Stretch(Record(snap.(consecutiveFailures := failures)), Returned, [])
  }

  function AfterMessages(f: File, snap: LoopState, reply: Reply): Stretch {
    match reply
    case Failed => AfterFailure(f, snap)
    case NoAssistant => Stretch(f, Returned, [])
    case Said(text) =>
      var next := snap.iteration + 1;
      if Matches(text, snap.sentinel) then Stretch(Absent, Returned, [])
      else if snap.iteration >= snap.maxIterations then Stretch(Absent, Returned, [])
      else if !Ours(f, snap) then Stretch(AfterRead(f), Returned, [])
      else Stretch(Record(snap.(iteration := next, consecutiveFailures := 0)),
                   AwaitPrompt(snap.(iteration := next)),
                   [Prompt(snap.runID, next, snap.maxIterations)])
  }

  function AfterPrompt(f: File, snap: LoopState, ok: bool): Stretch {
    if ok then Stretch(f, Returned, []) else AfterFailure(f, snap)
  }

  datatype StartArgs = StartArgs(sessionID: string, task: string, sentinel: string, maxIterations: int)

  predicate ValidArgs(a: StartArgs) {
    && Trim(a.task) != ""
    && ValidSentinel(a.sentinel)
    && MIN_MAX_ITERATIONS <= a.maxIterations <= MAX_MAX_ITERATIONS
  }

  function NewRun(a: StartArgs, runID: string): LoopState {
    LoopState(SCHEMA_VERSION, runID, 0, a.maxIterations, a.sentinel, a.sessionID, a.task, 0)
  }
}
