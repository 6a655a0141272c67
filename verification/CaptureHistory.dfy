/** What a schedule did, read from its calls and their results alone: who made, began and ended each object,
    what each task is inside of, what the next call must answer, and what each record must say. None of it
    looks at the state of the machine, but for History, which notes what the machine answered. */
module CaptureHistory {
  import opened Options
  import opened Sampling
  import opened CaptureRecords
  import opened CaptureWorld

  // A call and what it answered.
  datatype Entry = Entry(task: TaskKey, op: Op, result: Result)

  // ---- The last call of a kind ----

  datatype What =
    | MakesRun(r: RunKey) | TriesRun(r: RunKey) | BeginsRun(r: RunKey) | EndsRun(r: RunKey)
    | MakesTurn(k: TurnKey) | BeginsTurn(k: TurnKey) | EndsTurn(k: TurnKey) | SaysFor(k: TurnKey)
    | MakesTool(l: ToolKey) | CallsTool(l: ToolKey) | ClosesTool(l: ToolKey)
    | Forks(t: TaskKey)

  predicate Is(e: Entry, what: What) {
    match what
    case MakesRun(r) => e.result == Done && e.op.CreateRun? && e.op.run == r
    // A run counts as entered once its entry gets beyond the first check.
    case TriesRun(r) => e.result in {Done, Invalid, SelfParent} && e.op.BeginRun? && e.op.run == r
    case BeginsRun(r) => e.result == Done && e.op.BeginRun? && e.op.run == r
    case EndsRun(r) => e.result == Done && e.op.EndRun? && e.op.run == r
    case MakesTurn(k) => e.result == Done && e.op.CreateTurn? && e.op.turn == k
    case BeginsTurn(k) => e.result == Done && e.op.BeginTurn? && e.op.turn == k
    case EndsTurn(k) => e.result == Done && e.op.EndTurn? && e.op.turn == k
    case SaysFor(k) => e.result == Done && e.op.SetTurnOutput? && e.op.turn == k
    case MakesTool(l) => e.result == Done && e.op.CreateTool? && e.op.tool == l
    // A tool context is entered or closed even if its event then fails.
    case CallsTool(l) => e.result in {Done, Invalid} && e.op.BeginTool? && e.op.tool == l
    case ClosesTool(l) => e.result in {Done, Invalid} && e.op.EndTool? && e.op.tool == l
    case Forks(t) => e.result == Done && e.op.Fork? && e.op.child == t
  }

  function Last(h: seq<Entry>, what: What): (n: Option<nat>)
    ensures n.Some? ==> n.value < |h| && Is(h[n.value], what)
  {
    if h == [] then None
    else if Is(h[|h| - 1], what) then Some(|h| - 1)
    else Last(h[..|h| - 1], what)
  }

  predicate Did(h: seq<Entry>, what: What) {
    Last(h, what).Some?
  }

  // The call itself, where there is one.
  function Of(h: seq<Entry>, what: What): (e: Entry)
    requires Did(h, what)
    ensures Is(e, what)
  {
    h[Last(h, what).value]
  }

  // What had happened before it.
  function Earlier(h: seq<Entry>, what: What): (before: seq<Entry>)
    requires Did(h, what)
    ensures |before| < |h| && before <= h
  {
    h[..Last(h, what).value]
  }

  // ---- Where a task is ----

  predicate Known(h: seq<Entry>, first: TaskKey, t: TaskKey) {
    t == first || Did(h, Forks(t))
  }

  // The run and the turn a task is inside of: those it began last and has not ended. Ending a run gives
  // back what there was before it was begun, and a forked task starts with what its parent has.
  datatype Inside = Inside(run: Option<RunKey>, turn: Option<TurnKey>)

  function Where(h: seq<Entry>, t: TaskKey): Inside
    decreases |h|
  {
    if h == [] then Inside(None, None)
    else
      var before, e := h[..|h| - 1], h[|h| - 1];
      if Is(e, Forks(t)) then Where(before, e.task)
      else if e.task != t || e.result != Done then Where(before, t)
      else if e.op.BeginRun? then Inside(Some(e.op.run), None)
      else if e.op.EndRun? && Did(before, BeginsRun(e.op.run)) then Where(Earlier(before, BeginsRun(e.op.run)), t)
      else if e.op.BeginTurn? then Inside(Where(before, t).run, Some(e.op.turn))
      else if e.op.EndTurn? then Inside(Where(before, t).run, None)
      else Where(before, t)
  }

  // ---- What the next call must answer ----

  predicate InRun(h: seq<Entry>, t: TaskKey, r: RunKey) {
    Did(h, BeginsRun(r)) && !Did(h, EndsRun(r)) && Where(h, t).run == Some(r)
  }

  predicate InTurn(h: seq<Entry>, t: TaskKey, k: TurnKey) {
    Did(h, BeginsTurn(k)) && !Did(h, EndsTurn(k)) && Where(h, t).turn == Some(k)
  }

  // The latest turn that was begun of a run.
  function LatestTurn(h: seq<Entry>, r: RunKey): Option<TurnKey> {
    if h == [] then None
    else
      var before, e := h[..|h| - 1], h[|h| - 1];
      if e.result == Done && e.op.BeginTurn? && Did(before, MakesTurn(e.op.turn))
         && Of(before, MakesTurn(e.op.turn)).op.run == r then Some(e.op.turn)
      else LatestTurn(before, r)
  }

  // The parent of a run that task t enters: the one it names, or the run the task is inside of.
  function ParentOf(h: seq<Entry>, t: TaskKey, config: RunConfig): Option<string> {
    match config.parentOverride
    case Some(name) => if name != "" then Some(name) else Around(h, t)
    case None => Around(h, t)
  }

  function Around(h: seq<Entry>, t: TaskKey): Option<string> {
    match Where(h, t).run
    case Some(r) => if Did(h, MakesRun(r)) then Some(Of(h, MakesRun(r)).op.config.runId) else None
    case None => None
  }

  function Answer(h: seq<Entry>, first: TaskKey, t: TaskKey, op: Op): Result {
    if !Known(h, first, t) then NoSuchObject
    else
      match op
      case CreateRun(r, config) =>
        if Did(h, MakesRun(r)) then NoSuchObject else if config.name == "" then Invalid else Done
      case BeginRun(r, _) =>
        if !Did(h, MakesRun(r)) then NoSuchObject
        else if Did(h, TriesRun(r)) then AlreadyEntered
        else BeginAnswer(h, t, Of(h, MakesRun(r)).op.config)
      case EndRun(r, _, _) =>
        if !Did(h, MakesRun(r)) then NoSuchObject
        else if !Did(h, BeginsRun(r)) || Did(h, EndsRun(r)) then NotEntered
        else if Where(h, t).turn.Some? then ActiveTurn
        else if Of(h, BeginsRun(r)).task != t then ForeignTask
        else Done
      case CreateTurn(k, r, _) =>
        if Did(h, MakesTurn(k)) || !Did(h, MakesRun(r)) then NoSuchObject
        else if !InRun(h, t, r) then Inactive
        else Done
      case BeginTurn(k, valid, _) =>
        if !Did(h, MakesTurn(k)) then NoSuchObject
        else if Did(h, BeginsTurn(k)) then AlreadyEntered
        else if Where(h, t).turn.Some? then NestedTurn
        else if !valid then Invalid
        else Done
      case EndTurn(k, _, _) =>
        if !Did(h, MakesTurn(k)) then NoSuchObject
        else if !Did(h, BeginsTurn(k)) || Did(h, EndsTurn(k)) then NotEntered
        else if Of(h, BeginsTurn(k)).task != t then ForeignTask
        else Done
      case SetTurnOutput(k, output) =>
        if !Did(h, MakesTurn(k)) then NoSuchObject
        else if !InTurn(h, t, k) then Inactive
        else if output.None? then Invalid
        else Done
      case CreateTool(l, k, _, valid) =>
        if Did(h, MakesTool(l)) || !Did(h, MakesTurn(k)) then NoSuchObject
        else if !InTurn(h, t, k) then Inactive
        else if !valid then Invalid
        else Done
      case BeginTool(l, valid, _) =>
        if !Did(h, MakesTool(l)) then NoSuchObject
        else if !InTurn(h, t, Of(h, MakesTool(l)).op.turn) then Inactive
        else if Did(h, CallsTool(l)) then AlreadyEntered
        else if !valid then Invalid
        else Done
      case EndTool(l, _, valid, _) =>
        if !Did(h, MakesTool(l)) then NoSuchObject
        else if !Did(h, CallsTool(l)) || Did(h, ClosesTool(l)) then NotEntered
        else if !InTurn(h, t, Of(h, MakesTool(l)).op.turn) then Inactive
        else if !valid then Invalid
        else Done
      case RecordOnTurn(k, _, _, valid, _) =>
        if !Did(h, MakesTurn(k)) then NoSuchObject
        else if !InTurn(h, t, k) then Inactive
        else if !valid then Invalid
        else Done
      case RecordBusinessOutcome(r, _, valid, _) =>
        if !Did(h, MakesRun(r)) then NoSuchObject
        else if !InRun(h, t, r) then Inactive
        else if LatestTurn(h, r).None? then NoTurnYet
        else if !valid then Invalid
        else Done
      case CaptureTrace(k, _, _, valid, _) =>
        if !Did(h, BeginsTurn(k)) then NoSuchObject else if !valid then Invalid else Done
      case Fork(child) => if Known(h, first, child) then NoSuchObject else Done
  }

  function BeginAnswer(h: seq<Entry>, t: TaskKey, config: RunConfig): Result {
    if !config.idValid then Invalid
    else if ParentOf(h, t, config) == Some(config.runId) then SelfParent
    else if !config.recordValid then Invalid
    else Done
  }

  // ---- What the records say ----

  // The text of the last output that was kept.
  function Said(h: seq<Entry>, k: TurnKey): Option<string> {
    if Did(h, SaysFor(k)) then Of(h, SaysFor(k)).op.output else None
  }

  function StatusOf(error: Option<Raised>): Status {
    match error
    case None => Completed
    case Some(Raised(true, _)) => Cancelled
    case Some(Raised(false, true)) => TimedOut
    case Some(Raised(false, false)) => Failed
  }

  // The run a turn was made for.
  function OwnerOf(h: seq<Entry>, k: TurnKey): Option<RunKey> {
    if Did(h, MakesTurn(k)) then Some(Of(h, MakesTurn(k)).op.run) else None
  }

  // The turns of a run that were begun.
  function TurnsBegun(h: seq<Entry>, r: RunKey): nat {
    if h == [] then 0
    else
      var before, e := h[..|h| - 1], h[|h| - 1];
      TurnsBegun(before, r)
      + if e.result == Done && e.op.BeginTurn? && OwnerOf(before, e.op.turn) == Some(r) then 1 else 0
  }

  predicate HasRun(h: seq<Entry>, r: RunKey) {
    Did(h, MakesRun(r)) && Did(h, BeginsRun(r))
  }

  function RunRecord(h: seq<Entry>, client: Client, r: RunKey): RunSnapshot
    requires HasRun(h, r)
  {
    var config, begun := Of(h, MakesRun(r)).op.config, Of(h, BeginsRun(r));
    RunSnapshot(
      config.runId, client.producer, client.tenant, config.name, config.session,
      ParentOf(Earlier(h, BeginsRun(r)), begun.task, config),
      if Did(h, EndsRun(r)) then StatusOf(Of(h, EndsRun(r)).op.error) else Unknown)
  }

  predicate HasTurn(h: seq<Entry>, k: TurnKey) {
    && Did(h, MakesTurn(k)) && Did(h, BeginsTurn(k))
    && Did(h, MakesRun(Of(h, MakesTurn(k)).op.run))
  }

  // The request is the text the turn was made with, and the response the last output before it ended
  // without an exception; both only if content is captured.
  function TurnRecord(h: seq<Entry>, client: Client, k: TurnKey): TurnSnapshot
    requires HasTurn(h, k)
  {
    var made := Of(h, MakesTurn(k)).op;
    var ended := Did(h, EndsTurn(k));
    var response :=
      if ended && client.captureContent && Of(h, EndsTurn(k)).op.error.None? then Said(Earlier(h, EndsTurn(k)), k)
      else None;
    TurnSnapshot(
      k, Of(h, MakesRun(made.run)).op.config.runId, TurnsBegun(Earlier(h, BeginsTurn(k)), made.run),
      if client.captureContent then Some(made.request) else None,
      if client.captureContent then Present else NotCaptured,
      response,
      if response.Some? then Present else if ended && client.captureContent then Missing else NotCaptured,
      if ended then StatusOf(Of(h, EndsTurn(k)).op.error) else Unknown)
  }

  // A run shares the decision of the run it was begun inside of; a run begun on its own makes it.
  function Decision(h: seq<Entry>, client: Client, r: RunKey): bool
    decreases |h|
  {
    if !HasRun(h, r) then false
    else
      var before := Earlier(h, BeginsRun(r));
      match Where(before, Of(h, BeginsRun(r)).task).run
      case Some(outer) => Decision(before, client, outer)
      case None => Sampled(Of(h, MakesRun(r)).op.config.digest, client.sampleRate)
  }

  // ---- What is emitted ----

  // The turn a call is about.
  function About(h: seq<Entry>, op: Op): Option<TurnKey> {
    match op
    case BeginTurn(k, _, _) => Some(k)
    case EndTurn(k, _, _) => Some(k)
    case BeginTool(l, _, _) => if Did(h, MakesTool(l)) then Some(Of(h, MakesTool(l)).op.turn) else None
    case EndTool(l, _, _, _) => if Did(h, MakesTool(l)) then Some(Of(h, MakesTool(l)).op.turn) else None
    case RecordOnTurn(k, _, _, _, _) => Some(k)
    case RecordBusinessOutcome(r, _, _, _) => LatestTurn(h, r)
    case CaptureTrace(k, _, _, _, _) => Some(k)
    case _ => None
  }

  // The run that a call has something to tell of.
  function Emitter(h: seq<Entry>, e: Entry): Option<RunKey> {
    if e.result != Done then None
    else if e.op.BeginRun? || e.op.EndRun? then Some(e.op.run)
    else if About(h, e.op).Some? then OwnerOf(h, About(h, e.op).value)
    else None
  }

  // The events that were recorded on a turn, and for a run.
  function EventsOn(h: seq<Entry>, k: TurnKey): nat {
    if h == [] then 0
    else
      var before, e := h[..|h| - 1], h[|h| - 1];
      EventsOn(before, k) + if e.result == Done && IsEvent(e.op) && About(before, e.op) == Some(k) then 1 else 0
  }

  function EventsFor(h: seq<Entry>, r: RunKey): nat {
    if h == [] then 0
    else
      var before, e := h[..|h| - 1], h[|h| - 1];
      EventsFor(before, r) + if e.result == Done && IsEvent(e.op) && Emitter(before, e) == Some(r) then 1 else 0
  }

  // What the caller of an event operation says.
  function DraftOf(h: seq<Entry>, op: Op): Draft
    requires IsEvent(op) && (op.BeginTool? || op.EndTool? ==> Did(h, MakesTool(op.tool)))
  {
    match op
    case BeginTool(l, _, _) => Draft(ToolCall, Completed, None, Some(Of(h, MakesTool(l)).op.callId), Some(l))
    case EndTool(l, error, _, _) =>
      Draft(ToolResult, StatusOf(error), None, Some(Of(h, MakesTool(l)).op.callId), Some(l))
    case RecordOnTurn(_, name, status, _, _) => Draft(Other(name), status, None, None, None)
    case RecordBusinessOutcome(_, refused, _, _) =>
      Draft(Outcome, if refused then Failed else Completed, None, None, None)
    case CaptureTrace(_, trace, failed, _, _) =>
      Draft(ModelCall, if failed then Failed else Completed, Some(trace), None, None)
  }

  // The attempt tells what the call did: h is what happened before it.
  predicate Tells(h: seq<Entry>, client: Client, e: Entry, a: Attempt) {
    && Emitter(h, e) == Some(a.run)
    && a.batch.source == SourceSession(client.producer, client.tenant)
    && HasRun(h + [e], a.run) && a.batch.run == RunRecord(h + [e], client, a.run)
    && a.batch.turn.Some? == About(h, e.op).Some?
    && (a.batch.turn.Some? ==>
          var k := About(h, e.op).value;
          HasTurn(h + [e], k) && a.batch.turn == Some(TurnRecord(h + [e], client, k)))
    && a.batch.event.Some? == IsEvent(e.op)
    && (a.batch.event.Some? ==>
          var event := a.batch.event.value;
          && (e.op.BeginTool? || e.op.EndTool? ==> Did(h, MakesTool(e.op.tool)))
          && About(h, e.op) == Some(event.turnId) && event.draft == DraftOf(h, e.op)
          && event.sequence == EventsOn(h, event.turnId) && event.producerSequence == EventsFor(h, a.run))
    && a.trace == if e.op.CaptureTrace? then Some(e.op.trace) else None
  }

  // The places of the calls that a sampled run has something to tell of, in order.
  function Told(h: seq<Entry>, client: Client): (at: seq<nat>)
    ensures forall i :: 0 <= i < |at| ==> at[i] < |h|
  {
    if h == [] then []
    else
      var n := |h| - 1;
      Told(h[..n], client)
      + if Emitter(h[..n], h[n]).Some? && Decision(h, client, Emitter(h[..n], h[n]).value) then [n] else []
  }

  // ---- A schedule's history ----

  function History(client: Client, first: TaskKey, calls: seq<Call>): (h: seq<Entry>)
    ensures |h| == |calls|
  {
    if calls == [] then []
    else
      var n := |calls| - 1;
      var w := RunAll(Initial(client, first), calls[..n]);
      History(client, first, calls[..n])
      + [Entry(calls[n].task, calls[n].op, Next(w, calls[n].task, calls[n].op).result)]
  }
}
