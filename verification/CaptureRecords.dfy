/** The records behind the agent capture contexts and what each context operation does to the
    records it touches. The classes of CaptureContexts implement these steps in place; CaptureWorld
    composes them into a machine of many runs, turns, tools and tasks. */
module CaptureRecords {
  import opened Options
  import opened Sampling

  // Contexts are known by keys. A turn's key is also its (random, hence unique) turn_id.
  type RunKey = nat
  type TurnKey = nat
  type ToolKey = nat
  type TaskKey = nat

  datatype Status = Unknown | Completed | Failed | TimedOut | Cancelled

  // The exception that ended a `with` body: which of the two special classes it belongs to.
  datatype Raised = Raised(cancelled: bool, timedOut: bool)

  function TerminalStatus(error: Option<Raised>): (s: Status)
    ensures s != Unknown
    ensures s == Completed <==> error.None?
    ensures s == Cancelled <==> error.Some? && error.value.cancelled
    ensures s == TimedOut <==> error.Some? && !error.value.cancelled && error.value.timedOut
  {
    if error.None? then Completed
    else if error.value.cancelled then Cancelled
    else if error.value.timedOut then TimedOut
    else Failed
  }

  // ---- Evidence ----

  datatype EvidenceState = Present | Missing | NotCaptured

  datatype SourceSession = SourceSession(sourceId: string, tenant: string)

  datatype RunSnapshot = RunSnapshot(
    runId: string, sourceId: string, tenant: string, name: string,
    session: Option<string>, parentId: Option<string>, status: Status)

  datatype TurnSnapshot = TurnSnapshot(
    turnId: TurnKey, runId: string, sequence: nat,
    request: Option<string>, requestState: EvidenceState,
    response: Option<string>, responseState: EvidenceState, status: Status)

  datatype EventKind = ToolCall | ToolResult | ModelCall | Outcome | Other(name: string)

  // What the caller fixes of an event before it is numbered. `tool` is the context it came from.
  datatype Draft = Draft(
    kind: EventKind, status: Status, traceId: Option<nat>, callId: Option<string>, tool: Option<ToolKey>)

  datatype Event = Event(eventId: nat, turnId: TurnKey, sequence: nat, producerSequence: nat, draft: Draft)

  datatype Batch = Batch(
    source: SourceSession, run: RunSnapshot, turn: Option<TurnSnapshot>, event: Option<Event>)

  // The consistency check a batch makes of its own parts.
  predicate BatchValid(b: Batch) {
    && b.run.sourceId == b.source.sourceId
    && b.run.tenant == b.source.tenant
    && (b.turn.Some? ==> b.turn.value.runId == b.run.runId)
    && (b.event.Some? ==> b.turn.Some? && b.event.value.turnId == b.turn.value.turnId)
  }

  // ---- Capture ----

  // One attempt of a sampled run to emit a batch, and whether the sink stored it. The log is a
  // history variable; the source only counts the attempts that were dropped.
  datatype Attempt = Attempt(run: RunKey, batch: Batch, trace: Option<nat>, stored: bool)

  datatype Channel = Channel(log: seq<Attempt>, dropped: nat)

  datatype Client = Client(captureContent: bool, sampleRate: real, tenant: string, producer: string)

  // Text content after sanitizing, if content is captured at all.
  function Content(client: Client, text: string): Option<string> {
    if client.captureContent then Some(text) else None
  }

  // ---- Context variables ----

  datatype Vars = Vars(run: Option<RunKey>, turn: Option<TurnKey>)

  // What resetting a context variable needs: the task that set it and the value it had before.
  datatype Token<T> = Token(task: TaskKey, saved: T)

  datatype Result =
    | Done
    | AlreadyEntered
    | NotEntered
    | Inactive
    | NestedTurn
    | ActiveTurn
    | ForeignTask
    | SelfParent
    | Invalid
    | NoTurnYet
    | NoSuchObject

  // ---- Agent runs ----

  // The arguments of a run. runId is derived from the external id, or is random; digest is the
  // number its hash begins with. The two flags say whether the id and the run record are valid.
  datatype RunConfig = RunConfig(
    name: string, runId: string, digest: nat, parentOverride: Option<string>, session: Option<string>,
    idValid: bool, recordValid: bool)

  // The fields of AgentRunContext. root is a history variable: the outermost run of the nest this run was entered in.
  datatype Run = Run(
    config: RunConfig, runId: string, snapshot: Option<RunSnapshot>, source: Option<SourceSession>,
    token: Option<Token<Option<RunKey>>>, turnToken: Option<Token<Option<TurnKey>>>,
    turnSequence: nat, producerSequence: nat, latestTurn: Option<TurnKey>,
    captureFailed: bool, entered: bool, open: bool, sampled: bool, root: RunKey)

  function NewRun(key: RunKey, config: RunConfig): Run {
    Run(config, "", None, None, None, None, 0, 0, None, false, false, false, false, key)
  }

  datatype Emission = Emission(run: Run, channel: Channel)

  predicate CanEmit(run: Run) {
    run.sampled && run.source.Some? && run.snapshot.Some?
  }

  function Emit(key: RunKey, run: Run, channel: Channel, turn: Option<TurnSnapshot>, event: Option<Event>,
      trace: Option<nat>, sink: bool): (e: Emission)
    // Of the run only the latch can change, and a latch once set stays set.
    ensures e.run == run.(captureFailed := e.run.captureFailed)
    ensures run.captureFailed ==> e.run.captureFailed
  {
    if !CanEmit(run) then Emission(run, channel)
    else
      var batch := Batch(run.source.value, run.snapshot.value, turn, event);
      var stored := !run.captureFailed && BatchValid(batch) && sink;
      Emission(
        run.(captureFailed := run.captureFailed || !stored),
        Channel(channel.log + [Attempt(key, batch, trace, stored)], channel.dropped + if stored then 0 else 1))
  }

  datatype RunStep = RunStep(run: Run, vars: Vars, channel: Channel, result: Result)

  datatype RunDecision = RunDecision(run: Run, parentId: Option<string>, result: Result)

  // Identity, parent, sampling and source of a run being entered; parent is the run the task has active.
  function Decide(client: Client, key: RunKey, run: Run, parent: Option<Run>): RunDecision {
    if run.entered then RunDecision(run, None, AlreadyEntered)
    else
      var config := run.config;
      var begun := run.(entered := true, open := true);
      var parentId := if config.parentOverride.Some? && config.parentOverride.value != "" then config.parentOverride
                      else if parent.Some? then Some(parent.value.runId) else None;
      if !config.idValid then RunDecision(begun, parentId, Invalid)
      else
        var named := begun.(runId := config.runId);
        if parentId == Some(config.runId) then RunDecision(named, parentId, SelfParent)
        else
          var decided := named.(
            sampled := if parent.Some? then parent.value.sampled else Sampled(config.digest, client.sampleRate),
            root := if parent.Some? then parent.value.root else key,
            source := Some(SourceSession(client.producer, client.tenant)));
          RunDecision(decided, parentId, if config.recordValid then Done else Invalid)
  }

  function NewRunSnapshot(client: Client, config: RunConfig, parentId: Option<string>): RunSnapshot {
    RunSnapshot(config.runId, client.producer, client.tenant, config.name, config.session, parentId, Unknown)
  }

  function EnterRun(client: Client, key: RunKey, run: Run, parent: Option<Run>, task: TaskKey, vars: Vars,
      channel: Channel, sink: bool): RunStep
  {
    var d := Decide(client, key, run, parent);
    if d.result != Done then RunStep(d.run, vars, channel, d.result)
    else
      var begun := d.run.(snapshot := Some(NewRunSnapshot(client, run.config, d.parentId)));
      var e := Emit(key, begun, channel, None, None, None, sink);
      RunStep(
        e.run.(turnToken := Some(Token(task, vars.turn)), token := Some(Token(task, vars.run))),
        Vars(Some(key), None), e.channel, Done)
  }

  /** Entering a run either starts it, unfinished, and makes it the active run with no active turn;
      or it fails and leaves the context variables, the log and any earlier snapshot as they were. */
  ghost predicate EntersRun(client: Client, key: RunKey, run: Run, parent: Option<Run>, task: TaskKey, vars: Vars,
      channel: Channel, s: RunStep)
  {
    && s.run.config == run.config && s.run.latestTurn == run.latestTurn
    && s.run.turnSequence == run.turnSequence && s.run.producerSequence == run.producerSequence
    && (s.result != Done ==> FailsToEnterRun(run, vars, channel, s))
    && (s.result == Done ==> BeginsRun(client, key, run, parent, task, vars, s))
  }

  ghost predicate FailsToEnterRun(run: Run, vars: Vars, channel: Channel, s: RunStep) {
    && s.vars == vars && s.channel == channel
    && s.run.snapshot == run.snapshot && s.run.token == run.token && s.run.turnToken == run.turnToken
    && s.run.captureFailed == run.captureFailed
    && (run.entered ==> s.run == run) && s.run.entered
  }

  ghost predicate BeginsRun(client: Client, key: RunKey, run: Run, parent: Option<Run>, task: TaskKey, vars: Vars,
      s: RunStep) {
    && !run.entered && s.run.entered && s.run.open && s.vars == Vars(Some(key), None)
    && s.run.token == Some(Token(task, vars.run)) && s.run.turnToken == Some(Token(task, vars.turn))
    && s.run.snapshot.Some? && s.run.snapshot.value.status == Unknown
    && s.run.runId == run.config.runId && s.run.snapshot.value.runId == s.run.runId
    && s.run.source == Some(SourceSession(client.producer, client.tenant))
    && s.run.snapshot.value.sourceId == client.producer && s.run.snapshot.value.tenant == client.tenant
    && s.run.root == (if parent.Some? then parent.value.root else key)
    && (s.run.sampled <==> if parent.Some? then parent.value.sampled else Sampled(run.config.digest, client.sampleRate))
  }

  lemma EnterRunShape(client: Client, key: RunKey, run: Run, parent: Option<Run>, task: TaskKey, vars: Vars,
      channel: Channel, sink: bool)
    ensures EntersRun(client, key, run, parent, task, vars, channel,
                      EnterRun(client, key, run, parent, task, vars, channel, sink))
  {
    hide Emit, Sampled;
    DecideShape(client, key, run, parent);
    hide Decide;
  }

  lemma DecideShape(client: Client, key: RunKey, run: Run, parent: Option<Run>)
    ensures var d := Decide(client, key, run, parent);
            && d.run == run.(entered := true, open := d.run.open, runId := d.run.runId, sampled := d.run.sampled,
                             root := d.run.root, source := d.run.source)
            && (run.entered ==> d.run == run && d.result != Done)
            && (d.result == Done ==>
                  && d.run.open && d.run.runId == run.config.runId
                  && d.run.source == Some(SourceSession(client.producer, client.tenant))
                  && d.run.root == (if parent.Some? then parent.value.root else key)
                  && (d.run.sampled <==> if parent.Some? then parent.value.sampled
                       else Sampled(run.config.digest, client.sampleRate)))
  {
    hide Sampled;
  }

  function ExitRun(key: RunKey, run: Run, task: TaskKey, vars: Vars, channel: Channel,
      error: Option<Raised>, sink: bool): RunStep
  {
    if run.token.None? || run.turnToken.None? || run.snapshot.None? then RunStep(run, vars, channel, NotEntered)
    else if vars.turn.Some? then RunStep(run, vars, channel, ActiveTurn)
    else if run.token.value.task != task then RunStep(run, vars, channel, ForeignTask)
    else
      var closed := run.(
        token := None, turnToken := None,
        snapshot := Some(run.snapshot.value.(status := TerminalStatus(error))));
      var e := Emit(key, closed, channel, None, None, None, sink);
      RunStep(e.run.(open := false), Vars(run.token.value.saved, run.turnToken.value.saved), e.channel, Done)
  }

  /** Closing a run either finishes it and puts both context variables back to what its tokens saved,
      or fails and changes nothing. */
  ghost predicate ExitsRun(run: Run, task: TaskKey, vars: Vars, channel: Channel, error: Option<Raised>, s: RunStep) {
    && (s.result != Done ==> s == RunStep(run, vars, channel, s.result))
    && (s.result == Done ==>
          && run.token.Some? && run.turnToken.Some? && run.snapshot.Some? && vars.turn.None?
          && run.token.value.task == task
          && s.vars == Vars(run.token.value.saved, run.turnToken.value.saved)
          && s.run == run.(token := None, turnToken := None, open := false,
                           snapshot := Some(run.snapshot.value.(status := TerminalStatus(error))),
                           captureFailed := s.run.captureFailed))
    && (s.result == Done <==>
          && run.token.Some? && run.turnToken.Some? && run.snapshot.Some? && vars.turn.None?
               && run.token.value.task == task)
  }

  lemma ExitRunShape(key: RunKey, run: Run, task: TaskKey, vars: Vars, channel: Channel, error: Option<Raised>,
      sink: bool)
    ensures ExitsRun(run, task, vars, channel, error, ExitRun(key, run, task, vars, channel, error, sink))
  {
    hide Emit, TerminalStatus;
  }

  predicate RunActive(key: RunKey, run: Run, vars: Vars) {
    run.open && vars.run == Some(key)
  }

  // ---- Turns ----

  // The fields of TurnContext, and those of the turn state it creates when entered.
  datatype Turn = Turn(
    owner: RunKey, request: string, token: Option<Token<Option<TurnKey>>>, entered: bool, output: Option<string>)

  datatype TurnState = TurnState(owner: RunKey, turn: TurnSnapshot, nextEvent: nat)

  function NewTurn(owner: RunKey, request: string): Turn {
    Turn(owner, request, None, false, None)
  }

  datatype TurnStep = TurnStep(
    turn: Turn, state: Option<TurnState>, run: Run, vars: Vars, channel: Channel, result: Result)

  function EnterTurn(client: Client, key: TurnKey, turn: Turn, run: Run, task: TaskKey, vars: Vars,
      channel: Channel, valid: bool, sink: bool): TurnStep
  {
    if turn.entered then TurnStep(turn, None, run, vars, channel, AlreadyEntered)
    else if vars.turn.Some? then TurnStep(turn, None, run, vars, channel, NestedTurn)
    else if !valid then TurnStep(turn, None, run, vars, channel, Invalid)
    else
      var request := Content(client, turn.request);
      var snapshot := TurnSnapshot(key, run.runId, run.turnSequence,
                                   request, if request.Some? then Present else NotCaptured,
                                   None, NotCaptured, Unknown);
      var numbered := run.(turnSequence := run.turnSequence + 1, latestTurn := Some(key));
      var e := Emit(turn.owner, numbered, channel, Some(snapshot), None, None, sink);
      TurnStep(
        turn.(entered := true, token := Some(Token(task, vars.turn))),
        Some(TurnState(turn.owner, snapshot, 0)),
        e.run, vars.(turn := Some(key)), e.channel, Done)
  }

  function Close(client: Client, turn: Turn, snapshot: TurnSnapshot, error: Option<Raised>): TurnSnapshot {
    var response := if error.None? && turn.output.Some? then Content(client, turn.output.value) else None;
    snapshot.(
      status := TerminalStatus(error), response := response,
      responseState := if response.Some? then Present
                       else if client.captureContent then Missing else NotCaptured)
  }

  function ExitTurn(client: Client, turn: Turn, state: TurnState, run: Run, task: TaskKey, vars: Vars,
      channel: Channel, error: Option<Raised>, sink: bool): TurnStep
  {
    if turn.token.None? then TurnStep(turn, Some(state), run, vars, channel, NotEntered)
    else if turn.token.value.task != task then TurnStep(turn, Some(state), run, vars, channel, ForeignTask)
    else
      var snapshot := Close(client, turn, state.turn, error);
      var e := Emit(turn.owner, run, channel, Some(snapshot), None, None, sink);
      TurnStep(
        turn.(token := None), Some(state.(turn := snapshot)),
        e.run, vars.(turn := turn.token.value.saved), e.channel, Done)
  }

  /** Entering a turn numbers and announces it and makes it the active turn, or changes nothing. */
  ghost predicate EntersTurn(key: TurnKey, turn: Turn, run: Run, task: TaskKey, vars: Vars, channel: Channel,
      valid: bool, s: TurnStep)
  {
    && (s.result == Done <==> !turn.entered && vars.turn.None? && valid)
    && (s.result != Done ==> s == TurnStep(turn, None, run, vars, channel, s.result))
    && (s.result == Done ==>
          && s.turn == turn.(entered := true, token := Some(Token(task, None)))
          && s.state.Some? && s.state.value.owner == turn.owner && s.state.value.nextEvent == 0
          && s.state.value.turn.status == Unknown && s.state.value.turn.sequence == run.turnSequence
          && s.vars == Vars(vars.run, Some(key))
          && s.run == run.(turnSequence := run.turnSequence + 1, latestTurn := Some(key),
                           captureFailed := s.run.captureFailed))
  }

  lemma EnterTurnShape(client: Client, key: TurnKey, turn: Turn, run: Run, task: TaskKey, vars: Vars,
      channel: Channel, valid: bool, sink: bool)
    ensures EntersTurn(key, turn, run, task, vars, channel, valid,
                       EnterTurn(client, key, turn, run, task, vars, channel, valid, sink))
  {
    hide Emit, Content;
  }

  /** Closing a turn finishes its snapshot and puts the active turn back, or changes nothing. */
  ghost predicate ExitsTurn(turn: Turn, state: TurnState, run: Run, task: TaskKey, vars: Vars, channel: Channel,
      error: Option<Raised>, s: TurnStep)
  {
    && (s.result == Done <==> turn.token.Some? && turn.token.value.task == task)
    && (s.result != Done ==> s == TurnStep(turn, Some(state), run, vars, channel, s.result))
    && (s.result == Done ==>
          && s.turn == turn.(token := None)
          && s.state.Some? && s.state.value == state.(turn := s.state.value.turn)
          && s.state.value.turn == state.turn.(status := TerminalStatus(error), response := s.state.value.turn.response,
                                               responseState := s.state.value.turn.responseState)
          && s.vars == Vars(vars.run, turn.token.value.saved)
          && s.run == run.(captureFailed := s.run.captureFailed))
  }

  lemma ExitTurnShape(client: Client, turn: Turn, state: TurnState, run: Run, task: TaskKey, vars: Vars,
      channel: Channel, error: Option<Raised>, sink: bool)
    ensures ExitsTurn(turn, state, run, task, vars, channel, error,
                      ExitTurn(client, turn, state, run, task, vars, channel, error, sink))
  {
    hide Emit, Content, TerminalStatus;
  }

  predicate TurnActive(key: TurnKey, turn: Turn, vars: Vars) {
    turn.token.Some? && vars.turn == Some(key)
  }

  // ---- Events ----

  datatype EventStep = EventStep(state: TurnState, run: Run, channel: Channel, result: Result)

  // An event step moves only the counter of the turn, and the counter and the latch of the run.
  predicate EventStepFits(state: TurnState, run: Run, s: EventStep) {
    && s.state == state.(nextEvent := s.state.nextEvent)
    && s.run == run.(producerSequence := s.run.producerSequence, captureFailed := s.run.captureFailed)
  }

  // An event that passes validation gets the next number of its turn and of its run, and is emitted.
  function Record(state: TurnState, run: Run, channel: Channel, draft: Draft, valid: bool, eventId: nat,
      sink: bool): (s: EventStep)
    ensures EventStepFits(state, run, s)
  {
    if !valid then EventStep(state, run, channel, Invalid)
    else
      var event := Event(eventId, state.turn.turnId, state.nextEvent, run.producerSequence, draft);
      var e := Emit(state.owner, run.(producerSequence := run.producerSequence + 1), channel,
                    Some(state.turn), Some(event), draft.traceId, sink);
      EventStep(state.(nextEvent := state.nextEvent + 1), e.run, e.channel, Done)
  }

  // ---- Tools ----

  // The fields of ToolContext. task is a history variable: where the context was entered.
  datatype Tool = Tool(turn: TurnKey, callId: string, entered: bool, closed: bool, task: TaskKey)

  function NewTool(turn: TurnKey, callId: string): Tool {
    Tool(turn, callId, false, false, 0)
  }

  datatype ToolStep = ToolStep(tool: Tool, event: EventStep)

  function EnterTool(key: ToolKey, tool: Tool, turn: Turn, state: TurnState, run: Run, task: TaskKey, vars: Vars,
      channel: Channel, valid: bool, eventId: nat, sink: bool): (s: ToolStep)
    ensures s.tool.turn == tool.turn && EventStepFits(state, run, s.event)
  {
    if !TurnActive(tool.turn, turn, vars) then ToolStep(tool, EventStep(state, run, channel, Inactive))
    else if tool.entered then ToolStep(tool, EventStep(state, run, channel, AlreadyEntered))
    else
      var draft := Draft(ToolCall, Completed, None, Some(tool.callId), Some(key));
      ToolStep(tool.(entered := true, task := task), Record(state, run, channel, draft, valid, eventId, sink))
  }

  function ExitTool(key: ToolKey, tool: Tool, turn: Turn, state: TurnState, run: Run, vars: Vars,
      channel: Channel, error: Option<Raised>, valid: bool, eventId: nat, sink: bool): (s: ToolStep)
    ensures s.tool.turn == tool.turn && EventStepFits(state, run, s.event)
  {
    if !tool.entered || tool.closed then ToolStep(tool, EventStep(state, run, channel, NotEntered))
    else if !TurnActive(tool.turn, turn, vars) then ToolStep(tool, EventStep(state, run, channel, Inactive))
    else
      var draft := Draft(ToolResult, TerminalStatus(error), None, Some(tool.callId), Some(key));
      ToolStep(tool.(closed := true), Record(state, run, channel, draft, valid, eventId, sink))
  }

  /** Entering a tool marks it entered, once and by this task, unless it is refused; closing it marks it
      closed, once, unless it is refused. */
  ghost predicate EntersTool(tool: Tool, turn: Turn, task: TaskKey, vars: Vars, valid: bool, s: ToolStep) {
    && (s.event.result == Done <==> TurnActive(tool.turn, turn, vars) && !tool.entered && valid)
    && s.tool == if TurnActive(tool.turn, turn, vars) && !tool.entered then tool.(entered := true, task := task)
         else tool
  }

  lemma EnterToolShape(key: ToolKey, tool: Tool, turn: Turn, state: TurnState, run: Run, task: TaskKey, vars: Vars,
      channel: Channel, valid: bool, eventId: nat, sink: bool)
    ensures EntersTool(tool, turn, task, vars, valid,
                       EnterTool(key, tool, turn, state, run, task, vars, channel, valid, eventId, sink))
  {
    hide Emit;
  }

  ghost predicate ExitsTool(tool: Tool, turn: Turn, vars: Vars, valid: bool, s: ToolStep) {
    && (s.event.result == Done <==> tool.entered && !tool.closed && TurnActive(tool.turn, turn, vars) && valid)
    && s.tool == if tool.entered && !tool.closed && TurnActive(tool.turn, turn, vars) then tool.(closed := true)
         else tool
  }

  lemma ExitToolShape(key: ToolKey, tool: Tool, turn: Turn, state: TurnState, run: Run, vars: Vars,
      channel: Channel, error: Option<Raised>, valid: bool, eventId: nat, sink: bool)
    ensures ExitsTool(tool, turn, vars, valid,
                      ExitTool(key, tool, turn, state, run, vars, channel, error, valid, eventId, sink))
  {
    hide Emit;
  }
}
