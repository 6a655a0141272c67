/** Many runs, turns and tools used by many cooperative tasks. Every public operation is one atomic
    step; an operation the source rejects is a step with an error result. */
module CaptureWorld {
  import opened Options
  import opened CaptureRecords

  datatype World = World(
    client: Client,
    runs: map<RunKey, Run>,
    turns: map<TurnKey, Turn>,
    states: map<TurnKey, TurnState>,
    tools: map<ToolKey, Tool>,
    tasks: map<TaskKey, Vars>,
    channel: Channel,
    eventIds: nat)

  // The sink's answer, validity of constructed records and the exception ending a body are part of
  // the operation: any of them may come out either way.
  datatype Op =
    | CreateRun(run: RunKey, config: RunConfig)
    | BeginRun(run: RunKey, sink: bool)
    | EndRun(run: RunKey, error: Option<Raised>, sink: bool)
    | CreateTurn(turn: TurnKey, run: RunKey, request: string)
    | BeginTurn(turn: TurnKey, valid: bool, sink: bool)
    | EndTurn(turn: TurnKey, error: Option<Raised>, sink: bool)
    | SetTurnOutput(turn: TurnKey, output: Option<string>)
    | CreateTool(tool: ToolKey, turn: TurnKey, callId: string, valid: bool)
    | BeginTool(tool: ToolKey, valid: bool, sink: bool)
    | EndTool(tool: ToolKey, error: Option<Raised>, valid: bool, sink: bool)
    | RecordOnTurn(turn: TurnKey, name: string, status: Status, valid: bool, sink: bool)
    | RecordBusinessOutcome(run: RunKey, refused: bool, valid: bool, sink: bool)
    | CaptureTrace(turn: TurnKey, trace: nat, failed: bool, valid: bool, sink: bool)
    | Fork(child: TaskKey)

  datatype Step = Step(world: World, result: Result)

  function WithRun(w: World, task: TaskKey, key: RunKey, s: RunStep): Step {
    Step(w.(runs := w.runs[key := s.run], tasks := w.tasks[task := s.vars], channel := s.channel), s.result)
  }

  function WithTurn(w: World, task: TaskKey, key: TurnKey, s: TurnStep): Step {
    var states := if s.state.Some? then w.states[key := s.state.value] else w.states;
    Step(
      w.(turns := w.turns[key := s.turn], states := states, runs := w.runs[s.turn.owner := s.run],
         tasks := w.tasks[task := s.vars], channel := s.channel),
      s.result)
  }

  // An event on a turn; a new event id is drawn whether or not the event is accepted.
  function WithEvent(w: World, key: TurnKey, s: EventStep): Step {
    Step(
      w.(states := w.states[key := s.state], runs := w.runs[s.state.owner := s.run],
         channel := s.channel, eventIds := w.eventIds + 1),
      s.result)
  }

  // The state of a turn and its owner exist.
  predicate Entered(w: World, key: TurnKey) {
    key in w.states && w.states[key].owner in w.runs
  }

  function ActiveRun(w: World, vars: Vars): Option<Run> {
    if vars.run.Some? && vars.run.value in w.runs then Some(w.runs[vars.run.value]) else None
  }

  predicate IsEvent(op: Op) {
    op.BeginTool? || op.EndTool? || op.RecordOnTurn? || op.RecordBusinessOutcome? || op.CaptureTrace?
  }

  // What an operation that records an event comes to: an error before anything happens, or an event
  // step on one turn (possibly with one tool context updated).
  datatype EventEffect = Refused(result: Result) | Recorded(turn: TurnKey, tools: map<ToolKey, Tool>, step: EventStep)

  // An event effect is an event step on an entered turn and its owner, with at most one tool's flags changed.
  ghost predicate EffectFits(w: World, e: EventEffect) {
    e.Recorded? ==>
      && Entered(w, e.turn)
      && e.tools.Keys == w.tools.Keys && (forall l :: l in w.tools ==> e.tools[l].turn == w.tools[l].turn)
      && EventStepFits(w.states[e.turn], w.runs[w.states[e.turn].owner], e.step)
  }

  function RecordOn(w: World, key: TurnKey, draft: Draft, valid: bool, sink: bool): (e: EventEffect)
    requires Entered(w, key)
    ensures EffectFits(w, e)
  {
    var state := w.states[key];
    Recorded(key, w.tools, Record(state, w.runs[state.owner], w.channel, draft, valid, w.eventIds, sink))
  }

  function BeginToolOn(w: World, task: TaskKey, vars: Vars, key: ToolKey, valid: bool, sink: bool): (e: EventEffect)
    ensures EffectFits(w, e)
  {
    if key !in w.tools || w.tools[key].turn !in w.turns || !Entered(w, w.tools[key].turn) then Refused(NoSuchObject)
    else
      var turn := w.tools[key].turn;
      var state := w.states[turn];
      var s := EnterTool(key, w.tools[key], w.turns[turn], state, w.runs[state.owner], task, vars, w.channel,
                         valid, w.eventIds, sink);
      Recorded(turn, w.tools[key := s.tool], s.event)
  }

  function EndToolOn(w: World, vars: Vars, key: ToolKey, error: Option<Raised>, valid: bool,
      sink: bool): (e: EventEffect)
    ensures EffectFits(w, e)
  {
    if key !in w.tools || w.tools[key].turn !in w.turns || !Entered(w, w.tools[key].turn) then Refused(NoSuchObject)
    else
      var turn := w.tools[key].turn;
      var state := w.states[turn];
      var s := ExitTool(key, w.tools[key], w.turns[turn], state, w.runs[state.owner], vars, w.channel,
                        error, valid, w.eventIds, sink);
      Recorded(turn, w.tools[key := s.tool], s.event)
  }

  function EventOf(w: World, task: TaskKey, vars: Vars, op: Op): (e: EventEffect)
    requires IsEvent(op)
    ensures EffectFits(w, e)
  {
    match op
    case BeginTool(key, valid, sink) => BeginToolOn(w, task, vars, key, valid, sink)
    case EndTool(key, error, valid, sink) => EndToolOn(w, vars, key, error, valid, sink)
    case RecordOnTurn(key, name, status, valid, sink) =>
      if key !in w.turns then Refused(NoSuchObject)
      else if !TurnActive(key, w.turns[key], vars) then Refused(Inactive)
      else if !Entered(w, key) then Refused(NoSuchObject)
      else RecordOn(w, key, Draft(Other(name), status, None, None, None), valid, sink)
    case RecordBusinessOutcome(key, refused, valid, sink) =>
      if key !in w.runs then Refused(NoSuchObject)
      else if !RunActive(key, w.runs[key], vars) then Refused(Inactive)
      else
        var latest := w.runs[key].latestTurn;
        if latest.None? || !Entered(w, latest.value) then Refused(NoTurnYet)
        else RecordOn(w, latest.value, Draft(Outcome, if refused then Failed else Completed, None, None, None), valid,
            sink)
    case CaptureTrace(key, trace, failed, valid, sink) =>
      if !Entered(w, key) then Refused(NoSuchObject)
      else RecordOn(w, key, Draft(ModelCall, if failed then Failed else Completed, Some(trace), None, None), valid,
          sink)
  }

  // What the links between objects speak of in a run record.
  predicate SameRun(w: World, w': World, r: RunKey) {
    && r in w.runs && r in w'.runs
    && w'.runs[r] == w.runs[r].(
         turnSequence := w'.runs[r].turnSequence, producerSequence := w'.runs[r].producerSequence,
         captureFailed := w'.runs[r].captureFailed)
  }

  // What an event operation leaves alone: everything but numbers, latches, tool flags and the channel.
  ghost predicate Quiet(w: World, w': World) {
    && w'.client == w.client && w'.turns == w.turns && w'.tasks == w.tasks
    && w'.runs.Keys == w.runs.Keys && w'.states.Keys == w.states.Keys && w'.tools.Keys == w.tools.Keys
    && (forall r :: r in w.runs ==> SameRun(w, w', r))
    && (forall k :: k in w.states ==> w'.states[k] == w.states[k].(nextEvent := w'.states[k].nextEvent))
    && (forall l :: l in w.tools ==> w'.tools[l].turn == w.tools[l].turn)
  }

  function Effected(w: World, e: EventEffect): (s: Step)
    requires EffectFits(w, e)
    ensures Quiet(w, s.world)
  {
    match e
    case Refused(result) => Step(w, result)
    case Recorded(turn, tools, step) => WithEvent(w.(tools := tools), turn, step)
  }

  function Next(w: World, task: TaskKey, op: Op): Step {
    if task !in w.tasks then Step(w, NoSuchObject)
    else
      var vars := w.tasks[task];
      match op
      case CreateRun(key, config) =>
        if key in w.runs then Step(w, NoSuchObject)
        else if config.name == "" then Step(w, Invalid)
        else Step(w.(runs := w.runs[key := NewRun(key, config)]), Done)
      case BeginRun(key, sink) =>
        if key !in w.runs then Step(w, NoSuchObject)
        else WithRun(w, task, key,
               EnterRun(w.client, key, w.runs[key], ActiveRun(w, vars), task, vars, w.channel, sink))
      case EndRun(key, error, sink) =>
        if key !in w.runs then Step(w, NoSuchObject)
        else WithRun(w, task, key, ExitRun(key, w.runs[key], task, vars, w.channel, error, sink))
      case CreateTurn(key, run, request) =>
        if key in w.turns || run !in w.runs then Step(w, NoSuchObject)
        else if !RunActive(run, w.runs[run], vars) then Step(w, Inactive)
        else Step(w.(turns := w.turns[key := NewTurn(run, request)]), Done)
      case BeginTurn(key, valid, sink) =>
        if key !in w.turns || w.turns[key].owner !in w.runs then Step(w, NoSuchObject)
        else
          var owner := w.runs[w.turns[key].owner];
          WithTurn(w, task, key, EnterTurn(w.client, key, w.turns[key], owner, task, vars, w.channel, valid, sink))
      case EndTurn(key, error, sink) =>
        if key !in w.turns then Step(w, NoSuchObject)
        else if !Entered(w, key) || w.turns[key].owner !in w.runs then Step(w, NotEntered)
        else
          var owner := w.runs[w.turns[key].owner];
          WithTurn(w, task, key,
                   ExitTurn(w.client, w.turns[key], w.states[key], owner, task, vars, w.channel, error, sink))
      case SetTurnOutput(key, output) =>
        if key !in w.turns then Step(w, NoSuchObject)
        else if !TurnActive(key, w.turns[key], vars) then Step(w, Inactive)
        else if output.None? then Step(w, Invalid)
        else Step(w.(turns := w.turns[key := w.turns[key].(output := output)]), Done)
      case CreateTool(key, turn, callId, valid) =>
        if key in w.tools || turn !in w.turns then Step(w, NoSuchObject)
        else if !TurnActive(turn, w.turns[turn], vars) then Step(w, Inactive)
        else if !valid then Step(w, Invalid)
        else Step(w.(tools := w.tools[key := NewTool(turn, callId)]), Done)
      case Fork(child) =>
        if child in w.tasks then Step(w, NoSuchObject)
        else Step(w.(tasks := w.tasks[child := vars]), Done)
      case _ => Effected(w, EventOf(w, task, vars, op))
  }

  function Initial(client: Client, task: TaskKey): World {
    World(client, map[], map[], map[], map[], map[task := Vars(None, None)], Channel([], 0), 0)
  }

  // ---- Schedules: any operations by any tasks in any order ----

  datatype Call = Call(task: TaskKey, op: Op)

  function RunAll(w: World, calls: seq<Call>): World {
    if calls == [] then w
    else
      var last := |calls| - 1;
      Next(RunAll(w, calls[..last]), calls[last].task, calls[last].op).world
  }

  // ---- The attempts of one run, in order ----

  function AttemptsOf(log: seq<Attempt>, key: RunKey): seq<Attempt> {
    if log == [] then []
    else
      var a := log[|log| - 1];
      AttemptsOf(log[..|log| - 1], key) + if a.run == key then [a] else []
  }

  // Attempts whose batch was not stored.
  function Lost(log: seq<Attempt>): nat {
    if log == [] then 0
    else Lost(log[..|log| - 1]) + if log[|log| - 1].stored then 0 else 1
  }

  function Captured(log: seq<Attempt>): seq<Attempt> {
    if log == [] then []
    else Captured(log[..|log| - 1]) + if log[|log| - 1].stored then [log[|log| - 1]] else []
  }
}
