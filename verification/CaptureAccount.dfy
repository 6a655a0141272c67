/** The records and the log of every schedule are what its history says, word by word. */
module CaptureAccount {
  import opened Options
  import opened Sampling
  import opened CaptureRecords
  import opened CaptureWorld
  import opened CaptureSteps
  import opened CaptureReplay
  import opened CaptureInvariants
  import opened CaptureLog
  import opened CaptureTheorems
  import opened CaptureContent
  import opened CaptureHistory
  import opened CaptureAnswers

  // ---- What an event operation does ----

  function AboutIn(w: World, op: Op): Option<TurnKey> {
    match op
    case BeginTurn(k, _, _) => Some(k)
    case EndTurn(k, _, _) => Some(k)
    case BeginTool(l, _, _) => if l in w.tools then Some(w.tools[l].turn) else None
    case EndTool(l, _, _, _) => if l in w.tools then Some(w.tools[l].turn) else None
    case RecordOnTurn(k, _, _, _, _) => Some(k)
    case RecordBusinessOutcome(r, _, _, _) => if r in w.runs then w.runs[r].latestTurn else None
    case CaptureTrace(k, _, _, _, _) => Some(k)
    case _ => None
  }

  function DraftIn(w: World, op: Op): Draft
    requires IsEvent(op) && (op.BeginTool? || op.EndTool? ==> op.tool in w.tools)
  {
    match op
    case BeginTool(l, _, _) => Draft(ToolCall, Completed, None, Some(w.tools[l].callId), Some(l))
    case EndTool(l, error, _, _) => Draft(ToolResult, StatusOf(error), None, Some(w.tools[l].callId), Some(l))
    case RecordOnTurn(_, name, status, _, _) => Draft(Other(name), status, None, None, None)
    case RecordBusinessOutcome(_, refused, _, _) =>
      Draft(Outcome, if refused then Failed else Completed, None, None, None)
    case CaptureTrace(_, trace, failed, _, _) =>
      Draft(ModelCall, if failed then Failed else Completed, Some(trace), None, None)
  }

  lemma StatusIs(error: Option<Raised>)
    ensures TerminalStatus(error) == StatusOf(error)
  {
  }

  // The effect is the record of this draft on this turn.
  ghost predicate RecordsOn(w: World, op: Op, e: EventEffect) {
    && e.Recorded? && Entered(w, e.turn) && AboutIn(w, op) == Some(e.turn) && IsEvent(op)
    && (op.BeginTool? || op.EndTool? ==> op.tool in w.tools)
    && var state := w.states[e.turn];
       e.step == Record(state, w.runs[state.owner], w.channel, DraftIn(w, op), true, w.eventIds, op.sink)
  }

  // Otherwise nothing changes but, perhaps, the mark of a tool.
  ghost predicate RecordsNothing(w: World, e: EventEffect) {
    e.Recorded? ==>
      && Entered(w, e.turn) && e.step.state == w.states[e.turn] && e.step.run == w.runs[w.states[e.turn].owner]
      && e.step.channel == w.channel
  }

  lemma RecordShape(state: TurnState, run: Run, channel: Channel, draft: Draft, valid: bool, eventId: nat, sink: bool)
    ensures var s := Record(state, run, channel, draft, valid, eventId, sink);
            if valid then s.result == Done else s == EventStep(state, run, channel, Invalid)
  {
    hide Emit;
  }

  lemma BeginToolRecordsOn(w: World, t: TaskKey, vars: Vars, op: Op)
    requires op.BeginTool?
    ensures var e := BeginToolOn(w, t, vars, op.tool, op.valid, op.sink);
            if e.Recorded? && e.step.result == Done then RecordsOn(w, op, e)
            else RecordsNothing(w, e) && (e.Refused? ==> e.result != Done)
  {
    hide Record, TurnActive, EffectFits;
    if op.tool in w.tools && Entered(w, w.tools[op.tool].turn) {
      var state := w.states[w.tools[op.tool].turn];
      RecordShape(state, w.runs[state.owner], w.channel, DraftIn(w, op), op.valid, w.eventIds, op.sink);
    }
  }

  lemma EndToolRecordsOn(w: World, vars: Vars, op: Op)
    requires op.EndTool?
    ensures var e := EndToolOn(w, vars, op.tool, op.error, op.valid, op.sink);
            if e.Recorded? && e.step.result == Done then RecordsOn(w, op, e)
            else RecordsNothing(w, e) && (e.Refused? ==> e.result != Done)
  {
    StatusIs(op.error);
    hide Record, TurnActive, EffectFits, TerminalStatus, StatusOf;
    if op.tool in w.tools && Entered(w, w.tools[op.tool].turn) {
      var state := w.states[w.tools[op.tool].turn];
      RecordShape(state, w.runs[state.owner], w.channel, DraftIn(w, op), op.valid, w.eventIds, op.sink);
    }
  }

  lemma OtherRecordsOn(w: World, t: TaskKey, vars: Vars, op: Op)
    requires op.RecordOnTurn? || op.RecordBusinessOutcome? || op.CaptureTrace?
    ensures var e := EventOf(w, t, vars, op);
            if e.Recorded? && e.step.result == Done then RecordsOn(w, op, e)
            else RecordsNothing(w, e) && (e.Refused? ==> e.result != Done)
  {
    hide Record, TurnActive, RunActive, EffectFits, BeginToolOn, EndToolOn;
    var k := AboutIn(w, op);
    if k.Some? && Entered(w, k.value) {
      var state := w.states[k.value];
      RecordShape(state, w.runs[state.owner], w.channel, DraftIn(w, op), op.valid, w.eventIds, op.sink);
    }
  }

  // The result of an effect is that of what it records.
  lemma EffectResult(w: World, op: Op, e: EventEffect)
    requires EffectFits(w, e)
    requires if e.Recorded? && e.step.result == Done then RecordsOn(w, op, e)
             else RecordsNothing(w, e) && (e.Refused? ==> e.result != Done)
    ensures if Effected(w, e).result == Done then RecordsOn(w, op, e) else RecordsNothing(w, e)
  {
    EffectTools(w, e);
    hide Effected, EffectFits, RecordsOn, RecordsNothing;
  }

  lemma EventRecords(w: World, t: TaskKey, vars: Vars, op: Op)
    requires IsEvent(op)
    ensures var e := EventOf(w, t, vars, op);
            if Effected(w, e).result == Done then RecordsOn(w, op, e) else RecordsNothing(w, e)
  {
    hide Effected, EffectFits, RecordsOn, RecordsNothing, BeginToolOn, EndToolOn, RecordOn, TurnActive, RunActive,
      Entered;
    EffectResult(w, op, EventOf(w, t, vars, op)) by {
      if op.BeginTool? {
        BeginToolRecordsOn(w, t, vars, op);
      } else if op.EndTool? {
        EndToolRecordsOn(w, vars, op);
      } else {
        OtherRecordsOn(w, t, vars, op);
      }
    }
  }

  // ---- What an operation emits ----

  predicate IsEmitting(op: Op) {
    op.BeginRun? || op.EndRun? || op.BeginTurn? || op.EndTurn? || IsEvent(op)
  }

  function EmitterIn(w: World, op: Op): Option<RunKey> {
    if op.BeginRun? || op.EndRun? then Some(op.run)
    else
      match AboutIn(w, op)
      case None => None
      case Some(k) => if k in w.turns then Some(w.turns[k].owner) else None
  }

  function TraceOf(op: Op): Option<nat> {
    if op.CaptureTrace? then Some(op.trace) else None
  }

  // The record a run emits with, and the parts of the batch.
  datatype Emitted = Emitted(r: RunKey, run: Run, turn: Option<TurnSnapshot>, event: Option<CaptureRecords.Event>)

  ghost predicate EmitsAs(w: World, w': World, op: Op, x: Emitted)
    requires IsEmitting(op)
  {
    && EmitterIn(w, op) == Some(x.r) && x.r in w.runs && x.r in w'.runs
    && w'.channel == Emit(x.r, x.run, w.channel, x.turn, x.event, TraceOf(op), op.sink).channel
    && x.run.sampled == w'.runs[x.r].sampled && x.run.captureFailed == w.runs[x.r].captureFailed
    && x.run.snapshot.Some? && x.run.source.Some?
    && x.run.snapshot == w'.runs[x.r].snapshot && x.run.source == w'.runs[x.r].source
    && (x.turn.Some? <==> AboutIn(w, op).Some?)
    && (x.turn.Some? ==>
          AboutIn(w, op).value in w'.states && x.turn.value == w'.states[AboutIn(w, op).value].turn)
    && (x.event.Some? <==> IsEvent(op))
    && (x.event.Some? ==> IsEventOf(w, op, x.event.value, x.r))
  }

  ghost predicate IsEventOf(w: World, op: Op, event: CaptureRecords.Event, r: RunKey)
    requires IsEvent(op) && r in w.runs
  {
    && (op.BeginTool? || op.EndTool? ==> op.tool in w.tools)
    && AboutIn(w, op).Some? && AboutIn(w, op).value in w.states
    && var k := AboutIn(w, op).value;
       event == CaptureRecords.Event(w.eventIds, w.states[k].turn.turnId, w.states[k].nextEvent,
           w.runs[r].producerSequence, DraftIn(w, op))
  }

  // A run that has started has its source.
  lemma StartedHasSource(w: World, r: RunKey)
    requires Inv(w) && Started(w, r)
    ensures w.runs[r].source.Some?
  {
    hide Inv;
    RunReplays(w, r);
  }

  lemma BeginRunEmits(w: World, t: TaskKey, op: Op) returns (x: Emitted)
    requires op.BeginRun? && Next(w, t, op).result == Done
    ensures EmitsAs(w, Next(w, t, op).world, op, x)
  {
    hide Next, EnterRun, EntersRun, ActiveRun, Emit, IsEventOf;
    if t !in w.tasks || !Finds(w, op) {
      NothingFound(w, t, op);
    }
    var s := RunBegun(w, t, op);
    var started := EnteredRunEmits(w.client, op.run, w.runs[op.run], ActiveRun(w, w.tasks[t]), t, w.tasks[t], w.channel,
        op.sink);
    x := Emitted(op.run, started, None, None);
  }

  lemma EndRunEmits(w: World, t: TaskKey, op: Op) returns (x: Emitted)
    requires Inv(w) && op.EndRun? && Next(w, t, op).result == Done
    ensures EmitsAs(w, Next(w, t, op).world, op, x)
  {
    hide Inv, Next, ExitRun, Emit, IsEventOf, TerminalStatus;
    if t !in w.tasks || !Finds(w, op) {
      NothingFound(w, t, op);
    }
    var s := RunEnded(w, t, op);
    assert Started(w, op.run);
    StartedHasSource(w, op.run);
    var closed := ClosedRunEmits(op.run, w.runs[op.run], t, w.tasks[t], w.channel, op.error, op.sink);
    x := Emitted(op.run, closed, None, None);
  }

  lemma OwnerStarted(w: World, k: TurnKey)
    requires Inv(w) && k in w.turns
    ensures Started(w, w.turns[k].owner) && w.runs[w.turns[k].owner].source.Some?
    ensures k in w.states ==> w.states[k].owner == w.turns[k].owner
  {
    assert TurnLinked(w, k);
    assert k in w.states ==> StateLinked(w, k);
    hide Inv;
    StartedHasSource(w, w.turns[k].owner);
  }

  lemma BeginTurnEmits(w: World, t: TaskKey, op: Op) returns (x: Emitted)
    requires Inv(w) && op.BeginTurn? && Next(w, t, op).result == Done
    ensures EmitsAs(w, Next(w, t, op).world, op, x)
  {
    hide Inv, Next, EnterTurn, EntersTurn, Emit, IsEventOf;
    if t !in w.tasks || !Finds(w, op) {
      NothingFound(w, t, op);
    }
    OwnerStarted(w, op.turn);
    var s := TurnBegun(w, t, op);
    var turn := w.turns[op.turn];
    var numbered, snapshot := EnteredTurnEmits(w.client, op.turn, turn, w.runs[turn.owner], t, w.tasks[t], w.channel,
        op.valid, op.sink);
    x := Emitted(turn.owner, numbered, Some(snapshot), None);
  }

  lemma EndTurnEmits(w: World, t: TaskKey, op: Op) returns (x: Emitted)
    requires Inv(w) && op.EndTurn? && Next(w, t, op).result == Done
    ensures EmitsAs(w, Next(w, t, op).world, op, x)
  {
    hide Inv, Next, ExitTurn, ExitsTurn, Emit, IsEventOf, TerminalStatus;
    if t !in w.tasks || !Finds(w, op) {
      NothingFound(w, t, op);
    }
    OwnerStarted(w, op.turn);
    var s := TurnEnded(w, t, op);
    var turn := w.turns[op.turn];
    var snapshot := ClosedTurnEmits(w.client, turn, w.states[op.turn], w.runs[turn.owner], t, w.tasks[t], w.channel,
        op.error, op.sink);
    x := Emitted(turn.owner, w.runs[turn.owner], Some(snapshot), None);
  }

  // The record an event is emitted with.
  lemma RecordEmits(state: TurnState, run: Run, channel: Channel, draft: Draft, eventId: nat, sink: bool)
    ensures var s := Record(state, run, channel, draft, true, eventId, sink);
            var event := CaptureRecords.Event(eventId, state.turn.turnId, state.nextEvent, run.producerSequence, draft);
            var numbered := run.(producerSequence := run.producerSequence + 1);
            var e := Emit(state.owner, numbered, channel, Some(state.turn), Some(event), draft.traceId, sink);
            && s.state == state.(nextEvent := state.nextEvent + 1) && s.run == e.run && s.channel == e.channel
  {
    hide Emit;
  }

  lemma RecordIsEmitted(w: World, w': World, op: Op, e: EventEffect) returns (x: Emitted)
    requires RecordsOn(w, op, e) && e.turn in w.turns && w.states[e.turn].owner == w.turns[e.turn].owner
    requires var run := w.runs[w.states[e.turn].owner]; run.snapshot.Some? && run.source.Some?
    requires w'.states == w.states[e.turn := e.step.state] && w'.runs == w.runs[e.step.state.owner := e.step.run]
    requires w'.channel == e.step.channel
    ensures EmitsAs(w, w', op, x)
  {
    hide Record, Emit, DraftIn, AboutIn;
    var state := w.states[e.turn];
    var run := w.runs[state.owner];
    RecordEmits(state, run, w.channel, DraftIn(w, op), w.eventIds, op.sink);
    DraftTrace(w, op);
    x := Emitted(state.owner, run.(producerSequence := run.producerSequence + 1), Some(state.turn),
      Some(CaptureRecords.Event(w.eventIds, state.turn.turnId, state.nextEvent, run.producerSequence,
        DraftIn(w, op))));
  }

  lemma EventEmits(w: World, t: TaskKey, op: Op) returns (x: Emitted)
    requires Inv(w) && IsEvent(op) && Next(w, t, op).result == Done
    ensures EmitsAs(w, Next(w, t, op).world, op, x)
  {
    hide Inv, Next, EventOf, Record, DraftIn, AboutIn, Effected, EffectFits, EmitsAs;
    if t !in w.tasks {
      NothingFound(w, t, op);
    }
    var e := EventOf(w, t, w.tasks[t], op);
    EventNext(w, t, op);
    EventRecords(w, t, w.tasks[t], op);
    StatesHaveTurns(w, e.turn);
    OwnerStarted(w, e.turn);
    EffectedWorld(w, e);
    EffectedChannel(w, e);
    x := RecordIsEmitted(w, Next(w, t, op).world, op, e);
  }

  lemma StatesHaveTurns(w: World, k: TurnKey)
    requires Inv(w) && k in w.states
    ensures k in w.turns
  {
    assert StateLinked(w, k);
  }

  lemma DraftTrace(w: World, op: Op)
    requires IsEvent(op) && (op.BeginTool? || op.EndTool? ==> op.tool in w.tools)
    ensures DraftIn(w, op).traceId == TraceOf(op)
  {
  }

  // ---- What an operation does to the records ----

  function ParentIn(config: RunConfig, parent: Option<Run>): Option<string> {
    if config.parentOverride.Some? && config.parentOverride.value != "" then config.parentOverride
    else if parent.Some? then Some(parent.value.runId)
    else None
  }

  lemma EnteredRunRecord(client: Client, key: RunKey, run: Run, parent: Option<Run>, t: TaskKey, vars: Vars,
      channel: Channel, sink: bool)
    ensures var s := EnterRun(client, key, run, parent, t, vars, channel, sink);
            && (s.result == Done ==>
                  && s.run.snapshot == Some(RunSnapshot(run.config.runId, client.producer, client.tenant,
                       run.config.name, run.config.session, ParentIn(run.config, parent), Unknown))
                  && s.run.source == Some(SourceSession(client.producer, client.tenant))
                  && s.run.sampled == if parent.Some? then parent.value.sampled
                                      else Sampled(run.config.digest, client.sampleRate))
            && (s.result != Done ==> s.run.snapshot == run.snapshot && (run.entered ==> s.run == run))
            && s.run.turnSequence == run.turnSequence && s.run.producerSequence == run.producerSequence
  {
    hide Emit, Sampled;
  }

  ghost predicate RunRecordMoves(w: World, t: TaskKey, op: Op, s: Step, r: RunKey)
    requires r in w.runs && r in s.world.runs
  {
    var run, run' := w.runs[r], s.world.runs[r];
    && run'.turnSequence == run.turnSequence
         + (if s.result == Done && op.BeginTurn? && EmitterIn(w, op) == Some(r) then 1 else 0)
    && run'.producerSequence == run.producerSequence
         + (if s.result == Done && IsEvent(op) && EmitterIn(w, op) == Some(r) then 1 else 0)
    && if s.result == Done && op.BeginRun? && op.run == r then
         && t in w.tasks
         && var parent := ActiveRun(w, w.tasks[t]);
            && run'.snapshot == Some(RunSnapshot(run.config.runId, w.client.producer, w.client.tenant, run.config.name,
                 run.config.session, ParentIn(run.config, parent), Unknown))
            && run'.source == Some(SourceSession(w.client.producer, w.client.tenant))
            && run'.sampled == if parent.Some? then parent.value.sampled
                               else Sampled(run.config.digest, w.client.sampleRate)
       else if s.result == Done && op.EndRun? && op.run == r then
         && run.snapshot.Some? && run'.snapshot == Some(run.snapshot.value.(status := StatusOf(op.error)))
         && run'.source == run.source && run'.sampled == run.sampled
       else
         run'.snapshot == run.snapshot && (run.snapshot.Some? ==>
             run'.source == run.source && run'.sampled == run.sampled)
  }

  lemma RunRecordMoved(w: World, t: TaskKey, op: Op, r: RunKey)
    requires Inv(w) && r in w.runs
    ensures var s := Next(w, t, op); r in s.world.runs && RunRecordMoves(w, t, op, s, r)
  {
    hide Inv, Next, EnterRun, ExitRun, EnterTurn, ExitTurn, Emit, Sampled, TerminalStatus, StatusOf, EntersRun,
      ParentIn, EventOf;
    if t !in w.tasks || !Finds(w, op) {
      NothingFound(w, t, op);
    } else if op.BeginRun? {
      var s := RunBegun(w, t, op);
      EnteredRunRecord(w.client, op.run, w.runs[op.run], ActiveRun(w, w.tasks[t]), t, w.tasks[t], w.channel, op.sink);
      StartedIsMarked(w, op.run);
    } else if op.EndRun? {
      var s := RunEnded(w, t, op);
      StatusIs(op.error);
    } else if op.BeginTurn? {
      var s := TurnBegun(w, t, op);
    } else if op.EndTurn? {
      var s := TurnEnded(w, t, op);
    } else if IsEvent(op) {
      EventMovesRun(w, t, op, r);
    } else {
      SmallStepKeeps(w, t, op);
    }
  }

  lemma StartedIsMarked(w: World, r: RunKey)
    requires Inv(w) && r in w.runs
    ensures w.runs[r].snapshot.Some? ==> w.runs[r].entered
  {
    assert RunLinked(w, r);
  }

  // What an event operation does to turns and runs.
  ghost predicate EventWorld(w: World, op: Op, s: Step) {
    if s.result == Done then
      && AboutIn(w, op).Some?
      && var k := AboutIn(w, op).value;
         && k in w.states && k in w.turns && w.states[k].owner == w.turns[k].owner
         && var r := w.states[k].owner;
            && r in w.runs && r in s.world.runs
            && s.world.states == w.states[k := w.states[k].(nextEvent := w.states[k].nextEvent + 1)]
            && s.world.runs == w.runs[r := w.runs[r].(producerSequence := w.runs[r].producerSequence + 1,
                 captureFailed := s.world.runs[r].captureFailed)]
    else s.world.states == w.states && s.world.runs == w.runs
  }

  // What recording an event does to its turn and its run.
  lemma RecordedParts(state: TurnState, run: Run, channel: Channel, draft: Draft, eventId: nat, sink: bool)
    ensures var s := Record(state, run, channel, draft, true, eventId, sink);
            && s.state == state.(nextEvent := state.nextEvent + 1)
            && s.run == run.(producerSequence := run.producerSequence + 1, captureFailed := s.run.captureFailed)
  {
    hide Emit;
  }

  lemma RecordedWorld(w: World, s: Step, op: Op, e: EventEffect)
    requires RecordsOn(w, op, e) && s.result == Done
    requires e.turn in w.turns && w.states[e.turn].owner == w.turns[e.turn].owner
    requires s.world.states == w.states[e.turn := e.step.state]
    requires s.world.runs == w.runs[e.step.state.owner := e.step.run]
    ensures EventWorld(w, op, s)
  {
    hide Record, DraftIn, AboutIn, Emit;
    RecordedParts(w.states[e.turn], w.runs[w.states[e.turn].owner], w.channel, DraftIn(w, op), w.eventIds, op.sink);
  }

  lemma EffectedWorld(w: World, e: EventEffect)
    requires e.Recorded? && EffectFits(w, e)
    ensures Effected(w, e).world.states == w.states[e.turn := e.step.state]
    ensures Effected(w, e).world.runs == w.runs[e.step.state.owner := e.step.run]
  {
    hide EffectFits;
  }

  lemma EffectedChannel(w: World, e: EventEffect)
    requires e.Recorded? && EffectFits(w, e)
    ensures Effected(w, e).world.channel == e.step.channel
  {
    hide EffectFits;
  }

  lemma UnrecordedWorld(w: World, e: EventEffect)
    requires EffectFits(w, e) && RecordsNothing(w, e)
    ensures Effected(w, e).world.states == w.states && Effected(w, e).world.runs == w.runs
  {
    hide EffectFits;
  }

  lemma RecordedTurn(w: World, op: Op, e: EventEffect)
    requires Inv(w) && RecordsOn(w, op, e)
    ensures e.Recorded? && e.turn in w.turns && e.turn in w.states && w.states[e.turn].owner == w.turns[e.turn].owner
  {
    hide Inv, Record, DraftIn, AboutIn;
    StatesHaveTurns(w, e.turn);
    OwnerStarted(w, e.turn);
  }

  lemma EventMoves(w: World, t: TaskKey, op: Op)
    requires Inv(w) && IsEvent(op)
    ensures EventWorld(w, op, Next(w, t, op))
  {
    if t !in w.tasks {
      NothingFound(w, t, op);
      hide Inv, Next;
    } else {
      hide Inv, Next, EventOf, Effected, RecordsOn, RecordsNothing, EffectFits;
      var e := EventOf(w, t, w.tasks[t], op);
      EventNext(w, t, op);
      EventRecords(w, t, w.tasks[t], op);
      if Next(w, t, op).result == Done {
        RecordedTurn(w, op, e);
        EffectedWorld(w, e);
        RecordedWorld(w, Next(w, t, op), op, e);
      } else {
        UnrecordedWorld(w, e);
      }
    }
  }

  lemma EventMovesRun(w: World, t: TaskKey, op: Op, r: RunKey)
    requires Inv(w) && r in w.runs && IsEvent(op)
    ensures var s := Next(w, t, op); r in s.world.runs && RunRecordMoves(w, t, op, s, r)
  {
    hide Inv, Next, AboutIn;
    EventMoves(w, t, op);
  }

  // ---- Turn records ----

  ghost predicate StateMoves(w: World, op: Op, s: Step, k: TurnKey) {
    && (k in s.world.states <==> k in w.states || (s.result == Done && op.BeginTurn? && op.turn == k))
    && (s.result == Done && op.BeginTurn? && op.turn == k ==>
          && k in w.turns && w.turns[k].owner in w.runs
          && var turn, run := w.turns[k], w.runs[w.turns[k].owner];
             s.world.states[k] == TurnState(turn.owner,
               TurnSnapshot(k, run.runId, run.turnSequence,
                 if w.client.captureContent then Some(turn.request) else None,
                 if w.client.captureContent then Present else NotCaptured, None, NotCaptured, Unknown), 0))
    && (s.result == Done && op.EndTurn? && op.turn == k ==>
          && k in w.turns && k in w.states
          && var output := w.turns[k].output;
             var response := if op.error.None? && w.client.captureContent then output else None;
             s.world.states[k] == w.states[k].(turn := w.states[k].turn.(
               status := StatusOf(op.error), response := response,
               responseState := if response.Some? then Present
                                else if w.client.captureContent then Missing else NotCaptured)))
    && (k in w.states && !(s.result == Done && (op.BeginTurn? || op.EndTurn?) && op.turn == k) ==>
          s.world.states[k] == w.states[k].(nextEvent := w.states[k].nextEvent
            + if s.result == Done && IsEvent(op) && AboutIn(w, op) == Some(k) then 1 else 0))
  }

  lemma EnteredTurnRecord(client: Client, key: TurnKey, turn: Turn, run: Run, t: TaskKey, vars: Vars, channel: Channel,
      valid: bool, sink: bool)
    ensures var s := EnterTurn(client, key, turn, run, t, vars, channel, valid, sink);
            && s.state.Some? == (s.result == Done)
            && (s.result == Done ==>
                  s.state.value == TurnState(turn.owner,
                    TurnSnapshot(key, run.runId, run.turnSequence,
                      if client.captureContent then Some(turn.request) else None,
                      if client.captureContent then Present else NotCaptured, None, NotCaptured, Unknown), 0))
  {
    hide Emit;
  }

  lemma ClosedTurnRecord(client: Client, turn: Turn, state: TurnState, run: Run, t: TaskKey, vars: Vars,
      channel: Channel, error: Option<Raised>, sink: bool)
    ensures var s := ExitTurn(client, turn, state, run, t, vars, channel, error, sink);
            var response := if error.None? && client.captureContent then turn.output else None;
            && s.state.Some?
            && s.state.value ==
                 if s.result == Done then
                   state.(turn := state.turn.(
                     status := StatusOf(error), response := response,
                     responseState := if response.Some? then Present
                                      else if client.captureContent then Missing else NotCaptured))
                 else state
  {
    StatusIs(error);
    hide Emit, TerminalStatus, StatusOf;
  }

  lemma BegunStateMoves(w: World, t: TaskKey, op: Op, k: TurnKey)
    requires t in w.tasks && Finds(w, op) && op.BeginTurn?
    ensures StateMoves(w, op, Next(w, t, op), k)
  {
    hide Next, EnterTurn, Emit, EntersTurn, AboutIn, StatusOf;
    var s := TurnBegun(w, t, op);
    EnteredTurnRecord(w.client, op.turn, w.turns[op.turn], w.runs[w.turns[op.turn].owner], t, w.tasks[t], w.channel,
      op.valid, op.sink);
  }

  lemma EndedStateMoves(w: World, t: TaskKey, op: Op, k: TurnKey)
    requires t in w.tasks && Finds(w, op) && op.EndTurn?
    ensures StateMoves(w, op, Next(w, t, op), k)
  {
    hide Next, ExitTurn, Emit, ExitsTurn, AboutIn, StatusOf;
    var s := TurnEnded(w, t, op);
    ClosedTurnRecord(w.client, w.turns[op.turn], w.states[op.turn], w.runs[w.turns[op.turn].owner], t, w.tasks[t],
      w.channel, op.error, op.sink);
  }

  lemma SameStatesMove(w: World, op: Op, s: Step, k: TurnKey)
    requires s.world.states == w.states && (s.result != Done || !(op.BeginTurn? || op.EndTurn? || IsEvent(op)))
    ensures StateMoves(w, op, s, k)
  {
    hide AboutIn, StatusOf;
  }

  lemma EventStateMoves(w: World, op: Op, s: Step, k: TurnKey)
    requires IsEvent(op) && EventWorld(w, op, s)
    ensures StateMoves(w, op, s, k)
  {
    hide AboutIn, StatusOf;
  }

  lemma StateMoved(w: World, t: TaskKey, op: Op, k: TurnKey)
    requires Inv(w)
    ensures StateMoves(w, op, Next(w, t, op), k)
  {
    hide Inv, Next, EnterRun, ExitRun, StateMoves, EventWorld, EntersRun, ExitsRun;
    if t !in w.tasks || !Finds(w, op) {
      NothingFound(w, t, op);
      SameStatesMove(w, op, Next(w, t, op), k);
    } else if op.BeginRun? {
      var s := RunBegun(w, t, op);
      SameStatesMove(w, op, Next(w, t, op), k);
    } else if op.EndRun? {
      var s := RunEnded(w, t, op);
      SameStatesMove(w, op, Next(w, t, op), k);
    } else if op.BeginTurn? {
      BegunStateMoves(w, t, op, k);
    } else if op.EndTurn? {
      EndedStateMoves(w, t, op, k);
    } else if IsEvent(op) {
      EventMoves(w, t, op);
      EventStateMoves(w, op, Next(w, t, op), k);
    } else {
      SmallStepKeeps(w, t, op);
      SameStatesMove(w, op, Next(w, t, op), k);
    }
  }

  // ---- One more entry ----

  lemma CountsNext(h: seq<Entry>, e: Entry)
    ensures forall r: RunKey :: TurnsBegun(h + [e], r) == TurnsBegun(h, r)
              + if e.result == Done && e.op.BeginTurn? && OwnerOf(h, e.op.turn) == Some(r) then 1 else 0
    ensures forall k: TurnKey :: EventsOn(h + [e], k) == EventsOn(h, k)
              + if e.result == Done && IsEvent(e.op) && About(h, e.op) == Some(k) then 1 else 0
    ensures forall r: RunKey :: EventsFor(h + [e], r) == EventsFor(h, r)
              + if e.result == Done && IsEvent(e.op) && Emitter(h, e) == Some(r) then 1 else 0
  {
    assert (h + [e])[..|h|] == h;
    hide OwnerOf, About, Emitter;
  }

  lemma RunRecordStays(h: seq<Entry>, client: Client, e: Entry, r: RunKey)
    requires HasRun(h, r) && !Is(e, MakesRun(r)) && !Is(e, BeginsRun(r))
    ensures HasRun(h + [e], r)
    ensures RunRecord(h + [e], client, r) ==
              if Is(e, EndsRun(r)) then RunRecord(h, client, r).(status := StatusOf(e.op.error))
              else RunRecord(h, client, r)
  {
    hide Last, Did, Of, Earlier, Is, StatusOf, ParentOf;
    DidNext(h, e, MakesRun(r));
    DidNext(h, e, BeginsRun(r));
    DidNext(h, e, EndsRun(r));
    EndsIs(e, r);
  }

  lemma EndsIs(e: Entry, r: RunKey)
    ensures Is(e, EndsRun(r)) ==> e.op.EndRun?
    ensures Is(e, BeginsRun(r)) ==> !Is(e, MakesRun(r)) && !Is(e, EndsRun(r))
  {
  }

  lemma RunRecordBegins(h: seq<Entry>, client: Client, e: Entry, r: RunKey)
    requires Did(h, MakesRun(r)) && Is(e, BeginsRun(r)) && !Did(h, EndsRun(r))
    ensures HasRun(h + [e], r)
    ensures var config := Of(h, MakesRun(r)).op.config;
            RunRecord(h + [e], client, r) == RunSnapshot(config.runId, client.producer, client.tenant, config.name,
              config.session, ParentOf(h, e.task, config), Unknown)
  {
    hide Last, Did, Of, Earlier, Is, StatusOf, ParentOf;
    EndsIs(e, r);
    DidNext(h, e, MakesRun(r));
    DidNext(h, e, BeginsRun(r));
    DidNext(h, e, EndsRun(r));
  }

  lemma DecisionStays(h: seq<Entry>, client: Client, e: Entry, r: RunKey)
    requires HasRun(h, r) && !Is(e, MakesRun(r)) && !Is(e, BeginsRun(r))
    ensures Decision(h + [e], client, r) == Decision(h, client, r)
  {
    hide Last, Did, Of, Earlier, Is, Sampled, Where;
    DidNext(h, e, MakesRun(r));
    DidNext(h, e, BeginsRun(r));
  }

  lemma DecisionBegins(h: seq<Entry>, client: Client, e: Entry, r: RunKey)
    requires Did(h, MakesRun(r)) && Is(e, BeginsRun(r))
    ensures Decision(h + [e], client, r) ==
              if Where(h, e.task).run.Some? then Decision(h, client, Where(h, e.task).run.value)
              else Sampled(Of(h, MakesRun(r)).op.config.digest, client.sampleRate)
  {
    hide Last, Did, Of, Earlier, Is, Sampled, Where;
    EndsIs(e, r);
    DidNext(h, e, MakesRun(r));
    DidNext(h, e, BeginsRun(r));
  }

  lemma TurnIsOf(e: Entry, k: TurnKey, r: RunKey)
    ensures Is(e, EndsTurn(k)) ==> e.op.EndTurn?
    ensures Is(e, BeginsTurn(k)) ==> !Is(e, MakesTurn(k)) && !Is(e, EndsTurn(k)) && !Is(e, MakesRun(r))
    ensures Is(e, EndsTurn(k)) ==> !Is(e, MakesTurn(k)) && !Is(e, MakesRun(r))
  {
  }

  lemma TurnRecordStays(h: seq<Entry>, client: Client, e: Entry, k: TurnKey)
    requires HasTurn(h, k) && !Is(e, MakesTurn(k)) && !Is(e, BeginsTurn(k)) && !Is(e, MakesRun(OwnerOf(h, k).value))
    ensures HasTurn(h + [e], k)
    ensures !Is(e, EndsTurn(k)) ==> TurnRecord(h + [e], client, k) == TurnRecord(h, client, k)
    ensures Is(e, EndsTurn(k)) ==>
              var response := if client.captureContent && e.op.error.None? then Said(h, k) else None;
              TurnRecord(h + [e], client, k) == TurnRecord(h, client, k).(
                status := StatusOf(e.op.error), response := response,
                responseState := if response.Some? then Present
                                 else if client.captureContent then Missing else NotCaptured)
  {
    hide Last, Did, Of, Earlier, Is, StatusOf, Said, TurnsBegun;
    var owner := OwnerOf(h, k).value;
    TurnIsOf(e, k, owner);
    DidNext(h, e, MakesTurn(k));
    DidNext(h, e, BeginsTurn(k));
    DidNext(h, e, EndsTurn(k));
    DidNext(h, e, MakesRun(owner));
  }

  lemma TurnRecordBegins(h: seq<Entry>, client: Client, e: Entry, k: TurnKey)
    requires Did(h, MakesTurn(k)) && Is(e, BeginsTurn(k)) && !Did(h, EndsTurn(k))
    requires Did(h, MakesRun(OwnerOf(h, k).value))
    ensures HasTurn(h + [e], k)
    ensures var made := Of(h, MakesTurn(k)).op;
            TurnRecord(h + [e], client, k) == TurnSnapshot(k, Of(h, MakesRun(made.run)).op.config.runId,
              TurnsBegun(h, made.run), if client.captureContent then Some(made.request) else None,
              if client.captureContent then Present else NotCaptured, None, NotCaptured, Unknown)
  {
    hide Last, Did, Of, Earlier, Is, StatusOf, Said, TurnsBegun;
    var owner := OwnerOf(h, k).value;
    TurnIsOf(e, k, owner);
    DidNext(h, e, MakesTurn(k));
    DidNext(h, e, BeginsTurn(k));
    DidNext(h, e, EndsTurn(k));
    DidNext(h, e, MakesRun(owner));
  }

  // ---- The same in the world and in the history ----

  lemma AboutAgrees(w: World, h: seq<Entry>, first: TaskKey, op: Op)
    requires Linked(w) && Fits(w, h, first)
    ensures AboutIn(w, op) == About(h, op)
    ensures IsEvent(op) && (op.BeginTool? || op.EndTool? ==> op.tool in w.tools) ==>
              && (op.BeginTool? || op.EndTool? ==> Did(h, MakesTool(op.tool)))
              && DraftIn(w, op) == DraftOf(h, op)
  {
    if op.BeginTool? || op.EndTool? {
      assert ToolFits(w, h, op.tool);
    } else if op.RecordBusinessOutcome? {
      assert RunFits(w, h, op.run);
    }
    hide Linked, Fits, Last, Did, Of, Is, LatestTurn, StatusOf, TokensAre;
  }

  lemma EmitterAgrees(w: World, h: seq<Entry>, first: TaskKey, e: Entry)
    requires Linked(w) && Fits(w, h, first) && e.result == Done
    ensures EmitterIn(w, e.op) == Emitter(h, e)
    ensures forall k :: (if k in w.turns then Some(w.turns[k].owner) else None) == OwnerOf(h, k)
  {
    AboutAgrees(w, h, first, e.op);
    forall k ensures (if k in w.turns then Some(w.turns[k].owner) else None) == OwnerOf(h, k) {
      assert TurnFits(w, h, k);
    }
    hide Linked, Fits, Last, Did, Of, Is, About, AboutIn;
  }

  // ---- The records are what the history says ----

  ghost predicate RunRecordFits(w: World, h: seq<Entry>, r: RunKey) {
    if r in w.runs then
      && w.runs[r].turnSequence == TurnsBegun(h, r) && w.runs[r].producerSequence == EventsFor(h, r)
      && (w.runs[r].snapshot.Some? ==>
            && HasRun(h, r) && w.runs[r].snapshot.value == RunRecord(h, w.client, r)
            && w.runs[r].source == Some(SourceSession(w.client.producer, w.client.tenant))
            && w.runs[r].sampled == Decision(h, w.client, r))
    else TurnsBegun(h, r) == 0 && EventsFor(h, r) == 0
  }

  ghost predicate TurnRecordFits(w: World, h: seq<Entry>, k: TurnKey) {
    if k in w.states then
      HasTurn(h, k) && w.states[k].turn == TurnRecord(h, w.client, k) && w.states[k].nextEvent == EventsOn(h, k)
    else EventsOn(h, k) == 0
  }

  ghost predicate RecordsFit(w: World, h: seq<Entry>) {
    && (forall r :: RunRecordFits(w, h, r))
    && (forall k :: TurnRecordFits(w, h, k))
  }

  // The run a task is inside of, and the parent of a run it begins.
  lemma ParentsAgree(w: World, h: seq<Entry>, first: TaskKey, t: TaskKey, config: RunConfig)
    requires Linked(w) && Fits(w, h, first) && t in w.tasks
    ensures ParentIn(config, ActiveRun(w, w.tasks[t])) == ParentOf(h, t, config)
    ensures ActiveRun(w, w.tasks[t]).Some? <==> Where(h, t).run.Some?
    ensures Where(h, t).run.Some? ==>
              var r := Where(h, t).run.value;
              r in w.runs && Started(w, r) && ActiveRun(w, w.tasks[t]) == Some(w.runs[r])
  {
    assert TaskFits(w, h, first, t) && TaskLinked(w, t);
    RunsFit(w, h, first);
    InsideIsActive(w, h, first, t);
    hide Linked, Fits, RunFits, Where, Last, Did, Of, Is, InRun, RunActive;
  }

  // What was not done twice.
  lemma RunDoneOnce(w: World, h: seq<Entry>, first: TaskKey, t: TaskKey, op: Op, r: RunKey)
    requires Linked(w) && Fits(w, h, first)
    ensures var e := Entry(t, op, Next(w, t, op).result);
            && (HasRun(h, r) ==> !Is(e, MakesRun(r)) && !Is(e, BeginsRun(r)))
            && (Did(h, MakesRun(r)) ==> !Is(e, MakesRun(r)))
            && (Is(e, BeginsRun(r)) ==> Did(h, MakesRun(r)) && !Did(h, EndsRun(r)))
            && (Is(e, EndsRun(r)) ==> HasRun(h, r))
  {
    AnswerIs(w, h, first, t, op);
    RunCallsFit(h, first, t, op, r);
    assert RunFits(w, h, r);
    hide Linked, Fits, Next, Answer, Last, Did, Of, LatestTurn, TokensAre;
  }

  lemma StartedRunFits(w: World, h: seq<Entry>, first: TaskKey, t: TaskKey, op: Op, r: RunKey)
    requires Inv(w) && Fits(w, h, first) && RecordsFit(w, h) && r in w.runs
    requires op.BeginRun? && op.run == r && Next(w, t, op).result == Done
    ensures var s := Next(w, t, op);
            var after := h + [Entry(t, op, Done)];
            && r in s.world.runs && s.world.runs[r].snapshot.Some? && HasRun(after, r)
            && s.world.runs[r].snapshot.value == RunRecord(after, w.client, r)
            && s.world.runs[r].source == Some(SourceSession(w.client.producer, w.client.tenant))
            && s.world.runs[r].sampled == Decision(after, w.client, r)
  {
    var e := Entry(t, op, Done);
    RunRecordMoved(w, t, op, r);
    assert Linked(w) by { InvReplays(w); }
    RunDoneOnce(w, h, first, t, op, r);
    assert RunFits(w, h, r);
    hide Inv, Linked, Next, Sampled, ParentIn, ParentOf, Where, Last, Did, Of, Earlier, TokensAre, LatestTurn,
        ActiveRun,
      RunRecord, Decision, Fits, NoRun;
    assert Is(e, BeginsRun(r));
    ParentsAgree(w, h, first, t, w.runs[r].config);
    RunRecordBegins(h, w.client, e, r);
    DecisionBegins(h, w.client, e, r);
    if Where(h, t).run.Some? {
      assert RunRecordFits(w, h, Where(h, t).run.value);
    }
  }

  lemma StayingRunFits(w: World, h: seq<Entry>, first: TaskKey, t: TaskKey, op: Op, r: RunKey)
    requires Inv(w) && Fits(w, h, first) && RecordsFit(w, h) && r in w.runs && w.runs[r].snapshot.Some?
    requires !(op.BeginRun? && op.run == r && Next(w, t, op).result == Done)
    ensures var s := Next(w, t, op);
            var after := h + [Entry(t, op, s.result)];
            && r in s.world.runs && s.world.runs[r].snapshot.Some? && HasRun(after, r)
            && s.world.runs[r].snapshot.value == RunRecord(after, w.client, r)
            && s.world.runs[r].source == Some(SourceSession(w.client.producer, w.client.tenant))
            && s.world.runs[r].sampled == Decision(after, w.client, r)
  {
    var e := Entry(t, op, Next(w, t, op).result);
    RunRecordMoved(w, t, op, r);
    assert Linked(w) by { InvReplays(w); }
    RunDoneOnce(w, h, first, t, op, r);
    assert RunRecordFits(w, h, r);
    hide Inv, Linked, Next, Sampled, ParentIn, RunRecord, Decision, Fits, RecordsFit, HasRun, ActiveRun, StatusOf;
    RunRecordStays(h, w.client, e, r);
    DecisionStays(h, w.client, e, r);
  }

  lemma RunCountsFit(w: World, h: seq<Entry>, first: TaskKey, t: TaskKey, op: Op, r: RunKey)
    requires Inv(w) && Fits(w, h, first) && RunRecordFits(w, h, r) && r in w.runs
    ensures var s := Next(w, t, op);
            var after := h + [Entry(t, op, s.result)];
            && r in s.world.runs
            && s.world.runs[r].turnSequence == TurnsBegun(after, r)
            && s.world.runs[r].producerSequence == EventsFor(after, r)
  {
    hide Inv, Linked, Next, Fits, EmitterIn, Emitter, OwnerOf, About, TurnsBegun, EventsFor, EventsOn, RunRecord,
      Decision;
    var e := Entry(t, op, Next(w, t, op).result);
    RunCountsMoved(w, t, op, r);
    InvReplays(w);
    if e.result == Done {
      EmitterAgrees(w, h, first, e);
      if op.BeginTurn? {
        EmitterOfTurn(w, op);
      }
    }
    CountsNext(h, e);
  }

  lemma RunCountsMoved(w: World, t: TaskKey, op: Op, r: RunKey)
    requires Inv(w) && r in w.runs
    ensures var s := Next(w, t, op);
            && r in s.world.runs
            && s.world.runs[r].turnSequence == w.runs[r].turnSequence
                 + (if s.result == Done && op.BeginTurn? && EmitterIn(w, op) == Some(r) then 1 else 0)
            && s.world.runs[r].producerSequence == w.runs[r].producerSequence
                 + (if s.result == Done && IsEvent(op) && EmitterIn(w, op) == Some(r) then 1 else 0)
  {
    hide Inv, Next, EmitterIn, ActiveRun, ParentIn, StatusOf, Sampled;
    RunRecordMoved(w, t, op, r);
  }

  lemma EmitterOfTurn(w: World, op: Op)
    requires op.BeginTurn?
    ensures EmitterIn(w, op) == if op.turn in w.turns then Some(w.turns[op.turn].owner) else None
  {
  }

  lemma NoRunCounts(w: World, h: seq<Entry>, first: TaskKey, t: TaskKey, op: Op, r: RunKey)
    requires Inv(w) && Fits(w, h, first) && RunRecordFits(w, h, r) && r !in w.runs
    ensures var after := h + [Entry(t, op, Next(w, t, op).result)];
            TurnsBegun(after, r) == 0 && EventsFor(after, r) == 0
  {
    var e := Entry(t, op, Next(w, t, op).result);
    assert Linked(w) by { InvReplays(w); }
    if e.result == Done && !op.BeginRun? && !op.EndRun? {
      EmitterAgrees(w, h, first, e);
      forall k | k in w.turns ensures w.turns[k].owner != r {
        assert TurnLinked(w, k);
      }
    }
    CountsNext(h, e);
    hide Inv, Linked, Next, Fits, About, AboutIn, TurnsBegun, EventsFor, EventsOn, OwnerOf;
  }

  lemma RunRecordFitsNext(w: World, h: seq<Entry>, first: TaskKey, t: TaskKey, op: Op, r: RunKey)
    requires Inv(w) && Fits(w, h, first) && RecordsFit(w, h)
    ensures var s := Next(w, t, op); RunRecordFits(s.world, h + [Entry(t, op, s.result)], r)
  {
    var s := Next(w, t, op);
    assert RunRecordFits(w, h, r);
    NextKeepsClient(w, t, op);
    hide Inv, Next, Fits, RecordsFit, RunRecord, Decision, HasRun, TurnsBegun, EventsFor;
    if r in w.runs {
      RunCountsFit(w, h, first, t, op, r);
      if op.BeginRun? && op.run == r && s.result == Done {
        StartedRunFits(w, h, first, t, op, r);
      } else if w.runs[r].snapshot.Some? {
        StayingRunFits(w, h, first, t, op, r);
      } else {
        NotStartedStays(w, t, op, r);
      }
    } else {
      NoRunCounts(w, h, first, t, op, r);
      RunsMade(w, t, op, r);
    }
  }

  lemma NotStartedStays(w: World, t: TaskKey, op: Op, r: RunKey)
    requires Inv(w) && r in w.runs && w.runs[r].snapshot.None?
    requires !(op.BeginRun? && op.run == r && Next(w, t, op).result == Done)
    ensures r in Next(w, t, op).world.runs && Next(w, t, op).world.runs[r].snapshot.None?
  {
    RunRecordMoved(w, t, op, r);
    hide Inv, Next, EmitterIn, ActiveRun;
  }

  // ---- Turns ----

  lemma TurnDoneOnce(w: World, h: seq<Entry>, first: TaskKey, t: TaskKey, op: Op, k: TurnKey)
    requires Linked(w) && Fits(w, h, first)
    ensures var e := Entry(t, op, Next(w, t, op).result);
            && (Did(h, MakesTurn(k)) ==> !Is(e, MakesTurn(k)))
            && (Did(h, BeginsTurn(k)) ==> !Is(e, BeginsTurn(k)))
            && (Is(e, BeginsTurn(k)) ==> Did(h, MakesTurn(k)) && !Did(h, EndsTurn(k)))
  {
    AnswerIs(w, h, first, t, op);
    TurnCallsFit(h, first, t, op, k);
    assert TurnFits(w, h, k);
    hide Linked, Fits, Next, Answer, Last, Did, Of, Said;
  }

  lemma TurnHasOwner(w: World, h: seq<Entry>, first: TaskKey, k: TurnKey)
    requires Linked(w) && Fits(w, h, first) && k in w.turns
    ensures OwnerOf(h, k) == Some(w.turns[k].owner) && Did(h, MakesRun(w.turns[k].owner))
    ensures w.turns[k].owner in w.runs
    ensures var r := w.turns[k].owner; w.runs[r].runId == Of(h, MakesRun(r)).op.config.runId
    ensures w.turns[k].request == Of(h, MakesTurn(k)).op.request && w.turns[k].output == Said(h, k)
  {
    assert TurnFits(w, h, k) && TurnLinked(w, k);
    var r := w.turns[k].owner;
    assert RunFits(w, h, r) && RunLinked(w, r);
    hide Linked, Fits, Last, Did, Of, Said, LatestTurn, TokensAre, NoRun;
  }

  // Nothing is told of a turn that was not begun.
  lemma NoTurnCounts(w: World, h: seq<Entry>, first: TaskKey, t: TaskKey, op: Op, k: TurnKey)
    requires Inv(w) && Fits(w, h, first) && EventsOn(h, k) == 0 && k !in w.states
    ensures EventsOn(h + [Entry(t, op, Next(w, t, op).result)], k) == 0
  {
    assert Linked(w) by { InvReplays(w); }
    AboutAgrees(w, h, first, op);
    CountsNext(h, Entry(t, op, Next(w, t, op).result));
    hide Inv, Linked, Next, Fits, About, AboutIn, EventsOn, EventsFor, TurnsBegun;
    if IsEvent(op) {
      EventMoves(w, t, op);
    }
  }

  lemma TurnCountsFit(w: World, h: seq<Entry>, first: TaskKey, t: TaskKey, op: Op, k: TurnKey)
    requires Inv(w) && Fits(w, h, first)
    ensures var s := Next(w, t, op);
            EventsOn(h + [Entry(t, op, s.result)], k) == EventsOn(h, k)
              + if s.result == Done && IsEvent(op) && AboutIn(w, op) == Some(k) then 1 else 0
  {
    assert Linked(w) by { InvReplays(w); }
    AboutAgrees(w, h, first, op);
    CountsNext(h, Entry(t, op, Next(w, t, op).result));
    hide Inv, Linked, Next, Fits, About, AboutIn, EventsOn, EventsFor, TurnsBegun;
  }

  lemma TurnRecordFitsNext(w: World, h: seq<Entry>, first: TaskKey, t: TaskKey, op: Op, k: TurnKey)
    requires Inv(w) && Fits(w, h, first) && RecordsFit(w, h)
    ensures var s := Next(w, t, op); TurnRecordFits(s.world, h + [Entry(t, op, s.result)], k)
  {
    NextKeepsClient(w, t, op);
    assert TurnRecordFits(w, h, k);
    hide Inv, Next, Fits, HasTurn, TurnRecord, AboutIn, EventsOn, RecordsFit;
    if k in w.states {
      StayingTurnFits(w, h, first, t, op, k);
      TurnCountsFit(w, h, first, t, op, k);
    } else {
      NoTurnCounts(w, h, first, t, op, k);
      if k in Next(w, t, op).world.states {
        BegunTurnFits(w, h, first, t, op, k);
      }
    }
  }

  lemma StayingTurnFits(w: World, h: seq<Entry>, first: TaskKey, t: TaskKey, op: Op, k: TurnKey)
    requires Inv(w) && Fits(w, h, first) && RecordsFit(w, h) && k in w.states
    ensures var s := Next(w, t, op);
            var after := h + [Entry(t, op, s.result)];
            k in s.world.states && HasTurn(after, k) && s.world.states[k].turn == TurnRecord(after, w.client, k)
    ensures Next(w, t, op).world.states[k].nextEvent == w.states[k].nextEvent
              + if Next(w, t, op).result == Done && IsEvent(op) && AboutIn(w, op) == Some(k) then 1 else 0
  {
    var s := Next(w, t, op);
    var e := Entry(t, op, s.result);
    assert Linked(w) by { InvReplays(w); }
    StatesHaveTurns(w, k);
    StateMoved(w, t, op, k);
    TurnDoneOnce(w, h, first, t, op, k);
    TurnHasOwner(w, h, first, k);
    RunDoneOnce(w, h, first, t, op, w.turns[k].owner);
    assert TurnRecordFits(w, h, k);
    hide Inv, Linked, Next, Fits, TurnRecord, AboutIn, Last, Did, Of, StatusOf, Said, OwnerOf, RecordsFit, EventsOn;
    NotBegunAgain(w, op, s, k, e, h);
    TurnRecordStays(h, w.client, e, k);
  }

  lemma NotBegunAgain(w: World, op: Op, s: Step, k: TurnKey, e: Entry, h: seq<Entry>)
    requires e.op == op && e.result == s.result && Did(h, BeginsTurn(k))
    requires Did(h, BeginsTurn(k)) ==> !Is(e, BeginsTurn(k))
    ensures !(s.result == Done && op.BeginTurn? && op.turn == k)
    ensures Is(e, EndsTurn(k)) <==> s.result == Done && op.EndTurn? && op.turn == k
  {
  }

  lemma BegunTurnFits(w: World, h: seq<Entry>, first: TaskKey, t: TaskKey, op: Op, k: TurnKey)
    requires Inv(w) && Fits(w, h, first) && RecordsFit(w, h) && k !in w.states && k in Next(w, t, op).world.states
    ensures var s := Next(w, t, op);
            var after := h + [Entry(t, op, s.result)];
            && HasTurn(after, k) && s.world.states[k].turn == TurnRecord(after, w.client, k)
            && s.world.states[k].nextEvent == 0 && s.result == Done && op.BeginTurn?
  {
    hide Inv, Linked, Next, Fits, TurnRecord, AboutIn, Last, Did, Of, StatusOf, Said, RecordsFit, EventsOn, TurnsBegun,
      EventsFor, RunRecord, Decision, Is, HasTurn, HasRun, OwnerOf, Earlier;
    var e := Entry(t, op, Next(w, t, op).result);
    InvReplays(w);
    StateMoved(w, t, op, k);
    BeginsIs(e, k);
    TurnDoneOnce(w, h, first, t, op, k);
    TurnHasOwner(w, h, first, k);
    RunRecordAt(w, h, w.turns[k].owner);
    OwnerIs(h, k);
    TurnRecordBegins(h, w.client, e, k);
  }

  lemma BeginsIs(e: Entry, k: TurnKey)
    ensures Is(e, BeginsTurn(k)) <==> e.result == Done && e.op.BeginTurn? && e.op.turn == k
  {
  }

  lemma OwnerIs(h: seq<Entry>, k: TurnKey)
    ensures OwnerOf(h, k) == if Did(h, MakesTurn(k)) then Some(Of(h, MakesTurn(k)).op.run) else None
  {
  }

  lemma RunRecordAt(w: World, h: seq<Entry>, r: RunKey)
    requires RecordsFit(w, h)
    ensures RunRecordFits(w, h, r)
  {
    hide RunRecordFits, TurnRecordFits;
  }

  lemma RecordsFitNext(w: World, h: seq<Entry>, first: TaskKey, t: TaskKey, op: Op)
    requires Inv(w) && Fits(w, h, first) && RecordsFit(w, h)
    ensures var s := Next(w, t, op); RecordsFit(s.world, h + [Entry(t, op, s.result)])
  {
    var s := Next(w, t, op);
    var after := h + [Entry(t, op, s.result)];
    hide Inv, Next, Fits, RunRecordFits, TurnRecordFits;
    forall r ensures RunRecordFits(s.world, after, r) {
      RunRecordFitsNext(w, h, first, t, op, r);
    }
    forall k ensures TurnRecordFits(s.world, after, k) {
      TurnRecordFitsNext(w, h, first, t, op, k);
    }
  }

  // ---- The log is what the history says ----

  function SinkOf(op: Op): bool {
    match op
    case BeginRun(_, sink) => sink
    case EndRun(_, _, sink) => sink
    case BeginTurn(_, _, sink) => sink
    case EndTurn(_, _, sink) => sink
    case BeginTool(_, _, sink) => sink
    case EndTool(_, _, _, sink) => sink
    case RecordOnTurn(_, _, _, _, sink) => sink
    case RecordBusinessOutcome(_, _, _, sink) => sink
    case CaptureTrace(_, _, _, _, sink) => sink
    case _ => false
  }

  predicate NoneLost(log: seq<Attempt>, r: RunKey) {
    forall i :: 0 <= i < |log| && log[i].run == r ==> log[i].stored
  }

  // An attempt is stored if the sink takes it and none of its run was lost before.
  predicate StoredAs(log: seq<Attempt>, m: nat, op: Op)
    requires m < |log|
  {
    log[m].stored <==> SinkOf(op) && NoneLost(log[..m], log[m].run)
  }

  ghost predicate LogFits(log: seq<Attempt>, h: seq<Entry>, client: Client) {
    var at := Told(h, client);
    && |log| == |at|
    && forall m :: 0 <= m < |log| ==>
         Tells(h[..at[m]], client, h[at[m]], log[m]) && StoredAs(log, m, h[at[m]].op)
  }

  lemma {:induction false} AttemptsAre(log: seq<Attempt>, r: RunKey, a: Attempt)
    ensures a in AttemptsOf(log, r) <==> a in log && a.run == r
  {
    if log != [] {
      var n := |log| - 1;
      AttemptsAre(log[..n], r, a);
      assert log == log[..n] + [log[n]];
    }
  }

  lemma AttemptsStored(log: seq<Attempt>, r: RunKey)
    ensures (forall i :: 0 <= i < |AttemptsOf(log, r)| ==> AttemptsOf(log, r)[i].stored) <==> NoneLost(log, r)
  {
    hide AttemptsOf;
    var attempts := AttemptsOf(log, r);
    forall a ensures a in attempts <==> a in log && a.run == r {
      AttemptsAre(log, r, a);
    }
    if NoneLost(log, r) {
      forall i | 0 <= i < |attempts| ensures attempts[i].stored {
        assert attempts[i] in attempts;
        var j :| 0 <= j < |log| && log[j] == attempts[i];
      }
    } else {
      var j :| 0 <= j < |log| && log[j].run == r && !log[j].stored;
      assert log[j] in attempts;
      var i :| 0 <= i < |attempts| && attempts[i] == log[j];
      assert !attempts[i].stored;
    }
  }

  // The latch of a run is set exactly if an attempt of it was lost.
  lemma LatchIsLoss(w: World, r: RunKey)
    requires Inv(w) && r in w.runs
    ensures w.runs[r].captureFailed <==> !NoneLost(w.channel.log, r)
  {
    hide Inv, AttemptsOf, PrefixesValid, StatesNamed, Matches;
    RunReplays(w, r);
    AttemptsStored(w.channel.log, r);
  }

  lemma LogFitsMore(log: seq<Attempt>, h: seq<Entry>, client: Client, e: Entry, a: Attempt)
    requires LogFits(log, h, client) && Emitter(h, e).Some? && Decision(h + [e], client, Emitter(h, e).value)
    requires Tells(h, client, e, a) && StoredAs(log + [a], |log|, e.op)
    ensures LogFits(log + [a], h + [e], client)
  {
    hide Tells, Emitter, Decision, StoredAs;
    var all, after := log + [a], h + [e];
    assert after[..|h|] == h;
    var at := Told(h, client);
    assert Told(after, client) == at + [|h|];
    forall m | 0 <= m < |all|
      ensures Tells(after[..Told(after, client)[m]], client, after[Told(after, client)[m]], all[m])
      ensures StoredAs(all, m, after[Told(after, client)[m]].op)
    {
      if m < |log| {
        assert after[..at[m]] == h[..at[m]];
        StoredStays(log, a, m, h[at[m]].op);
      }
    }
  }

  lemma StoredStays(log: seq<Attempt>, a: Attempt, m: nat, op: Op)
    requires m < |log|
    ensures StoredAs(log + [a], m, op) <==> StoredAs(log, m, op)
  {
    assert (log + [a])[..m] == log[..m];
  }

  lemma LogFitsSame(log: seq<Attempt>, h: seq<Entry>, client: Client, e: Entry)
    requires LogFits(log, h, client)
    requires Emitter(h, e).Some? ==> !Decision(h + [e], client, Emitter(h, e).value)
    ensures LogFits(log, h + [e], client)
  {
    hide Tells, Emitter, Decision, StoredAs;
    var after := h + [e];
    assert after[..|h|] == h;
    assert Told(after, client) == Told(h, client);
    var at := Told(h, client);
    assert forall m :: 0 <= m < |at| ==> after[..at[m]] == h[..at[m]];
  }

  // Operations that fail or have nothing to tell leave the log alone.
  lemma QuietLog(w: World, t: TaskKey, op: Op)
    requires Next(w, t, op).result != Done || !IsEmitting(op)
    ensures Next(w, t, op).world.channel == w.channel
  {
    hide Next, EnterRun, ExitRun, EnterTurn, ExitTurn, CaptureRecords.BeginsRun, EventOf;
    if t !in w.tasks || !Finds(w, op) {
      NothingFound(w, t, op);
    } else if op.BeginRun? {
      var s := RunBegun(w, t, op);
    } else if op.EndRun? {
      var s := RunEnded(w, t, op);
    } else if op.BeginTurn? {
      var s := TurnBegun(w, t, op);
    } else if op.EndTurn? {
      var s := TurnEnded(w, t, op);
    } else if IsEvent(op) {
      EventNext(w, t, op);
      EventRecords(w, t, w.tasks[t], op);
    } else {
      SmallStepKeeps(w, t, op);
    }
  }

  lemma NothingToTell(h: seq<Entry>, e: Entry)
    requires e.result != Done || !IsEmitting(e.op)
    ensures Emitter(h, e).None?
  {
    hide Last, Did, Of, LatestTurn;
  }

  lemma EmissionOf(w: World, t: TaskKey, op: Op) returns (x: Emitted)
    requires Inv(w) && Next(w, t, op).result == Done && IsEmitting(op)
    ensures EmitsAs(w, Next(w, t, op).world, op, x)
  {
    hide Inv, Next, EmitsAs;
    if op.BeginRun? {
      x := BeginRunEmits(w, t, op);
    } else if op.EndRun? {
      x := EndRunEmits(w, t, op);
    } else if op.BeginTurn? {
      x := BeginTurnEmits(w, t, op);
    } else if op.EndTurn? {
      x := EndTurnEmits(w, t, op);
    } else {
      x := EventEmits(w, t, op);
    }
  }

  // The batch of an emission.
  lemma EmissionTells(w: World, w': World, h: seq<Entry>, first: TaskKey, e: Entry, x: Emitted)
    requires Linked(w) && Fits(w, h, first) && RecordsFit(w, h) && e.result == Done && IsEmitting(e.op)
    requires EmitsAs(w, w', e.op, x) && RecordsFit(w', h + [e]) && w'.client == w.client && CanEmit(x.run)
    ensures var a := AttemptMade(x.r, x.run, x.turn, x.event, TraceOf(e.op), SinkOf(e.op));
            Tells(h, w.client, e, a) && Decision(h + [e], w.client, x.r)
  {
    AboutAgrees(w, h, first, e.op);
    EmitterAgrees(w, h, first, e);
    var after := h + [e];
    assert RunRecordFits(w, h, x.r) && RunRecordFits(w', after, x.r);
    hide Linked, Fits, RecordsFit, Emit, RunRecord, TurnRecord, Decision, HasRun, HasTurn, About, AboutIn, Emitter,
      EmitterIn, DraftIn, DraftOf, Last, Did, EventsOn, EventsFor, TurnsBegun, BatchValid, OwnerOf;
    if AboutIn(w, e.op).Some? {
      var k := AboutIn(w, e.op).value;
      assert TurnRecordFits(w, h, k) && TurnRecordFits(w', after, k);
      TurnNamesItself(h, w.client, k);
    }
  }

  lemma TurnNamesItself(h: seq<Entry>, client: Client, k: TurnKey)
    ensures HasTurn(h, k) ==> TurnRecord(h, client, k).turnId == k
  {
  }

  lemma LoggedIsValid(w: World, a: Attempt)
    requires Inv(w) && a in w.channel.log && a.run in w.runs
    ensures BatchValid(a.batch)
  {
    hide Inv, AttemptsOf, PrefixesValid, StatesNamed, Matches, BatchValid;
    RunReplays(w, a.run);
    AttemptsAre(w.channel.log, a.run, a);
  }

  // An emission of a sampled run adds its attempt, of any other nothing.
  lemma EmissionLogs(w: World, w': World, h: seq<Entry>, first: TaskKey, e: Entry, x: Emitted)
    requires Inv(w) && Inv(w') && Fits(w, h, first) && RecordsFit(w, h) && RecordsFit(w', h + [e])
    requires e.result == Done && IsEmitting(e.op) && EmitsAs(w, w', e.op, x) && w'.client == w.client
    requires LogFits(w.channel.log, h, w.client)
    ensures LogFits(w'.channel.log, h + [e], w.client)
  {
    assert Linked(w) by { InvReplays(w); }
    EmitterAgrees(w, h, first, e);
    EmitChannel(x.r, x.run, w.channel, x.turn, x.event, TraceOf(e.op), SinkOf(e.op));
    assert RunRecordFits(w', h + [e], x.r);
    hide Inv, Linked, Fits, RecordsFit, LogFits, Emit, Decision, RunRecord, HasRun, Emitter, EmitterIn, BatchValid,
        Tells,
      IsEventOf, TurnsBegun, EventsFor, Lost;
    SinkIs(e.op);
    if CanEmit(x.run) {
      var a := AttemptMade(x.r, x.run, x.turn, x.event, TraceOf(e.op), SinkOf(e.op));
      EmissionTells(w, w', h, first, e, x);
      assert w'.channel.log == w.channel.log + [a];
      LoggedIsValid(w', a);
      LatchIsLoss(w, x.r);
      assert (w.channel.log + [a])[..|w.channel.log|] == w.channel.log;
      LogFitsMore(w.channel.log, h, w.client, e, a);
    } else {
      assert w.channel.log + [] == w.channel.log;
      LogFitsSame(w.channel.log, h, w.client, e);
    }
  }

  lemma SinkIs(op: Op)
    requires IsEmitting(op)
    ensures op.sink == SinkOf(op)
  {
  }

  lemma LogFitsNext(w: World, h: seq<Entry>, first: TaskKey, t: TaskKey, op: Op)
    requires Inv(w) && Fits(w, h, first) && RecordsFit(w, h) && LogFits(w.channel.log, h, w.client)
    ensures var s := Next(w, t, op);
            LogFits(s.world.channel.log, h + [Entry(t, op, s.result)], w.client)
  {
    var s := Next(w, t, op);
    var e := Entry(t, op, s.result);
    hide Inv, Fits, RecordsFit, LogFits, Next, EmitsAs, Emitter;
    if s.result == Done && IsEmitting(op) {
      var x := EmissionOf(w, t, op);
      NextKeepsInv(w, t, op);
      NextKeepsClient(w, t, op);
      RecordsFitNext(w, h, first, t, op);
      EmissionLogs(w, s.world, h, first, e, x);
    } else {
      QuietLog(w, t, op);
      NothingToTell(h, e);
      LogFitsSame(w.channel.log, h, w.client, e);
    }
  }

  // ---- Theorems ----

  lemma {:induction false} AllFits(client: Client, first: TaskKey, calls: seq<Call>)
    ensures var w, h := RunAll(Initial(client, first), calls), History(client, first, calls);
            && Inv(w) && Fits(w, h, first) && RecordsFit(w, h) && LogFits(w.channel.log, h, client)
                 && w.client == client
  {
    ReachableInv(client, first, calls);
    HistoryFits(client, first, calls);
    if calls == [] {
      NothingRecorded(client, first);
    } else {
      var n := |calls| - 1;
      AllFits(client, first, calls[..n]);
      var w, h := RunAll(Initial(client, first), calls[..n]), History(client, first, calls[..n]);
      hide Inv, Fits, RecordsFit, LogFits, Next;
      RecordsFitNext(w, h, first, calls[n].task, calls[n].op);
      LogFitsNext(w, h, first, calls[n].task, calls[n].op);
      NextKeepsClient(w, calls[n].task, calls[n].op);
    }
  }

  lemma NothingRecorded(client: Client, first: TaskKey)
    ensures RecordsFit(Initial(client, first), []) && LogFits([], [], client)
  {
  }

  lemma SaidStays(h: seq<Entry>, e: Entry, k: TurnKey)
    requires TurnCallFits(h, e, k) && Did(h + [e], EndsTurn(k))
    requires Did(h, EndsTurn(k)) ==> Said(h, k) == Said(Earlier(h, EndsTurn(k)), k)
    ensures Said(h + [e], k) == Said(Earlier(h + [e], EndsTurn(k)), k)
  {
    hide Last, Did, Of, Earlier;
    DidNext(h, e, EndsTurn(k));
    DidNext(h, e, SaysFor(k));
  }

  // No output is kept for a turn that has ended.
  lemma {:induction false} NothingSaidLater(client: Client, first: TaskKey, calls: seq<Call>, k: TurnKey)
    ensures var h := History(client, first, calls);
            Did(h, EndsTurn(k)) ==> Said(h, k) == Said(Earlier(h, EndsTurn(k)), k)
  {
    hide Last, Did, Of, Earlier, Answer, Next, Fits, Linked, Said, TurnCallFits;
    if calls == [] {
      NothingDone(EndsTurn(k));
    } else {
      var n := |calls| - 1;
      var w, h := RunAll(Initial(client, first), calls[..n]), History(client, first, calls[..n]);
      var e := Entry(calls[n].task, calls[n].op, Next(w, calls[n].task, calls[n].op).result);
      assert History(client, first, calls) == h + [e];
      NothingSaidLater(client, first, calls[..n], k);
      HistoryFits(client, first, calls[..n]);
      hide RunAll, History;
      AnswerIs(w, h, first, e.task, e.op);
      TurnCallsFit(h, first, e.task, e.op, k);
      if Did(h + [e], EndsTurn(k)) {
        SaidStays(h, e, k);
      }
    }
  }

  lemma NothingDone(what: What)
    ensures !Did([], what)
  {
  }

  /** Every record is what the history says. */
  lemma RecordsFollowFromHistory(client: Client, first: TaskKey, calls: seq<Call>, r: RunKey, k: TurnKey)
    ensures var w, h := RunAll(Initial(client, first), calls), History(client, first, calls);
            && (Started(w, r) ==> HasRun(h, r) && w.runs[r].snapshot.value == RunRecord(h, client, r))
            && (k in w.states ==> HasTurn(h, k) && w.states[k].turn == TurnRecord(h, client, k))
  {
    AllFits(client, first, calls);
    var w, h := RunAll(Initial(client, first), calls), History(client, first, calls);
    assert RunRecordFits(w, h, r) && TurnRecordFits(w, h, k);
    hide Inv, Fits, RecordsFit, LogFits, RunAll, History, RunRecord, TurnRecord;
  }

  // What a turn record says of its content.
  lemma TurnRecordReads(h: seq<Entry>, client: Client, k: TurnKey)
    requires HasTurn(h, k)
    ensures var turn := TurnRecord(h, client, k);
            && turn.request == (if client.captureContent then Some(Of(h, MakesTurn(k)).op.request) else None)
            && (turn.status == Completed <==> Did(h, EndsTurn(k)) && Of(h, EndsTurn(k)).op.error.None?)
            && turn.response == if turn.status == Completed && client.captureContent
                                then Said(Earlier(h, EndsTurn(k)), k) else None
  {
    hide Last, Did, Of, Earlier, Said, TurnsBegun;
  }

  /** The request of every turn is the text given to the call that made it, and the response of a turn that
      completed the text of the last output that was accepted, each if content is captured; a turn that did not
      complete has no response. */
  lemma TurnContentFollowsFromHistory(client: Client, first: TaskKey, calls: seq<Call>, k: TurnKey)
    requires k in RunAll(Initial(client, first), calls).states
    ensures var turn := RunAll(Initial(client, first), calls).states[k].turn;
            var h := History(client, first, calls);
            && Did(h, MakesTurn(k))
            && turn.request == (if client.captureContent then Some(Of(h, MakesTurn(k)).op.request) else None)
            && (turn.status == Completed <==> Did(h, EndsTurn(k)) && Of(h, EndsTurn(k)).op.error.None?)
            && turn.response == if turn.status == Completed && client.captureContent then Said(h, k) else None
  {
    hide RunAll, History, Last, Did, Of, Earlier, Said, TurnRecord;
    RecordsFollowFromHistory(client, first, calls, 0, k);
    TurnRecordReads(History(client, first, calls), client, k);
    NothingSaidLater(client, first, calls, k);
  }

  /** The log is what the history says: one attempt for each call that begins or ends a run or a turn or records
      an event, for a run that is sampled, in order and no other; each with the records as the call left them, and
      stored exactly if the sink took it and no attempt of its run was lost before. */
  lemma LogFollowsFromHistory(client: Client, first: TaskKey, calls: seq<Call>)
    ensures var log, h := RunAll(Initial(client, first), calls).channel.log, History(client, first, calls);
            var at := Told(h, client);
            && |log| == |at|
            && (forall m :: 0 <= m < |log| ==> Tells(h[..at[m]], client, h[at[m]], log[m]))
            && (forall m :: 0 <= m < |log| ==> StoredAs(log, m, h[at[m]].op))
  {
    AllFits(client, first, calls);
    hide Inv, Fits, RecordsFit, RunAll, History, Told, Tells, StoredAs;
  }

  // Whether a call is told.
  predicate IsTold(h: seq<Entry>, client: Client, n: nat)
    requires n < |h|
  {
    Emitter(h[..n], h[n]).Some? && Decision(h[..n + 1], client, Emitter(h[..n], h[n]).value)
  }

  ghost predicate ListsTold(at: seq<nat>, h: seq<Entry>, client: Client, upTo: nat)
    requires upTo <= |h|
  {
    && (forall i :: 0 <= i < |at| ==> at[i] < upTo)
    && (forall i, j :: 0 <= i < j < |at| ==> at[i] < at[j])
    && (forall n :: 0 <= n < upTo ==> (n in at <==> IsTold(h, client, n)))
  }

  lemma ListsMore(at: seq<nat>, h: seq<Entry>, client: Client, n: nat)
    requires n < |h| && ListsTold(at, h, client, n)
    ensures ListsTold(at + if IsTold(h, client, n) then [n] else [], h, client, n + 1)
  {
    hide IsTold;
  }

  lemma ToldNext(h: seq<Entry>, client: Client, n: nat)
    requires n < |h|
    ensures Told(h[..n + 1], client) == Told(h[..n], client) + if IsTold(h, client, n) then [n] else []
  {
    hide Emitter, Decision;
    assert h[..n + 1][..n] == h[..n];
  }

  lemma {:induction false} ToldUpTo(h: seq<Entry>, client: Client, n: nat)
    requires n <= |h|
    ensures ListsTold(Told(h[..n], client), h, client, n)
  {
    if n > 0 {
      hide Told, ListsTold, IsTold;
      ToldUpTo(h, client, n - 1);
      ListsMore(Told(h[..n - 1], client), h, client, n - 1);
      ToldNext(h, client, n - 1);
    }
  }

  /** The calls that are told: in order, and exactly those with an emitter that is sampled. */
  lemma ToldAreEmitting(h: seq<Entry>, client: Client)
    ensures var at := Told(h, client);
            && (forall i, j :: 0 <= i < j < |at| ==> at[i] < at[j])
            && (forall n :: 0 <= n < |h| ==> (n in at <==> IsTold(h, client, n)))
  {
    ToldUpTo(h, client, |h|);
    assert h[..|h|] == h;
    hide Told, IsTold;
  }

  /** Provider instrumentation sees the turn a task is inside of, exactly while neither the turn nor its run has
      ended. */
  lemma CurrentTurnFollowsFromHistory(client: Client, first: TaskKey, calls: seq<Call>, t: TaskKey, k: TurnKey)
    ensures var w, h := RunAll(Initial(client, first), calls), History(client, first, calls);
            CurrentTurn(w, t) == Some(k) <==>
              && Known(h, first, t) && Where(h, t).turn == Some(k) && !Did(h, EndsTurn(k))
              && OwnerOf(h, k).Some? && !Did(h, EndsRun(OwnerOf(h, k).value))
  {
    AllFits(client, first, calls);
    var w, h := RunAll(Initial(client, first), calls), History(client, first, calls);
    hide RunAll, History, RecordsFit, LogFits;
    assert Linked(w) by { InvReplays(w); }
    hide Inv;
    assert TaskFits(w, h, first, t);
    if t in w.tasks && w.tasks[t].turn == Some(k) {
      assert TaskLinked(w, t) && StateLinked(w, k) && TurnLinked(w, k) && TurnFits(w, h, k);
      var r := w.turns[k].owner;
      assert RunFits(w, h, r) && RunLinked(w, r);
    }
    hide Linked, Fits, Last, Did, Of, Where, Said, LatestTurn, TokensAre, NoRun, Known;
  }
}
