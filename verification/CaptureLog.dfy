/** The attempt log of every reachable world: what it replays to, and what became of each attempt. */
module CaptureLog {
  import opened Options
  import opened Sampling
  import opened CaptureRecords
  import opened CaptureWorld
  import opened CaptureSteps
  import opened CaptureReplay
  import opened CaptureInvariants

  lemma AttemptsNext(log: seq<Attempt>, a: Attempt, key: RunKey)
    ensures AttemptsOf(log + [a], key) == AttemptsOf(log, key) + if a.run == key then [a] else []
    ensures Lost(log + [a]) == Lost(log) + if a.stored then 0 else 1
  {
    assert (log + [a])[..|log|] == log;
  }

  lemma {:induction false} AttemptsOfNone(log: seq<Attempt>, key: RunKey)
    requires forall i :: 0 <= i < |log| ==> log[i].run != key
    ensures AttemptsOf(log, key) == []
  {
    if log != [] {
      AttemptsOfNone(log[..|log| - 1], key);
    }
  }

  // The channel after an emission.
  lemma EmitChannel(key: RunKey, run: Run, channel: Channel, turn: Option<TurnSnapshot>,
      event: Option<CaptureRecords.Event>, trace: Option<nat>, sink: bool)
    ensures var e := Emit(key, run, channel, turn, event, trace, sink);
            var added := Added(key, run, turn, event, trace, sink);
            e.channel == Channel(channel.log + added, channel.dropped + Lost(added))
  {
    if CanEmit(run) {
      var a := AttemptMade(key, run, turn, event, trace, sink);
      AttemptsNext([], a, key);
      assert [] + [a] == [a];
    }
  }

  // Nothing but these fields of a run record matters to its log.
  predicate SameForLog(run: Run, run': Run) {
    && run'.snapshot == run.snapshot && run'.source == run.source && run'.runId == run.runId
    && run'.sampled == run.sampled && run'.captureFailed == run.captureFailed
    && run'.turnSequence == run.turnSequence && run'.producerSequence == run.producerSequence
  }

  lemma SameForLogKeepsInv(key: RunKey, run: Run, run': Run, states: map<TurnKey, TurnState>, attempts: seq<Attempt>,
      eventIds: nat)
    requires RunInv(key, run, states, attempts, eventIds) && SameForLog(run, run')
    ensures RunInv(key, run', states, attempts, eventIds)
  {
  }

  // A step that changes one run, its turns, and adds its attempts to the log.
  ghost predicate ChangesOnly(w: World, w': World, r: RunKey, added: seq<Attempt>) {
    && w'.runs.Keys == w.runs.Keys
    && (forall q :: q in w.runs && q != r ==> w'.runs[q] == w.runs[q])
    && (forall k :: k in w'.states && w'.states[k].owner != r ==> k in w.states && w.states[k].owner != r)
    && (forall k :: k in w.states && w.states[k].owner != r ==>
          k in w'.states && w'.states[k].owner != r && w'.states[k] == w.states[k])
    && w.eventIds <= w'.eventIds
    && (added == [] || (|added| == 1 && added[0].run == r))
    && w'.channel == Channel(w.channel.log + added, w.channel.dropped + Lost(added))
  }

  lemma LogGrown(log: seq<Attempt>, added: seq<Attempt>, r: RunKey)
    requires added == [] || (|added| == 1 && added[0].run == r)
    ensures forall q :: AttemptsOf(log + added, q) == AttemptsOf(log, q) + if q == r then added else []
    ensures Lost(log + added) == Lost(log) + Lost(added)
  {
    if added == [] {
      assert log + added == log;
    } else {
      assert added == [added[0]];
      forall q: RunKey ensures AttemptsOf(log + added, q) == AttemptsOf(log, q) + if q == r then added else [] {
        AttemptsNext(log, added[0], q);
      }
      AttemptsNext(log, added[0], r);
      AttemptsNext([], added[0], r);
      assert [] + [added[0]] == added;
    }
  }

  lemma ChangeKeepsReplay(w: World, w': World, r: RunKey, added: seq<Attempt>)
    requires RunsReplay(w) && r in w.runs && ChangesOnly(w, w', r, added)
    requires RunInv(r, w'.runs[r], w'.states, AttemptsOf(w.channel.log, r) + added, w'.eventIds)
    ensures RunsReplay(w')
  {
    hide RunInv, AttemptsOf, Lost;
    LogGrown(w.channel.log, added, r);
    forall q | q in w'.runs
      ensures RunInv(q, w'.runs[q], w'.states, AttemptsOf(w'.channel.log, q), w'.eventIds)
    {
      if q != r {
        assert AttemptsOf(w'.channel.log, q) == AttemptsOf(w.channel.log, q);
        OtherStates(q, w.runs[q], w.states, AttemptsOf(w.channel.log, q), w.eventIds, w'.states, w'.eventIds);
      }
    }
  }

  // The channel after these attempts of one run, at most one.
  ghost predicate Logs(owner: RunKey, channel: Channel, channel': Channel, added: seq<Attempt>) {
    && channel' == Channel(channel.log + added, channel.dropped + Lost(added))
    && (added == [] || (|added| == 1 && added[0].run == owner))
  }

  lemma LogsNothing(owner: RunKey, channel: Channel)
    ensures Logs(owner, channel, channel, [])
    ensures forall attempts: seq<Attempt> :: attempts + [] == attempts
  {
    assert channel.log + [] == channel.log;
  }

  // The three kinds of step are such changes.
  lemma RunStepChanges(w: World, task: TaskKey, key: RunKey, s: RunStep, added: seq<Attempt>)
    requires RunsReplay(w) && key in w.runs && Logs(key, w.channel, s.channel, added)
    requires RunInv(key, s.run, w.states, AttemptsOf(w.channel.log, key) + added, w.eventIds)
    ensures RunsReplay(WithRun(w, task, key, s).world)
  {
    hide RunsReplay, RunInv, AttemptsOf, Lost;
    ChangeKeepsReplay(w, WithRun(w, task, key, s).world, key, added);
  }

  lemma TurnStepChanges(w: World, task: TaskKey, key: TurnKey, s: TurnStep, added: seq<Attempt>)
    requires RunsReplay(w) && s.turn.owner in w.runs && Logs(s.turn.owner, w.channel, s.channel, added)
    requires s.state.Some? ==> s.state.value.owner == s.turn.owner
    requires key in w.states ==> w.states[key].owner == s.turn.owner
    requires RunInv(s.turn.owner, s.run, StatesAfter(w.states, key, s.state),
                    AttemptsOf(w.channel.log, s.turn.owner) + added, w.eventIds)
    ensures RunsReplay(WithTurn(w, task, key, s).world)
  {
    hide RunsReplay, RunInv, AttemptsOf, Lost;
    ChangeKeepsReplay(w, WithTurn(w, task, key, s).world, s.turn.owner, added);
  }

  lemma EventStepChanges(w: World, tools: map<ToolKey, Tool>, key: TurnKey, s: EventStep, added: seq<Attempt>)
    requires RunsReplay(w) && s.state.owner in w.runs && key in w.states && w.states[key].owner == s.state.owner
    requires Logs(s.state.owner, w.channel, s.channel, added)
    requires RunInv(s.state.owner, s.run, w.states[key := s.state],
                    AttemptsOf(w.channel.log, s.state.owner) + added, w.eventIds + 1)
    ensures RunsReplay(WithEvent(w.(tools := tools), key, s).world)
  {
    hide RunsReplay, RunInv, AttemptsOf, Lost;
    ChangeKeepsReplay(w, WithEvent(w.(tools := tools), key, s).world, s.state.owner, added);
  }

  lemma NewRunInv(key: RunKey, config: RunConfig, states: map<TurnKey, TurnState>, eventIds: nat)
    requires forall k :: k in states ==> states[k].owner != key
    ensures RunInv(key, NewRun(key, config), states, [], eventIds)
  {
  }

  lemma CreateRunKeepsReplay(w: World, key: RunKey, config: RunConfig)
    requires Inv(w) && key !in w.runs
    ensures RunsReplay(w.(runs := w.runs[key := NewRun(key, config)]))
  {
    hide Inv, Linked, RunInv, AttemptsOf, Lost, NewRun, RunsReplay;
    InvReplays(w);
    NoTurnsYet(w, key);
    NewRunInv(key, config, w.states, w.eventIds);
    NoAttemptsYet(w, key);
    RunAdded(w, key, NewRun(key, config));
  }

  lemma NoAttemptsYet(w: World, key: RunKey)
    requires RunsReplay(w) && key !in w.runs
    ensures AttemptsOf(w.channel.log, key) == []
  {
    hide RunInv, Lost;
    AttemptsOfNone(w.channel.log, key);
  }

  lemma RunAdded(w: World, key: RunKey, run: Run)
    requires RunsReplay(w) && key !in w.runs
    requires RunInv(key, run, w.states, AttemptsOf(w.channel.log, key), w.eventIds)
    ensures RunsReplay(w.(runs := w.runs[key := run]))
  {
    hide RunInv, AttemptsOf, Lost;
  }

  lemma NoTurnsYet(w: World, key: RunKey)
    requires Linked(w) && key !in w.runs
    ensures forall k :: k in w.states ==> w.states[k].owner != key
  {
    forall k | k in w.states ensures w.states[k].owner != key {
      assert StateLinked(w, k) && TurnLinked(w, k);
    }
  }

  // A turn's owner has started, and its record replays.
  lemma OwnerReplays(w: World, k: TurnKey)
    requires Inv(w) && k in w.states
    ensures var owner := w.states[k].owner;
            && owner in w.runs && w.runs[owner].snapshot.Some?
            && RunInv(owner, w.runs[owner], w.states, AttemptsOf(w.channel.log, owner), w.eventIds)
    ensures RunsReplay(w)
  {
    assert StateLinked(w, k) && TurnLinked(w, k);
    hide RunInv, AttemptsOf, Lost;
  }

  // One emission, from a memory that is ready for it.
  lemma EmitLogs(key: RunKey, run: Run, states: map<TurnKey, TurnState>, attempts: seq<Attempt>, eventIds: nat,
      turn: Option<TurnSnapshot>, event: Option<CaptureRecords.Event>, trace: Option<nat>, sink: bool, channel: Channel)
    requires Ahead(key, run, states, attempts, turn, event, eventIds)
    ensures var e := Emit(key, run, channel, turn, event, trace, sink);
            var added := Added(key, run, turn, event, trace, sink);
            Logs(key, channel, e.channel, added) && RunInv(key, e.run, states, attempts + added, eventIds)
  {
    hide Ahead, RunInv, Emit, Lost;
    EmitKeepsInv(key, run, states, attempts, eventIds, turn, event, trace, sink, channel);
    EmitChannel(key, run, channel, turn, event, trace, sink);
  }

  // ---- Runs ----

  // A failed entry of a run that never started.
  lemma FailedEntryKeepsInv(key: RunKey, run: Run, run': Run, states: map<TurnKey, TurnState>, attempts: seq<Attempt>,
      eventIds: nat)
    requires RunInv(key, run, states, attempts, eventIds)
    requires run'.snapshot == run.snapshot && run'.captureFailed == run.captureFailed
    requires run'.turnSequence == run.turnSequence && run'.producerSequence == run.producerSequence
    requires run.snapshot.Some? ==> run' == run
    ensures RunInv(key, run', states, attempts, eventIds)
  {
    hide PrefixesValid, Latched, Matches;
  }

  // What an entering run emits: the record it has by then, but for its tokens.
  lemma EnteredRunEmits(client: Client, key: RunKey, run: Run, parent: Option<Run>, task: TaskKey, vars: Vars,
      channel: Channel, sink: bool) returns (started: Run)
    requires EnterRun(client, key, run, parent, task, vars, channel, sink).result == Done
    ensures var s := EnterRun(client, key, run, parent, task, vars, channel, sink);
            var e := Emit(key, started, channel, None, None, None, sink);
            && s.channel == e.channel && SameForLog(e.run, s.run)
            && started.snapshot.Some? && started.source.Some?
            && started.snapshot.value.runId == started.runId
            && started.snapshot.value.sourceId == started.source.value.sourceId
            && started.snapshot.value.tenant == started.source.value.tenant
            && started.turnSequence == run.turnSequence && started.producerSequence == run.producerSequence
            && started.captureFailed == run.captureFailed
            && !run.entered
  {
    DecideShape(client, key, run, parent);
    hide Emit, Decide, Sampled;
    var d := Decide(client, key, run, parent);
    started := d.run.(snapshot := Some(NewRunSnapshot(client, run.config, d.parentId)));
  }

  lemma EnterRunKeepsInv(client: Client, key: RunKey, run: Run, parent: Option<Run>, task: TaskKey, vars: Vars,
      channel: Channel, sink: bool, states: map<TurnKey, TurnState>, attempts: seq<Attempt>, eventIds: nat)
    returns (added: seq<Attempt>)
    requires RunInv(key, run, states, attempts, eventIds) && (run.snapshot.Some? ==> run.entered)
    ensures var s := EnterRun(client, key, run, parent, task, vars, channel, sink);
            Logs(key, channel, s.channel, added) && RunInv(key, s.run, states, attempts + added, eventIds)
  {
    hide RunInv, EnterRun, Emit, Logs, Added, Ahead;
    var s := EnterRun(client, key, run, parent, task, vars, channel, sink);
    EnterRunShape(client, key, run, parent, task, vars, channel, sink);
    if s.result == Done {
      var started := EnteredRunEmits(client, key, run, parent, task, vars, channel, sink);
      hide EntersRun;
      added := Added(key, started, None, None, None, sink);
      RunAhead(key, run, started, states, attempts, eventIds);
      EmitLogs(key, started, states, attempts, eventIds, None, None, None, sink, channel);
      SameForLogKeepsInv(key, Emit(key, started, channel, None, None, None, sink).run, s.run, states, attempts + added,
          eventIds);
    } else {
      added := [];
      LogsNothing(key, channel);
      FailedEntryKeepsInv(key, run, s.run, states, attempts, eventIds);
    }
  }

  lemma BeginRunKeepsReplay(w: World, task: TaskKey, key: RunKey, sink: bool)
    requires Inv(w) && task in w.tasks && key in w.runs
    ensures RunsReplay(WithRun(w, task, key,
              EnterRun(w.client, key, w.runs[key], ActiveRun(w, w.tasks[task]), task, w.tasks[task], w.channel,
                  sink)).world)
  {
    var attempts := AttemptsOf(w.channel.log, key);
    assert RunLinked(w, key);
    assert w.runs[key].snapshot.Some? ==> w.runs[key].entered;
    assert RunInv(key, w.runs[key], w.states, attempts, w.eventIds);
    hide Tidy, RunInv, RunLinked, RunsReplay, EnterRun, WithRun, Logs;
    var added := EnterRunKeepsInv(w.client, key, w.runs[key], ActiveRun(w, w.tasks[task]), task, w.tasks[task],
        w.channel, sink, w.states, attempts, w.eventIds);
    RunStepChanges(w, task, key,
      EnterRun(w.client, key, w.runs[key], ActiveRun(w, w.tasks[task]), task, w.tasks[task], w.channel, sink), added);
  }

  lemma ClosedRunEmits(key: RunKey, run: Run, task: TaskKey, vars: Vars, channel: Channel, error: Option<Raised>,
      sink: bool)
    returns (closed: Run)
    requires ExitRun(key, run, task, vars, channel, error, sink).result == Done
    ensures var s := ExitRun(key, run, task, vars, channel, error, sink);
            var e := Emit(key, closed, channel, None, None, None, sink);
            && s.channel == e.channel && s.run == e.run.(open := false)
            && run.snapshot.Some?
            && closed == run.(token := None, turnToken := None,
                              snapshot := Some(run.snapshot.value.(status := TerminalStatus(error))))
  {
    hide Emit, TerminalStatus;
    closed := run.(token := None, turnToken := None,
                   snapshot := Some(run.snapshot.value.(status := TerminalStatus(error))));
  }

  lemma SnapshotFits(key: RunKey, run: Run, states: map<TurnKey, TurnState>, attempts: seq<Attempt>, eventIds: nat)
    requires RunInv(key, run, states, attempts, eventIds) && run.snapshot.Some?
    ensures run.source.Some? && run.snapshot.value.runId == run.runId
    ensures run.snapshot.value.sourceId == run.source.value.sourceId
              && run.snapshot.value.tenant == run.source.value.tenant
    ensures StatesNamed(key, run, states)
  {
    hide PrefixesValid, Latched, Matches;
  }

  lemma ExitRunKeepsInv(key: RunKey, run: Run, task: TaskKey, vars: Vars, channel: Channel, error: Option<Raised>,
      sink: bool, states: map<TurnKey, TurnState>, attempts: seq<Attempt>, eventIds: nat)
    returns (added: seq<Attempt>)
    requires RunInv(key, run, states, attempts, eventIds)
    ensures var s := ExitRun(key, run, task, vars, channel, error, sink);
            Logs(key, channel, s.channel, added) && RunInv(key, s.run, states, attempts + added, eventIds)
  {
    hide RunInv, ExitRun, Emit, Logs, Added, Ahead, StatesNamed;
    var s := ExitRun(key, run, task, vars, channel, error, sink);
    ExitRunShape(key, run, task, vars, channel, error, sink);
    if s.result == Done {
      var closed := ClosedRunEmits(key, run, task, vars, channel, error, sink);
      hide ExitsRun;
      SnapshotFits(key, run, states, attempts, eventIds);
      added := Added(key, closed, None, None, None, sink);
      RunAhead(key, run, closed, states, attempts, eventIds);
      EmitLogs(key, closed, states, attempts, eventIds, None, None, None, sink, channel);
      SameForLogKeepsInv(key, Emit(key, closed, channel, None, None, None, sink).run, s.run, states, attempts + added,
          eventIds);
    } else {
      added := [];
      LogsNothing(key, channel);
    }
  }

  lemma EndRunKeepsReplay(w: World, task: TaskKey, key: RunKey, error: Option<Raised>, sink: bool)
    requires Inv(w) && task in w.tasks && key in w.runs
    ensures RunsReplay(WithRun(w, task, key,
              ExitRun(key, w.runs[key], task, w.tasks[task], w.channel, error, sink)).world)
  {
    var attempts := AttemptsOf(w.channel.log, key);
    assert RunInv(key, w.runs[key], w.states, attempts, w.eventIds);
    hide Tidy, RunInv, RunsReplay, ExitRun, WithRun, Logs;
    var added := ExitRunKeepsInv(key, w.runs[key], task, w.tasks[task], w.channel, error, sink, w.states, attempts,
        w.eventIds);
    RunStepChanges(w, task, key, ExitRun(key, w.runs[key], task, w.tasks[task], w.channel, error, sink), added);
  }

  // ---- Turns ----

  function StatesAfter(states: map<TurnKey, TurnState>, key: TurnKey, state: Option<TurnState>)
    : map<TurnKey, TurnState>
  {
    if state.Some? then states[key := state.value] else states
  }

  lemma EnteredTurnEmits(client: Client, key: TurnKey, turn: Turn, run: Run, task: TaskKey, vars: Vars,
      channel: Channel, valid: bool, sink: bool) returns (numbered: Run, snapshot: TurnSnapshot)
    requires EnterTurn(client, key, turn, run, task, vars, channel, valid, sink).result == Done
    ensures var s := EnterTurn(client, key, turn, run, task, vars, channel, valid, sink);
            var e := Emit(turn.owner, numbered, channel, Some(snapshot), None, None, sink);
            && s.channel == e.channel && s.run == e.run
            && numbered == run.(turnSequence := run.turnSequence + 1, latestTurn := Some(key))
            && snapshot.turnId == key && snapshot.runId == run.runId && snapshot.sequence == run.turnSequence
            && s.state == Some(TurnState(turn.owner, snapshot, 0)) && s.turn.owner == turn.owner && !turn.entered
  {
    hide Emit, Content;
    numbered := run.(turnSequence := run.turnSequence + 1, latestTurn := Some(key));
    snapshot := EnterTurn(client, key, turn, run, task, vars, channel, valid, sink).state.value.turn;
  }

  lemma EnterTurnKeepsInv(client: Client, key: TurnKey, turn: Turn, run: Run, task: TaskKey, vars: Vars,
      channel: Channel, valid: bool, sink: bool, states: map<TurnKey, TurnState>, attempts: seq<Attempt>, eventIds: nat)
    returns (added: seq<Attempt>)
    requires RunInv(turn.owner, run, states, attempts, eventIds) && run.snapshot.Some?
    requires !turn.entered ==> key !in states
    ensures var s := EnterTurn(client, key, turn, run, task, vars, channel, valid, sink);
            && s.turn.owner == turn.owner && (s.state.Some? ==> s.state.value.owner == turn.owner)
            && Logs(turn.owner, channel, s.channel, added)
            && RunInv(turn.owner, s.run, StatesAfter(states, key, s.state), attempts + added, eventIds)
  {
    hide RunInv, EnterTurn, Emit, Logs, Added, Ahead;
    var s := EnterTurn(client, key, turn, run, task, vars, channel, valid, sink);
    EnterTurnShape(client, key, turn, run, task, vars, channel, valid, sink);
    if s.result == Done {
      var numbered, snapshot := EnteredTurnEmits(client, key, turn, run, task, vars, channel, valid, sink);
      hide EntersTurn;
      added := Added(turn.owner, numbered, Some(snapshot), None, None, sink);
      TurnOpenedAhead(turn.owner, run, numbered, states, attempts, eventIds, snapshot);
      EmitLogs(turn.owner, numbered, StatesAfter(states, key, s.state), attempts, eventIds, Some(snapshot), None, None,
          sink, channel);
    } else {
      added := [];
      LogsNothing(turn.owner, channel);
    }
  }

  lemma BeginTurnKeepsReplay(w: World, task: TaskKey, key: TurnKey, valid: bool, sink: bool)
    requires Inv(w) && task in w.tasks && key in w.turns && w.turns[key].owner in w.runs
    ensures RunsReplay(WithTurn(w, task, key,
              EnterTurn(w.client, key, w.turns[key], w.runs[w.turns[key].owner], task, w.tasks[task], w.channel, valid,
                  sink)).world)
  {
    var owner := w.turns[key].owner;
    var attempts := AttemptsOf(w.channel.log, owner);
    assert RunInv(owner, w.runs[owner], w.states, attempts, w.eventIds);
    assert TurnLinked(w, key);
    assert key in w.states ==> StateLinked(w, key);
    hide Tidy, RunInv, RunsReplay, EnterTurn, WithTurn, StatesAfter, Logs;
    var added := EnterTurnKeepsInv(w.client, key, w.turns[key], w.runs[owner], task, w.tasks[task], w.channel, valid,
        sink, w.states, attempts, w.eventIds);
    TurnStepChanges(w, task, key,
      EnterTurn(w.client, key, w.turns[key], w.runs[owner], task, w.tasks[task], w.channel, valid, sink), added);
  }

  lemma ClosedTurnEmits(client: Client, turn: Turn, state: TurnState, run: Run, task: TaskKey, vars: Vars,
      channel: Channel, error: Option<Raised>, sink: bool) returns (snapshot: TurnSnapshot)
    requires ExitTurn(client, turn, state, run, task, vars, channel, error, sink).result == Done
    ensures var s := ExitTurn(client, turn, state, run, task, vars, channel, error, sink);
            var e := Emit(turn.owner, run, channel, Some(snapshot), None, None, sink);
            && s.channel == e.channel && s.run == e.run
            && snapshot.turnId == state.turn.turnId && snapshot.runId == state.turn.runId
                 && snapshot.sequence == state.turn.sequence
            && s.state == Some(state.(turn := snapshot)) && s.turn.owner == turn.owner
  {
    hide Emit, Content, TerminalStatus;
    snapshot := Close(client, turn, state.turn, error);
  }

  lemma ExitTurnKeepsInv(client: Client, key: TurnKey, turn: Turn, run: Run, task: TaskKey, vars: Vars,
      channel: Channel, error: Option<Raised>, sink: bool, states: map<TurnKey, TurnState>, attempts: seq<Attempt>,
          eventIds: nat)
    returns (added: seq<Attempt>)
    requires RunInv(turn.owner, run, states, attempts, eventIds) && run.snapshot.Some?
    requires key in states && states[key].owner == turn.owner
    ensures var s := ExitTurn(client, turn, states[key], run, task, vars, channel, error, sink);
            && s.turn.owner == turn.owner && (s.state.Some? ==> s.state.value.owner == turn.owner)
            && Logs(turn.owner, channel, s.channel, added)
            && RunInv(turn.owner, s.run, StatesAfter(states, key, s.state), attempts + added, eventIds)
  {
    hide RunInv, ExitTurn, Emit, Logs, Added, Ahead;
    var s := ExitTurn(client, turn, states[key], run, task, vars, channel, error, sink);
    ExitTurnShape(client, turn, states[key], run, task, vars, channel, error, sink);
    if s.result == Done {
      SnapshotFits(turn.owner, run, states, attempts, eventIds);
      var snapshot := ClosedTurnEmits(client, turn, states[key], run, task, vars, channel, error, sink);
      assert states[key].turn.turnId == key;
      hide ExitsTurn, StatesNamed;
      added := Added(turn.owner, run, Some(snapshot), None, None, sink);
      TurnClosedAhead(turn.owner, run, states, attempts, eventIds, key, snapshot);
      EmitLogs(turn.owner, run, StatesAfter(states, key, s.state), attempts, eventIds, Some(snapshot), None, None,
          sink, channel);
    } else {
      added := [];
      LogsNothing(turn.owner, channel);
      assert states[key := states[key]] == states;
    }
  }

  lemma EndTurnKeepsReplay(w: World, task: TaskKey, key: TurnKey, error: Option<Raised>, sink: bool)
    requires Inv(w) && task in w.tasks && key in w.turns && Entered(w, key) && w.turns[key].owner in w.runs
    ensures RunsReplay(WithTurn(w, task, key,
              ExitTurn(w.client, w.turns[key], w.states[key], w.runs[w.turns[key].owner], task, w.tasks[task],
                       w.channel, error, sink)).world)
  {
    var owner := w.turns[key].owner;
    var attempts := AttemptsOf(w.channel.log, owner);
    assert RunInv(owner, w.runs[owner], w.states, attempts, w.eventIds);
    assert TurnLinked(w, key) && StateLinked(w, key);
    hide Tidy, RunInv, RunsReplay, TurnLinked, StateLinked, ExitTurn, WithTurn, StatesAfter, Logs;
    var added := ExitTurnKeepsInv(w.client, key, w.turns[key], w.runs[owner], task, w.tasks[task], w.channel, error,
        sink, w.states, attempts, w.eventIds);
    TurnStepChanges(w, task, key,
      ExitTurn(w.client, w.turns[key], w.states[key], w.runs[owner], task, w.tasks[task], w.channel, error, sink),
          added);
  }

  // ---- Events ----

  lemma RecordKeepsInv(key: TurnKey, run: Run, channel: Channel, draft: Draft, valid: bool, sink: bool,
      states: map<TurnKey, TurnState>, attempts: seq<Attempt>, eventIds: nat)
    returns (added: seq<Attempt>)
    requires key in states && RunInv(states[key].owner, run, states, attempts, eventIds) && run.snapshot.Some?
    ensures var owner := states[key].owner;
            var s := Record(states[key], run, channel, draft, valid, eventIds, sink);
            && s.state.owner == owner && Logs(owner, channel, s.channel, added)
            && RunInv(owner, s.run, states[key := s.state], attempts + added, eventIds + 1)
  {
    hide RunInv, Emit, Logs, Added, Ahead;
    var owner := states[key].owner;
    if valid {
      SnapshotFits(owner, run, states, attempts, eventIds);
      assert states[key].turn.turnId == key;
      hide StatesNamed;
      var event := CaptureRecords.Event(eventIds, key, states[key].nextEvent, run.producerSequence, draft);
      var numbered := run.(producerSequence := run.producerSequence + 1);
      var grown := states[key := states[key].(nextEvent := states[key].nextEvent + 1)];
      added := Added(owner, numbered, Some(states[key].turn), Some(event), draft.traceId, sink);
      EventAhead(owner, run, numbered, states, attempts, eventIds, key, event);
      EmitLogs(owner, numbered, grown, attempts, eventIds + 1, Some(states[key].turn), Some(event), draft.traceId,
          sink, channel);
    } else {
      added := [];
      LogsNothing(owner, channel);
      assert states[key := states[key]] == states;
      OtherStates(owner, run, states, attempts, eventIds, states, eventIds + 1);
    }
  }

  // The effect records this draft, or an event that is not valid.
  ghost predicate IsRecord(w: World, e: EventEffect, draft: Draft, valid: bool, sink: bool) {
    && e.Recorded? && Entered(w, e.turn)
    && var state := w.states[e.turn];
       var r := Record(state, w.runs[state.owner], w.channel, draft, valid, w.eventIds, sink);
       && e.step.state == r.state && e.step.run == r.run && e.step.channel == r.channel
       && (e.step.result == Done <==> valid)
  }

  // The draft is that of a tool context exactly if the operation is a tool's.
  ghost predicate ToolDraft(w: World, op: Op, e: EventEffect, draft: Draft) {
    && (draft.tool.Some? <==> op.BeginTool? || op.EndTool?)
    && (draft.tool.None? ==> draft.kind != ToolCall && draft.kind != ToolResult)
    && (draft.tool.Some? && e.Recorded? ==>
          && op.tool in w.tools && e.turn == w.tools[op.tool].turn
          && draft.tool.value == op.tool && draft.callId == Some(w.tools[op.tool].callId)
          && draft.kind == (if op.BeginTool? then ToolCall else ToolResult))
  }

  lemma BeginToolRecords(w: World, task: TaskKey, vars: Vars, op: Op) returns (draft: Draft, valid: bool)
    requires op.BeginTool?
    ensures var e := BeginToolOn(w, task, vars, op.tool, op.valid, op.sink);
            (e.Recorded? ==> IsRecord(w, e, draft, valid, op.sink)) && ToolDraft(w, op, e, draft)
  {
    var key := op.tool;
    valid := key in w.tools && w.tools[key].turn in w.turns
        && TurnActive(w.tools[key].turn, w.turns[w.tools[key].turn], vars)
             && !w.tools[key].entered && op.valid;
    draft := Draft(ToolCall, Completed, None, if key in w.tools then Some(w.tools[key].callId) else None, Some(key));
    hide Emit;
  }

  lemma EndToolRecords(w: World, vars: Vars, op: Op) returns (draft: Draft, valid: bool)
    requires op.EndTool?
    ensures var e := EndToolOn(w, vars, op.tool, op.error, op.valid, op.sink);
            (e.Recorded? ==> IsRecord(w, e, draft, valid, op.sink)) && ToolDraft(w, op, e, draft)
  {
    var key := op.tool;
    valid := key in w.tools && w.tools[key].turn in w.turns
        && TurnActive(w.tools[key].turn, w.turns[w.tools[key].turn], vars)
             && w.tools[key].entered && !w.tools[key].closed && op.valid;
    draft := Draft(ToolResult, TerminalStatus(op.error), None,
        if key in w.tools then Some(w.tools[key].callId) else None, Some(key));
    hide Emit, TerminalStatus;
  }

  // An event operation is refused, or records a draft if it is valid.
  lemma EventEffectRecords(w: World, task: TaskKey, vars: Vars, op: Op) returns (draft: Draft, valid: bool, sink: bool)
    requires IsEvent(op)
    ensures var e := EventOf(w, task, vars, op);
            (e.Recorded? ==> IsRecord(w, e, draft, valid, sink)) && ToolDraft(w, op, e, draft)
  {
    hide Emit, BeginToolOn, EndToolOn, EffectFits;
    draft, valid, sink := Draft(Outcome, Completed, None, None, None), false, op.sink;
    match op
    case BeginTool(key, v, _) =>
      draft, valid := BeginToolRecords(w, task, vars, op);
      hide IsRecord, ToolDraft;
    case EndTool(key, error, v, _) =>
      draft, valid := EndToolRecords(w, vars, op);
      hide IsRecord, ToolDraft;
    case RecordOnTurn(_, name, status, v, _) =>
      draft, valid := Draft(Other(name), status, None, None, None), v;
    case RecordBusinessOutcome(_, refused, v, _) =>
      draft, valid := Draft(Outcome, if refused then Failed else Completed, None, None, None), v;
    case CaptureTrace(_, trace, failed, v, _) =>
      draft, valid := Draft(ModelCall, if failed then Failed else Completed, Some(trace), None, None), v;
  }

  lemma EventKeepsReplay(w: World, e: EventEffect, draft: Draft, valid: bool, sink: bool)
    requires Inv(w) && EffectFits(w, e)
    requires e.Recorded? ==> IsRecord(w, e, draft, valid, sink)
    ensures RunsReplay(Effected(w, e).world)
  {
    hide Inv, RunInv, RunsReplay, Record, WithEvent, Logs;
    if e.Recorded? {
      var owner := w.states[e.turn].owner;
      var attempts := AttemptsOf(w.channel.log, owner);
      OwnerReplays(w, e.turn);
      var added := RecordKeepsInv(e.turn, w.runs[owner], w.channel, draft, valid, sink, w.states, attempts, w.eventIds);
      EventStepChanges(w, e.tools, e.turn, e.step, added);
    } else {
      assert RunsReplay(w) by { InvReplays(w); }
    }
  }

  lemma InvReplays(w: World)
    requires Inv(w)
    ensures RunsReplay(w) && Tidy(w) && Linked(w)
  {
    hide RunsReplay, Linked;
  }

  lemma OtherKeepsReplay(w: World, task: TaskKey, op: Op)
    requires RunsReplay(w) && (op.CreateTurn? || op.SetTurnOutput? || op.CreateTool? || op.Fork?)
    ensures RunsReplay(Next(w, task, op).world)
  {
    hide RunInv, AttemptsOf, Lost;
  }

  lemma CreateKeepsReplay(w: World, task: TaskKey, op: Op)
    requires Inv(w) && op.CreateRun?
    ensures RunsReplay(Next(w, task, op).world)
  {
    if op.run !in w.runs {
      CreateRunKeepsReplay(w, op.run, op.config);
    }
    hide Tidy, RunsReplay;
  }

  /** Every operation keeps the whole invariant. */
  lemma NextKeepsInv(w: World, task: TaskKey, op: Op)
    requires Inv(w)
    ensures Inv(Next(w, task, op).world)
  {
    NextKeepsTidy(w, task, op);
    NextKeepsReplay(w, task, op);
    hide Tidy, RunsReplay, Next;
  }

  lemma NextKeepsReplay(w: World, task: TaskKey, op: Op)
    requires Inv(w)
    ensures RunsReplay(Next(w, task, op).world)
  {
    hide Tidy, RunsReplay, Next, WithRun, WithTurn, EnterRun, ExitRun, EnterTurn, ExitTurn;
    if task !in w.tasks || !Finds(w, op) {
      NothingFound(w, task, op);
    } else if op.BeginRun? {
      var s := RunBegun(w, task, op);
      BeginRunKeepsReplay(w, task, op.run, op.sink);
    } else if op.EndRun? {
      var s := RunEnded(w, task, op);
      EndRunKeepsReplay(w, task, op.run, op.error, op.sink);
    } else if op.BeginTurn? {
      var s := TurnBegun(w, task, op);
      BeginTurnKeepsReplay(w, task, op.turn, op.valid, op.sink);
    } else if op.EndTurn? {
      var s := TurnEnded(w, task, op);
      EndTurnKeepsReplay(w, task, op.turn, op.error, op.sink);
    } else if IsEvent(op) {
      EventNext(w, task, op);
      hide EventOf, Effected;
      var draft, valid, sink := EventEffectRecords(w, task, w.tasks[task], op);
      EventKeepsReplay(w, EventOf(w, task, w.tasks[task], op), draft, valid, sink);
    } else if op.CreateRun? {
      CreateKeepsReplay(w, task, op);
    } else {
      OtherKeepsReplay(w, task, op);
    }
  }

  /** Every world that any tasks can reach by any operations satisfies the invariant. */
  lemma {:induction false} ReachableInv(client: Client, task: TaskKey, calls: seq<Call>)
    ensures Inv(RunAll(Initial(client, task), calls))
  {
    if calls != [] {
      var last := |calls| - 1;
      ReachableInv(client, task, calls[..last]);
      NextKeepsInv(RunAll(Initial(client, task), calls[..last]), calls[last].task, calls[last].op);
    }
  }
}
