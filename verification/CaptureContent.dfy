/** What the captured turns say of their request and response. */
module CaptureContent {
  import opened Options
  import opened CaptureRecords
  import opened CaptureWorld
  import opened CaptureSteps
  import opened CaptureInvariants
  import opened CaptureLog
  import opened CaptureTheorems

  // The evidence states agree with the content: a request is there iff content is captured, a
  // response only on a turn that completed, and its absence is called missing only on a finished
  // turn whose content is captured.
  predicate Honest(client: Client, t: TurnSnapshot) {
    && (t.request.Some? <==> client.captureContent)
    && t.requestState == (if t.request.Some? then Present else NotCaptured)
    && (t.response.Some? ==> client.captureContent && t.status == Completed)
    && t.responseState ==
         (if t.response.Some? then Present
          else if client.captureContent && t.status != Unknown then Missing
          else NotCaptured)
  }

  predicate HonestState(w: World, k: TurnKey) {
    k in w.states && Honest(w.client, w.states[k].turn)
  }

  ghost predicate HonestStates(w: World) {
    forall k {:trigger HonestState(w, k)} :: k in w.states ==> HonestState(w, k)
  }

  predicate HonestAttempt(client: Client, a: Attempt) {
    a.batch.turn.Some? ==> Honest(client, a.batch.turn.value)
  }

  ghost predicate HonestLog(w: World) {
    forall i :: 0 <= i < |w.channel.log| ==> HonestAttempt(w.client, w.channel.log[i])
  }

  lemma BeganTurnIsHonest(client: Client, key: TurnKey, turn: Turn, run: Run, task: TaskKey, vars: Vars,
      channel: Channel, valid: bool, sink: bool)
    ensures var s := EnterTurn(client, key, turn, run, task, vars, channel, valid, sink);
            s.state.Some? ==> Honest(client, s.state.value.turn)
  {
    hide Emit;
  }

  lemma EndedTurnIsHonest(client: Client, turn: Turn, state: TurnState, run: Run, task: TaskKey, vars: Vars,
      channel: Channel, error: Option<Raised>, sink: bool)
    requires Honest(client, state.turn)
    ensures var s := ExitTurn(client, turn, state, run, task, vars, channel, error, sink);
            s.state.Some? ==> Honest(client, s.state.value.turn)
  {
    hide Emit;
  }

  // Only entering and closing a turn touch its snapshot.
  lemma OtherTurnsKept(w: World, task: TaskKey, op: Op, k: TurnKey)
    requires Linked(w) && k in Next(w, task, op).world.states && !((op.BeginTurn? || op.EndTurn?) && op.turn == k)
    ensures k in w.states && Next(w, task, op).world.states[k].turn == w.states[k].turn
    ensures Next(w, task, op).world.client == w.client
  {
    if IsEvent(op) {
      EventIsQuiet(w, task, op);
      hide Next, Linked;
    } else {
      hide Linked, Emit, EnterRun, ExitRun, EnterTurn, ExitTurn;
    }
  }

  lemma NextKeepsHonestState(w: World, task: TaskKey, op: Op, k: TurnKey)
    requires Linked(w) && HonestStates(w) && k in Next(w, task, op).world.states
    ensures HonestState(Next(w, task, op).world, k)
  {
    assert k in w.states ==> HonestState(w, k);
    hide Linked, HonestStates;
    if (op.BeginTurn? || op.EndTurn?) && op.turn == k {
      if task in w.tasks && k in w.turns && w.turns[k].owner in w.runs {
        var owner := w.runs[w.turns[k].owner];
        if op.BeginTurn? {
          BeganTurnIsHonest(w.client, k, w.turns[k], owner, task, w.tasks[task], w.channel, op.valid, op.sink);
        } else if k in w.states {
          EndedTurnIsHonest(w.client, w.turns[k], w.states[k], owner, task, w.tasks[task], w.channel, op.error,
              op.sink);
        }
      }
      hide EnterTurn, ExitTurn, Honest;
    } else {
      OtherTurnsKept(w, task, op, k);
      hide Next, Honest;
    }
  }

  lemma NextKeepsClient(w: World, task: TaskKey, op: Op)
    ensures Next(w, task, op).world.client == w.client
  {
    if IsEvent(op) {
      EventIsQuiet(w, task, op);
    }
    hide EnterRun, ExitRun, EnterTurn, ExitTurn;
  }

  lemma NextKeepsHonest(w: World, task: TaskKey, op: Op)
    requires Inv(w) && HonestStates(w) && HonestLog(w)
    ensures var w' := Next(w, task, op).world; Inv(w') && HonestStates(w') && HonestLog(w')
  {
    assert Linked(w);
    hide Inv, Linked, Next, HonestState, HonestLog;
    var w' := Next(w, task, op).world;
    NextKeepsInv(w, task, op);
    forall k | k in w'.states ensures HonestState(w', k) {
      NextKeepsHonestState(w, task, op, k);
    }
    NextExtendsLog(w, task, op);
    NextKeepsClient(w, task, op);
    hide HonestStates;
    LogStaysHonest(w, w');
  }

  lemma LogStaysHonest(w: World, w': World)
    requires HonestLog(w) && HonestStates(w') && Inv(w') && w'.client == w.client
               && LogExtends(w.channel.log, w'.channel.log)
    ensures HonestLog(w')
  {
    hide Inv, HonestStates, HonestAttempt, CarriesMemory;
    if |w'.channel.log| > |w.channel.log| {
      LatestCarriesMemory(w');
      LatestIsHonest(w');
    }
  }

  lemma LatestIsHonest(w: World)
    requires HonestStates(w) && w.channel.log != [] && CarriesMemory(w, w.channel.log[|w.channel.log| - 1])
    ensures HonestAttempt(w.client, w.channel.log[|w.channel.log| - 1])
  {
    var turn := w.channel.log[|w.channel.log| - 1].batch.turn;
    if turn.Some? {
      assert HonestState(w, turn.value.turnId);
    }
  }

  /** In every batch that any schedule emits, the evidence states of the turn agree with its content. */
  lemma {:induction false} CapturedTurnsAreHonest(client: Client, task: TaskKey, calls: seq<Call>)
    ensures var w := RunAll(Initial(client, task), calls);
            w.client == client && HonestStates(w) && HonestLog(w)
  {
    var n := |calls| - 1;
    if calls != [] {
      CapturedTurnsAreHonest(client, task, calls[..n]);
      var before := RunAll(Initial(client, task), calls[..n]);
      ReachableInv(client, task, calls[..n]);
      NextKeepsHonest(before, calls[n].task, calls[n].op);
      NextKeepsClient(before, calls[n].task, calls[n].op);
      hide Inv, Next, HonestStates, HonestLog;
    }
  }
}
