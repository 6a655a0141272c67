/** What holds of every world that operations of any tasks, in any order, can reach. */
module CaptureInvariants {
  import opened Options
  import opened Sampling
  import opened CaptureRecords
  import opened CaptureWorld
  import opened CaptureSteps
  import opened CaptureReplay

  // ---- The invariant ----

  predicate Started(w: World, r: RunKey) {
    r in w.runs && w.runs[r].snapshot.Some?
  }

  predicate StartedIfAny(w: World, r: Option<RunKey>) {
    r.Some? ==> Started(w, r.value)
  }

  predicate EnteredIfAny(w: World, k: Option<TurnKey>) {
    k.Some? ==> k.value in w.states
  }

  // Every reference leads to an object that was entered, tokens included.
  ghost predicate Linked(w: World) {
    && (forall t {:trigger TaskLinked(w, t)} :: t in w.tasks ==> TaskLinked(w, t))
    && (forall r {:trigger RunLinked(w, r)} :: r in w.runs ==> RunLinked(w, r))
    && (forall k {:trigger TurnLinked(w, k)} :: k in w.turns ==> TurnLinked(w, k))
    && (forall k {:trigger StateLinked(w, k)} :: k in w.states ==> StateLinked(w, k))
    && (forall l {:trigger ToolLinked(w, l)} :: l in w.tools ==> ToolLinked(w, l))
  }

  predicate TaskLinked(w: World, t: TaskKey) {
    t in w.tasks && StartedIfAny(w, w.tasks[t].run) && EnteredIfAny(w, w.tasks[t].turn)
  }

  // A run is unfinished exactly while its context holds its tokens.
  predicate RunLinked(w: World, r: RunKey) {
    && r in w.runs
    && var run := w.runs[r];
       && (run.snapshot.Some? ==> run.entered && run.runId == run.config.runId)
       && (run.token.Some? <==> run.turnToken.Some?)
       && (run.token.Some? <==> run.snapshot.Some? && run.snapshot.value.status == Unknown)
       && (run.token.Some? ==>
             && StartedIfAny(w, run.token.value.saved)
             && EnteredIfAny(w, run.turnToken.value.saved)
             && run.turnToken.value.task == run.token.value.task)
       && (run.latestTurn.Some? ==> run.latestTurn.value in w.states && w.states[run.latestTurn.value].owner == r)
       && (run.snapshot.None? ==> run.latestTurn.None?)
  }

  // Likewise for a turn.
  predicate TurnLinked(w: World, k: TurnKey) {
    && k in w.turns
    && var turn := w.turns[k];
       && Started(w, turn.owner)
       && (turn.entered <==> k in w.states)
       && (turn.token.Some? ==> turn.token.value.saved.None?)
       && (turn.token.Some? <==> k in w.states && w.states[k].turn.status == Unknown)
  }

  predicate StateLinked(w: World, k: TurnKey) {
    k in w.states && k in w.turns && w.turns[k].owner == w.states[k].owner
  }

  predicate ToolLinked(w: World, l: ToolKey) {
    l in w.tools && w.tools[l].turn in w.states
  }

  // Every run that started carries the decision of its root.
  ghost predicate SampledTogether(w: World) {
    forall r {:trigger RunDecided(w, r)} :: Started(w, r) ==> RunDecided(w, r)
  }

  predicate RunDecided(w: World, r: RunKey) {
    && Started(w, r)
    && var root := w.runs[r].root;
       && Started(w, root)
       && w.runs[root].root == root
       && (w.runs[r].sampled <==> Sampled(w.runs[root].config.digest, w.client.sampleRate))
  }

  ghost predicate RunsReplay(w: World) {
    && (forall i :: 0 <= i < |w.channel.log| ==> w.channel.log[i].run in w.runs)
    && (forall r :: r in w.runs ==>
          RunInv(r, w.runs[r], w.states, AttemptsOf(w.channel.log, r), w.eventIds))
    && w.channel.dropped == Lost(w.channel.log)
  }

  ghost predicate Tidy(w: World) {
    Linked(w) && SampledTogether(w)
  }

  ghost predicate Inv(w: World) {
    Tidy(w) && RunsReplay(w)
  }

  // ---- What keeps the links ----

  predicate SameTurn(w: World, w': World, k: TurnKey) {
    && k in w.turns && k in w'.turns && w'.turns[k] == w.turns[k]
    && (k in w.states <==> k in w'.states)
    && (k in w.states && k in w'.states ==>
          w'.states[k].turn == w.states[k].turn && w'.states[k].owner == w.states[k].owner)
  }

  predicate SameState(w: World, w': World, k: TurnKey) {
    && k in w.states && k in w'.states && w'.states[k].owner == w.states[k].owner
    && (k in w.turns ==> k in w'.turns && w'.turns[k].owner == w.turns[k].owner)
  }

  // Objects stay, and so does what references need of them.
  ghost predicate Grows(w: World, w': World) {
    && w'.client == w.client
    && (forall r {:trigger Started(w, r)} :: Started(w, r) ==>
          Started(w', r) && w'.runs[r].root == w.runs[r].root && w'.runs[r].config == w.runs[r].config)
    && (forall k :: k in w.states ==> k in w'.states && w'.states[k].owner == w.states[k].owner)
  }

  // If objects only grow, it is enough to check the links of what changed.
  lemma FrameTidy(w: World, w': World)
    requires Tidy(w) && Grows(w, w')
    requires forall t :: t in w'.tasks ==> (t in w.tasks && w'.tasks[t] == w.tasks[t]) || TaskLinked(w', t)
    requires forall r :: r in w'.runs ==>
               SameRun(w, w', r) || (RunLinked(w', r) && (Started(w', r) ==> RunDecided(w', r)))
    requires forall k :: k in w'.turns ==> SameTurn(w, w', k) || TurnLinked(w', k)
    requires forall k :: k in w'.states ==> SameState(w, w', k) || StateLinked(w', k)
    requires forall l :: l in w'.tools ==> (l in w.tools && w'.tools[l].turn == w.tools[l].turn) || ToolLinked(w', l)
    ensures Tidy(w')
  {
    forall t | t in w'.tasks ensures TaskLinked(w', t) { assert t in w.tasks ==> TaskLinked(w, t); }
    forall r | r in w'.runs ensures RunLinked(w', r) { assert r in w.runs ==> RunLinked(w, r); }
    forall k | k in w'.turns ensures TurnLinked(w', k) { assert k in w.turns ==> TurnLinked(w, k); }
    forall k | k in w'.states ensures StateLinked(w', k) { assert k in w.states ==> StateLinked(w, k); }
    forall l | l in w'.tools ensures ToolLinked(w', l) { assert l in w.tools ==> ToolLinked(w, l); }
    forall r | Started(w', r) ensures RunDecided(w', r) {
      if SameRun(w, w', r) {
        assert RunDecided(w, r);
      }
    }
  }

  // ---- Operation by operation ----

  lemma QuietKeepsTidy(w: World, w': World)
    requires Tidy(w) && Quiet(w, w')
    ensures Tidy(w')
  {
    hide Linked, SampledTogether;
    FrameTidy(w, w');
  }

  lemma CreateRunKeepsTidy(w: World, key: RunKey, config: RunConfig)
    requires Tidy(w) && key !in w.runs
    ensures Tidy(w.(runs := w.runs[key := NewRun(key, config)]))
  {
    hide Linked, SampledTogether;
    FrameTidy(w, w.(runs := w.runs[key := NewRun(key, config)]));
  }

  lemma BeginRunLinks(w: World, task: TaskKey, key: RunKey, s: RunStep)
    requires task in w.tasks && key in w.runs && TaskLinked(w, task) && RunLinked(w, key)
    requires EntersRun(w.client, key, w.runs[key], ActiveRun(w, w.tasks[task]), task, w.tasks[task], w.channel, s)
    ensures var w' := WithRun(w, task, key, s).world;
            TaskLinked(w', task) && RunLinked(w', key) && (Started(w, key) ==> s.run == w.runs[key])
  {
  }

  lemma BeginRunDecides(w: World, task: TaskKey, key: RunKey, s: RunStep)
    requires task in w.tasks && key in w.runs && TaskLinked(w, task) && RunLinked(w, key)
    requires w.tasks[task].run.Some? ==> RunDecided(w, w.tasks[task].run.value)
    requires Started(w, key) ==> RunDecided(w, key)
    requires EntersRun(w.client, key, w.runs[key], ActiveRun(w, w.tasks[task]), task, w.tasks[task], w.channel, s)
    ensures var w' := WithRun(w, task, key, s).world; Started(w', key) ==> RunDecided(w', key)
  {
    hide Sampled;
  }

  // A step that changes one run and the variables of one task.
  lemma RunStepKeepsTidy(w: World, task: TaskKey, key: RunKey, s: RunStep)
    requires Tidy(w) && task in w.tasks && key in w.runs
    requires var w' := WithRun(w, task, key, s).world;
             && TaskLinked(w', task) && RunLinked(w', key) && (Started(w', key) ==> RunDecided(w', key))
    requires Started(w, key) ==>
               s.run.snapshot.Some? && s.run.root == w.runs[key].root && s.run.config == w.runs[key].config
    ensures Tidy(WithRun(w, task, key, s).world)
  {
    hide Linked, SampledTogether, TaskLinked, RunLinked, RunDecided, TurnLinked, StateLinked, ToolLinked;
    FrameTidy(w, WithRun(w, task, key, s).world);
  }

  // A step that changes one turn, its owner's record, and the variables of one task.
  lemma TurnStepKeepsTidy(w: World, task: TaskKey, key: TurnKey, s: TurnStep)
    requires Tidy(w) && TurnStepLinks(w, task, key, s)
    ensures Tidy(WithTurn(w, task, key, s).world)
  {
    hide Linked, SampledTogether, TaskLinked, RunLinked, RunDecided, TurnLinked, StateLinked, ToolLinked;
    FrameTidy(w, WithTurn(w, task, key, s).world);
  }

  lemma BeginRunKeepsTidy(w: World, task: TaskKey, key: RunKey, s: RunStep)
    requires Tidy(w) && task in w.tasks && key in w.runs
    requires EntersRun(w.client, key, w.runs[key], ActiveRun(w, w.tasks[task]), task, w.tasks[task], w.channel, s)
    ensures Tidy(WithRun(w, task, key, s).world)
  {
    assert TaskLinked(w, task);
    assert RunLinked(w, key);
    assert w.tasks[task].run.Some? ==> RunDecided(w, w.tasks[task].run.value);
    assert Started(w, key) ==> RunDecided(w, key);
    BeginRunLinks(w, task, key, s);
    hide Linked, SampledTogether, RunLinked, RunDecided, TaskLinked, EntersRun, WithRun;
    BeginRunDecides(w, task, key, s);
    RunStepKeepsTidy(w, task, key, s);
  }

  lemma EndRunLinks(w: World, task: TaskKey, key: RunKey, error: Option<Raised>, s: RunStep)
    requires task in w.tasks && key in w.runs && TaskLinked(w, task) && RunLinked(w, key)
    requires ExitsRun(w.runs[key], task, w.tasks[task], w.channel, error, s)
    ensures var w' := WithRun(w, task, key, s).world;
            && TaskLinked(w', task) && RunLinked(w', key)
            && (Started(w, key) <==> Started(w', key))
            && s.run.config == w.runs[key].config && s.run.root == w.runs[key].root
                 && s.run.sampled == w.runs[key].sampled
  {
    if s.result != Done {
      assert w.runs[key := s.run] == w.runs && w.tasks[task := s.vars] == w.tasks;
    }
  }

  lemma SameDecision(w: World, task: TaskKey, key: RunKey, s: RunStep)
    requires task in w.tasks && key in w.runs && RunDecided(w, key) && s.run.snapshot.Some?
    requires s.run.config == w.runs[key].config && s.run.root == w.runs[key].root
               && s.run.sampled == w.runs[key].sampled
    ensures RunDecided(WithRun(w, task, key, s).world, key)
  {
    hide Sampled;
  }

  lemma EndRunKeepsTidy(w: World, task: TaskKey, key: RunKey, error: Option<Raised>, s: RunStep)
    requires Tidy(w) && task in w.tasks && key in w.runs
    requires ExitsRun(w.runs[key], task, w.tasks[task], w.channel, error, s)
    ensures Tidy(WithRun(w, task, key, s).world)
  {
    assert TaskLinked(w, task);
    assert RunLinked(w, key);
    assert Started(w, key) ==> RunDecided(w, key);
    EndRunLinks(w, task, key, error, s);
    hide Linked, SampledTogether, RunLinked, TaskLinked, RunDecided, ExitsRun;
    if Started(w, key) {
      SameDecision(w, task, key, s);
    }
    RunStepKeepsTidy(w, task, key, s);
  }

  lemma CreateTurnKeepsTidy(w: World, key: TurnKey, run: RunKey, request: string)
    requires Tidy(w) && key !in w.turns && Started(w, run)
    ensures Tidy(w.(turns := w.turns[key := NewTurn(run, request)]))
  {
    assert key in w.states ==> StateLinked(w, key);
    hide Linked, SampledTogether;
    FrameTidy(w, w.(turns := w.turns[key := NewTurn(run, request)]));
  }

  // What a turn step must do for the links of what it touches.
  ghost predicate TurnStepLinks(w: World, task: TaskKey, key: TurnKey, s: TurnStep) {
    var w' := WithTurn(w, task, key, s).world;
    && task in w.tasks && key in w.turns && s.turn.owner == w.turns[key].owner && Started(w, s.turn.owner)
    && TaskLinked(w', task) && RunLinked(w', s.turn.owner) && RunDecided(w', s.turn.owner)
    && TurnLinked(w', key) && (key in w'.states ==> StateLinked(w', key))
    && s.run.snapshot.Some? && s.run.root == w.runs[s.turn.owner].root && s.run.config == w.runs[s.turn.owner].config
    && (key in w.states && s.state.Some? ==> s.state.value.owner == w.states[key].owner)
  }

  lemma BeginTurnLinks(w: World, task: TaskKey, key: TurnKey, valid: bool, s: TurnStep)
    requires task in w.tasks && key in w.turns && TaskLinked(w, task) && TurnLinked(w, key)
    requires RunLinked(w, w.turns[key].owner) && RunDecided(w, w.turns[key].owner)
    requires key in w.states ==> StateLinked(w, key)
    requires EntersTurn(key, w.turns[key], w.runs[w.turns[key].owner], task, w.tasks[task], w.channel, valid, s)
    ensures TurnStepLinks(w, task, key, s)
  {
    hide Sampled;
  }

  lemma EndTurnOwner(w: World, task: TaskKey, key: TurnKey, error: Option<Raised>, s: TurnStep)
    requires task in w.tasks && key in w.turns && TaskLinked(w, task) && TurnLinked(w, key)
    requires RunLinked(w, w.turns[key].owner) && RunDecided(w, w.turns[key].owner)
    requires key in w.states && StateLinked(w, key)
    requires ExitsTurn(w.turns[key], w.states[key], w.runs[w.turns[key].owner], task, w.tasks[task], w.channel, error,
               s)
    ensures var w' := WithTurn(w, task, key, s).world;
            && s.turn.owner == w.turns[key].owner
            && RunLinked(w', s.turn.owner) && RunDecided(w', s.turn.owner)
  {
    hide Sampled;
    assert s.run == w.runs[w.turns[key].owner].(captureFailed := s.run.captureFailed);
  }

  lemma EndTurnLinks(w: World, task: TaskKey, key: TurnKey, error: Option<Raised>, s: TurnStep)
    requires task in w.tasks && key in w.turns && TaskLinked(w, task) && TurnLinked(w, key)
    requires RunLinked(w, w.turns[key].owner) && RunDecided(w, w.turns[key].owner)
    requires key in w.states && StateLinked(w, key)
    requires ExitsTurn(w.turns[key], w.states[key], w.runs[w.turns[key].owner], task, w.tasks[task], w.channel, error,
               s)
    ensures TurnStepLinks(w, task, key, s)
  {
    EndTurnOwner(w, task, key, error, s);
    hide RunLinked, RunDecided;
    assert s.run == w.runs[w.turns[key].owner].(captureFailed := s.run.captureFailed);
    assert s.state.Some? && s.state.value == w.states[key].(turn := s.state.value.turn);
  }

  lemma BeginTurnKeepsTidy(w: World, task: TaskKey, key: TurnKey, valid: bool, s: TurnStep)
    requires Tidy(w) && task in w.tasks && key in w.turns && w.turns[key].owner in w.runs
    requires EntersTurn(key, w.turns[key], w.runs[w.turns[key].owner], task, w.tasks[task], w.channel, valid, s)
    ensures Tidy(WithTurn(w, task, key, s).world)
  {
    assert TaskLinked(w, task) && TurnLinked(w, key);
    assert Started(w, w.turns[key].owner);
    assert RunLinked(w, w.turns[key].owner) && RunDecided(w, w.turns[key].owner);
    assert key in w.states ==> StateLinked(w, key);
    hide Tidy, TaskLinked, RunLinked, RunDecided, TurnLinked, StateLinked, WithTurn, TurnStepLinks, EntersTurn;
    BeginTurnLinks(w, task, key, valid, s);
    TurnStepKeepsTidy(w, task, key, s);
  }

  lemma EndTurnKeepsTidy(w: World, task: TaskKey, key: TurnKey, error: Option<Raised>, s: TurnStep)
    requires Tidy(w) && task in w.tasks && key in w.turns && w.turns[key].owner in w.runs && key in w.states
    requires ExitsTurn(w.turns[key], w.states[key], w.runs[w.turns[key].owner], task, w.tasks[task], w.channel, error,
               s)
    ensures Tidy(WithTurn(w, task, key, s).world)
  {
    assert TaskLinked(w, task) && TurnLinked(w, key) && StateLinked(w, key);
    assert Started(w, w.turns[key].owner);
    assert RunLinked(w, w.turns[key].owner) && RunDecided(w, w.turns[key].owner);
    hide Tidy, TaskLinked, RunLinked, RunDecided, TurnLinked, StateLinked, WithTurn, TurnStepLinks, ExitsTurn;
    EndTurnLinks(w, task, key, error, s);
    TurnStepKeepsTidy(w, task, key, s);
  }

  lemma SetOutputKeepsTidy(w: World, key: TurnKey, output: Option<string>)
    requires Tidy(w) && key in w.turns
    ensures Tidy(w.(turns := w.turns[key := w.turns[key].(output := output)]))
  {
    assert TurnLinked(w, key);
    assert key in w.states ==> StateLinked(w, key);
    hide Linked, SampledTogether;
    FrameTidy(w, w.(turns := w.turns[key := w.turns[key].(output := output)]));
  }

  lemma CreateToolKeepsTidy(w: World, key: ToolKey, turn: TurnKey, callId: string)
    requires Tidy(w) && key !in w.tools && turn in w.states
    ensures Tidy(w.(tools := w.tools[key := NewTool(turn, callId)]))
  {
    hide Linked, SampledTogether;
    FrameTidy(w, w.(tools := w.tools[key := NewTool(turn, callId)]));
  }

  lemma ForkKeepsTidy(w: World, task: TaskKey, child: TaskKey)
    requires Tidy(w) && task in w.tasks && child !in w.tasks
    ensures Tidy(w.(tasks := w.tasks[child := w.tasks[task]]))
  {
    assert TaskLinked(w, task);
    hide Linked, SampledTogether;
    FrameTidy(w, w.(tasks := w.tasks[child := w.tasks[task]]));
  }

  // Operations that make objects, keep an output or fork a task.
  lemma SmallStepKeepsTidy(w: World, task: TaskKey, op: Op)
    requires Tidy(w) && task in w.tasks
    requires op.CreateRun? || op.CreateTurn? || op.SetTurnOutput? || op.CreateTool? || op.Fork?
    ensures Tidy(Next(w, task, op).world)
  {
    assert TaskLinked(w, task);
    hide Tidy;
    match op
    case CreateRun(key, config) => if key !in w.runs { CreateRunKeepsTidy(w, key, config); }
    case CreateTurn(key, run, request) =>
      if key !in w.turns && run in w.runs && RunActive(run, w.runs[run], w.tasks[task]) {
        CreateTurnKeepsTidy(w, key, run, request);
      }
    case SetTurnOutput(key, output) => if key in w.turns { SetOutputKeepsTidy(w, key, output); }
    case CreateTool(key, turn, callId, _) =>
      if key !in w.tools && turn in w.turns && TurnActive(turn, w.turns[turn], w.tasks[task]) {
        CreateToolKeepsTidy(w, key, turn, callId);
      }
    case Fork(child) => if child !in w.tasks { ForkKeepsTidy(w, task, child); }
  }

  /** The links and the sampling decisions survive every operation, whether it succeeds or fails. */
  lemma NextKeepsTidy(w: World, task: TaskKey, op: Op)
    requires Tidy(w)
    ensures Tidy(Next(w, task, op).world)
  {
    hide Tidy, Next, EntersRun, ExitsRun, EntersTurn, ExitsTurn, WithRun, WithTurn, EnterRun, ExitRun, EnterTurn,
        ExitTurn;
    if task !in w.tasks || !Finds(w, op) {
      NothingFound(w, task, op);
    } else if op.BeginRun? {
      var s := RunBegun(w, task, op);
      BeginRunKeepsTidy(w, task, op.run, s);
    } else if op.EndRun? {
      var s := RunEnded(w, task, op);
      EndRunKeepsTidy(w, task, op.run, op.error, s);
    } else if op.BeginTurn? {
      var s := TurnBegun(w, task, op);
      BeginTurnKeepsTidy(w, task, op.turn, op.valid, s);
    } else if op.EndTurn? {
      var s := TurnEnded(w, task, op);
      EndTurnKeepsTidy(w, task, op.turn, op.error, s);
    } else if IsEvent(op) {
      EventIsQuiet(w, task, op);
      QuietKeepsTidy(w, Next(w, task, op).world);
    } else {
      SmallStepKeepsTidy(w, task, op);
    }
  }
}
