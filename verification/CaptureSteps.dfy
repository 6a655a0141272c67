/** What one operation does to the world, by kind of operation. */
module CaptureSteps {
  import opened Options
  import opened CaptureRecords
  import opened CaptureWorld

  lemma RunBegun(w: World, task: TaskKey, op: Op) returns (s: RunStep)
    requires task in w.tasks && op.BeginRun? && op.run in w.runs
    ensures s == EnterRun(w.client, op.run, w.runs[op.run], ActiveRun(w, w.tasks[task]), task, w.tasks[task],
              w.channel, op.sink)
    ensures EntersRun(w.client, op.run, w.runs[op.run], ActiveRun(w, w.tasks[task]), task, w.tasks[task], w.channel, s)
    ensures Next(w, task, op) == WithRun(w, task, op.run, s)
  {
    hide EnterRun, WithRun, ActiveRun, EntersRun;
    s := EnterRun(w.client, op.run, w.runs[op.run], ActiveRun(w, w.tasks[task]), task, w.tasks[task], w.channel,
        op.sink);
    EnterRunShape(w.client, op.run, w.runs[op.run], ActiveRun(w, w.tasks[task]), task, w.tasks[task], w.channel,
        op.sink);
  }

  lemma RunEnded(w: World, task: TaskKey, op: Op) returns (s: RunStep)
    requires task in w.tasks && op.EndRun? && op.run in w.runs
    ensures s == ExitRun(op.run, w.runs[op.run], task, w.tasks[task], w.channel, op.error, op.sink)
    ensures ExitsRun(w.runs[op.run], task, w.tasks[task], w.channel, op.error, s)
    ensures Next(w, task, op) == WithRun(w, task, op.run, s)
  {
    hide ExitRun, WithRun, ExitsRun;
    s := ExitRun(op.run, w.runs[op.run], task, w.tasks[task], w.channel, op.error, op.sink);
    ExitRunShape(op.run, w.runs[op.run], task, w.tasks[task], w.channel, op.error, op.sink);
  }

  lemma TurnBegun(w: World, task: TaskKey, op: Op) returns (s: TurnStep)
    requires task in w.tasks && op.BeginTurn? && op.turn in w.turns && w.turns[op.turn].owner in w.runs
    ensures var turn := w.turns[op.turn];
            && s == EnterTurn(w.client, op.turn, turn, w.runs[turn.owner], task, w.tasks[task], w.channel, op.valid,
                 op.sink)
            && EntersTurn(op.turn, turn, w.runs[turn.owner], task, w.tasks[task], w.channel, op.valid, s)
    ensures Next(w, task, op) == WithTurn(w, task, op.turn, s)
  {
    hide EnterTurn, WithTurn, EntersTurn;
    var turn := w.turns[op.turn];
    s := EnterTurn(w.client, op.turn, turn, w.runs[turn.owner], task, w.tasks[task], w.channel, op.valid, op.sink);
    EnterTurnShape(w.client, op.turn, turn, w.runs[turn.owner], task, w.tasks[task], w.channel, op.valid, op.sink);
  }

  lemma TurnEnded(w: World, task: TaskKey, op: Op) returns (s: TurnStep)
    requires task in w.tasks && op.EndTurn? && op.turn in w.turns && Entered(w, op.turn)
               && w.turns[op.turn].owner in w.runs
    ensures var turn := w.turns[op.turn];
            && s == ExitTurn(w.client, turn, w.states[op.turn], w.runs[turn.owner], task, w.tasks[task], w.channel,
                             op.error, op.sink)
            && ExitsTurn(turn, w.states[op.turn], w.runs[turn.owner], task, w.tasks[task], w.channel, op.error, s)
    ensures Next(w, task, op) == WithTurn(w, task, op.turn, s)
  {
    hide ExitTurn, WithTurn, ExitsTurn;
    var turn := w.turns[op.turn];
    s := ExitTurn(w.client, turn, w.states[op.turn], w.runs[turn.owner], task, w.tasks[task], w.channel, op.error,
        op.sink);
    ExitTurnShape(w.client, turn, w.states[op.turn], w.runs[turn.owner], task, w.tasks[task], w.channel, op.error,
        op.sink);
  }

  // Whether an operation finds the objects it works on.
  predicate Finds(w: World, op: Op) {
    match op
    case BeginRun(r, _) => r in w.runs
    case EndRun(r, _, _) => r in w.runs
    case BeginTurn(k, _, _) => k in w.turns && w.turns[k].owner in w.runs
    case EndTurn(k, _, _) => k in w.turns && Entered(w, k) && w.turns[k].owner in w.runs
    case _ => true
  }

  lemma NothingFound(w: World, task: TaskKey, op: Op)
    requires task !in w.tasks || !Finds(w, op)
    ensures Next(w, task, op).world == w && Next(w, task, op).result != Done
  {
  }

  lemma EventNext(w: World, task: TaskKey, op: Op)
    requires IsEvent(op) && task in w.tasks
    ensures Next(w, task, op) == Effected(w, EventOf(w, task, w.tasks[task], op))
  {
    hide EventOf, Effected;
  }

  lemma EventIsQuiet(w: World, task: TaskKey, op: Op)
    requires IsEvent(op)
    ensures Quiet(w, Next(w, task, op).world)
  {
    if task in w.tasks {
      EventNext(w, task, op);
      hide Next, EventOf, Effected, Quiet;
    }
  }

  // What an event operation does to tool contexts: it marks at most its own.
  ghost predicate ToolsMove(w: World, task: TaskKey, op: Op, s: Step) {
    && (forall l :: l in w.tools && !((op.BeginTool? || op.EndTool?) && op.tool == l) ==>
          l in s.world.tools && s.world.tools[l] == w.tools[l])
    && (op.BeginTool? || op.EndTool? ==>
          if op.tool !in w.tools then s.result != Done
          else op.tool in s.world.tools && ToolMoves(w, task, op, s))
  }

  ghost predicate ToolMoves(w: World, task: TaskKey, op: Op, s: Step)
    requires (op.BeginTool? || op.EndTool?) && op.tool in w.tools && op.tool in s.world.tools
  {
    var tool, tool' := w.tools[op.tool], s.world.tools[op.tool];
    || (s.result != Done && tool' == tool)
    || (op.BeginTool? && !tool.entered && tool' == tool.(entered := true, task := task))
    || (op.EndTool? && tool.entered && !tool.closed && tool' == tool.(closed := true))
  }

  // What an effect does to the tools of the world.
  lemma EffectTools(w: World, e: EventEffect)
    requires EffectFits(w, e)
    ensures Effected(w, e).world.tools == (if e.Recorded? then e.tools else w.tools)
    ensures Effected(w, e).result == (if e.Recorded? then e.step.result else e.result)
  {
  }

  lemma BeginToolMoves(w: World, task: TaskKey, vars: Vars, op: Op)
    requires op.BeginTool?
    ensures ToolsMove(w, task, op, Effected(w, BeginToolOn(w, task, vars, op.tool, op.valid, op.sink)))
  {
    hide Effected, EnterTool, EffectFits, TurnActive;
    var e := BeginToolOn(w, task, vars, op.tool, op.valid, op.sink);
    EffectTools(w, e);
    if e.Recorded? {
      var l, k := op.tool, w.tools[op.tool].turn;
      EnterToolShape(l, w.tools[l], w.turns[k], w.states[k], w.runs[w.states[k].owner], task, vars, w.channel, op.valid,
                     w.eventIds, op.sink);
    }
  }

  lemma EndToolMoves(w: World, task: TaskKey, vars: Vars, op: Op)
    requires op.EndTool?
    ensures ToolsMove(w, task, op, Effected(w, EndToolOn(w, vars, op.tool, op.error, op.valid, op.sink)))
  {
    hide Effected, ExitTool, EffectFits, TurnActive;
    var e := EndToolOn(w, vars, op.tool, op.error, op.valid, op.sink);
    EffectTools(w, e);
    if e.Recorded? {
      var l, k := op.tool, w.tools[op.tool].turn;
      ExitToolShape(l, w.tools[l], w.turns[k], w.states[k], w.runs[w.states[k].owner], vars, w.channel, op.error,
          op.valid, w.eventIds, op.sink);
    }
  }

  lemma OtherEventKeepsTools(w: World, task: TaskKey, vars: Vars, op: Op)
    requires IsEvent(op) && !op.BeginTool? && !op.EndTool?
    ensures var e := EventOf(w, task, vars, op); e.Recorded? ==> e.tools == w.tools
  {
    hide Record;
  }

  lemma EventMovesTools(w: World, task: TaskKey, op: Op)
    requires IsEvent(op)
    ensures ToolsMove(w, task, op, Next(w, task, op))
  {
    hide Effected, BeginToolOn, EndToolOn, ToolMoves;
    if task in w.tasks {
      EventNext(w, task, op);
      hide Next;
      if op.BeginTool? {
        BeginToolMoves(w, task, w.tasks[task], op);
      } else if op.EndTool? {
        EndToolMoves(w, task, w.tasks[task], op);
      } else {
        OtherEventKeepsTools(w, task, w.tasks[task], op);
        hide EventOf;
        EffectTools(w, EventOf(w, task, w.tasks[task], op));
      }
    } else {
      NothingFound(w, task, op);
      RefusalMovesNothing(w, task, op, Next(w, task, op));
    }
  }

  lemma RefusalMovesNothing(w: World, task: TaskKey, op: Op, s: Step)
    requires s.world.tools == w.tools && s.result != Done
    ensures ToolsMove(w, task, op, s)
  {
  }

  // ---- Making objects, keeping an output or forking leaves entered objects alone ----

  predicate IsSmall(op: Op) {
    op.CreateRun? || op.CreateTurn? || op.SetTurnOutput? || op.CreateTool? || op.Fork?
  }

  ghost predicate SmallKept(w: World, w': World) {
    && w'.states == w.states && w'.channel == w.channel && w'.client == w.client
    && (forall r :: r in w.runs ==> r in w'.runs && w'.runs[r] == w.runs[r])
    && (forall k :: k in w.turns ==> k in w'.turns && w'.turns[k] == w.turns[k].(output := w'.turns[k].output))
    && (forall k :: k in w'.turns && k !in w.turns ==> !w'.turns[k].entered)
    && (forall l :: l in w.tools ==> l in w'.tools && w'.tools[l] == w.tools[l])
    && (forall l :: l in w'.tools && l !in w.tools ==> !w'.tools[l].entered && !w'.tools[l].closed)
    && (forall t :: t in w.tasks ==> t in w'.tasks && w'.tasks[t] == w.tasks[t])
  }

  lemma NothingKept(w: World)
    ensures SmallKept(w, w)
  {
  }

  lemma RunMade(w: World, key: RunKey, config: RunConfig)
    requires key !in w.runs
    ensures SmallKept(w, w.(runs := w.runs[key := NewRun(key, config)]))
  {
  }

  lemma TurnMade(w: World, key: TurnKey, run: RunKey, request: string)
    requires key !in w.turns
    ensures SmallKept(w, w.(turns := w.turns[key := NewTurn(run, request)]))
  {
  }

  lemma OutputKept(w: World, key: TurnKey, output: Option<string>)
    requires key in w.turns
    ensures SmallKept(w, w.(turns := w.turns[key := w.turns[key].(output := output)]))
  {
  }

  lemma ToolMade(w: World, key: ToolKey, turn: TurnKey, callId: string)
    requires key !in w.tools
    ensures SmallKept(w, w.(tools := w.tools[key := NewTool(turn, callId)]))
  {
  }

  lemma TaskForked(w: World, child: TaskKey, vars: Vars)
    requires child !in w.tasks
    ensures SmallKept(w, w.(tasks := w.tasks[child := vars]))
  {
  }

  lemma SmallStepKeeps(w: World, task: TaskKey, op: Op)
    requires IsSmall(op)
    ensures SmallKept(w, Next(w, task, op).world)
    ensures Next(w, task, op).world.tasks == w.tasks
            || (op.Fork? && Next(w, task, op).result == Done && task in w.tasks && op.child !in w.tasks
                && Next(w, task, op).world.tasks == w.tasks[op.child := w.tasks[task]])
  {
    hide SmallKept;
    NothingKept(w);
    match op
    case CreateRun(key, config) => if key !in w.runs { RunMade(w, key, config); }
    case CreateTurn(key, run, request) => if key !in w.turns { TurnMade(w, key, run, request); }
    case SetTurnOutput(key, output) => if key in w.turns { OutputKept(w, key, output); }
    case CreateTool(key, turn, callId, _) => if key !in w.tools { ToolMade(w, key, turn, callId); }
    case Fork(child) => if child !in w.tasks && task in w.tasks { TaskForked(w, child, w.tasks[task]); }
  }
}
