/** Every call answers what the history of the schedule says it must. */
module CaptureAnswers {
  import opened Options
  import opened Sampling
  import opened CaptureRecords
  import opened CaptureWorld
  import opened CaptureSteps
  import opened CaptureInvariants
  import opened CaptureLog
  import opened CaptureHistory

  // ---- One more entry ----

  lemma DidNext(h: seq<Entry>, e: Entry, what: What)
    ensures Did(h + [e], what) <==> Did(h, what) || Is(e, what)
    ensures Is(e, what) ==> Of(h + [e], what) == e && Earlier(h + [e], what) == h
    ensures !Is(e, what) && Did(h, what) ==>
              Of(h + [e], what) == Of(h, what) && Earlier(h + [e], what) == Earlier(h, what)
  {
    hide Is;
    assert (h + [e])[..|h|] == h;
    if !Is(e, what) && Did(h, what) {
      var n := Last(h, what).value;
      assert (h + [e])[n] == h[n] && (h + [e])[..n] == h[..n];
    }
  }

  lemma WhereNext(h: seq<Entry>, e: Entry, t: TaskKey)
    ensures Where(h + [e], t) ==
              if Is(e, Forks(t)) then Where(h, e.task)
              else if e.task != t || e.result != Done then Where(h, t)
              else if e.op.BeginRun? then Inside(Some(e.op.run), None)
              else if e.op.EndRun? && Did(h, BeginsRun(e.op.run)) then Where(Earlier(h, BeginsRun(e.op.run)), t)
              else if e.op.BeginTurn? then Inside(Where(h, t).run, Some(e.op.turn))
              else if e.op.EndTurn? then Inside(Where(h, t).run, None)
              else Where(h, t)
  {
    assert (h + [e])[..|h|] == h;
    hide Is, Did, Last;
  }

  lemma LatestNext(h: seq<Entry>, e: Entry, r: RunKey)
    ensures LatestTurn(h + [e], r) ==
              if e.result == Done && e.op.BeginTurn? && Did(h, MakesTurn(e.op.turn))
                 && Of(h, MakesTurn(e.op.turn)).op.run == r then Some(e.op.turn)
              else LatestTurn(h, r)
  {
    assert (h + [e])[..|h|] == h;
    hide Did, Last, Is;
  }

  // ---- The state of the machine is what the history says ----

  predicate RunIs(run: Run, h: seq<Entry>, r: RunKey)
    requires Did(h, MakesRun(r))
  {
    && run.config == Of(h, MakesRun(r)).op.config
    && (Did(h, EndsRun(r)) ==> Did(h, BeginsRun(r))) && (Did(h, BeginsRun(r)) ==> Did(h, TriesRun(r)))
    && (run.entered <==> Did(h, TriesRun(r)))
    && (run.snapshot.Some? <==> Did(h, BeginsRun(r)))
    && (run.token.Some? <==> Did(h, BeginsRun(r)) && !Did(h, EndsRun(r)))
    && (run.turnToken.Some? <==> run.token.Some?)
    && (Did(h, BeginsRun(r)) ==> (run.open <==> !Did(h, EndsRun(r))))
    && run.latestTurn == LatestTurn(h, r)
  }

  // The tokens of a run that is not ended save where its task was before.
  predicate TokensAre(run: Run, h: seq<Entry>, r: RunKey) {
    run.token.Some? && run.turnToken.Some? && Did(h, BeginsRun(r)) ==>
      var task := Of(h, BeginsRun(r)).task;
      var before := Where(Earlier(h, BeginsRun(r)), task);
      run.token.value == Token(task, before.run) && run.turnToken.value == Token(task, before.turn)
  }

  predicate NoRun(h: seq<Entry>, r: RunKey) {
    !Did(h, TriesRun(r)) && !Did(h, BeginsRun(r)) && !Did(h, EndsRun(r)) && LatestTurn(h, r).None?
  }

  predicate RunFits(w: World, h: seq<Entry>, r: RunKey) {
    && (r in w.runs <==> Did(h, MakesRun(r)))
    && (if r in w.runs then RunIs(w.runs[r], h, r) && TokensAre(w.runs[r], h, r) else NoRun(h, r))
  }

  predicate TurnIs(turn: Turn, h: seq<Entry>, k: TurnKey)
    requires Did(h, MakesTurn(k))
  {
    && turn.owner == Of(h, MakesTurn(k)).op.run && turn.request == Of(h, MakesTurn(k)).op.request
    && (turn.entered <==> Did(h, BeginsTurn(k)))
    && (Did(h, EndsTurn(k)) ==> Did(h, BeginsTurn(k)))
    && (turn.token.Some? <==> Did(h, BeginsTurn(k)) && !Did(h, EndsTurn(k)))
    && (turn.token.Some? ==>
          Did(h, BeginsTurn(k)) && turn.token.value == Token(Of(h, BeginsTurn(k)).task, None))
    && turn.output == Said(h, k)
  }

  predicate TurnFits(w: World, h: seq<Entry>, k: TurnKey) {
    && (k in w.turns <==> Did(h, MakesTurn(k)))
    && (if k in w.turns then TurnIs(w.turns[k], h, k)
        else !Did(h, BeginsTurn(k)) && !Did(h, EndsTurn(k)) && !Did(h, SaysFor(k)))
  }

  predicate ToolIs(tool: Tool, h: seq<Entry>, l: ToolKey)
    requires Did(h, MakesTool(l))
  {
    && tool.turn == Of(h, MakesTool(l)).op.turn && tool.callId == Of(h, MakesTool(l)).op.callId
    && (tool.entered <==> Did(h, CallsTool(l)))
    && (tool.closed <==> Did(h, ClosesTool(l)))
  }

  predicate ToolFits(w: World, h: seq<Entry>, l: ToolKey) {
    && (l in w.tools <==> Did(h, MakesTool(l)))
    && (if l in w.tools then ToolIs(w.tools[l], h, l) else !Did(h, CallsTool(l)) && !Did(h, ClosesTool(l)))
  }

  predicate TaskFits(w: World, h: seq<Entry>, first: TaskKey, t: TaskKey) {
    && (t in w.tasks <==> Known(h, first, t))
    && (t in w.tasks ==> w.tasks[t] == Vars(Where(h, t).run, Where(h, t).turn))
  }

  ghost predicate Fits(w: World, h: seq<Entry>, first: TaskKey) {
    && (forall r :: RunFits(w, h, r))
    && (forall k :: TurnFits(w, h, k))
    && (forall l :: ToolFits(w, h, l))
    && (forall t :: TaskFits(w, h, first, t))
  }

  // ---- The answer of one call ----

  // A task is inside of objects that were begun.
  lemma InsideIsActive(w: World, h: seq<Entry>, first: TaskKey, t: TaskKey)
    requires Linked(w) && t in w.tasks && TaskFits(w, h, first, t)
    requires forall r :: RunFits(w, h, r)
    ensures forall r :: r in w.runs ==> (RunActive(r, w.runs[r], w.tasks[t]) <==> InRun(h, t, r))
    ensures w.tasks[t].run.Some? ==>
              var r := w.tasks[t].run.value;
              r in w.runs && Did(h, MakesRun(r)) && w.runs[r].runId == Of(h, MakesRun(r)).op.config.runId
  {
    assert TaskLinked(w, t);
    hide Linked, Where, Last, Did, Of, Is, LatestTurn, NoRun, TokensAre;
    forall r | r in w.runs ensures RunActive(r, w.runs[r], w.tasks[t]) <==> InRun(h, t, r) {
      assert RunFits(w, h, r);
    }
    if w.tasks[t].run.Some? {
      var r := w.tasks[t].run.value;
      assert RunFits(w, h, r) && RunLinked(w, r);
    }
  }

  lemma ActiveTurns(w: World, h: seq<Entry>, first: TaskKey, t: TaskKey, k: TurnKey)
    requires t in w.tasks && TaskFits(w, h, first, t) && TurnFits(w, h, k) && k in w.turns
    ensures TurnActive(k, w.turns[k], w.tasks[t]) <==> InTurn(h, t, k)
  {
    hide Where, Last, Did, Of, Is, Said;
  }

  lemma EnterRunAnswers(w: World, h: seq<Entry>, first: TaskKey, t: TaskKey, r: RunKey, sink: bool)
    requires Linked(w) && t in w.tasks && TaskFits(w, h, first, t) && r in w.runs
    requires forall q :: RunFits(w, h, q)
    requires Did(h, MakesRun(r))
    ensures var vars := w.tasks[t];
            EnterRun(w.client, r, w.runs[r], ActiveRun(w, vars), t, vars, w.channel, sink).result
              == if Did(h, TriesRun(r)) then AlreadyEntered else BeginAnswer(h, t, Of(h, MakesRun(r)).op.config)
  {
    assert RunFits(w, h, r);
    InsideIsActive(w, h, first, t);
    hide Linked, RunFits, TokensAre, NoRun, Where, Last, Did, Of, Is, LatestTurn, Emit, Sampled, InRun, RunActive;
  }

  lemma RunAnswers(w: World, h: seq<Entry>, first: TaskKey, t: TaskKey, op: Op)
    requires Linked(w) && Fits(w, h, first) && t in w.tasks && (op.CreateRun? || op.BeginRun? || op.EndRun?)
    ensures Next(w, t, op).result == Answer(h, first, t, op)
  {
    assert TaskFits(w, h, first, t) && RunFits(w, h, op.run);
    hide Fits, Where, Last, Did, Of, Is, Earlier, LatestTurn, NoRun, BeginAnswer, EnterRun, ActiveRun;
    if op.BeginRun? && op.run in w.runs {
      assert forall q :: RunFits(w, h, q) by { RunsFit(w, h, first); }
      EnterRunAnswers(w, h, first, t, op.run, op.sink);
    }
    hide Linked;
  }

  lemma RunsFit(w: World, h: seq<Entry>, first: TaskKey)
    requires Fits(w, h, first)
    ensures forall r :: RunFits(w, h, r)
  {
    hide RunFits, TurnFits, ToolFits, TaskFits;
  }

  lemma TurnAnswers(w: World, h: seq<Entry>, first: TaskKey, t: TaskKey, op: Op)
    requires Linked(w) && Fits(w, h, first) && t in w.tasks
    requires op.CreateTurn? || op.BeginTurn? || op.EndTurn? || op.SetTurnOutput?
    ensures Next(w, t, op).result == Answer(h, first, t, op)
  {
    assert TaskFits(w, h, first, t) && TurnFits(w, h, op.turn);
    if op.CreateTurn? {
      assert RunFits(w, h, op.run);
      RunsFit(w, h, first);
      InsideIsActive(w, h, first, t);
    } else if op.turn in w.turns {
      assert TurnLinked(w, op.turn);
      assert op.turn in w.states ==> StateLinked(w, op.turn);
      ActiveTurns(w, h, first, t, op.turn);
    }
    hide Linked, Fits, Where, Last, Did, Of, Is, Earlier, LatestTurn, NoRun, RunIs, TokensAre, Emit, InTurn, InRun,
      RunActive, TurnActive, Said, Content, Close;
  }

  lemma ToolOpAnswers(w: World, h: seq<Entry>, first: TaskKey, t: TaskKey, op: Op)
    requires Linked(w) && Fits(w, h, first) && t in w.tasks && (op.BeginTool? || op.EndTool?)
    ensures Next(w, t, op).result == Answer(h, first, t, op)
  {
    assert TaskFits(w, h, first, t) && ToolFits(w, h, op.tool);
    if op.tool in w.tools {
      var k := w.tools[op.tool].turn;
      assert ToolLinked(w, op.tool) && StateLinked(w, k) && TurnLinked(w, k);
      assert TurnFits(w, h, k);
      ActiveTurns(w, h, first, t, k);
    }
    EventNext(w, t, op);
    hide Linked, Fits, TurnFits, Where, Last, Did, Of, Is, Earlier, LatestTurn, Emit, InTurn, TurnActive, Next,
      EffectFits, WithEvent, EventStepFits;
  }

  lemma TurnEventAnswers(w: World, h: seq<Entry>, first: TaskKey, t: TaskKey, op: Op)
    requires Linked(w) && Fits(w, h, first) && t in w.tasks && (op.RecordOnTurn? || op.CaptureTrace?)
    ensures Next(w, t, op).result == Answer(h, first, t, op)
  {
    assert TaskFits(w, h, first, t) && TurnFits(w, h, op.turn);
    assert op.turn in w.turns ==> TurnLinked(w, op.turn);
    assert op.turn in w.states ==> StateLinked(w, op.turn);
    if op.turn in w.turns {
      ActiveTurns(w, h, first, t, op.turn);
    }
    EventNext(w, t, op);
    hide Linked, Fits, Where, Last, Did, Of, Is, Earlier, LatestTurn, Emit, InTurn, TurnActive, Next, EffectFits,
      WithEvent, EventStepFits, Said;
  }

  lemma OutcomeAnswers(w: World, h: seq<Entry>, first: TaskKey, t: TaskKey, op: Op)
    requires Linked(w) && Fits(w, h, first) && t in w.tasks && op.RecordBusinessOutcome?
    ensures Next(w, t, op).result == Answer(h, first, t, op)
  {
    hide Where, Last, Did, Of, Is, Earlier, LatestTurn, NoRun, TokensAre, Emit, InRun, RunActive, Next, EffectFits,
      EventStepFits;
    assert TaskFits(w, h, first, t) && RunFits(w, h, op.run);
    RunsFit(w, h, first);
    InsideIsActive(w, h, first, t);
    if op.run in w.runs {
      assert RunLinked(w, op.run);
    }
    EventNext(w, t, op);
  }

  lemma MakingAnswers(w: World, h: seq<Entry>, first: TaskKey, t: TaskKey, op: Op)
    requires Fits(w, h, first) && t in w.tasks && (op.CreateTool? || op.Fork?)
    ensures Next(w, t, op).result == Answer(h, first, t, op)
  {
    assert TaskFits(w, h, first, t);
    if op.CreateTool? {
      assert ToolFits(w, h, op.tool) && TurnFits(w, h, op.turn);
      if op.turn in w.turns {
        ActiveTurns(w, h, first, t, op.turn);
      }
    } else {
      assert TaskFits(w, h, first, op.child);
    }
    hide Fits, TurnIs, ToolIs, Where, Last, Did, Of, Is, InTurn, TurnActive;
  }

  /** A call answers what the history says, as long as the state is what the history says. */
  lemma AnswerIs(w: World, h: seq<Entry>, first: TaskKey, t: TaskKey, op: Op)
    requires Linked(w) && Fits(w, h, first)
    ensures Next(w, t, op).result == Answer(h, first, t, op)
  {
    assert TaskFits(w, h, first, t);
    hide Linked, Fits;
    if t !in w.tasks {
      NothingFound(w, t, op);
      UnknownTask(w, t, op);
      hide Next;
    } else {
      hide Next, Answer;
      if op.CreateRun? || op.BeginRun? || op.EndRun? {
        RunAnswers(w, h, first, t, op);
      } else if op.CreateTurn? || op.BeginTurn? || op.EndTurn? || op.SetTurnOutput? {
        TurnAnswers(w, h, first, t, op);
      } else if op.BeginTool? || op.EndTool? {
        ToolOpAnswers(w, h, first, t, op);
      } else if op.RecordOnTurn? || op.CaptureTrace? {
        TurnEventAnswers(w, h, first, t, op);
      } else if op.CreateTool? || op.Fork? {
        MakingAnswers(w, h, first, t, op);
      } else {
        OutcomeAnswers(w, h, first, t, op);
      }
    }
  }

  lemma UnknownTask(w: World, t: TaskKey, op: Op)
    requires t !in w.tasks
    ensures Next(w, t, op) == Step(w, NoSuchObject)
  {
  }

  // ---- What a call does to each object ----

  predicate SameView(run: Run, run': Run) {
    && run'.config == run.config && run'.entered == run.entered && run'.snapshot.Some? == run.snapshot.Some?
    && run'.token == run.token && run'.turnToken == run.turnToken && run'.open == run.open
    && run'.latestTurn == run.latestTurn
  }

  ghost predicate RunMoves(w: World, t: TaskKey, op: Op, s: Step, r: RunKey)
    requires r in w.runs && r in s.world.runs
  {
    var run, run' := w.runs[r], s.world.runs[r];
    if op.BeginRun? && op.run == r && t in w.tasks then
      && run'.config == run.config && run'.latestTurn == run.latestTurn && run'.entered
      && (if s.result == Done then
            && run'.open && run'.snapshot.Some? && run'.token == Some(Token(t, w.tasks[t].run))
            && run'.turnToken == Some(Token(t, w.tasks[t].turn))
          else
            && run'.snapshot == run.snapshot && run'.token == run.token && run'.turnToken == run.turnToken
            && (run.entered ==> run' == run))
    else if op.EndRun? && op.run == r && s.result == Done then
      && run.snapshot.Some? && SameView(run.(token := None, turnToken := None, open := false), run')
    else if op.BeginTurn? && s.result == Done && op.turn in w.turns && w.turns[op.turn].owner == r then
      SameView(run.(latestTurn := Some(op.turn)), run')
    else SameView(run, run')
  }

  lemma RunMoved(w: World, t: TaskKey, op: Op, r: RunKey)
    requires r in w.runs
    ensures var s := Next(w, t, op); r in s.world.runs && RunMoves(w, t, op, s, r)
    ensures op.BeginTurn? && Next(w, t, op).result == Done ==> op.turn in w.turns
  {
    hide Next, EnterRun, ExitRun, EnterTurn, ExitTurn, Emit, Sampled, TerminalStatus;
    if t !in w.tasks || !Finds(w, op) {
      NothingFound(w, t, op);
    } else if op.BeginRun? {
      var s := RunBegun(w, t, op);
    } else if op.EndRun? {
      var s := RunEnded(w, t, op);
    } else if op.BeginTurn? {
      var s := TurnBegun(w, t, op);
    } else if op.EndTurn? {
      var s := TurnEnded(w, t, op);
    } else if IsEvent(op) {
      EventIsQuiet(w, t, op);
      assert SameRun(w, Next(w, t, op).world, r);
    } else {
      SmallStepKeeps(w, t, op);
    }
  }

  // New runs come from calls that make them.
  lemma RunsMade(w: World, t: TaskKey, op: Op, r: RunKey)
    requires r !in w.runs
    ensures var s := Next(w, t, op);
            && (r in s.world.runs <==> s.result == Done && op.CreateRun? && op.run == r)
            && (r in s.world.runs ==> s.world.runs[r] == NewRun(r, op.config))
  {
    hide EnterRun, ExitRun, EnterTurn, ExitTurn, NewRun, EntersRun, ExitsRun;
    if op.CreateRun? {
      hide WithRun, WithTurn, EventOf, Effected;
    } else {
      hide Next;
      if t !in w.tasks || !Finds(w, op) {
        NothingFound(w, t, op);
      } else if op.BeginRun? {
        var s := RunBegun(w, t, op);
      } else if op.EndRun? {
        var s := RunEnded(w, t, op);
      } else if op.BeginTurn? {
        var s := TurnBegun(w, t, op);
      } else if op.EndTurn? {
        var s := TurnEnded(w, t, op);
      } else if IsEvent(op) {
        EventIsQuiet(w, t, op);
      } else {
        SmallKeepsRuns(w, t, op);
      }
    }
  }

  lemma SmallKeepsRuns(w: World, t: TaskKey, op: Op)
    requires op.CreateTurn? || op.SetTurnOutput? || op.CreateTool? || op.Fork?
    ensures Next(w, t, op).world.runs == w.runs
  {
  }

  // What the answer to a call on a run implies.
  ghost predicate RunCallFits(h: seq<Entry>, e: Entry, r: RunKey) {
    && (e.op.CreateRun? && e.op.run == r && e.result == Done ==> !Did(h, MakesRun(r)))
    && (e.op.BeginRun? && e.op.run == r ==>
          && (e.result in {Done, Invalid, SelfParent} ==> Did(h, MakesRun(r)) && !Did(h, TriesRun(r)))
          && (e.result !in {Done, Invalid, SelfParent} ==> !Did(h, MakesRun(r)) || Did(h, TriesRun(r))
                                                           || e.result == NoSuchObject))
    && (e.op.EndRun? && e.op.run == r && e.result == Done ==>
          && Did(h, MakesRun(r)) && Did(h, BeginsRun(r)) && !Did(h, EndsRun(r)) && Of(h, BeginsRun(r)).task == e.task)
  }

  lemma RunCallsFit(h: seq<Entry>, first: TaskKey, t: TaskKey, op: Op, r: RunKey)
    ensures RunCallFits(h, Entry(t, op, Answer(h, first, t, op)), r)
  {
    hide Last, Is, Did, Of, Where, LatestTurn, InRun, InTurn, ParentOf;
  }

  lemma RunIsNext(w: World, h: seq<Entry>, t: TaskKey, op: Op, r: RunKey)
    requires r in w.runs && RunFits(w, h, r) && (op.BeginTurn? && op.turn in w.turns ==> TurnFits(w, h, op.turn))
    requires t in w.tasks || Next(w, t, op).result == NoSuchObject
    requires RunCallFits(h, Entry(t, op, Next(w, t, op).result), r)
    ensures var s := Next(w, t, op);
            var after := h + [Entry(t, op, s.result)];
            r in s.world.runs && Did(after, MakesRun(r)) && RunIs(s.world.runs[r], after, r)
  {
    var s := Next(w, t, op);
    var e := Entry(t, op, s.result);
    RunMoved(w, t, op, r);
    DidNext(h, e, MakesRun(r));
    DidNext(h, e, TriesRun(r));
    DidNext(h, e, BeginsRun(r));
    DidNext(h, e, EndsRun(r));
    LatestNext(h, e, r);
    hide Next, Where, Last, Did, Of, Earlier, LatestTurn, TokensAre, NoRun, Said;
  }

  lemma TokensNext(w: World, h: seq<Entry>, first: TaskKey, t: TaskKey, op: Op, r: RunKey)
    requires r in w.runs && RunFits(w, h, r) && (t in w.tasks ==> TaskFits(w, h, first, t))
    requires t in w.tasks || Next(w, t, op).result == NoSuchObject
    requires RunCallFits(h, Entry(t, op, Next(w, t, op).result), r)
    ensures var s := Next(w, t, op);
            r in s.world.runs && TokensAre(s.world.runs[r], h + [Entry(t, op, s.result)], r)
  {
    var s := Next(w, t, op);
    var e := Entry(t, op, s.result);
    RunMoved(w, t, op, r);
    DidNext(h, e, BeginsRun(r));
    hide Next, Where, Last, Did, Of, Earlier, LatestTurn, NoRun;
  }

  lemma NewRunIs(h: seq<Entry>, e: Entry, r: RunKey)
    requires NoRun(h, r) && !Did(h, MakesRun(r)) && e.result == Done && e.op.CreateRun? && e.op.run == r
    ensures var after := h + [e];
            && Did(after, MakesRun(r)) && RunIs(NewRun(r, e.op.config), after, r)
            && TokensAre(NewRun(r, e.op.config), after, r)
  {
    DidNext(h, e, MakesRun(r));
    DidNext(h, e, TriesRun(r));
    DidNext(h, e, BeginsRun(r));
    DidNext(h, e, EndsRun(r));
    LatestNext(h, e, r);
    hide Where, Last, Did, Of, Earlier, LatestTurn;
  }

  lemma NoRunNext(h: seq<Entry>, e: Entry, r: RunKey)
    requires NoRun(h, r) && !Did(h, MakesRun(r)) && RunCallFits(h, e, r)
    requires e.op.BeginTurn? && Did(h, MakesTurn(e.op.turn)) ==> Of(h, MakesTurn(e.op.turn)).op.run != r
    requires !(e.result == Done && e.op.CreateRun? && e.op.run == r)
    ensures NoRun(h + [e], r) && !Did(h + [e], MakesRun(r))
  {
    DidNext(h, e, MakesRun(r));
    DidNext(h, e, TriesRun(r));
    DidNext(h, e, BeginsRun(r));
    DidNext(h, e, EndsRun(r));
    LatestNext(h, e, r);
    hide Where, Last, Did, Of, Earlier, LatestTurn;
  }

  lemma NoTurnOf(w: World, h: seq<Entry>, op: Op, r: RunKey)
    requires Linked(w) && r !in w.runs && op.BeginTurn? && TurnFits(w, h, op.turn)
    ensures Did(h, MakesTurn(op.turn)) ==> Of(h, MakesTurn(op.turn)).op.run != r
  {
    assert op.turn in w.turns ==> TurnLinked(w, op.turn);
    hide Linked, Did, Of, Last, Said;
  }

  lemma RunFitsNext(w: World, h: seq<Entry>, first: TaskKey, t: TaskKey, op: Op, r: RunKey)
    requires Linked(w) && Fits(w, h, first)
    ensures var s := Next(w, t, op); RunFits(s.world, h + [Entry(t, op, s.result)], r)
  {
    var s := Next(w, t, op);
    var e := Entry(t, op, s.result);
    AnswerIs(w, h, first, t, op);
    RunCallsFit(h, first, t, op, r);
    assert RunFits(w, h, r) && TaskFits(w, h, first, t);
    if op.BeginTurn? {
      assert TurnFits(w, h, op.turn);
    }
    hide Linked, Fits, RunIs, TokensAre, NoRun, Did, TurnFits, TaskFits, RunCallFits, Known;
    if t !in w.tasks {
      UnknownTask(w, t, op);
    }
    hide Next;
    if r in w.runs {
      RunIsNext(w, h, t, op, r);
      TokensNext(w, h, first, t, op, r);
    } else {
      RunsMade(w, t, op, r);
      if op.BeginTurn? {
        NoTurnOf(w, h, op, r);
      }
      if r in s.world.runs {
        NewRunIs(h, e, r);
      } else {
        NoRunNext(h, e, r);
      }
    }
  }

  // ---- Turns ----

  lemma TurnMoved(w: World, t: TaskKey, op: Op, k: TurnKey)
    requires k in w.turns
    ensures var s := Next(w, t, op);
            && k in s.world.turns
            && var turn := w.turns[k];
               s.world.turns[k] ==
                 if s.result != Done then turn
                 else if op.BeginTurn? && op.turn == k then turn.(entered := true, token := Some(Token(t, None)))
                 else if op.EndTurn? && op.turn == k then turn.(token := None)
                 else if op.SetTurnOutput? && op.turn == k then turn.(output := op.output)
                 else turn
  {
    hide EnterRun, ExitRun, EnterTurn, ExitTurn, EntersRun, ExitsRun, Emit;
    if op.SetTurnOutput? || op.CreateTurn? || op.CreateRun? || op.CreateTool? || op.Fork? {
      hide WithRun, WithTurn, EventOf, Effected, RunActive, TurnActive;
    } else {
      hide Next;
      if t !in w.tasks || !Finds(w, op) {
        NothingFound(w, t, op);
      } else if op.BeginRun? {
        var s := RunBegun(w, t, op);
      } else if op.EndRun? {
        var s := RunEnded(w, t, op);
      } else if op.BeginTurn? {
        var s := TurnBegun(w, t, op);
      } else if op.EndTurn? {
        var s := TurnEnded(w, t, op);
      } else {
        EventIsQuiet(w, t, op);
      }
    }
  }

  lemma TurnsMade(w: World, t: TaskKey, op: Op, k: TurnKey)
    requires k !in w.turns
    ensures var s := Next(w, t, op);
            && (k in s.world.turns <==> s.result == Done && op.CreateTurn? && op.turn == k)
            && (k in s.world.turns ==> s.world.turns[k] == NewTurn(op.run, op.request))
  {
    hide EnterRun, ExitRun, EnterTurn, ExitTurn, EntersRun, ExitsRun, Emit;
    if op.SetTurnOutput? || op.CreateTurn? || op.CreateRun? || op.CreateTool? || op.Fork? {
      hide WithRun, WithTurn, EventOf, Effected, RunActive, TurnActive, NewTurn;
    } else {
      hide Next;
      if t !in w.tasks || !Finds(w, op) {
        NothingFound(w, t, op);
      } else if op.BeginRun? {
        var s := RunBegun(w, t, op);
      } else if op.EndRun? {
        var s := RunEnded(w, t, op);
      } else if op.BeginTurn? {
        var s := TurnBegun(w, t, op);
      } else if op.EndTurn? {
        var s := TurnEnded(w, t, op);
      } else {
        EventIsQuiet(w, t, op);
      }
    }
  }

  ghost predicate TurnCallFits(h: seq<Entry>, e: Entry, k: TurnKey) {
    e.result == Done ==>
      && (e.op.CreateTurn? && e.op.turn == k ==> !Did(h, MakesTurn(k)))
      && (e.op.BeginTurn? && e.op.turn == k ==> Did(h, MakesTurn(k)) && !Did(h, BeginsTurn(k)))
      && (e.op.EndTurn? && e.op.turn == k ==>
            && Did(h, MakesTurn(k)) && Did(h, BeginsTurn(k)) && !Did(h, EndsTurn(k))
            && Of(h, BeginsTurn(k)).task == e.task)
      && (e.op.SetTurnOutput? && e.op.turn == k ==>
            Did(h, MakesTurn(k)) && Did(h, BeginsTurn(k)) && !Did(h, EndsTurn(k)))
  }

  lemma TurnCallsFit(h: seq<Entry>, first: TaskKey, t: TaskKey, op: Op, k: TurnKey)
    ensures TurnCallFits(h, Entry(t, op, Answer(h, first, t, op)), k)
  {
    hide Last, Is, Did, Of, Where, LatestTurn, InRun, ParentOf;
  }

  lemma TurnIsNext(w: World, h: seq<Entry>, t: TaskKey, op: Op, k: TurnKey)
    requires k in w.turns && TurnFits(w, h, k) && TurnCallFits(h, Entry(t, op, Next(w, t, op).result), k)
    ensures var s := Next(w, t, op);
            var after := h + [Entry(t, op, s.result)];
            k in s.world.turns && Did(after, MakesTurn(k)) && TurnIs(s.world.turns[k], after, k)
  {
    hide Next, Last, Did, Of, Earlier;
    var s := Next(w, t, op);
    var e := Entry(t, op, s.result);
    TurnMoved(w, t, op, k);
    DidNext(h, e, MakesTurn(k));
    DidNext(h, e, BeginsTurn(k));
    DidNext(h, e, EndsTurn(k));
    DidNext(h, e, SaysFor(k));
  }

  lemma NoTurnNext(h: seq<Entry>, e: Entry, k: TurnKey)
    requires !Did(h, MakesTurn(k)) && !Did(h, BeginsTurn(k)) && !Did(h, EndsTurn(k)) && !Did(h, SaysFor(k))
    requires TurnCallFits(h, e, k)
    ensures var after := h + [e];
            && !Did(after, BeginsTurn(k)) && !Did(after, EndsTurn(k)) && !Did(after, SaysFor(k))
            && (Did(after, MakesTurn(k)) <==> e.result == Done && e.op.CreateTurn? && e.op.turn == k)
            && (Did(after, MakesTurn(k)) ==> TurnIs(NewTurn(e.op.run, e.op.request), after, k))
  {
    DidNext(h, e, MakesTurn(k));
    DidNext(h, e, BeginsTurn(k));
    DidNext(h, e, EndsTurn(k));
    DidNext(h, e, SaysFor(k));
    hide Last, Did, Of, Earlier;
  }

  lemma TurnFitsNext(w: World, h: seq<Entry>, first: TaskKey, t: TaskKey, op: Op, k: TurnKey)
    requires Linked(w) && Fits(w, h, first)
    ensures var s := Next(w, t, op); TurnFits(s.world, h + [Entry(t, op, s.result)], k)
  {
    AnswerIs(w, h, first, t, op);
    TurnCallsFit(h, first, t, op, k);
    assert TurnFits(w, h, k);
    hide Linked, Fits, Next, TurnIs, Did, TurnCallFits, Answer, NewTurn;
    if k in w.turns {
      TurnIsNext(w, h, t, op, k);
    } else {
      TurnsMade(w, t, op, k);
      NoTurnNext(h, Entry(t, op, Next(w, t, op).result), k);
    }
  }

  // ---- Tools ----

  // A tool is marked once its call gets beyond the check of its turn.
  lemma BeginToolMarks(w: World, t: TaskKey, vars: Vars, op: Op)
    requires op.BeginTool? && op.tool in w.tools
    ensures var s := Effected(w, BeginToolOn(w, t, vars, op.tool, op.valid, op.sink));
            && op.tool in s.world.tools
            && s.world.tools[op.tool] == if s.result in {Done, Invalid}
                 then w.tools[op.tool].(entered := true, task := t)
                 else w.tools[op.tool]
  {
    hide Emit, TurnActive, EffectFits, Effected;
    EffectTools(w, BeginToolOn(w, t, vars, op.tool, op.valid, op.sink));
  }

  lemma EndToolMarks(w: World, vars: Vars, op: Op)
    requires op.EndTool? && op.tool in w.tools
    ensures var s := Effected(w, EndToolOn(w, vars, op.tool, op.error, op.valid, op.sink));
            && op.tool in s.world.tools
            && s.world.tools[op.tool] == if s.result in {Done, Invalid} then w.tools[op.tool].(closed := true)
                 else w.tools[op.tool]
  {
    hide Emit, TurnActive, EffectFits, Effected, TerminalStatus;
    EffectTools(w, EndToolOn(w, vars, op.tool, op.error, op.valid, op.sink));
  }

  lemma ToolMoved(w: World, t: TaskKey, op: Op, l: ToolKey)
    requires l in w.tools
    ensures var s := Next(w, t, op);
            && l in s.world.tools
            && var tool := w.tools[l];
               s.world.tools[l] ==
                 if s.result in {Done, Invalid} && op.BeginTool? && op.tool == l then tool.(entered := true, task := t)
                 else if s.result in {Done, Invalid} && op.EndTool? && op.tool == l then tool.(closed := true)
                 else tool
  {
    if IsEvent(op) {
      EventMovesTools(w, t, op);
      if t in w.tasks {
        EventNext(w, t, op);
        hide Next, Effected, BeginToolOn, EndToolOn;
        if op.BeginTool? && op.tool == l {
          BeginToolMarks(w, t, w.tasks[t], op);
        } else if op.EndTool? && op.tool == l {
          EndToolMarks(w, w.tasks[t], op);
        }
      }
    } else {
      hide EnterRun, ExitRun, EnterTurn, ExitTurn, RunActive, TurnActive;
    }
  }

  lemma ToolsMade(w: World, t: TaskKey, op: Op, l: ToolKey)
    requires l !in w.tools
    ensures var s := Next(w, t, op);
            && (l in s.world.tools <==> s.result == Done && op.CreateTool? && op.tool == l)
            && (l in s.world.tools ==> s.world.tools[l] == NewTool(op.turn, op.callId))
  {
    if IsEvent(op) {
      EventIsQuiet(w, t, op);
      hide Next;
    } else {
      hide EnterRun, ExitRun, EnterTurn, ExitTurn, RunActive, TurnActive, NewTool;
    }
  }

  ghost predicate ToolCallFits(h: seq<Entry>, e: Entry, l: ToolKey) {
    && (e.op.CreateTool? && e.op.tool == l && e.result == Done ==> !Did(h, MakesTool(l)))
    && ((e.op.BeginTool? || e.op.EndTool?) && e.op.tool == l && e.result in {Done, Invalid} ==> Did(h, MakesTool(l)))
  }

  lemma ToolCallsFit(h: seq<Entry>, first: TaskKey, t: TaskKey, op: Op, l: ToolKey)
    ensures ToolCallFits(h, Entry(t, op, Answer(h, first, t, op)), l)
  {
    hide Last, Is, Did, Of, Where, LatestTurn, InRun, InTurn, ParentOf;
  }

  lemma ToolIsNext(w: World, h: seq<Entry>, t: TaskKey, op: Op, l: ToolKey)
    requires l in w.tools && ToolFits(w, h, l) && ToolCallFits(h, Entry(t, op, Next(w, t, op).result), l)
    ensures var s := Next(w, t, op);
            var after := h + [Entry(t, op, s.result)];
            l in s.world.tools && Did(after, MakesTool(l)) && ToolIs(s.world.tools[l], after, l)
  {
    var e := Entry(t, op, Next(w, t, op).result);
    ToolMoved(w, t, op, l);
    DidNext(h, e, MakesTool(l));
    DidNext(h, e, CallsTool(l));
    DidNext(h, e, ClosesTool(l));
    hide Next, Last, Did, Of, Earlier;
  }

  lemma NoToolNext(h: seq<Entry>, e: Entry, l: ToolKey)
    requires !Did(h, MakesTool(l)) && !Did(h, CallsTool(l)) && !Did(h, ClosesTool(l)) && ToolCallFits(h, e, l)
    ensures var after := h + [e];
            && !Did(after, CallsTool(l)) && !Did(after, ClosesTool(l))
            && (Did(after, MakesTool(l)) <==> e.result == Done && e.op.CreateTool? && e.op.tool == l)
            && (Did(after, MakesTool(l)) ==> ToolIs(NewTool(e.op.turn, e.op.callId), after, l))
  {
    DidNext(h, e, MakesTool(l));
    DidNext(h, e, CallsTool(l));
    DidNext(h, e, ClosesTool(l));
    hide Last, Did, Of, Earlier;
  }

  lemma ToolFitsNext(w: World, h: seq<Entry>, first: TaskKey, t: TaskKey, op: Op, l: ToolKey)
    requires Linked(w) && Fits(w, h, first)
    ensures var s := Next(w, t, op); ToolFits(s.world, h + [Entry(t, op, s.result)], l)
  {
    AnswerIs(w, h, first, t, op);
    ToolCallsFit(h, first, t, op, l);
    assert ToolFits(w, h, l);
    hide Linked, Fits, Next, Answer, Did, ToolIs, ToolCallFits, NewTool;
    if l in w.tools {
      ToolIsNext(w, h, t, op, l);
    } else {
      ToolsMade(w, t, op, l);
      NoToolNext(h, Entry(t, op, Next(w, t, op).result), l);
    }
  }

  // ---- Tasks ----

  lemma TaskMoved(w: World, t: TaskKey, op: Op, u: TaskKey)
    ensures var s := Next(w, t, op);
            && (u in s.world.tasks <==> u in w.tasks || (s.result == Done && op.Fork? && op.child == u))
            && (s.result == Done && op.Fork? && op.child == u ==>
                  u !in w.tasks && t in w.tasks && s.world.tasks[u] == w.tasks[t])
            && (u in w.tasks && u != t ==> s.world.tasks[u] == w.tasks[u])
            && (s.result != Done && u in w.tasks ==> s.world.tasks[u] == w.tasks[u])
    ensures var s := Next(w, t, op);
            t in w.tasks && s.result == Done && u == t ==>
              var vars := w.tasks[t];
              && (op.BeginRun? ==> s.world.tasks[t] == Vars(Some(op.run), None))
              && (op.EndRun? ==>
                    && op.run in w.runs && w.runs[op.run].token.Some? && w.runs[op.run].turnToken.Some?
                    && s.world.tasks[t] == Vars(w.runs[op.run].token.value.saved, w.runs[op.run].turnToken.value.saved))
              && (op.BeginTurn? ==> s.world.tasks[t] == Vars(vars.run, Some(op.turn)))
              && (op.EndTurn? ==>
                    && op.turn in w.turns && w.turns[op.turn].token.Some?
                    && s.world.tasks[t] == Vars(vars.run, w.turns[op.turn].token.value.saved))
              && (!op.BeginRun? && !op.EndRun? && !op.BeginTurn? && !op.EndTurn? ==> s.world.tasks[t] == vars)
  {
    hide EnterRun, ExitRun, EnterTurn, ExitTurn, Next, Emit, TerminalStatus;
    if t !in w.tasks || !Finds(w, op) {
      NothingFound(w, t, op);
    } else if op.BeginRun? {
      var s := RunBegun(w, t, op);
    } else if op.EndRun? {
      var s := RunEnded(w, t, op);
    } else if op.BeginTurn? {
      var s := TurnBegun(w, t, op);
    } else if op.EndTurn? {
      var s := TurnEnded(w, t, op);
    } else if IsEvent(op) {
      EventIsQuiet(w, t, op);
    } else {
      SmallStepKeeps(w, t, op);
      ForkMoves(w, t, op);
    }
  }

  lemma ForkMoves(w: World, t: TaskKey, op: Op)
    requires IsSmall(op)
    ensures op.Fork? && Next(w, t, op).result == Done ==>
              && t in w.tasks && op.child !in w.tasks
              && Next(w, t, op).world.tasks == w.tasks[op.child := w.tasks[t]]
  {
    hide RunActive, TurnActive;
  }

  ghost predicate TaskCallFits(w: World, h: seq<Entry>, e: Entry) {
    && (e.result == Done ==> e.task in w.tasks)
    && (e.op.EndRun? && e.result == Done && e.op.run in w.runs ==>
          Did(h, BeginsRun(e.op.run)) && Of(h, BeginsRun(e.op.run)).task == e.task)
  }

  lemma TaskCallsFit(w: World, h: seq<Entry>, first: TaskKey, t: TaskKey, op: Op)
    requires TaskFits(w, h, first, t)
    ensures TaskCallFits(w, h, Entry(t, op, Answer(h, first, t, op)))
  {
    hide Last, Is, Did, Of, Where, LatestTurn, InRun, InTurn, ParentOf;
  }

  lemma TaskFitsNext(w: World, h: seq<Entry>, first: TaskKey, t: TaskKey, op: Op, u: TaskKey)
    requires Linked(w) && Fits(w, h, first)
    ensures var s := Next(w, t, op); TaskFits(s.world, h + [Entry(t, op, s.result)], first, u)
  {
    var e := Entry(t, op, Next(w, t, op).result);
    AnswerIs(w, h, first, t, op);
    assert TaskFits(w, h, first, t) && TaskFits(w, h, first, u);
    TaskCallsFit(w, h, first, t, op);
    if op.EndRun? {
      assert RunFits(w, h, op.run);
    } else if op.EndTurn? {
      assert TurnFits(w, h, op.turn);
    }
    hide Linked, Fits, Answer, RunIs, NoRun, Did, Of, Earlier, Where, Last, Said;
    TaskMoved(w, t, op, u);
    hide Next;
    DidNext(h, e, Forks(u));
    WhereNext(h, e, u);
  }

  // ---- Schedules ----

  lemma FitsNext(w: World, h: seq<Entry>, first: TaskKey, t: TaskKey, op: Op)
    requires Linked(w) && Fits(w, h, first)
    ensures var s := Next(w, t, op); Fits(s.world, h + [Entry(t, op, s.result)], first)
  {
    var s := Next(w, t, op);
    var after := h + [Entry(t, op, s.result)];
    hide Linked, Next, RunFits, TurnFits, ToolFits, TaskFits;
    assert Fits(w, h, first);
    forall r ensures RunFits(s.world, after, r) {
      RunFitsNext(w, h, first, t, op, r);
    }
    forall k ensures TurnFits(s.world, after, k) {
      TurnFitsNext(w, h, first, t, op, k);
    }
    forall l ensures ToolFits(s.world, after, l) {
      ToolFitsNext(w, h, first, t, op, l);
    }
    forall u ensures TaskFits(s.world, after, first, u) {
      TaskFitsNext(w, h, first, t, op, u);
    }
  }

  lemma {:induction false} HistoryFits(client: Client, first: TaskKey, calls: seq<Call>)
    ensures Fits(RunAll(Initial(client, first), calls), History(client, first, calls), first)
    ensures Linked(RunAll(Initial(client, first), calls))
  {
    ReachableInv(client, first, calls);
    if calls == [] {
      NothingFits(client, first);
    } else {
      var n := |calls| - 1;
      HistoryFits(client, first, calls[..n]);
      hide Fits, Inv, Next, Linked;
      FitsNext(RunAll(Initial(client, first), calls[..n]), History(client, first, calls[..n]), first, calls[n].task,
        calls[n].op);
    }
    hide RunsReplay, SampledTogether;
  }

  lemma NothingFits(client: Client, first: TaskKey)
    ensures Fits(Initial(client, first), [], first)
  {
  }

  /** What a call answers follows from the calls before it and what they answered. */
  lemma AnswersFollowFromHistory(client: Client, first: TaskKey, calls: seq<Call>, n: nat)
    requires n < |calls|
    ensures var h := History(client, first, calls);
            && h[n].task == calls[n].task && h[n].op == calls[n].op
            && h[n].result == Answer(h[..n], first, calls[n].task, calls[n].op)
  {
    PrefixOfHistory(client, first, calls, n);
    PrefixOfHistory(client, first, calls, n + 1);
    var c := calls[..n];
    assert calls[..n + 1][..n] == c;
    HistoryFits(client, first, c);
    AnswerIs(RunAll(Initial(client, first), c), History(client, first, c), first, calls[n].task, calls[n].op);
    hide Fits, Linked, Next, Answer;
    assert History(client, first, calls)[n] == History(client, first, calls[..n + 1])[n];
  }

  lemma {:induction false} PrefixOfHistory(client: Client, first: TaskKey, calls: seq<Call>, n: nat)
    requires n <= |calls|
    ensures History(client, first, calls)[..n] == History(client, first, calls[..n])
  {
    hide Next;
    if n < |calls| {
      PrefixOfHistory(client, first, calls[..|calls| - 1], n);
      assert calls[..|calls| - 1][..n] == calls[..n];
    } else {
      assert calls[..n] == calls;
    }
  }
}
