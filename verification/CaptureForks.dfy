/** One schedule in which a forked task loses a tool result: it closes its tool after the turn it
    inherited was closed. */
module CaptureForks {
  import opened Options
  import opened Sampling
  import opened CaptureRecords
  import opened CaptureWorld
  import opened CaptureSteps
  import opened CaptureNesting
  import opened CaptureBrackets
  import opened CaptureExits

  const CLIENT := Client(true, 1.0, "tenant", "producer")
  const CONFIG := RunConfig("agent", "run", 0, None, None, true, true)
  const PARENT: TaskKey := 0
  const CHILD: TaskKey := 1

  // The parent opens a run and a turn and makes a tool, the forked child enters the tool, the parent
  // closes the turn, and then the child closes the tool.
  const FORKED: seq<Call> := [
    Call(PARENT, CreateRun(0, CONFIG)),
    Call(PARENT, BeginRun(0, true)),
    Call(PARENT, CreateTurn(0, 0, "request")),
    Call(PARENT, BeginTurn(0, true, true)),
    Call(PARENT, CreateTool(0, 0, "call", true)),
    Call(PARENT, Fork(CHILD)),
    Call(CHILD, BeginTool(0, true, true)),
    Call(PARENT, EndTurn(0, None, true)),
    Call(CHILD, EndTool(0, None, true, true))]

  // ---- How far the schedule has come ----

  predicate RunStarted(w: World) {
    0 in w.runs && w.runs[0].open && CanEmit(w.runs[0])
  }

  predicate TurnIs(w: World, open: bool) {
    && 0 in w.turns && w.turns[0].owner == 0 && (w.turns[0].token == if open then Some(Token(PARENT, None)) else None)
    && 0 in w.states && w.states[0].owner == 0 && (w.states[0].turn.status == Unknown <==> open)
  }

  predicate ParentIn(m: Machine, vars: Vars, stack: seq<Frame>) {
    && PARENT in m.world.tasks && m.world.tasks[PARENT] == vars
    && PARENT in m.stacks && m.stacks[PARENT] == stack
    && m.world.client == CLIENT
  }

  predicate ChildIn(m: Machine, stack: seq<Frame>) {
    CHILD in m.world.tasks && m.world.tasks[CHILD] == Vars(Some(0), Some(0)) && CHILD in m.stacks
        && m.stacks[CHILD] == stack
  }

  predicate ToolIs(w: World, entered: bool) {
    0 in w.tools && w.tools[0] == Tool(0, "call", entered, false, if entered then CHILD else 0)
  }

  function StackAt(n: nat): seq<Frame> {
    if n <= 1 then [] else if n <= 3 || n >= 8 then [RunFrame(0)] else [RunFrame(0), TurnFrame(0)]
  }

  function VarsAt(n: nat): Vars {
    Vars(if n <= 1 then None else Some(0), if 4 <= n <= 7 then Some(0) else None)
  }

  // After n calls.
  predicate Reached(m: Machine, n: nat) {
    && ParentIn(m, VarsAt(n), StackAt(n))
    && (if n == 0 then 0 !in m.world.runs
        else if n == 1 then 0 in m.world.runs && m.world.runs[0] == NewRun(0, CONFIG)
        else RunStarted(m.world))
    && (if n <= 2 then 0 !in m.world.turns
        else if n == 3 then 0 in m.world.turns && m.world.turns[0] == NewTurn(0, "request")
        else TurnIs(m.world, n <= 7))
    && (if n <= 4 then 0 !in m.world.tools else ToolIs(m.world, n >= 7))
    && (if n <= 5 then CHILD !in m.world.tasks else ChildIn(m, if n >= 7 then [ToolFrame(0)] else []))
  }

  lemma RunIsMade(m: Machine)
    requires Reached(m, 0)
    ensures WellNested(m, PARENT, FORKED[0].op) && Reached(Advance(m, PARENT, FORKED[0].op), 1)
  {
  }

  lemma TurnIsMade(m: Machine)
    requires Reached(m, 2)
    ensures WellNested(m, PARENT, FORKED[2].op) && Reached(Advance(m, PARENT, FORKED[2].op), 3)
  {
  }

  lemma ToolIsMade(m: Machine)
    requires Reached(m, 4)
    ensures WellNested(m, PARENT, FORKED[4].op) && Reached(Advance(m, PARENT, FORKED[4].op), 5)
  {
  }

  lemma ChildIsForked(m: Machine)
    requires Reached(m, 5)
    ensures WellNested(m, PARENT, FORKED[5].op) && Reached(Advance(m, PARENT, FORKED[5].op), 6)
  {
  }

  lemma RunBegins(m: Machine)
    requires Reached(m, 1)
    ensures WellNested(m, PARENT, FORKED[1].op) && Reached(Advance(m, PARENT, FORKED[1].op), 2)
  {
    var w, op := m.world, FORKED[1].op;
    SampledAtOne();
    hide Next, EnterRun, Sampled;
    BeginAdvances(m, PARENT, op);
    var s := RunBegun(w, PARENT, op);
    FreshRunEnters(w.client, 0, CONFIG, PARENT, w.tasks[PARENT], w.channel, true);
    hide Advance;
  }

  lemma SampledAtOne()
    ensures Sampled(0, 1.0)
  {
    SamplingIsMonotone(0, 1.0, 1.0);
  }

  lemma FreshRunEnters(client: Client, key: RunKey, config: RunConfig, task: TaskKey, vars: Vars, channel: Channel,
      sink: bool)
    requires config.idValid && config.recordValid && config.parentOverride.None?
    ensures EnterRun(client, key, NewRun(key, config), None, task, vars, channel, sink).result == Done
  {
    hide Emit, Sampled;
  }

  lemma TurnBegins(m: Machine)
    requires Reached(m, 3)
    ensures WellNested(m, PARENT, FORKED[3].op) && Reached(Advance(m, PARENT, FORKED[3].op), 4)
  {
    var op := FORKED[3].op;
    hide Next, EnterTurn;
    BeginAdvances(m, PARENT, op);
    var s := TurnBegun(m.world, PARENT, op);
    hide Advance;
  }

  lemma ChildEnters(m: Machine)
    requires Reached(m, 6)
    ensures WellNested(m, CHILD, FORKED[6].op) && Reached(Advance(m, CHILD, FORKED[6].op), 7)
  {
    var w, op := m.world, FORKED[6].op;
    hide Next;
    BeginAdvances(m, CHILD, op);
    ChildEnterSucceeds(w, op);
    hide Advance;
    EventMovesTools(w, CHILD, op);
    EventIsQuiet(w, CHILD, op);
    assert SameRun(w, Next(w, CHILD, op).world, 0);
  }

  lemma ChildEnterSucceeds(w: World, op: Op)
    requires op == BeginTool(0, true, true) && CHILD in w.tasks && w.tasks[CHILD] == Vars(Some(0), Some(0))
    requires ToolIs(w, false) && TurnIs(w, true) && 0 in w.runs
    ensures Next(w, CHILD, op).result == Done
  {
    EventNext(w, CHILD, op);
    hide Next;
    EnterToolShape(0, w.tools[0], w.turns[0], w.states[0], w.runs[0], CHILD, w.tasks[CHILD], w.channel, true,
        w.eventIds, true);
    hide EnterTool;
    EffectTools(w, EventOf(w, CHILD, w.tasks[CHILD], op));
    hide Effected;
  }

  lemma TurnEnds(m: Machine)
    requires Reached(m, 7)
    ensures WellNested(m, PARENT, FORKED[7].op) && Reached(Advance(m, PARENT, FORKED[7].op), 8)
  {
    var op := FORKED[7].op;
    hide Next, ExitTurn;
    EndAdvances(m, PARENT, op);
    var s := TurnEnded(m.world, PARENT, op);
    hide Advance;
  }

  lemma ChildExits(m: Machine)
    requires Reached(m, 8)
    ensures WellNested(m, CHILD, FORKED[8].op)
    ensures !ExitFits(m.world, FORKED[8], 0, CHILD) && Left(Advance(m, CHILD, FORKED[8].op))
  {
    hide Next;
    EndAdvances(m, CHILD, FORKED[8].op);
    EventIsQuiet(m.world, CHILD, FORKED[8].op);
    hide Advance;
    assert SameRun(m.world, Next(m.world, CHILD, FORKED[8].op).world, 0);
  }

  lemma NextCall(m: Machine, n: nat)
    requires n < 8 && Reached(m, n)
    ensures WellNested(m, FORKED[n].task, FORKED[n].op) && Reached(Advance(m, FORKED[n].task, FORKED[n].op), n + 1)
  {
    hide Reached, Advance;
    match n
    case 0 => RunIsMade(m);
    case 1 => RunBegins(m);
    case 2 => TurnIsMade(m);
    case 3 => TurnBegins(m);
    case 4 => ToolIsMade(m);
    case 5 => ChildIsForked(m);
    case 6 => ChildEnters(m);
    case _ => TurnEnds(m);
  }

  // The child has left its tool block, and the turn is that of a run that records.
  ghost predicate Left(m: Machine) {
    && Entered(m.world, 0) && m.world.states[0].owner == 0 && CanEmit(m.world.runs[0])
    && CHILD in m.stacks && m.stacks[CHILD] == []
  }

  // The rest of the schedule is well nested and ends so, with an exit that does not fit.
  ghost predicate EndsUnfit(m: Machine, calls: seq<Call>) {
    Disciplined(m, calls) && !ExitsFit(m, calls, 0, CHILD) && Left(AdvanceAll(m, calls))
  }

  lemma OneMore(m: Machine, calls: seq<Call>)
    requires calls != [] && WellNested(m, calls[0].task, calls[0].op)
    requires EndsUnfit(Advance(m, calls[0].task, calls[0].op), calls[1..])
    ensures EndsUnfit(m, calls)
  {
    hide Advance, WellNested, ExitFits, Left;
  }

  lemma LastOne(m: Machine, calls: seq<Call>)
    requires |calls| == 1 && WellNested(m, calls[0].task, calls[0].op) && !ExitFits(m.world, calls[0], 0, CHILD)
    requires Left(Advance(m, calls[0].task, calls[0].op))
    ensures EndsUnfit(m, calls)
  {
    hide Advance, WellNested, ExitFits, Left;
    var m' := Advance(m, calls[0].task, calls[0].op);
    assert calls[1..] == [];
    assert Disciplined(m', []) && AdvanceAll(m', []) == m';
  }

  lemma {:induction false} RestRuns(m: Machine, n: nat)
    requires n <= 8 && Reached(m, n)
    ensures EndsUnfit(m, FORKED[n..])
    decreases 8 - n
  {
    hide Reached, Advance, WellNested, ExitFits, EndsUnfit, Left;
    assert FORKED[n..][0] == FORKED[n] && FORKED[n..][1..] == FORKED[n + 1..];
    if n < 8 {
      NextCall(m, n);
      RestRuns(Advance(m, FORKED[n].task, FORKED[n].op), n + 1);
      OneMore(m, FORKED[n..]);
    } else {
      ChildExits(m);
      LastOne(m, FORKED[8..]);
    }
  }

  /** Every call of the schedule is well nested and every result event valid, and yet the child's tool
      events are not balanced, though it has left its tool block: the exit of the tool raised. */
  lemma ForkedChildLosesResult()
    ensures Disciplined(Start(CLIENT, PARENT), FORKED)
    ensures ResultsValid(FORKED)
    ensures var m := AdvanceAll(Start(CLIENT, PARENT), FORKED);
            && Entered(m.world, 0) && CHILD in m.stacks && m.stacks[CHILD] == []
            && Reduce(ToolWord(EventsIn(m.world, m.world.states[0].owner), m.world.tools, 0, CHILD)) != Some([])
  {
    hide Reached, Reduce, ToolWord, EventsIn, Disciplined, AdvanceAll, ExitsFit, Start, ResultsValid, WellNested;
    StartIsReached();
    ResultsAreValid();
    AllCallsAre(FORKED);
    RestRuns(Start(CLIENT, PARENT), 0);
    UnfitIsUnbalanced(FORKED);
  }

  lemma StartIsReached()
    ensures Reached(Start(CLIENT, PARENT), 0)
  {
  }

  lemma ResultsAreValid()
    ensures ResultsValid(FORKED)
  {
  }

  predicate ResultsValid(calls: seq<Call>) {
    forall i :: 0 <= i < |calls| && calls[i].op.EndTool? ==> calls[i].op.valid
  }

  lemma AllCallsAre(calls: seq<Call>)
    ensures calls[0..] == calls
  {
  }

  lemma UnfitIsUnbalanced(calls: seq<Call>)
    requires EndsUnfit(Start(CLIENT, PARENT), calls)
    ensures var m := AdvanceAll(Start(CLIENT, PARENT), calls);
            Reduce(ToolWord(EventsIn(m.world, m.world.states[0].owner), m.world.tools, 0, CHILD)) != Some([])
  {
    hide Reduce, ToolWord, EventsIn, Disciplined, AdvanceAll, ExitsFit, ExitsValid, Start;
    ClosedToolsAreBalanced(CLIENT, PARENT, calls, 0, CHILD);
  }
}
