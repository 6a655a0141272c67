/** Tasks that use the contexts through `with` blocks: a context is closed by the task that entered
    it, innermost first. Between those enters and exits any task may do anything, and enters may
    fail; tasks interleave freely and may fork with a copy of the context variables. */
module CaptureNesting {
  import opened Options
  import opened CaptureRecords
  import opened CaptureWorld
  import opened CaptureSteps
  import opened CaptureInvariants
  import opened CaptureLog

  datatype Frame = RunFrame(run: RunKey) | TurnFrame(turn: TurnKey) | ToolFrame(tool: ToolKey)

  // The open blocks of every task, outermost first, and the variables each task began with. lost
  // are the tools whose exit raised.
  datatype Machine = Machine(
    world: World, stacks: map<TaskKey, seq<Frame>>, bases: map<TaskKey, Vars>, lost: set<ToolKey>)

  predicate IsBegin(op: Op) {
    op.BeginRun? || op.BeginTurn? || op.BeginTool?
  }

  predicate IsEnd(op: Op) {
    op.EndRun? || op.EndTurn? || op.EndTool?
  }

  function FrameOf(op: Op): Frame
    requires IsBegin(op) || IsEnd(op)
  {
    match op
    case BeginRun(r, _) => RunFrame(r)
    case EndRun(r, _, _) => RunFrame(r)
    case BeginTurn(k, _, _) => TurnFrame(k)
    case EndTurn(k, _, _) => TurnFrame(k)
    case BeginTool(l, _, _) => ToolFrame(l)
    case EndTool(l, _, _, _) => ToolFrame(l)
  }

  // Only the innermost open block of the task is closed.
  predicate WellNested(m: Machine, task: TaskKey, op: Op) {
    && task in m.world.tasks && task in m.stacks
    && (IsEnd(op) ==> m.stacks[task] != [] && m.stacks[task][|m.stacks[task]| - 1] == FrameOf(op))
  }

  // A successful enter opens a block; an exit closes it even when it raises.
  function Advance(m: Machine, task: TaskKey, op: Op): Machine
    requires WellNested(m, task, op)
  {
    var s := Next(m.world, task, op);
    var stack := m.stacks[task];
    if IsBegin(op) && s.result == Done then m.(world := s.world, stacks := m.stacks[task := stack + [FrameOf(op)]])
    else if IsEnd(op) then
      Machine(s.world, m.stacks[task := stack[..|stack| - 1]], m.bases,
              if op.EndTool? && s.result != Done then m.lost + {op.tool} else m.lost)
    else if op.Fork? && s.result == Done then
      m.(world := s.world, stacks := m.stacks[op.child := []], bases := m.bases[op.child := m.world.tasks[task]])
    else m.(world := s.world)
  }

  function Start(client: Client, task: TaskKey): Machine {
    Machine(Initial(client, task), map[task := []], map[task := Vars(None, None)], {})
  }

  // ---- What the open blocks say about the context variables ----

  // The variables inside a block, given those around it.
  function Within(below: Vars, f: Frame): Vars {
    match f
    case RunFrame(r) => Vars(Some(r), None)
    case TurnFrame(k) => below.(turn := Some(k))
    case ToolFrame(_) => below
  }

  function Expected(base: Vars, stack: seq<Frame>): Vars {
    if stack == [] then base
    else Within(Expected(base, stack[..|stack| - 1]), stack[|stack| - 1])
  }

  // The context of an open block holds what it needs to restore the variables below it.
  predicate Held(w: World, t: TaskKey, below: Vars, f: Frame) {
    match f
    case RunFrame(r) =>
      && r in w.runs && w.runs[r].entered && w.runs[r].snapshot.Some?
      && w.runs[r].token == Some(Token(t, below.run)) && w.runs[r].turnToken == Some(Token(t, below.turn))
    case TurnFrame(k) =>
      && k in w.turns && w.turns[k].entered && k in w.states
      && w.turns[k].token == Some(Token(t, below.turn))
    case ToolFrame(l) =>
      && l in w.tools && w.tools[l].entered && !w.tools[l].closed && w.tools[l].task == t
      && below.turn == Some(w.tools[l].turn)
  }

  ghost predicate TaskNested(m: Machine, t: TaskKey) {
    && t in m.world.tasks && t in m.stacks && t in m.bases
    && StackNested(m.world, t, m.bases[t], m.stacks[t])
    && m.world.tasks[t] == Expected(m.bases[t], m.stacks[t])
  }

  ghost predicate StackNested(w: World, t: TaskKey, base: Vars, stack: seq<Frame>) {
    && (forall i {:trigger stack[i]} :: 0 <= i < |stack| ==> Held(w, t, Expected(base, stack[..i]), stack[i]))
    && (forall i, j :: 0 <= i < j < |stack| ==> stack[i] != stack[j])
  }

  predicate ToolsOrdered(w: World) {
    forall l :: l in w.tools ==>
      && (w.tools[l].closed ==> w.tools[l].entered)
      && (w.tools[l].entered ==> w.tools[l].task in w.tasks)
  }

  ghost predicate Nested(m: Machine) {
    && Inv(m.world) && ToolsOrdered(m.world)
    && (forall t {:trigger TaskNested(m, t)} :: t in m.world.tasks ==> TaskNested(m, t))
    && m.stacks.Keys == m.world.tasks.Keys
  }

  // ---- Steps that leave an open block's context alone ----

  // What Held reads of the context of f is the same in both worlds.
  predicate Unmoved(w: World, w': World, f: Frame) {
    match f
    case RunFrame(r) =>
      r in w.runs ==>
        && r in w'.runs && (w.runs[r].entered ==> w'.runs[r].entered)
        && (w.runs[r].snapshot.Some? ==> w'.runs[r].snapshot.Some?)
        && w'.runs[r].token == w.runs[r].token && w'.runs[r].turnToken == w.runs[r].turnToken
    case TurnFrame(k) =>
      && (k in w.states ==> k in w'.states)
      && (k in w.turns ==>
            k in w'.turns && (w.turns[k].entered ==> w'.turns[k].entered) && w'.turns[k].token == w.turns[k].token)
    case ToolFrame(l) =>
      l in w.tools ==>
            l in w'.tools && w'.tools[l].turn == w.tools[l].turn
            && (w.tools[l].entered ==> w'.tools[l] == w.tools[l])
  }

  lemma UnmovedKeepsHeld(w: World, w': World, t: TaskKey, below: Vars, f: Frame)
    requires Held(w, t, below, f) && Unmoved(w, w', f)
    ensures Held(w', t, below, f)
  {
  }

  // A run step moves only its own run, a turn step only its own turn, an event only its own tool.
  lemma RunStepMoves(w: World, task: TaskKey, key: RunKey, s: RunStep, f: Frame)
    requires f != RunFrame(key)
    ensures Unmoved(w, WithRun(w, task, key, s).world, f)
  {
  }

  lemma TurnStepMoves(w: World, task: TaskKey, key: TurnKey, s: TurnStep, f: Frame)
    requires f != TurnFrame(key) && s.turn.owner in w.runs
    requires s.run == w.runs[s.turn.owner].(turnSequence := s.run.turnSequence, latestTurn := s.run.latestTurn,
                                            captureFailed := s.run.captureFailed)
    ensures Unmoved(w, WithTurn(w, task, key, s).world, f)
  {
  }

  lemma EventMoves(w: World, task: TaskKey, op: Op, s: Step, f: Frame)
    requires Quiet(w, s.world) && ToolsMove(w, task, op, s)
    requires op.BeginTool? || op.EndTool? ==> f != ToolFrame(op.tool)
    ensures Unmoved(w, s.world, f)
  {
    hide ToolMoves;
    if f.RunFrame? && f.run in w.runs {
      assert SameRun(w, s.world, f.run);
    }
  }

  lemma SmallStepMoves(w: World, w': World, f: Frame)
    requires SmallKept(w, w')
    ensures Unmoved(w, w', f)
  {
  }

  lemma NothingMoves(w: World, f: Frame)
    ensures Unmoved(w, w, f)
  {
  }

  // An operation moves at most the context of its own frame.
  lemma NextMovesOwnFrame(w: World, task: TaskKey, op: Op, f: Frame)
    requires Linked(w)
    requires (IsBegin(op) || IsEnd(op)) ==> f != FrameOf(op)
    ensures Unmoved(w, Next(w, task, op).world, f)
  {
    hide Linked, Next, Unmoved, EnterRun, ExitRun, EnterTurn, ExitTurn, EntersRun, ExitsRun, Quiet, ToolsMove,
        SmallKept;
    if task !in w.tasks || !Finds(w, op) {
      NothingFound(w, task, op);
      NothingMoves(w, f);
    } else if op.BeginRun? {
      var s := RunBegun(w, task, op);
      RunStepMoves(w, task, op.run, s, f);
    } else if op.EndRun? {
      var s := RunEnded(w, task, op);
      RunStepMoves(w, task, op.run, s, f);
    } else if op.BeginTurn? {
      var s := TurnBegun(w, task, op);
      TurnStepMoves(w, task, op.turn, s, f);
    } else if op.EndTurn? {
      var s := TurnEnded(w, task, op);
      TurnStepMoves(w, task, op.turn, s, f);
    } else if IsEvent(op) {
      EventMovesTools(w, task, op);
      EventIsQuiet(w, task, op);
      EventMoves(w, task, op, Next(w, task, op), f);
    } else {
      SmallStepKeeps(w, task, op);
      SmallStepMoves(w, Next(w, task, op).world, f);
    }
  }

  // ---- Enters and exits ----

  lemma FailedBeginMovesNothing(w: World, task: TaskKey, op: Op)
    requires Linked(w) && IsBegin(op) && Next(w, task, op).result != Done
    ensures Unmoved(w, Next(w, task, op).world, FrameOf(op))
    ensures Next(w, task, op).world.tasks == w.tasks
  {
    hide Linked, Next, EnterRun, EnterTurn;
    if task !in w.tasks || !Finds(w, op) {
      NothingFound(w, task, op);
    } else if op.BeginRun? {
      var s := RunBegun(w, task, op);
      assert w.tasks[task := w.tasks[task]] == w.tasks;
      hide BeginsRun;
    } else if op.BeginTurn? {
      var s := TurnBegun(w, task, op);
      assert w.tasks[task := w.tasks[task]] == w.tasks;
    } else {
      EventMovesTools(w, task, op);
      EventIsQuiet(w, task, op);
    }
  }

  lemma BeginOpensBlock(w: World, task: TaskKey, op: Op)
    requires Linked(w) && ToolsOrdered(w) && task in w.tasks && IsBegin(op) && Next(w, task, op).result == Done
    ensures var w' := Next(w, task, op).world;
            && Held(w', task, w.tasks[task], FrameOf(op))
            && w'.tasks == w.tasks[task := Within(w.tasks[task], FrameOf(op))]
    ensures forall t, below :: !Held(w, t, below, FrameOf(op))
  {
    hide Linked, Next, EnterRun, EnterTurn;
    if !Finds(w, op) {
      NothingFound(w, task, op);
      assert false;
    }
    if op.BeginRun? {
      var s := RunBegun(w, task, op);
    } else if op.BeginTurn? {
      var s := TurnBegun(w, task, op);
    } else {
      ToolBlockOpens(w, task, op);
    }
  }

  lemma ToolBlockOpens(w: World, task: TaskKey, op: Op)
    requires ToolsOrdered(w) && task in w.tasks && op.BeginTool? && Next(w, task, op).result == Done
    ensures var w' := Next(w, task, op).world;
            && Held(w', task, w.tasks[task], FrameOf(op))
            && w'.tasks == w.tasks[task := Within(w.tasks[task], FrameOf(op))]
    ensures forall t, below :: !Held(w, t, below, FrameOf(op))
  {
    hide Next;
    EventMovesTools(w, task, op);
    DoneToolIsActive(w, task, op);
    assert Next(w, task, op).world.tasks == w.tasks by {
      EventIsQuiet(w, task, op);
      QuietTasks(w, Next(w, task, op).world);
    }
    hide ToolMoves;
    assert ToolMoves(w, task, op, Next(w, task, op));
    DoneBeginMarks(w, task, op, Next(w, task, op));
    assert w.tasks[task := w.tasks[task]] == w.tasks;
  }

  lemma DoneBeginMarks(w: World, task: TaskKey, op: Op, s: Step)
    requires op.BeginTool? && op.tool in w.tools && op.tool in s.world.tools && ToolMoves(w, task, op, s)
               && s.result == Done
    ensures !w.tools[op.tool].entered && s.world.tools[op.tool] == w.tools[op.tool].(entered := true, task := task)
  {
  }

  lemma DoneToolIsActive(w: World, task: TaskKey, op: Op)
    requires task in w.tasks && op.BeginTool? && Next(w, task, op).result == Done
    ensures op.tool in w.tools && w.tasks[task].turn == Some(w.tools[op.tool].turn)
  {
    EventNext(w, task, op);
    hide Next;
    EffectTools(w, EventOf(w, task, w.tasks[task], op));
    hide Effected, Record;
  }

  /** Closing the innermost block always finds the context as it was entered: a run or a turn is
      closed without error, and in particular never with a turn still active; and the variables
      around the block come back. */
  lemma EndClosesBlock(w: World, task: TaskKey, op: Op, below: Vars)
    requires Linked(w) && task in w.tasks && IsEnd(op)
    requires Held(w, task, below, FrameOf(op)) && w.tasks[task] == Within(below, FrameOf(op))
    ensures Next(w, task, op).world.tasks == w.tasks[task := below]
    ensures op.EndRun? || op.EndTurn? ==> Next(w, task, op).result == Done
    ensures op.EndTool? ==>
              var k := w.tools[op.tool].turn;
              k in w.turns && (Next(w, task, op).result == Done <==> op.valid && TurnActive(k, w.turns[k], below))
  {
    hide Next, ExitRun, ExitTurn, Linked;
    if op.EndTool? {
      ToolExitStep(w, task, op, below);
      EventIsQuiet(w, task, op);
      assert w.tasks[task := below] == w.tasks;
    } else if op.EndTurn? {
      assert TurnLinked(w, op.turn) && StateLinked(w, op.turn) by { EnteredIsLinked(w, op.turn); }
      var s := TurnEnded(w, task, op);
    } else {
      var s := RunEnded(w, task, op);
    }
  }

  lemma EnteredIsLinked(w: World, k: TurnKey)
    requires Linked(w) && k in w.states
    ensures TurnLinked(w, k) && StateLinked(w, k)
  {
    assert StateLinked(w, k) && TurnLinked(w, k);
  }

  lemma OtherOpsKeepVars(w: World, task: TaskKey, op: Op)
    requires !IsBegin(op) && !IsEnd(op)
    ensures forall t :: t in w.tasks ==>
              t in Next(w, task, op).world.tasks && Next(w, task, op).world.tasks[t] == w.tasks[t]
    ensures !op.Fork? || Next(w, task, op).result != Done ==> Next(w, task, op).world.tasks == w.tasks
  {
    hide Next, Quiet, SmallKept;
    if IsEvent(op) {
      EventIsQuiet(w, task, op);
      assert Next(w, task, op).world.tasks == w.tasks by { QuietTasks(w, Next(w, task, op).world); }
    } else {
      SmallStepKeeps(w, task, op);
    }
  }

  lemma QuietTasks(w: World, w': World)
    requires Quiet(w, w')
    ensures w'.tasks == w.tasks
  {
  }

  lemma NextKeepsToolsOrdered(w: World, task: TaskKey, op: Op)
    requires ToolsOrdered(w)
    ensures ToolsOrdered(Next(w, task, op).world)
  {
    NextKeepsTasks(w, task, op);
    hide Next, EnterRun, ExitRun, EnterTurn, ExitTurn, EntersRun, ExitsRun, EntersTurn, ExitsTurn;
    if task !in w.tasks || !Finds(w, op) {
      NothingFound(w, task, op);
    } else if op.BeginRun? {
      var s := RunBegun(w, task, op);
    } else if op.EndRun? {
      var s := RunEnded(w, task, op);
    } else if op.BeginTurn? {
      var s := TurnBegun(w, task, op);
    } else if op.EndTurn? {
      var s := TurnEnded(w, task, op);
    } else if IsEvent(op) {
      EventMovesTools(w, task, op);
      EventIsQuiet(w, task, op);
    } else {
      SmallStepKeeps(w, task, op);
    }
  }

  lemma NextKeepsTasks(w: World, task: TaskKey, op: Op)
    ensures w.tasks.Keys <= Next(w, task, op).world.tasks.Keys
  {
    hide Next, EnterRun, ExitRun, EnterTurn, ExitTurn, EntersRun, ExitsRun, EntersTurn, ExitsTurn;
    if task !in w.tasks || !Finds(w, op) {
      NothingFound(w, task, op);
    } else if op.BeginRun? {
      var s := RunBegun(w, task, op);
    } else if op.EndRun? {
      var s := RunEnded(w, task, op);
    } else if op.BeginTurn? {
      var s := TurnBegun(w, task, op);
    } else if op.EndTurn? {
      var s := TurnEnded(w, task, op);
    } else if IsEvent(op) {
      EventIsQuiet(w, task, op);
    } else {
      SmallStepKeeps(w, task, op);
    }
  }

  // ---- The discipline is kept by every step of every task ----

  lemma StackKept(w: World, w': World, t: TaskKey, base: Vars, stack: seq<Frame>)
    requires StackNested(w, t, base, stack)
    requires forall i :: 0 <= i < |stack| ==> Unmoved(w, w', stack[i])
    ensures StackNested(w', t, base, stack)
  {
    forall i | 0 <= i < |stack| ensures Held(w', t, Expected(base, stack[..i]), stack[i]) {
      UnmovedKeepsHeld(w, w', t, Expected(base, stack[..i]), stack[i]);
    }
  }

  lemma StackPushed(w: World, t: TaskKey, base: Vars, stack: seq<Frame>, f: Frame)
    requires StackNested(w, t, base, stack) && Held(w, t, Expected(base, stack), f) && f !in stack
    ensures StackNested(w, t, base, stack + [f])
    ensures Expected(base, stack + [f]) == Within(Expected(base, stack), f)
  {
    var grown := stack + [f];
    assert grown[..|stack|] == stack;
    forall i | 0 <= i < |grown| ensures Held(w, t, Expected(base, grown[..i]), grown[i]) {
      if i < |stack| {
        assert grown[..i] == stack[..i];
      }
    }
  }

  lemma StackPopped(w: World, t: TaskKey, base: Vars, stack: seq<Frame>)
    requires StackNested(w, t, base, stack) && stack != []
    ensures var n := |stack| - 1;
            && StackNested(w, t, base, stack[..n])
            && Held(w, t, Expected(base, stack[..n]), stack[n])
            && stack[n] !in stack[..n]
  {
    var n := |stack| - 1;
    forall i | 0 <= i < n ensures Held(w, t, Expected(base, stack[..n][..i]), stack[..n][i]) {
      assert stack[..n][..i] == stack[..i];
    }
  }

  // After an exit by `task`, whose innermost block held `f`, every other block of any stack is still held.
  lemma StackAfterEnd(w: World, task: TaskKey, op: Op, below: Vars, t: TaskKey, base: Vars, stack: seq<Frame>)
    requires Linked(w) && IsEnd(op) && Held(w, task, below, FrameOf(op))
    requires StackNested(w, t, base, stack) && (t == task ==> FrameOf(op) !in stack)
    ensures StackNested(Next(w, task, op).world, t, base, stack)
  {
    hide Next, Linked;
    var w' := Next(w, task, op).world;
    forall i | 0 <= i < |stack| ensures Unmoved(w, w', stack[i]) {
      assert Held(w, t, Expected(base, stack[..i]), stack[i]);
      assert stack[i] == FrameOf(op) ==> t == task;
      NextMovesOwnFrame(w, task, op, stack[i]);
    }
    hide Held, Unmoved;
    StackKept(w, w', t, base, stack);
  }

  // After any other operation every block is still held.
  lemma StackAfterOther(w: World, task: TaskKey, op: Op, t: TaskKey, base: Vars, stack: seq<Frame>)
    requires Linked(w) && ToolsOrdered(w) && task in w.tasks && !IsEnd(op) && StackNested(w, t, base, stack)
    ensures StackNested(Next(w, task, op).world, t, base, stack)
    ensures IsBegin(op) && Next(w, task, op).result == Done ==> FrameOf(op) !in stack
  {
    hide Next, Linked;
    var w' := Next(w, task, op).world;
    forall i | 0 <= i < |stack|
      ensures Unmoved(w, w', stack[i])
      ensures IsBegin(op) && Next(w, task, op).result == Done ==> stack[i] != FrameOf(op)
    {
      assert Held(w, t, Expected(base, stack[..i]), stack[i]);
      if IsBegin(op) {
        if Next(w, task, op).result == Done {
          BeginOpensBlock(w, task, op);
        } else {
          FailedBeginMovesNothing(w, task, op);
        }
      }
      if !IsBegin(op) || stack[i] != FrameOf(op) {
        NextMovesOwnFrame(w, task, op, stack[i]);
      }
    }
    hide Held, Unmoved;
    StackKept(w, w', t, base, stack);
  }

  lemma EndAdvances(m: Machine, task: TaskKey, op: Op)
    requires WellNested(m, task, op) && IsEnd(op)
    ensures var m' := Advance(m, task, op);
            && m'.world == Next(m.world, task, op).world && m'.bases == m.bases
            && m'.stacks == m.stacks[task := m.stacks[task][..|m.stacks[task]| - 1]]
  {
    hide Next;
  }

  // The innermost block of a task, and what lies below it.
  lemma TopBlock(m: Machine, task: TaskKey, op: Op) returns (below: Vars)
    requires TaskNested(m, task) && WellNested(m, task, op) && IsEnd(op)
    ensures var rest := m.stacks[task][..|m.stacks[task]| - 1];
            && below == Expected(m.bases[task], rest)
            && StackNested(m.world, task, m.bases[task], rest) && FrameOf(op) !in rest
            && Held(m.world, task, below, FrameOf(op)) && m.world.tasks[task] == Within(below, FrameOf(op))
  {
    below := Expected(m.bases[task], m.stacks[task][..|m.stacks[task]| - 1]);
    StackPopped(m.world, task, m.bases[task], m.stacks[task]);
  }

  lemma EndKeepsTask(m: Machine, task: TaskKey, op: Op, t: TaskKey)
    requires Nested(m) && WellNested(m, task, op) && t in m.world.tasks && IsEnd(op)
    ensures TaskNested(Advance(m, task, op), t)
  {
    assert TaskNested(m, t) && TaskNested(m, task);
    assert Linked(m.world);
    EndAdvances(m, task, op);
    hide Nested, Next, Linked, Advance;
    var below := TopBlock(m, task, op);
    hide Held, StackNested, Expected, Within;
    EndClosesBlock(m.world, task, op, below);
    var rest := m.stacks[task][..|m.stacks[task]| - 1];
    hide WellNested, FrameOf, IsEnd;
    if t == task {
      StackAfterEnd(m.world, task, op, below, t, m.bases[t], rest);
    } else {
      StackAfterEnd(m.world, task, op, below, t, m.bases[t], m.stacks[t]);
    }
    EndedTaskNested(m, Advance(m, task, op), task, t, below, rest);
  }

  lemma EndedTaskNested(m: Machine, m': Machine, task: TaskKey, t: TaskKey, below: Vars, rest: seq<Frame>)
    requires TaskNested(m, t) && task in m.bases && m'.bases == m.bases
    requires m'.stacks == m.stacks[task := rest] && m'.world.tasks == m.world.tasks[task := below]
    requires below == Expected(m.bases[task], rest)
    requires StackNested(m'.world, t, m.bases[t], if t == task then rest else m.stacks[t])
    ensures TaskNested(m', t)
  {
    hide StackNested, Expected;
  }

  lemma BeginAdvances(m: Machine, task: TaskKey, op: Op)
    requires WellNested(m, task, op) && IsBegin(op)
    ensures var m', s := Advance(m, task, op), Next(m.world, task, op);
            && m'.world == s.world && m'.bases == m.bases && m'.lost == m.lost
            && m'.stacks == if s.result == Done then m.stacks[task := m.stacks[task] + [FrameOf(op)]] else m.stacks
  {
    hide Next;
  }

  lemma BeginKeepsTask(m: Machine, task: TaskKey, op: Op, t: TaskKey)
    requires Nested(m) && WellNested(m, task, op) && t in m.world.tasks && IsBegin(op)
    ensures TaskNested(Advance(m, task, op), t)
  {
    NestedTask(m, t);
    NestedTask(m, task);
    BeginAdvances(m, task, op);
    hide Nested, Next, Linked, ToolsOrdered, Advance, TaskNested;
    if Next(m.world, task, op).result == Done {
      DoneBeginKeepsTask(m, Advance(m, task, op), task, op, t);
    } else {
      FailedBeginKeepsTask(m, Advance(m, task, op), task, op, t);
    }
  }

  lemma NestedTask(m: Machine, t: TaskKey)
    requires Nested(m) && t in m.world.tasks
    ensures TaskNested(m, t) && Linked(m.world) && ToolsOrdered(m.world) && t in m.stacks && t in m.bases
  {
    assert TaskNested(m, t);
    hide Linked, ToolsOrdered, StackNested, Expected;
  }

  lemma FailedBeginKeepsTask(m: Machine, m': Machine, task: TaskKey, op: Op, t: TaskKey)
    requires TaskNested(m, t) && Linked(m.world) && ToolsOrdered(m.world) && task in m.world.tasks
    requires IsBegin(op) && Next(m.world, task, op).result != Done
    requires m'.world == Next(m.world, task, op).world && m'.bases == m.bases && m'.stacks == m.stacks
    ensures TaskNested(m', t)
  {
    hide Next, Linked, ToolsOrdered, Held, StackNested, Expected;
    StackAfterOther(m.world, task, op, t, m.bases[t], m.stacks[t]);
    FailedBeginMovesNothing(m.world, task, op);
  }

  lemma DoneBeginKeepsTask(m: Machine, m': Machine, task: TaskKey, op: Op, t: TaskKey)
    requires TaskNested(m, t) && TaskNested(m, task) && Linked(m.world) && ToolsOrdered(m.world)
    requires IsBegin(op) && Next(m.world, task, op).result == Done
    requires m'.world == Next(m.world, task, op).world && m'.bases == m.bases
    requires m'.stacks == m.stacks[task := m.stacks[task] + [FrameOf(op)]]
    ensures TaskNested(m', t)
  {
    hide Next, Linked, ToolsOrdered, Held, StackNested, Expected, Within, FrameOf;
    var f := FrameOf(op);
    StackAfterOther(m.world, task, op, t, m.bases[t], m.stacks[t]);
    BeginOpensBlock(m.world, task, op);
    hide IsBegin;
    if t == task {
      StackPushed(m'.world, t, m.bases[t], m.stacks[t], f);
    }
  }

  lemma OtherKeepsTask(m: Machine, task: TaskKey, op: Op, t: TaskKey)
    requires Nested(m) && WellNested(m, task, op) && t in m.world.tasks && !IsBegin(op) && !IsEnd(op)
    ensures TaskNested(Advance(m, task, op), t)
  {
    assert TaskNested(m, t);
    assert Linked(m.world) && ToolsOrdered(m.world);
    hide Nested, Next, StackNested, Expected;
    StackAfterOther(m.world, task, op, t, m.bases[t], m.stacks[t]);
    OtherOpsKeepVars(m.world, task, op);
    if op.Fork? && Next(m.world, task, op).result == Done {
      ForkIsFresh(m.world, task, op);
    }
  }

  lemma ForkIsFresh(w: World, task: TaskKey, op: Op)
    requires op.Fork? && Next(w, task, op).result == Done
    ensures task in w.tasks && op.child !in w.tasks
    ensures Next(w, task, op).world.tasks == w.tasks[op.child := w.tasks[task]]
    ensures Next(w, task, op).world.tools == w.tools
  {
  }

  /** Every step of every task keeps the discipline. */
  lemma AdvanceKeepsNested(m: Machine, task: TaskKey, op: Op)
    requires Nested(m) && WellNested(m, task, op)
    ensures Nested(Advance(m, task, op))
  {
    var m' := Advance(m, task, op);
    NextKeepsInv(m.world, task, op);
    NextKeepsToolsOrdered(m.world, task, op);
    AdvanceTasks(m, task, op);
    hide Inv, Next, StackNested, Expected;
    forall t | t in m'.world.tasks ensures TaskNested(m', t) {
      if t in m.world.tasks {
        if IsEnd(op) {
          EndKeepsTask(m, task, op, t);
        } else if IsBegin(op) {
          BeginKeepsTask(m, task, op, t);
        } else {
          OtherKeepsTask(m, task, op, t);
        }
      } else {
        ForkedNested(m, task, op, t);
      }
    }
  }

  // Tasks are only added, by forking.
  lemma AdvanceTasks(m: Machine, task: TaskKey, op: Op)
    requires Nested(m) && WellNested(m, task, op)
    ensures var m' := Advance(m, task, op);
            && m'.stacks.Keys == m'.world.tasks.Keys
            && (forall t :: t in m'.world.tasks && t !in m.world.tasks ==>
                  op.Fork? && op.child == t && Next(m.world, task, op).result == Done)
  {
    assert TaskNested(m, task) && Linked(m.world) && ToolsOrdered(m.world) && m.stacks.Keys == m.world.tasks.Keys;
    hide Nested, Next, StackNested, Linked, ToolsOrdered;
    if IsEnd(op) {
      EndAdvances(m, task, op);
      hide Advance;
      EndTasks(m, task, op);
    } else if IsBegin(op) {
      BeginAdvances(m, task, op);
      hide Advance;
      BeginTasks(m.world, task, op);
    } else {
      hide TaskNested;
      OtherTasks(m, task, op);
    }
  }

  lemma OtherTasks(m: Machine, task: TaskKey, op: Op)
    requires WellNested(m, task, op) && !IsEnd(op) && !IsBegin(op) && m.stacks.Keys == m.world.tasks.Keys
    ensures var m' := Advance(m, task, op);
            && m'.stacks.Keys == m'.world.tasks.Keys
            && (forall t :: t in m'.world.tasks && t !in m.world.tasks ==>
                  op.Fork? && op.child == t && Next(m.world, task, op).result == Done)
  {
    hide Next;
    OtherOpsKeepVars(m.world, task, op);
    if op.Fork? && Next(m.world, task, op).result == Done {
      ForkIsFresh(m.world, task, op);
    }
  }

  lemma EndTasks(m: Machine, task: TaskKey, op: Op)
    requires TaskNested(m, task) && Linked(m.world) && WellNested(m, task, op) && IsEnd(op)
    ensures Next(m.world, task, op).world.tasks.Keys == m.world.tasks.Keys
  {
    hide Next, Linked;
    var below := TopBlock(m, task, op);
    hide StackNested, Held, Expected, Within;
    EndClosesBlock(m.world, task, op, below);
  }

  lemma BeginTasks(w: World, task: TaskKey, op: Op)
    requires Linked(w) && ToolsOrdered(w) && task in w.tasks && IsBegin(op)
    ensures Next(w, task, op).world.tasks.Keys == w.tasks.Keys
  {
    hide Next, Linked, ToolsOrdered, Held, Within;
    if Next(w, task, op).result == Done {
      BeginOpensBlock(w, task, op);
    } else {
      FailedBeginMovesNothing(w, task, op);
    }
  }

  lemma ForkedNested(m: Machine, task: TaskKey, op: Op, t: TaskKey)
    requires WellNested(m, task, op) && op.Fork? && op.child == t && Next(m.world, task, op).result == Done
    ensures TaskNested(Advance(m, task, op), t)
  {
    ForkIsFresh(m.world, task, op);
  }

  // ---- Theorems ----

  // A schedule in which every exit is well nested.
  predicate Disciplined(m: Machine, calls: seq<Call>)
    decreases |calls|
  {
    calls == [] || (WellNested(m, calls[0].task, calls[0].op)
        && Disciplined(Advance(m, calls[0].task, calls[0].op), calls[1..]))
  }

  function AdvanceAll(m: Machine, calls: seq<Call>): Machine
    requires Disciplined(m, calls)
    decreases |calls|
  {
    if calls == [] then m else AdvanceAll(Advance(m, calls[0].task, calls[0].op), calls[1..])
  }

  lemma StartNested(client: Client, task: TaskKey)
    ensures Nested(Start(client, task))
  {
  }

  lemma {:induction false} DisciplinedNested(m: Machine, calls: seq<Call>)
    requires Nested(m) && Disciplined(m, calls)
    ensures Nested(AdvanceAll(m, calls))
    decreases |calls|
  {
    if calls != [] {
      AdvanceKeepsNested(m, calls[0].task, calls[0].op);
      DisciplinedNested(Advance(m, calls[0].task, calls[0].op), calls[1..]);
    }
  }

  /** In every interleaving of well-nested tasks, whatever fails or raises on the way, a task whose
      blocks have all ended has the active run and active turn it began with. */
  lemma BlocksRestoreContext(client: Client, task: TaskKey, calls: seq<Call>, t: TaskKey)
    requires Disciplined(Start(client, task), calls)
    requires var m := AdvanceAll(Start(client, task), calls); t in m.world.tasks && t in m.stacks && m.stacks[t] == []
    ensures var m := AdvanceAll(Start(client, task), calls);
            t in m.bases && m.world.tasks[t] == m.bases[t]
  {
    StartNested(client, task);
    DisciplinedNested(Start(client, task), calls);
    assert TaskNested(AdvanceAll(Start(client, task), calls), t);
  }

  // ---- When the exit of a tool succeeds ----

  // The turn of a tool block that is about to be closed.
  function ExitTurnOf(w: World, op: Op): Option<TurnKey> {
    if op.EndTool? && op.tool in w.tools then Some(w.tools[op.tool].turn) else None
  }

  predicate Unfinished(w: World, k: TurnKey) {
    k in w.states && w.states[k].turn.status == Unknown
  }

  lemma ToolExitStep(w: World, task: TaskKey, op: Op, below: Vars)
    requires Linked(w) && task in w.tasks && op.EndTool?
    requires Held(w, task, below, FrameOf(op)) && w.tasks[task] == below
    ensures op.tool in w.tools && w.tools[op.tool].turn in w.turns
    ensures var k := w.tools[op.tool].turn;
            && (Next(w, task, op).result == Done <==> op.valid && TurnActive(k, w.turns[k], w.tasks[task]))
            && (TurnActive(k, w.turns[k], w.tasks[task]) <==> Unfinished(w, k))
  {
    var k := w.tools[op.tool].turn;
    assert ToolLinked(w, op.tool);
    EnteredIsLinked(w, k);
    assert Entered(w, k);
    hide Linked, Next;
    EventNext(w, task, op);
    var state := w.states[k];
    ExitToolShape(op.tool, w.tools[op.tool], w.turns[k], state, w.runs[state.owner], w.tasks[task], w.channel, op.error,
                  op.valid, w.eventIds, op.sink);
    hide ExitTool;
    EffectTools(w, EventOf(w, task, w.tasks[task], op));
    hide Effected, TurnLinked, StateLinked;
  }

  /** The exit of a tool block succeeds exactly if its result event is valid and its turn is active,
      which it is exactly while it is unfinished. */
  lemma ToolExitIsExact(m: Machine, task: TaskKey, op: Op)
    requires Nested(m) && WellNested(m, task, op) && op.EndTool?
    ensures op.tool in m.world.tools && m.world.tools[op.tool].turn in m.world.turns
    ensures var k := m.world.tools[op.tool].turn;
            && (Next(m.world, task, op).result == Done <==>
                 op.valid && TurnActive(k, m.world.turns[k], m.world.tasks[task]))
            && (TurnActive(k, m.world.turns[k], m.world.tasks[task]) <==> Unfinished(m.world, k))
  {
    assert TaskNested(m, task) && Linked(m.world);
    hide Nested, Next, Linked, StackNested, Expected;
    var below := TopBlock(m, task, op);
    ToolExitStep(m.world, task, op, below);
  }

  // A turn that a task has active, but did not begin with, is one it entered.
  lemma {:induction false} ActiveTurnIsOnStack(base: Vars, stack: seq<Frame>, k: TurnKey)
    requires Expected(base, stack).turn == Some(k) && base.turn.None?
    ensures exists i :: 0 <= i < |stack| && stack[i] == TurnFrame(k)
  {
    var n := |stack| - 1;
    if stack[n] != TurnFrame(k) {
      ActiveTurnIsOnStack(base, stack[..n], k);
      var i :| 0 <= i < n && stack[..n][i] == TurnFrame(k);
      assert stack[i] == TurnFrame(k);
    }
  }

  lemma OwnTurnIsUnfinished(m: Machine, task: TaskKey, op: Op)
    requires Nested(m) && WellNested(m, task, op) && op.EndTool?
    requires task in m.bases && m.bases[task].turn.None?
    ensures op.tool in m.world.tools && Unfinished(m.world, m.world.tools[op.tool].turn)
  {
    assert TaskNested(m, task) && Linked(m.world);
    var w, stack, base := m.world, m.stacks[task], m.bases[task];
    var below := TopBlock(m, task, op);
    var k := w.tools[op.tool].turn;
    ActiveTurnIsOnStack(base, stack[..|stack| - 1], k);
    var i :| 0 <= i < |stack| - 1 && stack[..|stack| - 1][i] == TurnFrame(k);
    assert Held(w, task, Expected(base, stack[..i]), stack[i]);
    assert TurnLinked(w, k);
    hide Linked, StackNested, Expected;
  }

  /** For a task that began with no active turn, validity of the result event alone decides. */
  lemma OwnToolExitIsExact(m: Machine, task: TaskKey, op: Op)
    requires Nested(m) && WellNested(m, task, op) && op.EndTool?
    requires task in m.bases && m.bases[task].turn.None?
    ensures Next(m.world, task, op).result == Done <==> op.valid
  {
    hide Nested, Next, WellNested;
    ToolExitIsExact(m, task, op);
    OwnTurnIsUnfinished(m, task, op);
  }

  /** Under the discipline every block of a run or turn closes without error. A tool block does exactly
      if its result event is valid and its turn unfinished, and the latter is certain for a task that
      began with no active turn. */
  lemma BlocksCloseCleanly(m: Machine, task: TaskKey, op: Op)
    requires Nested(m) && WellNested(m, task, op) && IsEnd(op)
    ensures op.EndRun? || op.EndTurn? ==> Next(m.world, task, op).result == Done
    ensures op.EndTool? ==>
              && ExitTurnOf(m.world, op).Some?
              && (Next(m.world, task, op).result == Done <==>
                   op.valid && Unfinished(m.world, ExitTurnOf(m.world, op).value))
    ensures op.EndTool? && task in m.bases && m.bases[task].turn.None? ==>
              (Next(m.world, task, op).result == Done <==> op.valid)
  {
    assert TaskNested(m, task) && Linked(m.world);
    hide Nested, Next, StackNested, Linked, Expected;
    if op.EndTool? {
      ToolExitIsExact(m, task, op);
      if task in m.bases && m.bases[task].turn.None? {
        OwnToolExitIsExact(m, task, op);
      }
    } else {
      var below := TopBlock(m, task, op);
      EndClosesBlock(m.world, task, op, below);
    }
  }
}
