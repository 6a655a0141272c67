/** When the tool events of a turn are balanced, in terms of the calls that tasks make. */
module CaptureExits {
  import opened Options
  import opened CaptureRecords
  import opened CaptureWorld
  import opened CaptureNesting
  import opened CaptureBrackets

  // ---- The exits that decide ----

  // Task t closes a tool of turn k.
  predicate ClosesToolOf(tools: map<ToolKey, Tool>, c: Call, k: TurnKey, t: TaskKey) {
    c.task == t && c.op.EndTool? && c.op.tool in tools && tools[c.op.tool].turn == k
  }

  // The result event is valid, and the turn unfinished when the tool is closed.
  predicate ExitFits(w: World, c: Call, k: TurnKey, t: TaskKey) {
    ClosesToolOf(w.tools, c, k, t) ==> c.op.valid && Unfinished(w, k)
  }

  predicate ExitsFit(m: Machine, calls: seq<Call>, k: TurnKey, t: TaskKey)
    requires Disciplined(m, calls)
    decreases |calls|
  {
    calls == []
    || (ExitFits(m.world, calls[0], k, t) && ExitsFit(Advance(m, calls[0].task, calls[0].op), calls[1..], k, t))
  }

  // The result events of all those exits are valid.
  predicate ExitsValid(calls: seq<Call>, tools: map<ToolKey, Tool>, k: TurnKey, t: TaskKey) {
    forall i :: 0 <= i < |calls| && ClosesToolOf(tools, calls[i], k, t) ==> calls[i].op.valid
  }

  // ---- A tool is lost exactly by an exit that does not fit ----

  lemma LostByExit(m: Machine, c: Call, k: TurnKey, t: TaskKey)
    requires Bracketed(m) && WellNested(m, c.task, c.op)
    ensures NoneLost(Advance(m, c.task, c.op), k, t) <==> NoneLost(m, k, t) && ExitFits(m.world, c, k, t)
  {
    LostAreEntered(m);
    assert Nested(m);
    hide Bracketed, Nested, Next;
    NextToolsStable(m.world, c.task, c.op);
    if c.op.EndTool? {
      TopTool(m, c.task, c.op);
      ToolExitIsExact(m, c.task, c.op);
      hide WellNested, Unfinished, TurnActive;
      EndLoses(m, c, k, t);
    } else {
      OthersLoseNone(m, c, k, t);
    }
  }

  lemma OthersLoseNone(m: Machine, c: Call, k: TurnKey, t: TaskKey)
    requires WellNested(m, c.task, c.op) && !c.op.EndTool?
    requires ToolsStable(m.world.tools, Next(m.world, c.task, c.op).world.tools)
    requires forall l :: l in m.lost ==> l in m.world.tools && m.world.tools[l].entered
    ensures NoneLost(Advance(m, c.task, c.op), k, t) <==> NoneLost(m, k, t)
  {
    hide Next;
    assert Advance(m, c.task, c.op).lost == m.lost;
    assert Advance(m, c.task, c.op).world == Next(m.world, c.task, c.op).world;
  }

  lemma EndLoses(m: Machine, c: Call, k: TurnKey, t: TaskKey)
    requires WellNested(m, c.task, c.op) && c.op.EndTool?
    requires ToolsStable(m.world.tools, Next(m.world, c.task, c.op).world.tools)
    requires forall l :: l in m.lost ==> l in m.world.tools && m.world.tools[l].entered
    requires c.op.tool in m.world.tools && m.world.tools[c.op.tool].entered && m.world.tools[c.op.tool].task == c.task
    requires Next(m.world, c.task, c.op).result == Done <==>
               c.op.valid && Unfinished(m.world, m.world.tools[c.op.tool].turn)
    ensures NoneLost(Advance(m, c.task, c.op), k, t) <==> NoneLost(m, k, t) && ExitFits(m.world, c, k, t)
  {
    hide Next, Unfinished;
    EndAdvances(m, c.task, c.op);
    var m' := Advance(m, c.task, c.op);
    var l := c.op.tool;
    assert m'.lost == if Next(m.world, c.task, c.op).result != Done then m.lost + {l} else m.lost;
    hide Advance, WellNested;
    assert l in m'.world.tools && m'.world.tools[l].turn == m.world.tools[l].turn && m'.world.tools[l].task == c.task;
  }

  lemma {:induction false} LostByExits(m: Machine, calls: seq<Call>, k: TurnKey, t: TaskKey)
    requires Bracketed(m) && Disciplined(m, calls)
    ensures NoneLost(AdvanceAll(m, calls), k, t) <==> NoneLost(m, k, t) && ExitsFit(m, calls, k, t)
    decreases |calls|
  {
    hide Bracketed, Advance, NoneLost, ExitFits;
    if calls != [] {
      AdvanceKeepsBracketed(m, calls[0].task, calls[0].op);
      LostByExit(m, calls[0], k, t);
      LostByExits(Advance(m, calls[0].task, calls[0].op), calls[1..], k, t);
    }
  }

  // ---- A task that began with no active turn: only validity decides ----

  lemma BaseStays(m: Machine, c: Call, t: TaskKey)
    requires Nested(m) && WellNested(m, c.task, c.op) && t in m.bases && t in m.stacks
    ensures var m' := Advance(m, c.task, c.op); t in m'.bases && m'.bases[t] == m.bases[t] && t in m'.stacks
  {
    assert m.stacks.Keys == m.world.tasks.Keys;
    if c.op.Fork? && Next(m.world, c.task, c.op).result == Done {
      ForkIsFresh(m.world, c.task, c.op);
    }
    hide Next, Nested;
  }

  lemma {:induction false} BaseStaysAll(m: Machine, calls: seq<Call>, t: TaskKey)
    requires Nested(m) && Disciplined(m, calls) && t in m.stacks
    ensures t in m.bases && t in AdvanceAll(m, calls).bases && AdvanceAll(m, calls).bases[t] == m.bases[t]
    ensures t in AdvanceAll(m, calls).stacks
    decreases |calls|
  {
    FramesAreKnown(m, t);
    hide Nested, Advance, WellNested;
    if calls != [] {
      var c := calls[0];
      BaseStays(m, c, t);
      AdvanceKeepsNested(m, c.task, c.op);
      BaseStaysAll(Advance(m, c.task, c.op), calls[1..], t);
    }
  }

  lemma {:induction false} ToolsStayAll(m: Machine, calls: seq<Call>, l: ToolKey)
    requires Disciplined(m, calls) && l in m.world.tools
    ensures var tools := AdvanceAll(m, calls).world.tools; l in tools && tools[l].turn == m.world.tools[l].turn
    decreases |calls|
  {
    hide Next;
    if calls != [] {
      NextToolsStable(m.world, calls[0].task, calls[0].op);
      ToolsStayAll(Advance(m, calls[0].task, calls[0].op), calls[1..], l);
    }
  }

  lemma {:induction false} FitIsValid(m: Machine, calls: seq<Call>, k: TurnKey, t: TaskKey)
    requires Nested(m) && Disciplined(m, calls)
    requires var end := AdvanceAll(m, calls); t in end.bases && end.bases[t].turn.None?
    ensures ExitsFit(m, calls, k, t) <==> ExitsValid(calls, AdvanceAll(m, calls).world.tools, k, t)
    decreases |calls|
  {
    if calls != [] {
      var c := calls[0];
      var m' := Advance(m, c.task, c.op);
      var tools := AdvanceAll(m, calls).world.tools;
      AdvanceKeepsNested(m, c.task, c.op);
      FitIsValid(m', calls[1..], k, t);
      FirstIsValid(m, calls, k, t);
      hide Nested, Advance, WellNested, ExitFits, ClosesToolOf;
      ValidSplits(calls, tools, k, t);
    }
  }

  lemma ValidSplits(calls: seq<Call>, tools: map<ToolKey, Tool>, k: TurnKey, t: TaskKey)
    requires calls != []
    ensures ExitsValid(calls, tools, k, t) <==>
              (ClosesToolOf(tools, calls[0], k, t) ==> calls[0].op.valid) && ExitsValid(calls[1..], tools, k, t)
  {
    assert forall i :: 0 <= i < |calls| - 1 ==> calls[1..][i] == calls[i + 1];
    if ExitsValid(calls[1..], tools, k, t) {
      forall i | 1 <= i < |calls| && calls[i].op.EndTool? && ClosesToolOf(tools, calls[i], k, t)
          ensures calls[i].op.valid {
        assert calls[i] == calls[1..][i - 1];
      }
    }
  }

  lemma FirstIsValid(m: Machine, calls: seq<Call>, k: TurnKey, t: TaskKey)
    requires Nested(m) && Disciplined(m, calls) && calls != []
    requires var end := AdvanceAll(m, calls); t in end.bases && end.bases[t].turn.None?
    ensures ExitFits(m.world, calls[0], k, t) <==>
              (ClosesToolOf(AdvanceAll(m, calls).world.tools, calls[0], k, t) ==> calls[0].op.valid)
  {
    var c := calls[0];
    if c.task == t && c.op.EndTool? {
      TopTool(m, t, c.op);
      BaseStaysAll(m, calls, t);
      OwnTurnIsUnfinished(m, t, c.op);
      ToolsStayAll(m, calls, c.op.tool);
    }
    hide Nested, AdvanceAll, Unfinished;
  }

  // ---- Theorems ----

  /** In every interleaving of well-nested tasks, the tool calls and results of task t on turn k, in the
      batches a sampled run attempts to emit (stored or not), form a bracket word whose open brackets are
      the tool blocks t has open on k, each result closing the call of the same context and call id, if
      and only if every time t closed a tool of k its result event was valid and k unfinished. */
  lemma ToolEventsAreBrackets(client: Client, task: TaskKey, calls: seq<Call>, k: TurnKey, t: TaskKey)
    requires Disciplined(Start(client, task), calls)
    requires var m := AdvanceAll(Start(client, task), calls);
             Entered(m.world, k) && t in m.stacks && CanEmit(m.world.runs[m.world.states[k].owner])
    ensures var m := AdvanceAll(Start(client, task), calls);
            Reduce(ToolWord(EventsIn(m.world, m.world.states[k].owner), m.world.tools, k, t))
              == Some(OpenTools(m.stacks[t], m.world.tools, k))
            <==> ExitsFit(Start(client, task), calls, k, t)
  {
    StartBracketed(client, task);
    DisciplinedBracketed(Start(client, task), calls);
    assert NoneLost(Start(client, task), k, t);
    hide Bracketed, AdvanceAll, Disciplined, Reduce, ToolWord, OpenTools, EventsIn, NoneLost;
    BracketsFollowLosses(AdvanceAll(Start(client, task), calls), k, t);
    LostByExits(Start(client, task), calls, k, t);
  }

  /** For a task that began with no active turn, as every task does that was not forked inside one, the
      turn is always unfinished: its tool events are brackets if and only if all the result events it
      offered were valid. */
  lemma OwnToolEventsAreBrackets(client: Client, task: TaskKey, calls: seq<Call>, k: TurnKey, t: TaskKey)
    requires Disciplined(Start(client, task), calls)
    requires var m := AdvanceAll(Start(client, task), calls);
             && Entered(m.world, k) && t in m.stacks && CanEmit(m.world.runs[m.world.states[k].owner])
             && t in m.bases && m.bases[t].turn.None?
    ensures var m := AdvanceAll(Start(client, task), calls);
            Reduce(ToolWord(EventsIn(m.world, m.world.states[k].owner), m.world.tools, k, t))
              == Some(OpenTools(m.stacks[t], m.world.tools, k))
            <==> ExitsValid(calls, m.world.tools, k, t)
  {
    StartNested(client, task);
    hide Nested, AdvanceAll, Disciplined, Reduce, ToolWord, OpenTools, EventsIn, ExitsFit;
    ToolEventsAreBrackets(client, task, calls, k, t);
    FitIsValid(Start(client, task), calls, k, t);
  }

  /** Once a task has left its tool blocks, the same conditions say when its tool events are balanced. */
  lemma ClosedToolsAreBalanced(client: Client, task: TaskKey, calls: seq<Call>, k: TurnKey, t: TaskKey)
    requires Disciplined(Start(client, task), calls)
    requires var m := AdvanceAll(Start(client, task), calls);
             && Entered(m.world, k) && t in m.stacks && CanEmit(m.world.runs[m.world.states[k].owner])
             && forall i :: 0 <= i < |m.stacks[t]| ==> !m.stacks[t][i].ToolFrame?
    ensures var m := AdvanceAll(Start(client, task), calls);
            var word := ToolWord(EventsIn(m.world, m.world.states[k].owner), m.world.tools, k, t);
            && (Reduce(word) == Some([]) <==> ExitsFit(Start(client, task), calls, k, t))
            && (t in m.bases && m.bases[t].turn.None? ==>
                  (Reduce(word) == Some([]) <==> ExitsValid(calls, m.world.tools, k, t)))
  {
    hide AdvanceAll, Disciplined, Reduce, ToolWord, EventsIn, ExitsFit, ExitsValid;
    var m := AdvanceAll(Start(client, task), calls);
    ToolEventsAreBrackets(client, task, calls, k, t);
    if t in m.bases && m.bases[t].turn.None? {
      OwnToolEventsAreBrackets(client, task, calls, k, t);
    }
    NothingOpen(m.stacks[t], m.world.tools, k);
  }
}
