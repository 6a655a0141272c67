/** Tool events as brackets: in well-nested use, the tool calls and results that one task records on
    one turn form a balanced word, unless the exit of a tool raised. */
module CaptureBrackets {
  import opened Options
  import opened CaptureRecords
  import opened CaptureWorld
  import opened CaptureSteps
  import opened CaptureReplay
  import opened CaptureInvariants
  import opened CaptureLog
  import opened CaptureTheorems
  import opened CaptureNesting

  function EventsIn(w: World, r: RunKey): seq<CaptureRecords.Event> {
    Replay(AttemptsOf(w.channel.log, r)).events
  }

  // ---- One operation adds at most one event, and only to the run that owns its turn ----

  lemma AppendedEvents(log: seq<Attempt>, added: seq<Attempt>, owner: RunKey, r: RunKey)
    requires added == [] || (|added| == 1 && added[0].run == owner)
    ensures var events := Replay(AttemptsOf(log, r)).events;
            Replay(AttemptsOf(log + added, r)).events ==
              if added != [] && r == owner && added[0].batch.event.Some? then events + [added[0].batch.event.value]
                  else events
  {
    if added == [] {
      assert log + added == log;
    } else {
      assert added == [added[0]];
      AttemptsNext(log, added[0], r);
      if r == owner {
        ReplayNext(AttemptsOf(log, r), added[0]);
      } else {
        assert AttemptsOf(log, r) + [] == AttemptsOf(log, r);
      }
    }
  }

  // Operations that record no event leave every run's events as they were.
  lemma SilentOp(w: World, task: TaskKey, op: Op, r: RunKey)
    requires !IsEvent(op)
    ensures EventsIn(Next(w, task, op).world, r) == EventsIn(w, r)
  {
    var owner, added := SilentAttempts(w, task, op);
    hide Next;
    AppendedEvents(w.channel.log, added, owner, r);
  }

  // The log with at most one more attempt of a run, without an event.
  ghost predicate Silent(log: seq<Attempt>, log': seq<Attempt>, owner: RunKey, added: seq<Attempt>) {
    && log' == log + added
    && (added == [] || (|added| == 1 && added[0].run == owner && added[0].batch.event.None?))
  }

  lemma SilentStays(log: seq<Attempt>, owner: RunKey)
    ensures Silent(log, log, owner, [])
  {
    assert log + [] == log;
  }

  lemma SilentEmit(key: RunKey, run: Run, channel: Channel, turn: Option<TurnSnapshot>, sink: bool)
      returns (added: seq<Attempt>)
    ensures Silent(channel.log, Emit(key, run, channel, turn, None, None, sink).channel.log, key, added)
  {
    EmitChannel(key, run, channel, turn, None, None, sink);
    added := Added(key, run, turn, None, None, sink);
    hide Emit;
  }

  lemma SilentAttempts(w: World, task: TaskKey, op: Op) returns (owner: RunKey, added: seq<Attempt>)
    requires !IsEvent(op)
    ensures Silent(w.channel.log, Next(w, task, op).world.channel.log, owner, added)
  {
    hide Next, EnterRun, ExitRun, EnterTurn, ExitTurn, Silent, BeginsRun;
    owner, added := 0, [];
    SilentStays(w.channel.log, owner);
    if task !in w.tasks || !Finds(w, op) {
      NothingFound(w, task, op);
    } else if op.BeginRun? {
      var s := RunBegun(w, task, op);
      SilentStays(w.channel.log, op.run);
      owner := op.run;
      if s.result == Done {
        hide EntersRun, WithRun;
        var started := EnteredRunEmits(w.client, op.run, w.runs[op.run], ActiveRun(w, w.tasks[task]), task,
            w.tasks[task], w.channel, op.sink);
        added := SilentEmit(op.run, started, w.channel, None, op.sink);
        RunStepLog(w, task, op.run, s);
      }
    } else if op.EndRun? {
      var s := RunEnded(w, task, op);
      SilentStays(w.channel.log, op.run);
      owner := op.run;
      if s.result == Done {
        hide ExitsRun, WithRun;
        var closed := ClosedRunEmits(op.run, w.runs[op.run], task, w.tasks[task], w.channel, op.error, op.sink);
        added := SilentEmit(op.run, closed, w.channel, None, op.sink);
        RunStepLog(w, task, op.run, s);
      }
    } else if op.BeginTurn? {
      var s := TurnBegun(w, task, op);
      owner := w.turns[op.turn].owner;
      SilentStays(w.channel.log, owner);
      if s.result == Done {
        hide EntersTurn, WithTurn;
        var numbered, snapshot := EnteredTurnEmits(w.client, op.turn, w.turns[op.turn], w.runs[owner], task,
            w.tasks[task], w.channel, op.valid, op.sink);
        added := SilentEmit(owner, numbered, w.channel, Some(snapshot), op.sink);
        TurnStepLog(w, task, op.turn, s);
      }
    } else if op.EndTurn? {
      var s := TurnEnded(w, task, op);
      owner := w.turns[op.turn].owner;
      SilentStays(w.channel.log, owner);
      if s.result == Done {
        hide ExitsTurn, WithTurn;
        var snapshot := ClosedTurnEmits(w.client, w.turns[op.turn], w.states[op.turn], w.runs[owner], task,
            w.tasks[task], w.channel, op.error, op.sink);
        added := SilentEmit(owner, w.runs[owner], w.channel, Some(snapshot), op.sink);
        TurnStepLog(w, task, op.turn, s);
      }
    } else {
      SmallStepKeeps(w, task, op);
    }
  }

  lemma RunStepLog(w: World, task: TaskKey, key: RunKey, s: RunStep)
    ensures WithRun(w, task, key, s).world.channel == s.channel
  {
  }

  lemma TurnStepLog(w: World, task: TaskKey, key: TurnKey, s: TurnStep)
    ensures WithTurn(w, task, key, s).world.channel == s.channel
  {
  }

  // What an event operation adds to the events of a run.
  function NewEvents(w: World, k: TurnKey, draft: Draft, valid: bool, r: RunKey): seq<CaptureRecords.Event>
    requires Entered(w, k)
  {
    var state := w.states[k];
    if valid && r == state.owner && CanEmit(w.runs[r]) then
      [CaptureRecords.Event(w.eventIds, state.turn.turnId, state.nextEvent, w.runs[r].producerSequence, draft)]
    else []
  }

  lemma RecordedEvents(w: World, k: TurnKey, draft: Draft, valid: bool, sink: bool, r: RunKey)
    requires Entered(w, k)
    ensures var state := w.states[k];
            var s := Record(state, w.runs[state.owner], w.channel, draft, valid, w.eventIds, sink);
            Replay(AttemptsOf(s.channel.log, r)).events == EventsIn(w, r) + NewEvents(w, k, draft, valid, r)
  {
    var state := w.states[k];
    var run := w.runs[state.owner];
    var added: seq<Attempt> := [];
    assert w.channel.log + [] == w.channel.log;
    if valid {
      var event := CaptureRecords.Event(w.eventIds, state.turn.turnId, state.nextEvent, run.producerSequence, draft);
      var numbered := run.(producerSequence := run.producerSequence + 1);
      added := Added(state.owner, numbered, Some(state.turn), Some(event), draft.traceId, sink);
      EmitChannel(state.owner, numbered, w.channel, Some(state.turn), Some(event), draft.traceId, sink);
    }
    AppendedEvents(w.channel.log, added, state.owner, r);
  }

  // ---- Bracket words ----

  datatype Bracket = Bracket(tool: ToolKey, callId: Option<string>)

  // The tool events of turn k whose tool context was entered by task t.
  predicate OfWord(e: CaptureRecords.Event, tools: map<ToolKey, Tool>, k: TurnKey, t: TaskKey) {
    e.turnId == k && e.draft.tool.Some? && e.draft.tool.value in tools && tools[e.draft.tool.value].task == t
  }

  function ToolWord(events: seq<CaptureRecords.Event>, tools: map<ToolKey, Tool>, k: TurnKey,
      t: TaskKey): seq<CaptureRecords.Event> {
    if events == [] then []
    else
      var e := events[|events| - 1];
      ToolWord(events[..|events| - 1], tools, k, t) + if OfWord(e, tools, k, t) then [e] else []
  }

  function MarkOf(e: CaptureRecords.Event): Bracket
    requires e.draft.tool.Some?
  {
    Bracket(e.draft.tool.value, e.draft.callId)
  }

  // The brackets a word leaves open, or None if some result does not close the innermost open call.
  function Reduce(word: seq<CaptureRecords.Event>): Option<seq<Bracket>> {
    if word == [] then Some([])
    else
      var open := Reduce(word[..|word| - 1]);
      var e := word[|word| - 1];
      if open.None? || e.draft.tool.None? then None
      else if e.draft.kind == ToolCall then Some(open.value + [MarkOf(e)])
      else if open.value != [] && open.value[|open.value| - 1] == MarkOf(e) then Some(open.value[..|open.value| - 1])
      else None
  }

  // The open tool blocks of turn k on a stack.
  function OpenTools(stack: seq<Frame>, tools: map<ToolKey, Tool>, k: TurnKey): seq<Bracket> {
    if stack == [] then []
    else
      var f := stack[|stack| - 1];
      OpenTools(stack[..|stack| - 1], tools, k)
      + if f.ToolFrame? && f.tool in tools && tools[f.tool].turn == k
          then [Bracket(f.tool, Some(tools[f.tool].callId))] else []
  }

  lemma WordNext(events: seq<CaptureRecords.Event>, e: CaptureRecords.Event, tools: map<ToolKey, Tool>, k: TurnKey,
      t: TaskKey)
    ensures ToolWord(events + [e], tools, k, t) == ToolWord(events, tools, k, t) + if OfWord(e, tools, k, t) then [e]
              else []
  {
    assert (events + [e])[..|events|] == events;
  }

  lemma ReduceNext(word: seq<CaptureRecords.Event>, e: CaptureRecords.Event)
    requires e.draft.tool.Some?
    ensures Reduce(word + [e]) ==
              var open := Reduce(word);
              if open.None? then None
              else if e.draft.kind == ToolCall then Some(open.value + [MarkOf(e)])
              else if open.value != [] && open.value[|open.value| - 1] == MarkOf(e)
                  then Some(open.value[..|open.value| - 1])
              else None
  {
    assert (word + [e])[..|word|] == word;
  }

  lemma OpenNext(stack: seq<Frame>, f: Frame, tools: map<ToolKey, Tool>, k: TurnKey)
    ensures OpenTools(stack + [f], tools, k) == OpenTools(stack, tools, k)
            + if f.ToolFrame? && f.tool in tools && tools[f.tool].turn == k
                then [Bracket(f.tool, Some(tools[f.tool].callId))] else []
  {
    assert (stack + [f])[..|stack|] == stack;
  }

  // ---- Tool records that events and stacks refer to do not change in what matters here ----

  predicate ToolsStable(tools: map<ToolKey, Tool>, tools': map<ToolKey, Tool>) {
    forall l :: l in tools ==>
      && l in tools' && tools'[l].turn == tools[l].turn && tools'[l].callId == tools[l].callId
      && (tools[l].entered ==> tools'[l].entered && tools'[l].task == tools[l].task)
      && (tools[l].closed ==> tools'[l].closed)
  }

  lemma NextToolsStable(w: World, task: TaskKey, op: Op)
    ensures ToolsStable(w.tools, Next(w, task, op).world.tools)
  {
    hide Next, EnterRun, ExitRun, EnterTurn, ExitTurn, EntersRun, ExitsRun, EntersTurn, ExitsTurn, Quiet;
    if task !in w.tasks || !Finds(w, op) {
      NothingFound(w, task, op);
    } else if op.BeginRun? {
      var s := RunBegun(w, task, op);
    } else if op.EndRun? {
      var s := RunEnded(w, task, op);
    } else if op.BeginTurn? {
      var s := TurnBegun(w, task, op);
    } else if op.EndTurn? {
      var s := TurnEnded(w, task, op);
    } else if IsEvent(op) {
      EventMovesTools(w, task, op);
    } else {
      SmallStepKeeps(w, task, op);
    }
  }

  predicate ToolsSeen(events: seq<CaptureRecords.Event>, tools: map<ToolKey, Tool>) {
    forall i :: 0 <= i < |events| && events[i].draft.tool.Some? ==>
      var l := events[i].draft.tool.value;
      l in tools && tools[l].entered && events[i].turnId == tools[l].turn
  }

  lemma {:induction false} WordStable(events: seq<CaptureRecords.Event>, tools: map<ToolKey, Tool>,
      tools': map<ToolKey, Tool>, k: TurnKey, t: TaskKey)
    requires ToolsSeen(events, tools) && ToolsStable(tools, tools')
    ensures ToolWord(events, tools', k, t) == ToolWord(events, tools, k, t)
  {
    if events != [] {
      WordStable(events[..|events| - 1], tools, tools', k, t);
    }
  }

  predicate FramesKnown(stack: seq<Frame>, tools: map<ToolKey, Tool>) {
    forall i :: 0 <= i < |stack| && stack[i].ToolFrame? ==> stack[i].tool in tools
  }

  lemma {:induction false} OpenStable(stack: seq<Frame>, tools: map<ToolKey, Tool>, tools': map<ToolKey, Tool>,
      k: TurnKey)
    requires FramesKnown(stack, tools) && ToolsStable(tools, tools')
    ensures OpenTools(stack, tools', k) == OpenTools(stack, tools, k)
  {
    if stack != [] {
      OpenStable(stack[..|stack| - 1], tools, tools', k);
    }
  }

  // A tool whose call was recorded and whose result was not.
  ghost predicate Unmatched(events: seq<CaptureRecords.Event>, l: ToolKey) {
    && (exists i :: 0 <= i < |events| && events[i].draft.tool == Some(l))
    && (forall i :: 0 <= i < |events| && events[i].draft.tool == Some(l) ==> events[i].draft.kind == ToolCall)
  }

  // An unmatched call stays open in its word.
  lemma {:induction false} UnmatchedStaysOpen(events: seq<CaptureRecords.Event>, tools: map<ToolKey, Tool>, k: TurnKey,
      t: TaskKey, i: nat)
    requires i < |events| && OfWord(events[i], tools, k, t)
    requires forall j :: 0 <= j < |events| && events[j].draft.tool == events[i].draft.tool ==>
               events[j].draft.kind == ToolCall
    ensures var open := Reduce(ToolWord(events, tools, k, t)); open.Some? ==> MarkOf(events[i]) in open.value
  {
    var n := |events| - 1;
    var e := events[n];
    var word := ToolWord(events[..n], tools, k, t);
    assert events[..n] + [e] == events;
    WordNext(events[..n], e, tools, k, t);
    hide ToolWord, Reduce;
    if i < n {
      UnmatchedStaysOpen(events[..n], tools, k, t, i);
    }
    if OfWord(e, tools, k, t) {
      OpenStays(word, e, events[i], i == n);
    } else {
      assert word + [] == word;
    }
  }

  // A mark stays open when another event comes, unless that is its own result.
  lemma OpenStays(word: seq<CaptureRecords.Event>, e: CaptureRecords.Event, call: CaptureRecords.Event, last: bool)
    requires e.draft.tool.Some? && call.draft.tool.Some?
               && (e.draft.tool == call.draft.tool ==> e.draft.kind == ToolCall)
    requires if last then e == call else Reduce(word).Some? ==> MarkOf(call) in Reduce(word).value
    requires call.draft.kind == ToolCall
    ensures Reduce(word + [e]).Some? ==> MarkOf(call) in Reduce(word + [e]).value
  {
    ReduceNext(word, e);
    hide Reduce;
    var open := Reduce(word);
    if open.Some? && e.draft.kind != ToolCall && open.value != [] {
      var n := |open.value| - 1;
      assert open.value == open.value[..n] + [open.value[n]];
    }
  }

  lemma {:induction false} WordEmpty(events: seq<CaptureRecords.Event>, tools: map<ToolKey, Tool>, k: TurnKey,
      t: TaskKey)
    requires forall i :: 0 <= i < |events| ==> !OfWord(events[i], tools, k, t)
    ensures ToolWord(events, tools, k, t) == []
  {
    if events != [] {
      WordEmpty(events[..|events| - 1], tools, k, t);
    }
  }

  lemma {:induction false} OpenEmpty(stack: seq<Frame>, tools: map<ToolKey, Tool>, k: TurnKey)
    requires forall l :: l in tools ==> tools[l].turn != k
    ensures OpenTools(stack, tools, k) == []
  {
    if stack != [] {
      OpenEmpty(stack[..|stack| - 1], tools, k);
    }
  }

  // ---- The invariant ----

  ghost predicate NoneLost(m: Machine, k: TurnKey, t: TaskKey) {
    forall l :: l in m.lost && l in m.world.tools ==> !(m.world.tools[l].turn == k && m.world.tools[l].task == t)
  }

  // What the word of turn k and task t leaves open is what the task's stack has open.
  ghost predicate BracketsMatch(m: Machine, k: TurnKey, t: TaskKey) {
    && Entered(m.world, k) && t in m.stacks
    && (CanEmit(m.world.runs[m.world.states[k].owner]) && NoneLost(m, k, t) ==>
          Reduce(ToolWord(EventsIn(m.world, m.world.states[k].owner), m.world.tools, k, t))
            == Some(OpenTools(m.stacks[t], m.world.tools, k)))
  }

  // The call of tool l is recorded, if its run records anything, and its result is not.
  ghost predicate CallPending(w: World, l: ToolKey) {
    && l in w.tools && w.tools[l].entered && Entered(w, w.tools[l].turn)
    && var owner := w.states[w.tools[l].turn].owner;
       CanEmit(w.runs[owner]) ==> Unmatched(EventsIn(w, owner), l)
  }

  ghost predicate Bracketed(m: Machine) {
    && Nested(m)
    && (forall r {:trigger EventsIn(m.world, r)} :: ToolsSeen(EventsIn(m.world, r), m.world.tools))
    && (forall k, t {:trigger BracketsMatch(m, k, t)} :: k in m.world.states && t in m.stacks ==>
         BracketsMatch(m, k, t))
    && (forall l {:trigger CallPending(m.world, l)} :: l in m.lost ==> CallPending(m.world, l))
    && (forall t, i {:trigger m.stacks[t][i]} ::
          t in m.stacks && 0 <= i < |m.stacks[t]| && m.stacks[t][i].ToolFrame? ==>
            && CallPending(m.world, m.stacks[t][i].tool)
            && m.stacks[t][i].tool !in m.lost)
  }

  // ---- What stays for every operation ----

  lemma EnteredTurn(w: World, k: TurnKey)
    requires Inv(w) && k in w.states
    ensures Entered(w, k)
    ensures var owner := w.states[k].owner;
            && Started(w, owner) && (CanEmit(w.runs[owner]) <==> w.runs[owner].sampled)
            && w.states[k].turn.turnId == k
  {
    var owner := w.states[k].owner;
    assert StateLinked(w, k) && TurnLinked(w, k);
    assert RunInv(owner, w.runs[owner], w.states, AttemptsOf(w.channel.log, owner), w.eventIds);
  }

  lemma OwnerStays(w: World, task: TaskKey, op: Op, k: TurnKey)
    requires Inv(w) && k in w.states
    ensures var w' := Next(w, task, op).world;
            && Entered(w, k) && Entered(w', k) && w'.states[k].owner == w.states[k].owner
            && (CanEmit(w'.runs[w'.states[k].owner]) <==> CanEmit(w.runs[w.states[k].owner]))
  {
    assert Linked(w);
    hide Inv, Linked, Next;
    NextKeepsInv(w, task, op);
    EnteredTurn(w, k);
    NextEvolvesTurn(w, task, op, k);
    NextEvolvesRun(w, task, op, w.states[k].owner);
    EnteredTurn(Next(w, task, op).world, k);
  }

  // ---- Operations that record nothing ----

  lemma NewTurnHasNoTools(w: World, k: TurnKey, r: RunKey, tools: map<ToolKey, Tool>, t: TaskKey, stack: seq<Frame>)
    requires Linked(w) && k !in w.states && ToolsSeen(EventsIn(w, r), w.tools)
    ensures ToolWord(EventsIn(w, r), w.tools, k, t) == [] && OpenTools(stack, w.tools, k) == []
  {
    forall l | l in w.tools ensures w.tools[l].turn != k {
      assert ToolLinked(w, l);
    }
    WordEmpty(EventsIn(w, r), w.tools, k, t);
    OpenEmpty(stack, w.tools, k);
  }

  lemma FramesAreKnown(m: Machine, t: TaskKey)
    requires Nested(m) && t in m.stacks
    ensures FramesKnown(m.stacks[t], m.world.tools)
    ensures t in m.world.tasks && t in m.bases
  {
    assert TaskNested(m, t);
    var stack := m.stacks[t];
    forall i | 0 <= i < |stack| && stack[i].ToolFrame? ensures stack[i].tool in m.world.tools {
      assert Held(m.world, t, Expected(m.bases[t], stack[..i]), stack[i]);
    }
  }

  // Opening or closing a block of a run or a turn, or none at all, opens and closes no tool.
  lemma SilentStack(m: Machine, task: TaskKey, op: Op, t: TaskKey, k: TurnKey, tools: map<ToolKey, Tool>)
    requires WellNested(m, task, op) && !IsEvent(op) && t in m.stacks
               && (op.Fork? && Next(m.world, task, op).result == Done ==> t != op.child)
    ensures var m' := Advance(m, task, op);
            t in m'.stacks && OpenTools(m'.stacks[t], tools, k) == OpenTools(m.stacks[t], tools, k)
  {
    hide Next, OpenTools;
    if IsEnd(op) {
      EndAdvances(m, task, op);
      hide Advance;
      var stack := m.stacks[task];
      var n := |stack| - 1;
      OpenNext(stack[..n], stack[n], tools, k);
      assert stack[..n] + [stack[n]] == stack;
      assert OpenTools(stack[..n], tools, k) + [] == OpenTools(stack[..n], tools, k);
    } else if IsBegin(op) {
      BeginAdvances(m, task, op);
      hide Advance;
      OpenNext(m.stacks[task], FrameOf(op), tools, k);
      assert OpenTools(m.stacks[task], tools, k) + [] == OpenTools(m.stacks[task], tools, k);
    }
  }

  lemma NoneLostBefore(m: Machine, task: TaskKey, op: Op, k: TurnKey, t: TaskKey)
    requires WellNested(m, task, op) && ToolsStable(m.world.tools, Advance(m, task, op).world.tools)
    requires forall l :: l in m.lost ==> l in m.world.tools && m.world.tools[l].entered
    ensures NoneLost(Advance(m, task, op), k, t) ==> NoneLost(m, k, t)
  {
    hide Next;
  }

  lemma LostAreEntered(m: Machine)
    requires Bracketed(m)
    ensures forall l :: l in m.lost ==> l in m.world.tools && m.world.tools[l].entered
  {
    forall l | l in m.lost ensures l in m.world.tools && m.world.tools[l].entered {
      assert CallPending(m.world, l);
    }
  }

  lemma SilentMatches(m: Machine, task: TaskKey, op: Op, k: TurnKey, t: TaskKey)
    requires Bracketed(m) && WellNested(m, task, op) && !IsEvent(op)
    requires k in m.world.states && t in m.stacks
               && (op.Fork? && Next(m.world, task, op).result == Done ==> t != op.child)
    ensures BracketsMatch(Advance(m, task, op), k, t)
  {
    var w := m.world;
    var owner := w.states[k].owner;
    assert BracketsMatch(m, k, t);
    assert ToolsSeen(EventsIn(w, owner), w.tools);
    FramesAreKnown(m, t);
    LostAreEntered(m);
    assert Inv(w);
    hide Next, Bracketed, Nested, Inv;
    NextToolsStable(w, task, op);
    OwnerStays(w, task, op, k);
    SilentOp(w, task, op, owner);
    NoneLostBefore(m, task, op, k, t);
    WordStable(EventsIn(w, owner), w.tools, Next(w, task, op).world.tools, k, t);
    OpenStable(m.stacks[t], w.tools, Next(w, task, op).world.tools, k);
    SilentStack(m, task, op, t, k, Next(w, task, op).world.tools);
  }

  // ---- Operations that may record an event ----

  // Everything the bracket argument needs to know of an event operation: the new events of a run
  // are `added`, which is one tool event of op.tool or one other event, or none.
  ghost predicate EventFacts(w: World, task: TaskKey, op: Op, r: RunKey, added: seq<CaptureRecords.Event>) {
    var s := Next(w, task, op);
    && EventsIn(s.world, r) == EventsIn(w, r) + added
    && |added| <= 1
    && (added != [] && added[0].draft.tool.None? ==>
          added[0].draft.kind != ToolCall && added[0].draft.kind != ToolResult)
    && (added != [] && added[0].draft.tool.Some? ==>
          && s.result == Done && (op.BeginTool? || op.EndTool?)
          && op.tool in w.tools && added[0].draft.tool.value == op.tool
               && added[0].draft.callId == Some(w.tools[op.tool].callId)
          && added[0].turnId == w.tools[op.tool].turn
          && added[0].draft.kind == (if op.BeginTool? then ToolCall else ToolResult)
          && Entered(w, w.tools[op.tool].turn)
          && r == w.states[w.tools[op.tool].turn].owner && CanEmit(w.runs[r]))
    && ((op.BeginTool? || op.EndTool?) && s.result == Done ==>
          && op.tool in w.tools && Entered(w, w.tools[op.tool].turn)
          && (r == w.states[w.tools[op.tool].turn].owner && CanEmit(w.runs[r]) ==>
               added != [] && added[0].draft.tool.Some?))
  }

  lemma EventFactsHold(w: World, task: TaskKey, op: Op, r: RunKey) returns (added: seq<CaptureRecords.Event>)
    requires Inv(w) && IsEvent(op)
    ensures EventFacts(w, task, op, r, added)
  {
    hide Next, EventsIn, EventOf, Effected, Inv, EventFacts, ToolDraft, IsRecord;
    if task in w.tasks {
      EventNext(w, task, op);
      var e := EventOf(w, task, w.tasks[task], op);
      var draft, valid, sink := EventEffectRecords(w, task, w.tasks[task], op);
      RefusedIsNotDone(w, task, w.tasks[task], op);
      if e.Recorded? {
        added := RecordedFacts(w, e, draft, valid, sink, r);
        FactsOfRecord(w, task, op, r, e, draft, valid, added);
      } else {
        added := [];
        RefusedEffect(w, e, r);
        FactsOfNothing(w, task, op, r);
      }
    } else {
      added := [];
      NothingFound(w, task, op);
      FactsOfNothing(w, task, op, r);
    }
  }

  lemma RefusedEffect(w: World, e: EventEffect, r: RunKey)
    requires e.Refused?
    ensures Effected(w, e).world == w && Effected(w, e).result == e.result
  {
  }

  lemma FactsOfNothing(w: World, task: TaskKey, op: Op, r: RunKey)
    requires Next(w, task, op).world == w && Next(w, task, op).result != Done
    ensures EventFacts(w, task, op, r, [])
  {
    hide Next, EventsIn;
    assert EventsIn(w, r) + [] == EventsIn(w, r);
  }

  // The events of a run after an effect.
  lemma RecordedFacts(w: World, e: EventEffect, draft: Draft, valid: bool, sink: bool, r: RunKey)
    returns (added: seq<CaptureRecords.Event>)
    requires Inv(w) && e.Recorded? && EffectFits(w, e) && IsRecord(w, e, draft, valid, sink)
    ensures Entered(w, e.turn) && w.states[e.turn].turn.turnId == e.turn
    ensures added == NewEvents(w, e.turn, draft, valid, r)
    ensures EventsIn(Effected(w, e).world, r) == EventsIn(w, r) + added
    ensures Effected(w, e).result == e.step.result && (e.step.result == Done <==> valid)
  {
    EnteredTurn(w, e.turn);
    hide Inv, Record;
    added := NewEvents(w, e.turn, draft, valid, r);
    RecordedEvents(w, e.turn, draft, valid, sink, r);
    hide NewEvents, AttemptsOf, Replay, Emit;
  }

  lemma FactsOfRecord(w: World, task: TaskKey, op: Op, r: RunKey, e: EventEffect, draft: Draft, valid: bool,
      added: seq<CaptureRecords.Event>)
    requires IsEvent(op) && e.Recorded? && Entered(w, e.turn) && w.states[e.turn].turn.turnId == e.turn
    requires EventsIn(Next(w, task, op).world, r) == EventsIn(w, r) + added
    requires added == NewEvents(w, e.turn, draft, valid, r) && (Next(w, task, op).result == Done <==> valid)
    requires ToolDraft(w, op, e, draft)
    ensures EventFacts(w, task, op, r, added)
  {
    hide Next, EventsIn;
  }

  lemma RefusedIsNotDone(w: World, task: TaskKey, vars: Vars, op: Op)
    requires IsEvent(op)
    ensures var e := EventOf(w, task, vars, op); e.Refused? ==> e.result != Done
  {
    hide Record, EnterTool, ExitTool;
  }

  // The flags of the tool that a successful tool operation works on.
  lemma ToolAfter(w: World, task: TaskKey, op: Op)
    requires (op.BeginTool? || op.EndTool?) && Next(w, task, op).result == Done
    ensures op.tool in w.tools && op.tool in Next(w, task, op).world.tools
    ensures op.BeginTool? ==> !w.tools[op.tool].entered && Next(w, task, op).world.tools[op.tool].task == task
    ensures op.BeginTool? ==> Next(w, task, op).world.tools[op.tool].entered
    ensures op.EndTool? ==> w.tools[op.tool].entered
  {
    hide Next;
    EventMovesTools(w, task, op);
  }

  lemma EventKeepsStates(w: World, task: TaskKey, op: Op)
    requires IsEvent(op)
    ensures Next(w, task, op).world.states.Keys == w.states.Keys && Next(w, task, op).world.tasks == w.tasks
  {
    hide Next;
    EventIsQuiet(w, task, op);
  }

  // The words before the operation, read with the tool records after it, plus the new event.
  lemma WordGrown(events: seq<CaptureRecords.Event>, added: seq<CaptureRecords.Event>, tools: map<ToolKey, Tool>,
      tools': map<ToolKey, Tool>, k: TurnKey, t: TaskKey)
    requires ToolsSeen(events, tools) && ToolsStable(tools, tools') && |added| <= 1
    ensures ToolWord(events + added, tools', k, t)
         == ToolWord(events, tools, k, t) + if added != [] && OfWord(added[0], tools', k, t) then added else []
  {
    WordStable(events, tools, tools', k, t);
    if added == [] {
      assert events + added == events;
    } else {
      assert added == [added[0]];
      WordNext(events, added[0], tools', k, t);
    }
  }

  // What BeginMatches and EndMatches need, gathered.
  lemma EventKept(m: Machine, task: TaskKey, op: Op, k: TurnKey, t: TaskKey) returns (added: seq<CaptureRecords.Event>)
    requires Bracketed(m) && WellNested(m, task, op) && IsEvent(op) && k in m.world.states && t in m.stacks
    ensures EventFacts(m.world, task, op, m.world.states[k].owner, added)
    ensures WordFacts(m, task, op, k, t, added) && NoneLostKept(m, task, op, k, t)
  {
    BracketedParts(m, k);
    hide Next, Bracketed, Nested, Inv, EventFacts, WordFacts, NoneLostKept, EventsIn;
    added := EventFactsHold(m.world, task, op, m.world.states[k].owner);
    WordIsKept(m, task, op, k, t, added);
    LossIsKept(m, task, op, k, t);
  }

  lemma BracketedParts(m: Machine, k: TurnKey)
    requires Bracketed(m)
    ensures Nested(m) && Inv(m.world)
    ensures k in m.world.states ==> ToolsSeen(EventsIn(m.world, m.world.states[k].owner), m.world.tools)
  {
    hide Inv, EventsIn;
  }

  lemma WordIsKept(m: Machine, task: TaskKey, op: Op, k: TurnKey, t: TaskKey, added: seq<CaptureRecords.Event>)
    requires Nested(m) && k in m.world.states && t in m.stacks
    requires ToolsSeen(EventsIn(m.world, m.world.states[k].owner), m.world.tools)
    requires EventFacts(m.world, task, op, m.world.states[k].owner, added)
    ensures WordFacts(m, task, op, k, t, added)
  {
    var w, tools' := m.world, Next(m.world, task, op).world.tools;
    FramesAreKnown(m, t);
    assert |added| <= 1;
    hide Next, Nested, EventFacts, EventsIn, ToolsStable, ToolsSeen, OfWord, ToolWord, OpenTools, FramesKnown;
    NextToolsStable(w, task, op);
    WordGrown(EventsIn(w, w.states[k].owner), added, w.tools, tools', k, t);
    OpenStable(m.stacks[t], w.tools, tools', k);
  }

  lemma LossIsKept(m: Machine, task: TaskKey, op: Op, k: TurnKey, t: TaskKey)
    requires Bracketed(m) && Inv(m.world) && WellNested(m, task, op) && k in m.world.states
    ensures NoneLostKept(m, task, op, k, t)
  {
    hide Next, Nested, Inv, NoneLost, ToolsStable;
    LostAreEntered(m);
    hide Bracketed;
    NextToolsStable(m.world, task, op);
    NoneLostBefore(m, task, op, k, t);
    OwnerStays(m.world, task, op, k);
    AdvanceWorld(m, task, op);
    hide Advance;
  }

  lemma AdvanceWorld(m: Machine, task: TaskKey, op: Op)
    requires WellNested(m, task, op)
    ensures Advance(m, task, op).world == Next(m.world, task, op).world
  {
    hide Next;
  }

  lemma EventMatches(m: Machine, task: TaskKey, op: Op, k: TurnKey, t: TaskKey)
    requires Bracketed(m) && WellNested(m, task, op) && IsEvent(op) && k in m.world.states && t in m.stacks
    ensures BracketsMatch(Advance(m, task, op), k, t)
  {
    assert BracketsMatch(m, k, t) && Nested(m);
    hide Next, Bracketed, Nested, BracketsMatch, EventFacts, WordFacts, NoneLostKept;
    var added := EventKept(m, task, op, k, t);
    if op.EndTool? {
      TopTool(m, task, op);
      EndMatches(m, task, op, k, t, added);
    } else if op.BeginTool? && Next(m.world, task, op).result == Done {
      ToolAfter(m.world, task, op);
      BeginMatches(m, task, op, k, t, added);
    } else {
      OtherEventMatches(m, task, op, k, t, added);
    }
  }

  // An event of no tool, or a tool operation that failed on entering, changes no word and no stack.
  lemma OtherEventMatches(m: Machine, task: TaskKey, op: Op, k: TurnKey, t: TaskKey, added: seq<CaptureRecords.Event>)
    requires WellNested(m, task, op) && IsEvent(op) && !op.EndTool?
               && !(op.BeginTool? && Next(m.world, task, op).result == Done)
    requires BracketsMatch(m, k, t) && NoneLostKept(m, task, op, k, t)
    requires EventFacts(m.world, task, op, m.world.states[k].owner, added)
    requires WordFacts(m, task, op, k, t, added)
    ensures BracketsMatch(Advance(m, task, op), k, t)
  {
    hide Next, EventsIn, ToolWord, OpenTools, NoneLost, Reduce, ToolsStable;
    var word := ToolWord(EventsIn(m.world, m.world.states[k].owner), m.world.tools, k, t);
    assert word + [] == word;
  }

  // The tool a well-nested exit closes.
  lemma TopTool(m: Machine, task: TaskKey, op: Op)
    requires Nested(m) && WellNested(m, task, op) && op.EndTool?
    ensures op.tool in m.world.tools && m.world.tools[op.tool].entered && m.world.tools[op.tool].task == task
  {
    assert TaskNested(m, task);
    var stack := m.stacks[task];
    assert Held(m.world, task, Expected(m.bases[task], stack[..|stack| - 1]), stack[|stack| - 1]);
  }

  // Whether a tool operation is about turn k and task t.
  predicate Hits(w: World, task: TaskKey, op: Op, k: TurnKey, t: TaskKey)
    requires op.BeginTool? || op.EndTool?
  {
    op.tool in w.tools && w.tools[op.tool].turn == k && t == task
  }

  // A successful tool operation adds its event to the word of its own turn and task, and to no other.
  lemma WordHit(w: World, task: TaskKey, op: Op, k: TurnKey, t: TaskKey, added: seq<CaptureRecords.Event>,
      tools': map<ToolKey, Tool>)
    requires op.BeginTool? || op.EndTool?
    requires Entered(w, k) && CanEmit(w.runs[w.states[k].owner])
    requires EventFacts(w, task, op, w.states[k].owner, added) && Next(w, task, op).result == Done
    requires op.tool in tools' && tools'[op.tool].task == task
    ensures added != [] && OfWord(added[0], tools', k, t) <==> Hits(w, task, op, k, t)
    ensures Hits(w, task, op, k, t) ==>
              && added[0].draft.tool.Some?
              && MarkOf(added[0]) == Bracket(op.tool, Some(w.tools[op.tool].callId))
              && added[0].draft.kind == (if op.BeginTool? then ToolCall else ToolResult)
  {
    hide Next, EventsIn;
  }

  // A machine matches if its word is `word` and a part that reduces to the open blocks.
  lemma MatchAssembled(m: Machine, k: TurnKey, t: TaskKey, word: seq<CaptureRecords.Event>,
      part: seq<CaptureRecords.Event>)
    requires Entered(m.world, k) && t in m.stacks
    requires ToolWord(EventsIn(m.world, m.world.states[k].owner), m.world.tools, k, t) == word + part
    requires CanEmit(m.world.runs[m.world.states[k].owner]) && NoneLost(m, k, t) ==>
               Reduce(word + part) == Some(OpenTools(m.stacks[t], m.world.tools, k))
    ensures BracketsMatch(m, k, t)
  {
    hide Reduce, ToolWord, OpenTools, EventsIn, NoneLost;
  }

  // The word after an event operation, its part new, and the open blocks before it.
  lemma GrownWord(m: Machine, task: TaskKey, op: Op, k: TurnKey, t: TaskKey, added: seq<CaptureRecords.Event>)
    returns (word: seq<CaptureRecords.Event>, part: seq<CaptureRecords.Event>, open: seq<Bracket>)
    requires WellNested(m, task, op) && BracketsMatch(m, k, t) && NoneLostKept(m, task, op, k, t)
    requires EventFacts(m.world, task, op, m.world.states[k].owner, added) && WordFacts(m, task, op, k, t, added)
    ensures var w, m' := m.world, Advance(m, task, op);
            var w' := m'.world;
            && w' == Next(w, task, op).world
            && Entered(w', k) && ToolWord(EventsIn(w', w'.states[k].owner), w'.tools, k, t) == word + part
            && |added| <= 1 && Entered(w, k) && t in m.stacks
            && part == (if added != [] && OfWord(added[0], w'.tools, k, t) then added else [])
            && (Next(w, task, op).result != Done ==> part == [])
            && open == OpenTools(m.stacks[t], w'.tools, k)
            && (CanEmit(w'.runs[w'.states[k].owner]) <==> CanEmit(w.runs[w.states[k].owner]))
            && (NoneLost(m', k, t) && CanEmit(w'.runs[w'.states[k].owner]) ==> Reduce(word) == Some(open))
  {
    AdvanceWorld(m, task, op);
    hide Next, Reduce, ToolWord, OpenTools, EventsIn, NoneLost, OfWord, ToolsStable, Advance;
    var w := m.world;
    word := ToolWord(EventsIn(w, w.states[k].owner), w.tools, k, t);
    part := if added != [] && OfWord(added[0], Next(w, task, op).world.tools, k, t) then added else [];
    open := OpenTools(m.stacks[t], Next(w, task, op).world.tools, k);
  }

  lemma CallReduces(word: seq<CaptureRecords.Event>, open: seq<Bracket>, e: CaptureRecords.Event)
    requires Reduce(word) == Some(open) && e.draft.tool.Some? && e.draft.kind == ToolCall
    ensures Reduce(word + [e]) == Some(open + [MarkOf(e)])
  {
    hide Reduce;
    ReduceNext(word, e);
  }

  lemma ResultReduces(word: seq<CaptureRecords.Event>, open: seq<Bracket>, e: CaptureRecords.Event)
    requires e.draft.tool.Some? && e.draft.kind == ToolResult && Reduce(word) == Some(open + [MarkOf(e)])
    ensures Reduce(word + [e]) == Some(open)
  {
    hide Reduce;
    ReduceNext(word, e);
    assert (open + [MarkOf(e)])[..|open|] == open;
  }

  lemma BeginMatches(m: Machine, task: TaskKey, op: Op, k: TurnKey, t: TaskKey, added: seq<CaptureRecords.Event>)
    requires WellNested(m, task, op) && op.BeginTool? && Next(m.world, task, op).result == Done
    requires BracketsMatch(m, k, t) && NoneLostKept(m, task, op, k, t)
    requires EventFacts(m.world, task, op, m.world.states[k].owner, added)
    requires WordFacts(m, task, op, k, t, added)
    requires op.tool in m.world.tools && op.tool in Next(m.world, task, op).world.tools
    requires Next(m.world, task, op).world.tools[op.tool].task == task
    ensures BracketsMatch(Advance(m, task, op), k, t)
  {
    hide Next, EventsIn, ToolsStable, OpenTools, OfWord, NoneLost, ToolWord, EventFacts, WordFacts, NoneLostKept,
        Reduce, Advance, BracketsMatch, Hits;
    var w, m' := m.world, Advance(m, task, op);
    var word, part, open := GrownWord(m, task, op, k, t, added);
    SameMark(m, task, op, k, t, added);
    BeginOpens(m, task, op, k, t, m'.world.tools);
    if CanEmit(w.runs[w.states[k].owner]) && NoneLost(m', k, t) {
      WordHit(w, task, op, k, t, added, m'.world.tools);
      assert word + [] == word && open + [] == open;
      if Hits(w, task, op, k, t) {
        assert added == [added[0]];
        CallReduces(word, open, added[0]);
      }
    }
    MatchAssembled(m', k, t, word, part);
  }

  // The mark of a tool is the same before and after.
  lemma SameMark(m: Machine, task: TaskKey, op: Op, k: TurnKey, t: TaskKey, added: seq<CaptureRecords.Event>)
    requires (op.BeginTool? || op.EndTool?) && op.tool in m.world.tools && k in m.world.states && t in m.stacks
    requires WordFacts(m, task, op, k, t, added)
    ensures var tools' := Next(m.world, task, op).world.tools;
            op.tool in tools' && tools'[op.tool].turn == m.world.tools[op.tool].turn
                && tools'[op.tool].callId == m.world.tools[op.tool].callId
    ensures m.world.tools[op.tool].entered ==>
              Next(m.world, task, op).world.tools[op.tool].task == m.world.tools[op.tool].task
    ensures ToolsStable(m.world.tools, Next(m.world, task, op).world.tools)
  {
    hide Next, EventsIn, ToolWord, OpenTools;
  }

  // The stack with the block that an enter of its task opens.
  lemma BeginOpens(m: Machine, task: TaskKey, op: Op, k: TurnKey, t: TaskKey, tools': map<ToolKey, Tool>)
    requires WellNested(m, task, op) && op.BeginTool? && Next(m.world, task, op).result == Done && t in m.stacks
    requires op.tool in m.world.tools && ToolsStable(m.world.tools, tools')
    ensures t in Advance(m, task, op).stacks
    ensures var mark := Bracket(op.tool, Some(m.world.tools[op.tool].callId));
            OpenTools(Advance(m, task, op).stacks[t], tools', k)
              == OpenTools(m.stacks[t], tools', k) + if Hits(m.world, task, op, k, t) then [mark] else []
  {
    hide Next, OpenTools;
    OpenNext(m.stacks[task], ToolFrame(op.tool), tools', k);
    var open := OpenTools(m.stacks[t], tools', k);
    assert open + [] == open;
  }

  // The stack under the block that an exit of its task closes.
  lemma EndOpens(m: Machine, task: TaskKey, op: Op, k: TurnKey, t: TaskKey, tools': map<ToolKey, Tool>)
    requires WellNested(m, task, op) && op.EndTool? && t in m.stacks
    requires op.tool in m.world.tools && ToolsStable(m.world.tools, tools')
    ensures t in Advance(m, task, op).stacks
    ensures var mark := Bracket(op.tool, Some(m.world.tools[op.tool].callId));
            OpenTools(m.stacks[t], tools', k)
              == OpenTools(Advance(m, task, op).stacks[t], tools', k) + if Hits(m.world, task, op, k, t) then [mark]
                  else []
  {
    hide Next, OpenTools;
    var rest := OpenTools(Advance(m, task, op).stacks[t], tools', k);
    var stack := m.stacks[task];
    OpenNext(stack[..|stack| - 1], stack[|stack| - 1], tools', k);
    assert stack[..|stack| - 1] + [stack[|stack| - 1]] == stack;
    assert rest + [] == rest;
  }

  lemma EndMatches(m: Machine, task: TaskKey, op: Op, k: TurnKey, t: TaskKey, added: seq<CaptureRecords.Event>)
    requires WellNested(m, task, op) && op.EndTool?
    requires BracketsMatch(m, k, t) && NoneLostKept(m, task, op, k, t)
    requires EventFacts(m.world, task, op, m.world.states[k].owner, added)
    requires WordFacts(m, task, op, k, t, added)
    requires op.tool in m.world.tools && m.world.tools[op.tool].entered && m.world.tools[op.tool].task == task
    ensures BracketsMatch(Advance(m, task, op), k, t)
  {
    hide Next, EventsIn, ToolsStable, OpenTools, OfWord, NoneLost, ToolWord, EventFacts, WordFacts, NoneLostKept,
        Reduce, Advance, BracketsMatch, Hits;
    var w, m' := m.world, Advance(m, task, op);
    var word, part, open := GrownWord(m, task, op, k, t, added);
    SameMark(m, task, op, k, t, added);
    EndOpens(m, task, op, k, t, m'.world.tools);
    RaisedIsLost(m, task, op, k, t);
    if CanEmit(w.runs[w.states[k].owner]) && NoneLost(m', k, t) {
      if Next(w, task, op).result == Done {
        WordHit(w, task, op, k, t, added, m'.world.tools);
      }
      var rest := OpenTools(m'.stacks[t], m'.world.tools, k);
      assert word + [] == word && rest + [] == rest;
      if Hits(w, task, op, k, t) {
        assert added == [added[0]];
        ResultReduces(word, rest, added[0]);
      }
    }
    MatchAssembled(m', k, t, word, part);
  }

  // An exit that raises loses its tool.
  lemma RaisedIsLost(m: Machine, task: TaskKey, op: Op, k: TurnKey, t: TaskKey)
    requires WellNested(m, task, op) && op.EndTool? && op.tool in m.world.tools && m.world.tools[op.tool].task == task
    requires m.world.tools[op.tool].entered && ToolsStable(m.world.tools, Next(m.world, task, op).world.tools)
    ensures Hits(m.world, task, op, k, t) && Next(m.world, task, op).result != Done ==>
              !NoneLost(Advance(m, task, op), k, t)
  {
    hide Next;
    EndAdvances(m, task, op);
    var m' := Advance(m, task, op);
    assert Next(m.world, task, op).result != Done ==> op.tool in m'.lost;
    assert op.tool in m'.world.tools && m'.world.tools[op.tool].turn == m.world.tools[op.tool].turn
        && m'.world.tools[op.tool].task == task;
  }

  ghost predicate NoneLostKept(m: Machine, task: TaskKey, op: Op, k: TurnKey, t: TaskKey)
    requires WellNested(m, task, op)
  {
    var m' := Advance(m, task, op);
    && (NoneLost(m', k, t) ==> NoneLost(m, k, t))
    && Entered(m'.world, k) && k in m.world.states && m'.world.states[k].owner == m.world.states[k].owner
    && Entered(m.world, k)
    && (CanEmit(m'.world.runs[m'.world.states[k].owner]) <==> CanEmit(m.world.runs[m.world.states[k].owner]))
  }

  ghost predicate WordFacts(m: Machine, task: TaskKey, op: Op, k: TurnKey, t: TaskKey, added: seq<CaptureRecords.Event>)
    requires k in m.world.states && t in m.stacks
  {
    var w, w' := m.world, Next(m.world, task, op).world;
    var events := EventsIn(w, w.states[k].owner);
    && ToolsStable(w.tools, w'.tools)
    && ToolWord(events + added, w'.tools, k, t)
         == ToolWord(events, w.tools, k, t) + (if added != [] && OfWord(added[0], w'.tools, k, t) then added else [])
    && OpenTools(m.stacks[t], w'.tools, k) == OpenTools(m.stacks[t], w.tools, k)
  }

  // ---- The other parts of the invariant ----

  lemma SeenAfter(w: World, task: TaskKey, op: Op, r: RunKey)
    requires Inv(w) && ToolsSeen(EventsIn(w, r), w.tools)
    ensures ToolsSeen(EventsIn(Next(w, task, op).world, r), Next(w, task, op).world.tools)
  {
    NextToolsStable(w, task, op);
    var s := Next(w, task, op);
    hide Inv, Next, EventsIn;
    if IsEvent(op) {
      var added := EventFactsHold(w, task, op, r);
      if (op.BeginTool? || op.EndTool?) && s.result == Done {
        ToolAfter(w, task, op);
      }
    } else {
      SilentOp(w, task, op, r);
    }
  }

  // A pending call stays pending until its own exit succeeds.
  lemma PendingAfter(w: World, task: TaskKey, op: Op, l: ToolKey)
    requires Inv(w) && CallPending(w, l)
    requires !(op.EndTool? && op.tool == l && Next(w, task, op).result == Done)
    ensures CallPending(Next(w, task, op).world, l)
  {
    var k := w.tools[l].turn;
    var owner := w.states[k].owner;
    NextToolsStable(w, task, op);
    hide Inv, Next, EventsIn, Unmatched;
    OwnerStays(w, task, op, k);
    var added := AddedElsewhere(w, task, op, owner, l);
    if CanEmit(w.runs[owner]) {
      UnmatchedGrows(EventsIn(w, owner), added, l);
    }
  }

  lemma AddedElsewhere(w: World, task: TaskKey, op: Op, r: RunKey, l: ToolKey)
      returns (added: seq<CaptureRecords.Event>)
    requires Inv(w) && l in w.tools && w.tools[l].entered
    requires !(op.EndTool? && op.tool == l && Next(w, task, op).result == Done)
    ensures EventsIn(Next(w, task, op).world, r) == EventsIn(w, r) + added
    ensures forall i :: 0 <= i < |added| ==> added[i].draft.tool != Some(l)
  {
    hide Inv, Next, EventsIn;
    if IsEvent(op) {
      added := EventFactsHold(w, task, op, r);
      if op.BeginTool? && Next(w, task, op).result == Done {
        ToolAfter(w, task, op);
      }
    } else {
      added := [];
      SilentOp(w, task, op, r);
      assert EventsIn(w, r) + [] == EventsIn(w, r);
    }
  }

  lemma UnmatchedGrows(events: seq<CaptureRecords.Event>, added: seq<CaptureRecords.Event>, l: ToolKey)
    requires Unmatched(events, l)
    requires forall i :: 0 <= i < |added| ==> added[i].draft.tool != Some(l)
    ensures Unmatched(events + added, l)
  {
    var i :| 0 <= i < |events| && events[i].draft.tool == Some(l);
    assert (events + added)[i] == events[i];
  }

  lemma PendingAfterBegin(w: World, task: TaskKey, op: Op)
    requires Inv(w) && op.BeginTool? && Next(w, task, op).result == Done
    requires forall r {:trigger EventsIn(w, r)} :: ToolsSeen(EventsIn(w, r), w.tools)
    ensures CallPending(Next(w, task, op).world, op.tool)
  {
    ToolAfter(w, task, op);
    NextToolsStable(w, task, op);
    hide Inv, Next, Unmatched;
    var _ := EventFactsHold(w, task, op, 0);
    var k := w.tools[op.tool].turn;
    OwnerStays(w, task, op, k);
    var owner := w.states[k].owner;
    var added := EventFactsHold(w, task, op, owner);
    assert ToolsSeen(EventsIn(w, owner), w.tools);
    hide EventsIn;
    if CanEmit(w.runs[owner]) {
      UnmatchedFirst(EventsIn(w, owner), added, w.tools, op.tool);
    }
  }

  lemma UnmatchedFirst(events: seq<CaptureRecords.Event>, added: seq<CaptureRecords.Event>, tools: map<ToolKey, Tool>,
      l: ToolKey)
    requires ToolsSeen(events, tools) && (l in tools ==> !tools[l].entered)
    requires |added| == 1 && added[0].draft.tool == Some(l) && added[0].draft.kind == ToolCall
    ensures Unmatched(events + added, l)
  {
    assert (events + added)[|events|] == added[0];
  }

  lemma PendingFrames(m: Machine, task: TaskKey, op: Op, t: TaskKey, i: nat)
    requires Bracketed(m) && WellNested(m, task, op)
    requires var m' := Advance(m, task, op); t in m'.stacks && i < |m'.stacks[t]| && m'.stacks[t][i].ToolFrame?
    ensures var m' := Advance(m, task, op);
            CallPending(m'.world, m'.stacks[t][i].tool) && m'.stacks[t][i].tool !in m'.lost
  {
    var m' := Advance(m, task, op);
    AdvanceWorld(m, task, op);
    FrameIsOldOrNew(m, task, op, t, i);
    hide Next, CallPending, Bracketed, Advance;
    if t in m.stacks && i < |m.stacks[t]| && m'.stacks[t][i] == m.stacks[t][i] {
      OldFramePending(m, task, op, t, i);
    } else {
      NewFramePending(m, task, op);
    }
  }

  // A frame after a step was there before, or is the one the step opened.
  lemma FrameIsOldOrNew(m: Machine, task: TaskKey, op: Op, t: TaskKey, i: nat)
    requires WellNested(m, task, op)
    requires var m' := Advance(m, task, op); t in m'.stacks && i < |m'.stacks[t]| && m'.stacks[t][i].ToolFrame?
    ensures var m' := Advance(m, task, op);
            || (t in m.stacks && i < |m.stacks[t]| && m'.stacks[t][i] == m.stacks[t][i])
            || (op.BeginTool? && m'.stacks[t][i].tool == op.tool && Next(m.world, task, op).result == Done
                 && m'.lost == m.lost)
  {
    hide Next;
  }

  lemma NewFramePending(m: Machine, task: TaskKey, op: Op)
    requires Bracketed(m) && op.BeginTool? && Next(m.world, task, op).result == Done
    ensures CallPending(Next(m.world, task, op).world, op.tool) && op.tool !in m.lost
  {
    hide Inv, Next, CallPending, EventsIn, Nested, ToolsSeen;
    AllSeen(m);
    LostAreEntered(m);
    hide Bracketed;
    ToolAfter(m.world, task, op);
    PendingAfterBegin(m.world, task, op);
  }

  lemma AllSeen(m: Machine)
    requires Bracketed(m)
    ensures Inv(m.world) && Nested(m)
    ensures forall r {:trigger EventsIn(m.world, r)} :: ToolsSeen(EventsIn(m.world, r), m.world.tools)
  {
    hide Inv, EventsIn, ToolsSeen;
  }

  // A block that stays open keeps its call pending: only the innermost block's exit can end it.
  lemma OldFramePending(m: Machine, task: TaskKey, op: Op, t: TaskKey, i: nat)
    requires Bracketed(m) && WellNested(m, task, op)
    requires t in m.stacks && i < |m.stacks[t]| && m.stacks[t][i].ToolFrame?
    requires var m' := Advance(m, task, op); t in m'.stacks && i < |m'.stacks[t]| && m'.stacks[t][i] == m.stacks[t][i]
    ensures var l := m.stacks[t][i].tool;
              CallPending(Next(m.world, task, op).world, l)
              && l !in Advance(m, task, op).lost
  {
    hide Next, CallPending;
    var l := m.stacks[t][i].tool;
    assert CallPending(m.world, l) && l !in m.lost;
    assert Nested(m) && Inv(m.world);
    hide Inv, Bracketed, Nested;
    if IsEnd(op) && FrameOf(op) == ToolFrame(l) {
      SameFrameOnce(m, task, t, i);
      assert false;
    }
    PendingAfter(m.world, task, op, l);
  }

  // The innermost block of a task is nowhere else, on this stack or another.
  lemma SameFrameOnce(m: Machine, task: TaskKey, t: TaskKey, i: nat)
    requires Nested(m) && task in m.stacks && m.stacks[task] != []
    requires t in m.stacks && i < |m.stacks[t]| && m.stacks[t][i] == m.stacks[task][|m.stacks[task]| - 1]
    ensures t == task && i == |m.stacks[task]| - 1
  {
    assert TaskNested(m, t) && TaskNested(m, task);
    var n := |m.stacks[task]| - 1;
    assert Held(m.world, task, Expected(m.bases[task], m.stacks[task][..n]), m.stacks[task][n]);
    assert Held(m.world, t, Expected(m.bases[t], m.stacks[t][..i]), m.stacks[t][i]);
  }

  lemma PendingLost(m: Machine, task: TaskKey, op: Op, l: ToolKey)
    requires Bracketed(m) && WellNested(m, task, op) && l in Advance(m, task, op).lost
    ensures CallPending(Advance(m, task, op).world, l)
  {
    hide Inv, Next, CallPending, Nested;
    AllSeen(m);
    AdvanceWorld(m, task, op);
    if op.EndTool? {
      var n := |m.stacks[task]| - 1;
      assert m.stacks[task][n].ToolFrame?;
      assert CallPending(m.world, op.tool) && op.tool !in m.lost;
    }
    assert l in m.lost ==> CallPending(m.world, l);
    hide Bracketed;
    assert l in m.lost || (op.EndTool? && l == op.tool && Next(m.world, task, op).result != Done);
    hide Advance;
    PendingAfter(m.world, task, op, l);
  }

  /** The bracket invariant survives every well-nested step. */
  lemma AdvanceKeepsBracketed(m: Machine, task: TaskKey, op: Op)
    requires Bracketed(m) && WellNested(m, task, op)
    ensures Bracketed(Advance(m, task, op))
  {
    var m' := Advance(m, task, op);
    AllSeen(m);
    AdvanceKeepsNested(m, task, op);
    AdvanceWorld(m, task, op);
    hide Nested, Inv, Next, Advance, BracketsMatch, CallPending, EventsIn, ToolsSeen;
    forall r ensures ToolsSeen(EventsIn(m'.world, r), m'.world.tools) {
      assert ToolsSeen(EventsIn(m.world, r), m.world.tools);
      SeenAfter(m.world, task, op, r);
    }
    forall k, t | k in m'.world.states && t in m'.stacks ensures BracketsMatch(m', k, t) {
      MatchesAfter(m, task, op, k, t);
    }
    forall l | l in m'.lost ensures CallPending(m'.world, l) {
      PendingLost(m, task, op, l);
    }
    forall t, i | t in m'.stacks && 0 <= i < |m'.stacks[t]| && m'.stacks[t][i].ToolFrame?
      ensures CallPending(m'.world, m'.stacks[t][i].tool) && m'.stacks[t][i].tool !in m'.lost
    {
      PendingFrames(m, task, op, t, i);
    }
  }

  lemma MatchesAfter(m: Machine, task: TaskKey, op: Op, k: TurnKey, t: TaskKey)
    requires Bracketed(m) && WellNested(m, task, op) && Nested(Advance(m, task, op))
    requires k in Advance(m, task, op).world.states && t in Advance(m, task, op).stacks
    ensures BracketsMatch(Advance(m, task, op), k, t)
  {
    if k in m.world.states && t in m.stacks && !(op.Fork? && Next(m.world, task, op).result == Done && t == op.child) {
      if IsEvent(op) {
        EventMatches(m, task, op, k, t);
      } else {
        SilentMatches(m, task, op, k, t);
      }
    } else {
      NewIsEmpty(m, task, op, k, t);
    }
  }

  // A turn just entered, or a task just forked, has neither tool events nor open tools.
  lemma NewIsEmpty(m: Machine, task: TaskKey, op: Op, k: TurnKey, t: TaskKey)
    requires Bracketed(m) && WellNested(m, task, op) && Nested(Advance(m, task, op))
    requires k in Advance(m, task, op).world.states && t in Advance(m, task, op).stacks
    requires k !in m.world.states || t !in m.stacks
               || (op.Fork? && Next(m.world, task, op).result == Done && t == op.child)
    ensures BracketsMatch(Advance(m, task, op), k, t)
  {
    var w' := Advance(m, task, op).world;
    EnteredTurn(w', k);
    if op.Fork? && Next(m.world, task, op).result == Done && t == op.child {
      ForkIsFresh(m.world, task, op);
      ForkedIsEmpty(m, task, op, k);
    } else {
      SilentOrKept(m, task, op, k, t);
      NewTurnIsEmpty(m, task, op, k, t);
    }
    hide Next, EventsIn, Nested, Bracketed;
  }

  lemma SilentOrKept(m: Machine, task: TaskKey, op: Op, k: TurnKey, t: TaskKey)
    requires Bracketed(m) && WellNested(m, task, op)
    requires k in Advance(m, task, op).world.states && t in Advance(m, task, op).stacks
    requires k !in m.world.states || t !in m.stacks
    requires !(op.Fork? && Next(m.world, task, op).result == Done && t == op.child)
    ensures !IsEvent(op) && k !in m.world.states && t in m.stacks
  {
    hide Next, Nested, Bracketed;
    if IsEvent(op) {
      EventKeepsStates(m.world, task, op);
    }
  }

  lemma ForkedIsEmpty(m: Machine, task: TaskKey, op: Op, k: TurnKey)
    requires Bracketed(m) && WellNested(m, task, op) && op.Fork? && Next(m.world, task, op).result == Done
    requires Entered(Advance(m, task, op).world, k)
    requires op.child !in m.world.tasks
    ensures BracketsMatch(Advance(m, task, op), k, op.child)
  {
    hide Next, EventsIn;
    AllSeen(m);
    assert ToolsOrdered(m.world);
    ForkIsFresh(m.world, task, op);
    hide Nested, Bracketed, Inv;
    var w, w' := m.world, Next(m.world, task, op).world;
    var r := w'.states[k].owner;
    assert ToolsSeen(EventsIn(w, r), w.tools);
    SilentOp(w, task, op, r);
    WordEmpty(EventsIn(w, r), w.tools, k, op.child);
  }

  lemma NewTurnIsEmpty(m: Machine, task: TaskKey, op: Op, k: TurnKey, t: TaskKey)
    requires Bracketed(m) && WellNested(m, task, op) && !IsEvent(op) && k !in m.world.states && t in m.stacks
    requires !(op.Fork? && Next(m.world, task, op).result == Done && t == op.child)
    requires Entered(Advance(m, task, op).world, k)
    ensures BracketsMatch(Advance(m, task, op), k, t)
  {
    var w, w' := m.world, Next(m.world, task, op).world;
    var r := w'.states[k].owner;
    assert ToolsSeen(EventsIn(w, r), w.tools) && Linked(w);
    FramesAreKnown(m, t);
    hide Next, EventsIn, Nested, Bracketed;
    NextToolsStable(w, task, op);
    SilentOp(w, task, op, r);
    NewTurnHasNoTools(w, k, r, w.tools, t, m.stacks[t]);
    WordStable(EventsIn(w, r), w.tools, w'.tools, k, t);
    OpenStable(m.stacks[t], w.tools, w'.tools, k);
    SilentStack(m, task, op, t, k, w'.tools);
  }

  // ---- Theorem ----

  lemma StartBracketed(client: Client, task: TaskKey)
    ensures Bracketed(Start(client, task))
  {
    StartNested(client, task);
    forall r ensures EventsIn(Initial(client, task), r) == [] {
      assert AttemptsOf([], r) == [];
    }
  }

  lemma {:induction false} DisciplinedBracketed(m: Machine, calls: seq<Call>)
    requires Bracketed(m) && Disciplined(m, calls)
    ensures Bracketed(AdvanceAll(m, calls))
    decreases |calls|
  {
    hide Bracketed, Next;
    if calls != [] {
      AdvanceKeepsBracketed(m, calls[0].task, calls[0].op);
      DisciplinedBracketed(Advance(m, calls[0].task, calls[0].op), calls[1..]);
    }
  }

  lemma {:induction false} OpenIsOnStack(stack: seq<Frame>, tools: map<ToolKey, Tool>, k: TurnKey, b: Bracket)
    requires b in OpenTools(stack, tools, k)
    ensures exists i :: 0 <= i < |stack| && stack[i] == ToolFrame(b.tool)
  {
    var n := |stack| - 1;
    if b in OpenTools(stack[..n], tools, k) {
      OpenIsOnStack(stack[..n], tools, k, b);
      var i :| 0 <= i < n && stack[..n][i] == ToolFrame(b.tool);
      assert stack[i] == ToolFrame(b.tool);
    } else {
      assert stack[n] == ToolFrame(b.tool);
    }
  }

  lemma LostStaysOpen(m: Machine, k: TurnKey, t: TaskKey, l: ToolKey)
    requires Bracketed(m) && Entered(m.world, k) && t in m.stacks && l in m.lost && l in m.world.tools
    requires m.world.tools[l].turn == k && m.world.tools[l].task == t && CanEmit(m.world.runs[m.world.states[k].owner])
    ensures Reduce(ToolWord(EventsIn(m.world, m.world.states[k].owner), m.world.tools, k, t))
              != Some(OpenTools(m.stacks[t], m.world.tools, k))
  {
    var w := m.world;
    var owner := w.states[k].owner;
    var events, stack := EventsIn(w, owner), m.stacks[t];
    assert ToolsSeen(events, w.tools) && CallPending(w, l);
    var i :| 0 <= i < |events| && events[i].draft.tool == Some(l);
    var open := OpenTools(stack, w.tools, k);
    assert forall j {:trigger stack[j]} :: 0 <= j < |stack| ==> stack[j] != ToolFrame(l) by {
      assert forall j :: 0 <= j < |stack| && m.stacks[t][j].ToolFrame? ==> m.stacks[t][j].tool !in m.lost;
    }
    hide Bracketed, EventsIn, Reduce, ToolWord, OpenTools;
    UnmatchedStaysOpen(events, w.tools, k, t, i);
    if MarkOf(events[i]) in open {
      OpenIsOnStack(stack, w.tools, k, MarkOf(events[i]));
    }
  }

  // The word follows the stack exactly as long as no exit of those tools raised.
  lemma BracketsFollowLosses(m: Machine, k: TurnKey, t: TaskKey)
    requires Bracketed(m) && Entered(m.world, k) && t in m.stacks && CanEmit(m.world.runs[m.world.states[k].owner])
    ensures Reduce(ToolWord(EventsIn(m.world, m.world.states[k].owner), m.world.tools, k, t))
              == Some(OpenTools(m.stacks[t], m.world.tools, k))
            <==> NoneLost(m, k, t)
  {
    assert BracketsMatch(m, k, t);
    hide Bracketed, Reduce, ToolWord, OpenTools, EventsIn;
    if !NoneLost(m, k, t) {
      var l :| l in m.lost && l in m.world.tools && m.world.tools[l].turn == k && m.world.tools[l].task == t;
      LostStaysOpen(m, k, t, l);
    }
  }

  lemma {:induction false} NothingOpen(stack: seq<Frame>, tools: map<ToolKey, Tool>, k: TurnKey)
    requires forall i :: 0 <= i < |stack| ==> !stack[i].ToolFrame?
    ensures OpenTools(stack, tools, k) == []
  {
    if stack != [] {
      NothingOpen(stack[..|stack| - 1], tools, k);
    }
  }
}
