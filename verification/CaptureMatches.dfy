/** Results and their calls, in all the events of a run: whichever tasks record them, on whichever
    turns, and whatever is lost on the way. */
module CaptureMatches {
  import opened Options
  import opened CaptureRecords
  import opened CaptureWorld
  import opened CaptureSteps
  import opened CaptureReplay
  import opened CaptureInvariants
  import opened CaptureLog
  import opened CaptureTheorems
  import opened CaptureNesting
  import opened CaptureBrackets

  type EventRecord = CaptureRecords.Event

  predicate IsToolKind(kind: EventKind) {
    kind == ToolCall || kind == ToolResult
  }

  // A tool event carries the turn and the call id of its context, which has been entered, and closed if
  // the event is a result; no other event is a call or a result.
  predicate Carries(e: EventRecord, tools: map<ToolKey, Tool>) {
    && (e.draft.tool.Some? <==> IsToolKind(e.draft.kind))
    && (e.draft.tool.Some? ==>
          var l := e.draft.tool.value;
          && l in tools && tools[l].entered && e.turnId == tools[l].turn && e.draft.callId == Some(tools[l].callId)
          && (e.draft.kind == ToolResult ==> tools[l].closed))
  }

  predicate AllCarry(events: seq<EventRecord>, tools: map<ToolKey, Tool>) {
    forall i :: 0 <= i < |events| ==> Carries(events[i], tools)
  }

  // Two events of one context are its call and then its result: no context has two of either.
  predicate OnceEach(events: seq<EventRecord>) {
    forall i, j :: 0 <= i < j < |events| && SameContext(events[i], events[j]) ==>
      events[i].draft.kind == ToolCall && events[j].draft.kind == ToolResult
  }

  predicate SameContext(a: EventRecord, b: EventRecord) {
    a.draft.tool.Some? && a.draft.tool == b.draft.tool
  }

  predicate CallOf(call: EventRecord, result: EventRecord) {
    && call.draft.kind == ToolCall && call.draft.tool == result.draft.tool
    && call.draft.callId == result.draft.callId && call.turnId == result.turnId
  }

  predicate HasCall(events: seq<EventRecord>, j: nat)
    requires j < |events|
  {
    exists i :: 0 <= i < j && CallOf(events[i], events[j])
  }

  // Each result closes an earlier call of the same context, call id and turn.
  predicate ResultsHaveCalls(events: seq<EventRecord>) {
    forall j :: 0 <= j < |events| && events[j].draft.kind == ToolResult ==> HasCall(events, j)
  }

  // ---- Every operation ----

  // What a successful tool operation finds and leaves of its context.
  lemma ToolMarks(w: World, task: TaskKey, op: Op)
    requires (op.BeginTool? || op.EndTool?) && Next(w, task, op).result == Done
    ensures op.tool in w.tools && op.tool in Next(w, task, op).world.tools
    ensures var tool, tool' := w.tools[op.tool], Next(w, task, op).world.tools[op.tool];
            && tool'.entered && tool'.turn == tool.turn && tool'.callId == tool.callId
            && (op.BeginTool? ==> !tool.entered)
            && (op.EndTool? ==> !tool.closed && tool'.closed)
  {
    hide Next;
    EventMovesTools(w, task, op);
  }

  // The tool event that a step adds is its context's first, or the result after its call.
  ghost predicate ComesNext(e: EventRecord, tools: map<ToolKey, Tool>, tools': map<ToolKey, Tool>) {
    && Carries(e, tools')
    && (e.draft.tool.Some? ==>
          && e.draft.tool.value in tools
          && (e.draft.kind == ToolCall ==> !tools[e.draft.tool.value].entered)
          && (e.draft.kind == ToolResult ==> !tools[e.draft.tool.value].closed))
  }

  lemma {:induction false} EventsAdded(w: World, task: TaskKey, op: Op, r: RunKey) returns (added: seq<EventRecord>)
    requires Inv(w)
    ensures EventsIn(Next(w, task, op).world, r) == EventsIn(w, r) + added && |added| <= 1
    ensures added != [] ==> ComesNext(added[0], w.tools, Next(w, task, op).world.tools)
    ensures added != [] && added[0].draft.kind == ToolResult ==>
              && op.EndTool? && op.tool in w.tools && added[0].draft.tool == Some(op.tool)
              && Entered(w, w.tools[op.tool].turn)
              && r == w.states[w.tools[op.tool].turn].owner && CanEmit(w.runs[r])
  {
    hide Inv, Next, EventsIn;
    if IsEvent(op) {
      added := EventFactsHold(w, task, op, r);
      if added != [] && added[0].draft.tool.Some? {
        ToolMarks(w, task, op);
      }
    } else {
      added := [];
      SilentOp(w, task, op, r);
      assert EventsIn(w, r) + [] == EventsIn(w, r);
    }
  }

  lemma EventsGrow(events: seq<EventRecord>, added: seq<EventRecord>, tools: map<ToolKey, Tool>,
      tools': map<ToolKey, Tool>)
    requires AllCarry(events, tools) && OnceEach(events) && ToolsStable(tools, tools')
    requires |added| <= 1 && (added != [] ==> ComesNext(added[0], tools, tools'))
    ensures AllCarry(events + added, tools') && OnceEach(events + added)
  {
    forall i | 0 <= i < |events| ensures Carries(events[i], tools') {
      assert Carries(events[i], tools);
    }
  }

  lemma NextKeepsEvents(w: World, task: TaskKey, op: Op, r: RunKey)
    requires Inv(w) && AllCarry(EventsIn(w, r), w.tools) && OnceEach(EventsIn(w, r))
    ensures var w' := Next(w, task, op).world;
            AllCarry(EventsIn(w', r), w'.tools) && OnceEach(EventsIn(w', r))
  {
    hide Inv, Next, EventsIn, AllCarry, OnceEach, ToolsStable, ComesNext;
    NextToolsStable(w, task, op);
    var added := EventsAdded(w, task, op, r);
    EventsGrow(EventsIn(w, r), added, w.tools, Next(w, task, op).world.tools);
  }

  /** In every schedule, disciplined or not, every tool event carries the turn and the call id of its
      context, no context has two calls or two results, and none its result before its call. */
  lemma {:induction false} ToolEventsAreSingle(client: Client, task: TaskKey, calls: seq<Call>, r: RunKey)
    ensures var w := RunAll(Initial(client, task), calls);
            AllCarry(EventsIn(w, r), w.tools) && OnceEach(EventsIn(w, r))
  {
    if calls == [] {
      NoEventsYet(client, task, r);
    } else {
      var n := |calls| - 1;
      ToolEventsAreSingle(client, task, calls[..n], r);
      ReachableInv(client, task, calls[..n]);
      hide Inv, Next, EventsIn, AllCarry, OnceEach;
      NextKeepsEvents(RunAll(Initial(client, task), calls[..n]), calls[n].task, calls[n].op, r);
    }
  }

  lemma NoEventsYet(client: Client, task: TaskKey, r: RunKey)
    ensures EventsIn(Initial(client, task), r) == []
  {
    assert AttemptsOf([], r) == [];
  }

  // ---- Well-nested operations: no result without its call ----

  ghost predicate Matched(m: Machine, r: RunKey) {
    var events := EventsIn(m.world, r);
    AllCarry(events, m.world.tools) && OnceEach(events) && ResultsHaveCalls(events)
  }

  // A block that is closed has its call recorded, if anything is.
  lemma TopCallPending(m: Machine, task: TaskKey, op: Op)
    requires Bracketed(m) && WellNested(m, task, op) && op.EndTool?
    ensures CallPending(m.world, op.tool)
  {
    var n := |m.stacks[task]| - 1;
    assert m.stacks[task][n].ToolFrame?;
    hide CallPending, Nested, Inv, EventsIn;
  }

  lemma ResultAppended(events: seq<EventRecord>, e: EventRecord, tools: map<ToolKey, Tool>,
      tools': map<ToolKey, Tool>)
    requires AllCarry(events, tools) && ToolsStable(tools, tools') && Carries(e, tools') && ResultsHaveCalls(events)
    requires e.draft.kind == ToolResult ==> e.draft.tool.Some? && Unmatched(events, e.draft.tool.value)
    ensures ResultsHaveCalls(events + [e])
  {
    var all := events + [e];
    forall j | 0 <= j < |all| && all[j].draft.kind == ToolResult ensures HasCall(all, j) {
      if j < |events| {
        assert HasCall(events, j);
        var i :| 0 <= i < j && CallOf(events[i], events[j]);
        assert CallOf(all[i], all[j]);
      } else {
        var i :| 0 <= i < |events| && events[i].draft.tool == e.draft.tool;
        assert Carries(events[i], tools);
        assert CallOf(all[i], all[j]);
      }
    }
  }

  lemma AdvanceKeepsMatched(m: Machine, task: TaskKey, op: Op, r: RunKey)
    requires Bracketed(m) && WellNested(m, task, op) && Matched(m, r)
    ensures Matched(Advance(m, task, op), r)
  {
    AllSeen(m);
    AdvanceWorld(m, task, op);
    if op.EndTool? {
      TopCallPending(m, task, op);
    }
    hide Bracketed, Nested, Inv, Next, Advance, WellNested, EventsIn, AllCarry, OnceEach, ResultsHaveCalls, Unmatched,
        ToolsStable, Carries;
    var w, tools' := m.world, Next(m.world, task, op).world.tools;
    var events := EventsIn(w, r);
    NextKeepsEvents(w, task, op, r);
    NextToolsStable(w, task, op);
    var added := EventsAdded(w, task, op, r);
    if added == [] {
      assert events + added == events;
    } else {
      assert added == [added[0]];
      ResultAppended(events, added[0], w.tools, tools');
    }
  }

  lemma {:induction false} DisciplinedMatched(m: Machine, calls: seq<Call>, r: RunKey)
    requires Bracketed(m) && Disciplined(m, calls) && Matched(m, r)
    ensures Matched(AdvanceAll(m, calls), r) && Bracketed(AdvanceAll(m, calls))
    decreases |calls|
  {
    hide Bracketed, Matched, Advance;
    if calls != [] {
      var c := calls[0];
      AdvanceKeepsBracketed(m, c.task, c.op);
      AdvanceKeepsMatched(m, c.task, c.op, r);
      DisciplinedMatched(Advance(m, c.task, c.op), calls[1..], r);
    }
  }

  /** In every interleaving of well-nested tasks, whatever fails or is lost on the way, among all the
      events of a run: every tool event carries the turn and the call id of its context, no context has
      two calls or two results, and every result comes after a call of the same context, call id and turn. */
  lemma EveryResultHasItsCall(client: Client, task: TaskKey, calls: seq<Call>, r: RunKey)
    requires Disciplined(Start(client, task), calls)
    ensures var w := AdvanceAll(Start(client, task), calls).world;
            var events := EventsIn(w, r);
            && AllCarry(events, w.tools) && OnceEach(events) && ResultsHaveCalls(events)
  {
    StartBracketed(client, task);
    NoEventsYet(client, task, r);
    hide Bracketed, AdvanceAll, Disciplined;
    DisciplinedMatched(Start(client, task), calls, r);
  }

  // ---- What was stored ----

  lemma {:induction false} EventsOfPrefix(attempts: seq<Attempt>, n: nat)
    requires n <= |attempts|
    ensures Replay(attempts[..n]).events <= Replay(attempts).events
  {
    if n < |attempts| {
      var last := |attempts| - 1;
      EventsOfPrefix(attempts[..last], n);
      assert attempts[..last][..n] == attempts[..n];
    } else {
      assert attempts[..n] == attempts;
    }
  }

  lemma PrefixMatched(events: seq<EventRecord>, some: seq<EventRecord>, tools: map<ToolKey, Tool>)
    requires some <= events && AllCarry(events, tools) && OnceEach(events) && ResultsHaveCalls(events)
    ensures AllCarry(some, tools) && OnceEach(some) && ResultsHaveCalls(some)
  {
    forall j | 0 <= j < |some| && some[j].draft.kind == ToolResult ensures HasCall(some, j) {
      assert HasCall(events, j);
      var i :| 0 <= i < j && CallOf(events[i], events[j]);
      assert CallOf(some[i], some[j]);
    }
  }

  /** The same holds of what was stored of the run, at whatever point the sink failed. */
  lemma StoredResultsHaveCalls(client: Client, task: TaskKey, calls: seq<Call>, r: RunKey)
    requires Disciplined(Start(client, task), calls)
    requires r in AdvanceAll(Start(client, task), calls).world.runs
    ensures var w := AdvanceAll(Start(client, task), calls).world;
            var stored := Replay(Captured(AttemptsOf(w.channel.log, r))).events;
            && AllCarry(stored, w.tools) && OnceEach(stored) && ResultsHaveCalls(stored)
  {
    hide Bracketed, AdvanceAll, Disciplined, Inv, Replay, AttemptsOf, Captured, AllCarry, OnceEach, ResultsHaveCalls,
        EventsIn, Start, Nested;
    var m := AdvanceAll(Start(client, task), calls);
    StartBracketed(client, task);
    DisciplinedBracketed(Start(client, task), calls);
    AllSeen(m);
    EveryResultHasItsCall(client, task, calls, r);
    StoredIsPrefix(m.world, r);
    PrefixMatched(EventsIn(m.world, r), Replay(Captured(AttemptsOf(m.world.channel.log, r))).events, m.world.tools);
  }

  lemma StoredIsPrefix(w: World, r: RunKey)
    requires Inv(w) && r in w.runs
    ensures Replay(Captured(AttemptsOf(w.channel.log, r))).events <= EventsIn(w, r)
  {
    hide Inv, Replay, AttemptsOf, Captured, ValidBundle;
    var attempts := AttemptsOf(w.channel.log, r);
    CapturedReplays(w, r, 0);
    EventsOfPrefix(attempts, |Captured(attempts)|);
    assert attempts[..|Captured(attempts)|] == Captured(attempts);
  }
}
