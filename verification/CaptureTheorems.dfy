/** What the capture contexts promise, for every schedule of operations by any tasks. */
module CaptureTheorems {
  import opened Options
  import opened Sampling
  import opened CaptureRecords
  import opened CaptureWorld
  import opened CaptureSteps
  import opened CaptureReplay
  import opened CaptureInvariants
  import opened CaptureLog

  // ---- What was captured ----

  lemma {:induction false} CapturedIsPrefix(attempts: seq<Attempt>, failed: bool)
    requires Latched(attempts, failed)
    ensures Captured(attempts) <= attempts
    ensures forall i :: 0 <= i < |attempts| ==> (attempts[i].stored <==> i < |Captured(attempts)|)
    ensures |Captured(attempts)| + Lost(attempts) == |attempts|
    ensures !failed <==> Captured(attempts) == attempts
  {
    if attempts != [] {
      var n := |attempts| - 1;
      CapturedIsPrefix(attempts[..n], if attempts[n].stored then false else Lost(attempts[..n]) > 0 ) by {
        LatchedPrefix(attempts, failed);
      }
    }
  }

  lemma {:induction false} LostNone(attempts: seq<Attempt>)
    ensures Lost(attempts) == 0 <==> forall i :: 0 <= i < |attempts| ==> attempts[i].stored
  {
    if attempts != [] {
      LostNone(attempts[..|attempts| - 1]);
    }
  }

  lemma LatchedPrefix(attempts: seq<Attempt>, failed: bool)
    requires Latched(attempts, failed) && attempts != []
    ensures var n := |attempts| - 1;
            Latched(attempts[..n], if attempts[n].stored then false else Lost(attempts[..n]) > 0)
  {
    var n := |attempts| - 1;
    LostNone(attempts[..n]);
    if Lost(attempts[..n]) > 0 {
      var i :| 0 <= i < n && !attempts[..n][i].stored;
      assert !attempts[n - 1].stored;
    }
  }

  /** The stored batches of a run are a prefix of its attempts, stored for as long as the latch is
      unset, and every prefix of them replays to a complete, valid bundle: references closed, turn
      numbers 0..t-1, event numbers 0..n-1 in each turn, producer numbers 0..e-1. */
  lemma CapturedReplaysToValidBundles(client: Client, task: TaskKey, calls: seq<Call>, r: RunKey, n: nat)
    requires r in RunAll(Initial(client, task), calls).runs
    requires n <= |Captured(AttemptsOf(RunAll(Initial(client, task), calls).channel.log, r))|
    ensures var w := RunAll(Initial(client, task), calls);
            var attempts := AttemptsOf(w.channel.log, r);
            var captured := Captured(attempts);
            && captured <= attempts
            && (!w.runs[r].captureFailed <==> captured == attempts)
            && ValidBundle(Replay(captured[..n]))
  {
    hide Inv, RunAll, ValidBundle, Captured;
    ReachableInv(client, task, calls);
    CapturedReplays(RunAll(Initial(client, task), calls), r, n);
  }

  lemma CapturedReplays(w: World, r: RunKey, n: nat)
    requires Inv(w) && r in w.runs && n <= |Captured(AttemptsOf(w.channel.log, r))|
    ensures var attempts := AttemptsOf(w.channel.log, r);
            var captured := Captured(attempts);
            && captured <= attempts
            && (!w.runs[r].captureFailed <==> captured == attempts)
            && ValidBundle(Replay(captured[..n]))
  {
    hide Replay, ValidBundle, Captured, Latched;
    var attempts := AttemptsOf(w.channel.log, r);
    RunReplays(w, r);
    CapturedIsPrefix(attempts, w.runs[r].captureFailed);
    assert Captured(attempts)[..n] == attempts[..n];
  }

  // What the invariant says of one run's attempts.
  lemma RunReplays(w: World, r: RunKey)
    requires Inv(w) && r in w.runs
    ensures var attempts := AttemptsOf(w.channel.log, r);
            && PrefixesValid(attempts) && Latched(attempts, w.runs[r].captureFailed)
            && StatesNamed(r, w.runs[r], w.states)
            && (CanEmit(w.runs[r]) ==> Matches(Replay(attempts), r, w.runs[r], w.states, w.eventIds))
            && (!CanEmit(w.runs[r]) ==> attempts == [])
            && (w.runs[r].snapshot.Some? ==> w.runs[r].source.Some?)
  {
    assert RunInv(r, w.runs[r], w.states, AttemptsOf(w.channel.log, r), w.eventIds);
    hide Inv, PrefixesValid, Latched, StatesNamed, Matches, AttemptsOf, Replay;
  }

  /** As long as capture has not failed, replaying what a sampled run captured gives back exactly
      what its contexts hold: the run snapshot, every turn's snapshot at the turn's number, and as
      many events, of the run and of each turn, as were numbered. */
  lemma ReplayEqualsMemory(client: Client, task: TaskKey, calls: seq<Call>, r: RunKey)
    requires var w := RunAll(Initial(client, task), calls);
              Started(w, r) && w.runs[r].sampled
              && !w.runs[r].captureFailed
    ensures var w := RunAll(Initial(client, task), calls);
            var b := Replay(Captured(AttemptsOf(w.channel.log, r)));
            && b.run == w.runs[r].snapshot
            && |b.turns| == w.runs[r].turnSequence
            && (forall i :: 0 <= i < |b.turns| ==>
                 b.turns[i].turnId in w.states && b.turns[i] == w.states[b.turns[i].turnId].turn)
            && (forall k :: k in w.states && w.states[k].owner == r ==>
                  && w.states[k].turn.sequence < |b.turns|
                  && b.turns[w.states[k].turn.sequence] == w.states[k].turn
                  && |EventsOf(b.events, k)| == w.states[k].nextEvent)
            && |b.events| == w.runs[r].producerSequence
  {
    hide Inv, RunAll, Replay, Captured, EventsOf;
    ReachableInv(client, task, calls);
    var w := RunAll(Initial(client, task), calls);
    RunReplays(w, r);
    CapturedIsPrefix(AttemptsOf(w.channel.log, r), false);
    hide PrefixesValid, Latched, StatesNamed;
    MatchesIsMemory(Replay(AttemptsOf(w.channel.log, r)), r, w.runs[r], w.states, w.eventIds);
  }

  lemma MatchesIsMemory(b: Bundle, r: RunKey, run: Run, states: map<TurnKey, TurnState>, eventIds: nat)
    requires Matches(b, r, run, states, eventIds)
    ensures b.run == run.snapshot && |b.turns| == run.turnSequence && |b.events| == run.producerSequence
    ensures forall i :: 0 <= i < |b.turns| ==>
              b.turns[i].turnId in states && b.turns[i] == states[b.turns[i].turnId].turn
    ensures forall k :: k in states && states[k].owner == r ==>
              && states[k].turn.sequence < |b.turns|
              && b.turns[states[k].turn.sequence] == states[k].turn
              && |EventsOf(b.events, k)| == states[k].nextEvent
  {
    hide Numbered, EventsOf;
  }

  lemma {:induction false} LostAndCaptured(log: seq<Attempt>)
    ensures |Captured(log)| + Lost(log) == |log|
  {
    if log != [] {
      LostAndCaptured(log[..|log| - 1]);
    }
  }

  /** Every attempt of a sampled run was either captured or counted as dropped. */
  lemma AttemptsAreCapturedOrDropped(client: Client, task: TaskKey, calls: seq<Call>)
    ensures var channel := RunAll(Initial(client, task), calls).channel;
            |channel.log| == |Captured(channel.log)| + channel.dropped
  {
    ReachableInv(client, task, calls);
    var w := RunAll(Initial(client, task), calls);
    hide RunAll, RunInv, Tidy, Captured, Lost, AttemptsOf;
    LostAndCaptured(w.channel.log);
  }

  // ---- Sampling ----

  /** A whole nest of runs shares its root's decision: a run that started under an unsampled root
      never attempts to emit anything. */
  lemma SamplingIsAllOrNothing(client: Client, task: TaskKey, calls: seq<Call>, r: RunKey)
    requires Started(RunAll(Initial(client, task), calls), r)
    ensures var w := RunAll(Initial(client, task), calls);
            var root := w.runs[r].root;
            && Started(w, root) && w.runs[root].root == root
            && (w.runs[r].sampled <==> Sampled(w.runs[root].config.digest, w.client.sampleRate))
            && (!Sampled(w.runs[root].config.digest, w.client.sampleRate) ==> AttemptsOf(w.channel.log, r) == [])
  {
    var w := RunAll(Initial(client, task), calls);
    ReachableInv(client, task, calls);
    hide RunAll, RunsReplay, AttemptsOf, Linked;
    assert RunDecided(w, r);
    hide SampledTogether, Sampled;
    RunReplays(w, r);
    hide Inv;
  }

  // ---- Each run and turn is finished at most once ----

  predicate TurnEvolves(t: TurnSnapshot, t': TurnSnapshot) {
    || t' == t
    || (&& t.status == Unknown && t'.status != Unknown
        && t'.turnId == t.turnId && t'.runId == t.runId && t'.sequence == t.sequence
        && t'.request == t.request && t'.requestState == t.requestState)
  }

  predicate RunEvolves(s: RunSnapshot, s': RunSnapshot) {
    || s' == s
    || (s.status == Unknown && s'.status != Unknown && s' == s.(status := s'.status))
  }

  // One operation: only EndTurn finishes a turn, with the status its body's end gives.
  lemma NextEvolvesTurn(w: World, task: TaskKey, op: Op, k: TurnKey)
    requires Linked(w) && k in w.states
    ensures var w' := Next(w, task, op).world;
            && k in w'.states
            && w'.states[k].owner == w.states[k].owner
            && TurnEvolves(w.states[k].turn, w'.states[k].turn)
            && (w'.states[k].turn != w.states[k].turn ==>
                  op.EndTurn? && op.turn == k && w'.states[k].turn.status == TerminalStatus(op.error))
  {
    assert StateLinked(w, k) && TurnLinked(w, k);
    hide Linked, Next, EnterRun, ExitRun, EnterTurn, ExitTurn, EntersRun, ExitsRun;
    if task !in w.tasks || !Finds(w, op) {
      NothingFound(w, task, op);
    } else if op.BeginRun? {
      var s := RunBegun(w, task, op);
    } else if op.EndRun? {
      var s := RunEnded(w, task, op);
    } else if op.BeginTurn? {
      var s := TurnBegun(w, task, op);
    } else if op.EndTurn? {
      var s := TurnEnded(w, task, op);
    } else if IsEvent(op) {
      EventIsQuiet(w, task, op);
    } else {
      SmallStepKeeps(w, task, op);
    }
  }

  // Likewise only EndRun finishes a run.
  lemma NextEvolvesRun(w: World, task: TaskKey, op: Op, r: RunKey)
    requires Linked(w) && Started(w, r)
    ensures var w' := Next(w, task, op).world;
            && Started(w', r) && (w'.runs[r].sampled <==> w.runs[r].sampled)
            && RunEvolves(w.runs[r].snapshot.value, w'.runs[r].snapshot.value)
            && (w'.runs[r].snapshot != w.runs[r].snapshot ==>
                  op.EndRun? && op.run == r && w'.runs[r].snapshot.value.status == TerminalStatus(op.error))
  {
    assert RunLinked(w, r);
    if op.BeginTurn? && op.turn in w.turns {
      assert TurnLinked(w, op.turn);
    }
    hide Linked, Next, EnterRun, ExitRun, EnterTurn, ExitTurn, TurnLinked;
    if task !in w.tasks || !Finds(w, op) {
      NothingFound(w, task, op);
    } else if op.BeginRun? || op.EndRun? {
      RunStepEvolvesRun(w, task, op, r);
    } else if op.BeginTurn? {
      var s := TurnBegun(w, task, op);
      TurnStepsKeepRuns(w, task, op.turn, s, r);
    } else if op.EndTurn? {
      var s := TurnEnded(w, task, op);
      TurnStepsKeepRuns(w, task, op.turn, s, r);
    } else if IsEvent(op) {
      EventIsQuiet(w, task, op);
      hide RunLinked;
      assert SameRun(w, Next(w, task, op).world, r);
    } else {
      SmallStepKeeps(w, task, op);
    }
  }

  lemma RunStepEvolvesRun(w: World, task: TaskKey, op: Op, r: RunKey)
    requires task in w.tasks && Finds(w, op) && (op.BeginRun? || op.EndRun?) && Started(w, r) && RunLinked(w, r)
    ensures var w' := Next(w, task, op).world;
            && Started(w', r) && (w'.runs[r].sampled <==> w.runs[r].sampled)
            && RunEvolves(w.runs[r].snapshot.value, w'.runs[r].snapshot.value)
            && (w'.runs[r].snapshot != w.runs[r].snapshot ==>
                  op.EndRun? && op.run == r && w'.runs[r].snapshot.value.status == TerminalStatus(op.error))
  {
    hide Next, EnterRun, ExitRun, BeginsRun;
    if op.BeginRun? {
      var s := RunBegun(w, task, op);
      if op.run == r {
        StartedIsEntered(w, r, task, op, s);
      }
    } else {
      var s := RunEnded(w, task, op);
    }
  }

  // A run that has started is not begun again.
  lemma StartedIsEntered(w: World, r: RunKey, task: TaskKey, op: Op, s: RunStep)
    requires task in w.tasks && Started(w, r) && RunLinked(w, r)
    requires EntersRun(w.client, r, w.runs[r], ActiveRun(w, w.tasks[task]), task, w.tasks[task], w.channel, s)
    ensures s.result != Done && s.run == w.runs[r]
  {
  }

  lemma TurnStepsKeepRuns(w: World, task: TaskKey, key: TurnKey, s: TurnStep, r: RunKey)
    requires s.turn.owner in w.runs && r in w.runs
    requires s.run == w.runs[s.turn.owner].(turnSequence := s.run.turnSequence, latestTurn := s.run.latestTurn,
                                            captureFailed := s.run.captureFailed)
    ensures var w' := WithTurn(w, task, key, s).world;
            r in w'.runs && w'.runs[r].snapshot == w.runs[r].snapshot && w'.runs[r].sampled == w.runs[r].sampled
  {
  }

  // One operation adds at most one attempt to the log, and leaves the earlier ones alone.
  predicate LogExtends(log: seq<Attempt>, log': seq<Attempt>) {
    log <= log' && |log'| <= |log| + 1
  }

  lemma NextExtendsLog(w: World, task: TaskKey, op: Op)
    ensures LogExtends(w.channel.log, Next(w, task, op).world.channel.log)
  {
    hide Next, EnterRun, ExitRun, EnterTurn, ExitTurn, EntersRun, ExitsRun, EntersTurn, ExitsTurn, LogExtends;
    if task !in w.tasks || !Finds(w, op) {
      NothingFound(w, task, op);
      LogSame(w.channel.log);
    } else if op.BeginRun? {
      var s := RunBegun(w, task, op);
      EnterRunExtends(w.client, op.run, w.runs[op.run], ActiveRun(w, w.tasks[task]), task, w.tasks[task], w.channel,
          op.sink);
    } else if op.EndRun? {
      var s := RunEnded(w, task, op);
      ExitRunExtends(op.run, w.runs[op.run], task, w.tasks[task], w.channel, op.error, op.sink);
    } else if op.BeginTurn? {
      var s := TurnBegun(w, task, op);
      EnterTurnExtends(w.client, op.turn, w.turns[op.turn], w.runs[w.turns[op.turn].owner], task, w.tasks[task],
                       w.channel, op.valid, op.sink);
    } else if op.EndTurn? {
      var s := TurnEnded(w, task, op);
      ExitTurnExtends(w.client, w.turns[op.turn], w.states[op.turn], w.runs[w.turns[op.turn].owner], task,
          w.tasks[task], w.channel, op.error, op.sink);
    } else if IsEvent(op) {
      EventNext(w, task, op);
      hide EventOf, Effected;
      var draft, valid, sink := EventEffectRecords(w, task, w.tasks[task], op);
      EffectExtends(w, EventOf(w, task, w.tasks[task], op), draft, valid, sink);
    } else {
      SmallStepKeeps(w, task, op);
      LogSame(w.channel.log);
    }
  }

  lemma LogSame(log: seq<Attempt>)
    ensures LogExtends(log, log)
  {
  }

  lemma EmitExtends(key: RunKey, run: Run, channel: Channel, turn: Option<TurnSnapshot>,
      event: Option<CaptureRecords.Event>, trace: Option<nat>, sink: bool)
    ensures LogExtends(channel.log, Emit(key, run, channel, turn, event, trace, sink).channel.log)
  {
  }

  lemma EnterRunExtends(client: Client, key: RunKey, run: Run, parent: Option<Run>, task: TaskKey, vars: Vars,
      channel: Channel, sink: bool)
    ensures LogExtends(channel.log, EnterRun(client, key, run, parent, task, vars, channel, sink).channel.log)
  {
    hide Emit, Decide, LogExtends;
    LogSame(channel.log);
    var d := Decide(client, key, run, parent);
    EmitExtends(key, d.run.(snapshot := Some(NewRunSnapshot(client, run.config, d.parentId))), channel, None, None,
        None, sink);
  }

  lemma ExitRunExtends(key: RunKey, run: Run, task: TaskKey, vars: Vars, channel: Channel, error: Option<Raised>,
      sink: bool)
    ensures LogExtends(channel.log, ExitRun(key, run, task, vars, channel, error, sink).channel.log)
  {
    LogSame(channel.log);
    if ExitRun(key, run, task, vars, channel, error, sink).result == Done {
      var closed := ClosedRunEmits(key, run, task, vars, channel, error, sink);
      EmitExtends(key, closed, channel, None, None, None, sink);
      hide ExitRun;
    }
    hide Emit, LogExtends;
  }

  lemma EnterTurnExtends(client: Client, key: TurnKey, turn: Turn, run: Run, task: TaskKey, vars: Vars,
      channel: Channel, valid: bool, sink: bool)
    ensures LogExtends(channel.log, EnterTurn(client, key, turn, run, task, vars, channel, valid, sink).channel.log)
  {
    LogSame(channel.log);
    if EnterTurn(client, key, turn, run, task, vars, channel, valid, sink).result == Done {
      var numbered, snapshot := EnteredTurnEmits(client, key, turn, run, task, vars, channel, valid, sink);
      EmitExtends(turn.owner, numbered, channel, Some(snapshot), None, None, sink);
      hide EnterTurn;
    }
    hide Emit, LogExtends, Content;
  }

  lemma ExitTurnExtends(client: Client, turn: Turn, state: TurnState, run: Run, task: TaskKey, vars: Vars,
      channel: Channel, error: Option<Raised>, sink: bool)
    ensures LogExtends(channel.log, ExitTurn(client, turn, state, run, task, vars, channel, error, sink).channel.log)
  {
    LogSame(channel.log);
    if ExitTurn(client, turn, state, run, task, vars, channel, error, sink).result == Done {
      var snapshot := ClosedTurnEmits(client, turn, state, run, task, vars, channel, error, sink);
      EmitExtends(turn.owner, run, channel, Some(snapshot), None, None, sink);
      hide ExitTurn;
    }
    hide Emit, LogExtends, Close;
  }

  lemma EffectExtends(w: World, e: EventEffect, draft: Draft, valid: bool, sink: bool)
    requires EffectFits(w, e) && (e.Recorded? ==> IsRecord(w, e, draft, valid, sink))
    ensures LogExtends(w.channel.log, Effected(w, e).world.channel.log)
  {
    hide Emit, LogExtends;
    LogSame(w.channel.log);
    if e.Recorded? && valid {
      var state := w.states[e.turn];
      var run := w.runs[state.owner];
      EmitExtends(state.owner, run.(producerSequence := run.producerSequence + 1), w.channel, Some(state.turn),
                  Some(CaptureRecords.Event(w.eventIds, state.turn.turnId, state.nextEvent, run.producerSequence,
                      draft)), draft.traceId, sink);
    }
  }

  // The latest attempt always carries the snapshots memory holds.
  ghost predicate CarriesMemory(w: World, a: Attempt) {
    && Started(w, a.run)
    && a.batch.run == w.runs[a.run].snapshot.value
    && (a.batch.turn.Some? ==>
          var k := a.batch.turn.value.turnId;
          k in w.states && w.states[k].turn == a.batch.turn.value)
  }

  lemma LatestCarriesMemory(w: World)
    requires Inv(w) && w.channel.log != []
    ensures CarriesMemory(w, w.channel.log[|w.channel.log| - 1])
  {
    var n := |w.channel.log| - 1;
    var a := w.channel.log[n];
    var before := AttemptsOf(w.channel.log[..n], a.run);
    assert AttemptsOf(w.channel.log, a.run) == before + [a];
    assert a.run in w.runs by { InvReplays(w); LoggedRunsExist(w, n); }
    hide Inv, AttemptsOf;
    RunReplays(w, a.run);
    hide PrefixesValid, Latched, StatesNamed;
    ReplayNext(before, a);
    LastCarries(Replay(before), a, w.runs[a.run], w.states, w.eventIds);
  }

  lemma LoggedRunsExist(w: World, i: nat)
    requires RunsReplay(w) && i < |w.channel.log|
    ensures w.channel.log[i].run in w.runs
  {
    hide RunInv, AttemptsOf, Lost;
  }

  lemma LastCarries(b: Bundle, a: Attempt, run: Run, states: map<TurnKey, TurnState>, eventIds: nat)
    requires Matches(Apply(b, a.batch), a.run, run, states, eventIds)
    ensures run.snapshot == Some(a.batch.run)
    ensures a.batch.turn.Some? ==>
              var k := a.batch.turn.value.turnId; k in states && states[k].turn == a.batch.turn.value
  {
    hide Numbered, EventsMatch;
    if a.batch.turn.Some? {
      var i := TurnIndex(b.turns, a.batch.turn.value.turnId);
      assert Apply(b, a.batch).turns[i] == a.batch.turn.value;
    }
  }

  // What a finished turn and a finished run imply for the rest of a schedule.
  ghost predicate StaysFinished(w: World, w': World, k: TurnKey)
    requires k in w.states
  {
    && Inv(w')
    && w.channel.log <= w'.channel.log
    && k in w'.states && w'.states[k].turn == w.states[k].turn
    && Carried(w'.channel.log, |w.channel.log|, k, w.states[k].turn)
  }

  // From an index on, every attempt that mentions turn k carries the snapshot t of it.
  predicate Carried(log: seq<Attempt>, from: nat, k: TurnKey, t: TurnSnapshot) {
    forall i :: from <= i < |log| ==> CarriesTurn(log[i].batch.turn, k, t)
  }

  predicate CarriesTurn(turn: Option<TurnSnapshot>, k: TurnKey, t: TurnSnapshot) {
    turn.Some? && turn.value.turnId == k ==> turn.value == t
  }

  lemma CarriedNext(log: seq<Attempt>, log': seq<Attempt>, from: nat, k: TurnKey, t: TurnSnapshot)
    requires from <= |log| && Carried(log, from, k, t) && LogExtends(log, log')
    requires |log'| > |log| ==> CarriesTurn(log'[|log|].batch.turn, k, t)
    ensures Carried(log', from, k, t)
  {
  }

  lemma FinishedTurnKept(w: World, task: TaskKey, op: Op, k: TurnKey)
    requires Inv(w) && k in w.states && w.states[k].turn.status != Unknown
    ensures var w' := Next(w, task, op).world;
            && Inv(w') && k in w'.states && w'.states[k].turn == w.states[k].turn
            && LogExtends(w.channel.log, w'.channel.log)
            && (|w'.channel.log| > |w.channel.log| ==> CarriesMemory(w', w'.channel.log[|w.channel.log|]))
  {
    hide Inv, Linked, Next, CarriesMemory;
    InvReplays(w);
    NextEvolvesTurn(w, task, op, k);
    StepIsCarried(w, task, op);
  }

  // The attempt an operation adds, if any, carries what memory then holds.
  lemma StepIsCarried(w: World, task: TaskKey, op: Op)
    requires Inv(w)
    ensures var w' := Next(w, task, op).world;
            && Inv(w') && LogExtends(w.channel.log, w'.channel.log)
            && (|w'.channel.log| > |w.channel.log| ==> CarriesMemory(w', w'.channel.log[|w.channel.log|]))
  {
    hide Inv, Next, CarriesMemory;
    NextKeepsInv(w, task, op);
    NextExtendsLog(w, task, op);
    var w' := Next(w, task, op).world;
    if |w'.channel.log| > |w.channel.log| {
      LatestCarriesMemory(w');
    }
  }

  lemma NextStaysFinished(w: World, before: World, task: TaskKey, op: Op, k: TurnKey)
    requires k in w.states && w.states[k].turn.status != Unknown && StaysFinished(w, before, k)
    ensures StaysFinished(w, Next(before, task, op).world, k)
  {
    hide Inv, Next, Carried;
    FinishedTurnKept(before, task, op, k);
    CarriedNext(before.channel.log, Next(before, task, op).world.channel.log, |w.channel.log|, k, w.states[k].turn);
  }

  /** Once a turn is finished its snapshot never changes, and every later batch that mentions the
      turn (a late model trace, a business outcome) carries exactly that terminal snapshot. */
  lemma {:induction false} LateBatchesCarryTerminalTurn(w: World, calls: seq<Call>, k: TurnKey)
    requires Inv(w) && k in w.states && w.states[k].turn.status != Unknown
    ensures StaysFinished(w, RunAll(w, calls), k)
  {
    if calls != [] {
      var n := |calls| - 1;
      LateBatchesCarryTerminalTurn(w, calls[..n], k);
      NextStaysFinished(w, RunAll(w, calls[..n]), calls[n].task, calls[n].op, k);
      hide Inv, Next, StaysFinished;
    }
  }

  ghost predicate RunStaysFinished(w: World, w': World, r: RunKey)
    requires Started(w, r)
  {
    && Inv(w')
    && w.channel.log <= w'.channel.log
    && Started(w', r) && w'.runs[r].snapshot == w.runs[r].snapshot
    && CarriedRun(w'.channel.log, |w.channel.log|, r, w.runs[r].snapshot.value)
  }

  predicate CarriedRun(log: seq<Attempt>, from: nat, r: RunKey, s: RunSnapshot) {
    forall i :: from <= i < |log| && log[i].run == r ==> log[i].batch.run == s
  }

  lemma CarriedRunNext(log: seq<Attempt>, log': seq<Attempt>, from: nat, r: RunKey, s: RunSnapshot)
    requires from <= |log| && CarriedRun(log, from, r, s) && LogExtends(log, log')
    requires |log'| > |log| && log'[|log|].run == r ==> log'[|log|].batch.run == s
    ensures CarriedRun(log', from, r, s)
  {
  }

  lemma FinishedRunKept(w: World, task: TaskKey, op: Op, r: RunKey)
    requires Inv(w) && Started(w, r) && w.runs[r].snapshot.value.status != Unknown
    ensures var w' := Next(w, task, op).world;
            && Inv(w') && Started(w', r) && w'.runs[r].snapshot == w.runs[r].snapshot
            && LogExtends(w.channel.log, w'.channel.log)
            && (|w'.channel.log| > |w.channel.log| ==> CarriesMemory(w', w'.channel.log[|w.channel.log|]))
  {
    hide Inv, Linked, Next, CarriesMemory;
    InvReplays(w);
    NextEvolvesRun(w, task, op, r);
    StepIsCarried(w, task, op);
  }

  lemma NextRunStaysFinished(w: World, before: World, task: TaskKey, op: Op, r: RunKey)
    requires Started(w, r) && w.runs[r].snapshot.value.status != Unknown && RunStaysFinished(w, before, r)
    ensures RunStaysFinished(w, Next(before, task, op).world, r)
  {
    hide Inv, Next, CarriedRun;
    FinishedRunKept(before, task, op, r);
    CarriedRunNext(before.channel.log, Next(before, task, op).world.channel.log, |w.channel.log|, r,
        w.runs[r].snapshot.value);
  }

  /** The same for a finished run: nothing reopens it, and later batches repeat its terminal snapshot. */
  lemma {:induction false} LateBatchesCarryTerminalRun(w: World, calls: seq<Call>, r: RunKey)
    requires Inv(w) && Started(w, r) && w.runs[r].snapshot.value.status != Unknown
    ensures RunStaysFinished(w, RunAll(w, calls), r)
  {
    if calls != [] {
      var n := |calls| - 1;
      LateBatchesCarryTerminalRun(w, calls[..n], r);
      NextRunStaysFinished(w, RunAll(w, calls[..n]), calls[n].task, calls[n].op, r);
      hide Inv, Next, RunStaysFinished;
    }
  }

  // ---- A finished turn takes no more evidence from its own operations ----

  predicate OnTurn(w: World, op: Op, k: TurnKey) {
    || (op.RecordOnTurn? && op.turn == k)
    || (op.SetTurnOutput? && op.turn == k)
    || (op.CreateTool? && op.turn == k)
    || ((op.BeginTool? || op.EndTool?) && op.tool in w.tools && w.tools[op.tool].turn == k)
  }

  // A tool operation on a turn that is not active changes nothing but the event id counter.
  lemma InactiveToolEvent(w: World, task: TaskKey, op: Op, k: TurnKey)
    requires task in w.tasks && (op.BeginTool? || op.EndTool?) && op.tool in w.tools && w.tools[op.tool].turn == k
    requires k in w.turns && !TurnActive(k, w.turns[k], w.tasks[task]) && Entered(w, k)
    ensures var s := Next(w, task, op);
            s.result != Done && s.world == w.(eventIds := s.world.eventIds)
  {
    hide Next, Effected;
    EventNext(w, task, op);
    InactiveEffect(w, task, w.tasks[task], op, k);
    IdleEffect(w, EventOf(w, task, w.tasks[task], op));
    hide EventOf;
  }

  lemma InactiveEffect(w: World, task: TaskKey, vars: Vars, op: Op, k: TurnKey)
    requires (op.BeginTool? || op.EndTool?) && op.tool in w.tools && w.tools[op.tool].turn == k
    requires k in w.turns && !TurnActive(k, w.turns[k], vars) && Entered(w, k)
    ensures var e := EventOf(w, task, vars, op);
            && e.Recorded? && e.turn == k && e.tools == w.tools && e.step.state == w.states[k]
            && e.step.run == w.runs[w.states[k].owner] && e.step.channel == w.channel && e.step.result != Done
  {
    hide Record;
    assert w.tools[op.tool := w.tools[op.tool]] == w.tools;
  }

  lemma IdleEffect(w: World, e: EventEffect)
    requires EffectFits(w, e) && e.Recorded? && e.tools == w.tools && e.step.state == w.states[e.turn]
    requires e.step.run == w.runs[w.states[e.turn].owner] && e.step.channel == w.channel && e.step.result != Done
    ensures var s := Effected(w, e); s.result != Done && s.world == w.(eventIds := s.world.eventIds)
  {
    var state := w.states[e.turn];
    assert w.states[e.turn := state] == w.states && w.runs[state.owner := w.runs[state.owner]] == w.runs;
  }

  /** After a turn has closed, no tool or record operation on it succeeds, from any task (a task
      forked inside the turn included): nothing is numbered and nothing is emitted. */
  lemma ClosedTurnRejectsEvidence(w: World, task: TaskKey, op: Op, k: TurnKey)
    requires Inv(w) && k in w.states && w.states[k].turn.status != Unknown && OnTurn(w, op, k)
    ensures var s := Next(w, task, op);
            && s.result != Done
            && s.world.channel == w.channel
            && s.world.states == w.states
            && s.world.runs == w.runs
  {
    hide Inv, Next;
    ClosedTurnInactive(w, k);
    if task !in w.tasks {
      NothingFound(w, task, op);
    } else if op.BeginTool? || op.EndTool? {
      InactiveToolEvent(w, task, op, k);
    } else if op.RecordOnTurn? {
      InactiveRecord(w, task, op);
    } else {
      InactiveTurnOp(w, task, op, k);
    }
  }

  lemma InactiveRecord(w: World, task: TaskKey, op: Op)
    requires task in w.tasks && op.RecordOnTurn? && op.turn in w.turns && w.turns[op.turn].token.None?
    ensures Next(w, task, op).result != Done && Next(w, task, op).world == w
  {
    hide RecordOn;
  }

  lemma InactiveTurnOp(w: World, task: TaskKey, op: Op, k: TurnKey)
    requires task in w.tasks && (op.SetTurnOutput? || op.CreateTool?) && op.turn == k
    requires k in w.turns && w.turns[k].token.None?
    ensures Next(w, task, op).result != Done && Next(w, task, op).world == w
  {
  }

  lemma ClosedTurnInactive(w: World, k: TurnKey)
    requires Inv(w) && k in w.states && w.states[k].turn.status != Unknown
    ensures k in w.turns && w.turns[k].token.None? && Entered(w, k)
  {
    InvReplays(w);
    hide Inv;
    assert StateLinked(w, k) && TurnLinked(w, k);
  }

  // What provider instrumentation sees of the active turn.
  function CurrentTurn(w: World, task: TaskKey): Option<TurnKey> {
    if task !in w.tasks then None
    else
      var k := w.tasks[task].turn;
      if k.Some? && k.value in w.states && w.states[k.value].owner in w.runs
         && w.runs[w.states[k.value].owner].open && w.states[k.value].turn.status == Unknown
      then k else None
  }

  /** A trace is attributed only to a turn that is active in its task, of a run that has started and
      carries its root's decision. */
  lemma CurrentTurnIsLive(w: World, task: TaskKey)
    requires Inv(w) && CurrentTurn(w, task).Some?
    ensures var k := CurrentTurn(w, task).value;
            && k in w.turns && TurnActive(k, w.turns[k], w.tasks[task])
            && RunDecided(w, w.states[k].owner)
  {
    var k := CurrentTurn(w, task).value;
    hide RunsReplay;
    assert StateLinked(w, k) && TurnLinked(w, k);
    assert RunDecided(w, w.states[k].owner);
  }
}
