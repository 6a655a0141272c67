/** Replaying captured batches: the last snapshot wins for the run and for each turn, and events are
    appended. What is replayed from the attempts of one run equals what its contexts hold in memory. */
module CaptureReplay {
  import opened Options
  import opened CaptureRecords

  datatype Bundle = Bundle(run: Option<RunSnapshot>, turns: seq<TurnSnapshot>, events: seq<Event>)

  function TurnIndex(turns: seq<TurnSnapshot>, id: TurnKey): (i: nat)
    ensures i <= |turns|
    ensures i < |turns| ==> turns[i].turnId == id
    ensures forall j :: 0 <= j < i ==> turns[j].turnId != id
  {
    if turns == [] || turns[0].turnId == id then 0 else 1 + TurnIndex(turns[1..], id)
  }

  function Upsert(turns: seq<TurnSnapshot>, turn: TurnSnapshot): seq<TurnSnapshot> {
    var i := TurnIndex(turns, turn.turnId);
    if i < |turns| then turns[i := turn] else turns + [turn]
  }

  function Apply(b: Bundle, batch: Batch): Bundle {
    Bundle(
      Some(batch.run),
      if batch.turn.Some? then Upsert(b.turns, batch.turn.value) else b.turns,
      if batch.event.Some? then b.events + [batch.event.value] else b.events)
  }

  function Replay(attempts: seq<Attempt>): Bundle {
    if attempts == [] then Bundle(None, [], [])
    else Apply(Replay(attempts[..|attempts| - 1]), attempts[|attempts| - 1].batch)
  }

  function EventsOf(events: seq<Event>, id: TurnKey): seq<Event> {
    if events == [] then []
    else
      var e := events[|events| - 1];
      EventsOf(events[..|events| - 1], id) + if e.turnId == id then [e] else []
  }

  // ---- What a complete bundle must satisfy: closed references, unique ids, contiguous numbers ----

  predicate TurnsValid(b: Bundle) {
    && (b.turns != [] ==> b.run.Some?)
    && (forall i :: 0 <= i < |b.turns| ==> b.turns[i].runId == b.run.value.runId && b.turns[i].sequence == i)
    && (forall i, j :: 0 <= i < j < |b.turns| ==> b.turns[i].turnId != b.turns[j].turnId)
  }

  // Numbers of one turn's events, in order; and of all the events of the run.
  ghost predicate Numbered(events: seq<Event>) {
    && (forall i :: 0 <= i < |events| ==> events[i].producerSequence == i)
    && (forall id: TurnKey, j :: 0 <= j < |EventsOf(events, id)| ==> EventsOf(events, id)[j].sequence == j)
    && (forall i, j :: 0 <= i < j < |events| ==> events[i].eventId < events[j].eventId)
  }

  predicate EventsClosed(b: Bundle) {
    forall i :: 0 <= i < |b.events| ==> TurnIndex(b.turns, b.events[i].turnId) < |b.turns|
  }

  ghost predicate ValidBundle(b: Bundle) {
    TurnsValid(b) && Numbered(b.events) && EventsClosed(b)
  }

  // ---- What memory holds of one run ----

  ghost predicate TurnsMatch(b: Bundle, key: RunKey, run: Run, states: map<TurnKey, TurnState>) {
    && |b.turns| == run.turnSequence
    && (forall i :: 0 <= i < |b.turns| ==>
          && b.turns[i].turnId in states
          && states[b.turns[i].turnId].owner == key
          && states[b.turns[i].turnId].turn == b.turns[i]
          && b.turns[i].sequence == i)
    && (forall k :: k in states && states[k].owner == key ==>
          states[k].turn.sequence < |b.turns| && b.turns[states[k].turn.sequence].turnId == k)
  }

  ghost predicate EventsMatch(b: Bundle, key: RunKey, run: Run, states: map<TurnKey, TurnState>, eventIds: nat) {
    && |b.events| == run.producerSequence
    && (forall k :: k in states && states[k].owner == key ==> |EventsOf(b.events, k)| == states[k].nextEvent)
    && (forall i :: 0 <= i < |b.events| ==>
          && b.events[i].eventId < eventIds
          && b.events[i].turnId in states
          && states[b.events[i].turnId].owner == key)
  }

  ghost predicate Matches(b: Bundle, key: RunKey, run: Run, states: map<TurnKey, TurnState>, eventIds: nat) {
    && b.run == run.snapshot
    && TurnsMatch(b, key, run, states)
    && EventsMatch(b, key, run, states, eventIds)
    && Numbered(b.events)
  }

  // Every turn state of this run names itself and its run.
  ghost predicate StatesNamed(key: RunKey, run: Run, states: map<TurnKey, TurnState>) {
    forall k :: k in states && states[k].owner == key ==>
      states[k].turn.turnId == k && states[k].turn.runId == run.runId
  }

  ghost predicate PrefixesValid(attempts: seq<Attempt>) {
    forall n :: 0 <= n <= |attempts| ==> ValidBundle(Replay(attempts[..n]))
  }

  // The stored attempts come first; the latch is set exactly when one was lost. No attempt is lost
  // to the batch's own consistency check.
  predicate Latched(attempts: seq<Attempt>, failed: bool) {
    && (forall i, j :: 0 <= i < j < |attempts| && attempts[j].stored ==> attempts[i].stored)
    && (!failed ==> forall i :: 0 <= i < |attempts| ==> attempts[i].stored)
    && (failed ==> attempts != [] && !attempts[|attempts| - 1].stored)
    && (forall i :: 0 <= i < |attempts| ==> BatchValid(attempts[i].batch))
  }

  ghost predicate RunInv(key: RunKey, run: Run, states: map<TurnKey, TurnState>, attempts: seq<Attempt>,
      eventIds: nat) {
    && (run.snapshot.Some? ==>
          && run.source.Some?
          && run.snapshot.value.runId == run.runId
          && run.snapshot.value.sourceId == run.source.value.sourceId
          && run.snapshot.value.tenant == run.source.value.tenant)
    && (run.snapshot.None? ==>
          && run.turnSequence == run.producerSequence == 0
          && forall k :: k in states ==> states[k].owner != key)
    && StatesNamed(key, run, states)
    && (!CanEmit(run) ==> attempts == [])
    && (CanEmit(run) ==> Matches(Replay(attempts), key, run, states, eventIds))
    && PrefixesValid(attempts)
    && Latched(attempts, run.captureFailed)
  }

  // ---- A bundle that matches memory is valid ----

  lemma MatchesIsValid(b: Bundle, key: RunKey, run: Run, states: map<TurnKey, TurnState>, eventIds: nat)
    requires Matches(b, key, run, states, eventIds) && StatesNamed(key, run, states)
    requires run.snapshot.Some? && run.snapshot.value.runId == run.runId
    ensures ValidBundle(b)
  {
    forall i | 0 <= i < |b.events| ensures TurnIndex(b.turns, b.events[i].turnId) < |b.turns| {
      var k := b.events[i].turnId;
      assert b.turns[states[k].turn.sequence].turnId == k;
    }
    forall i, j | 0 <= i < j < |b.turns| ensures b.turns[i].turnId != b.turns[j].turnId {
      assert states[b.turns[i].turnId].turn.sequence == i;
      assert states[b.turns[j].turnId].turn.sequence == j;
    }
  }

  // ---- One emission ----

  lemma ReplayNext(attempts: seq<Attempt>, a: Attempt)
    ensures Replay(attempts + [a]) == Apply(Replay(attempts), a.batch)
  {
    assert (attempts + [a])[..|attempts|] == attempts;
  }

  lemma PrefixesNext(attempts: seq<Attempt>, a: Attempt)
    requires PrefixesValid(attempts) && ValidBundle(Replay(attempts + [a]))
    ensures PrefixesValid(attempts + [a])
  {
    forall n | 0 <= n <= |attempts + [a]| ensures ValidBundle(Replay((attempts + [a])[..n])) {
      if n <= |attempts| {
        assert (attempts + [a])[..n] == attempts[..n];
      } else {
        assert (attempts + [a])[..n] == attempts + [a];
      }
    }
  }

  // The attempt Emit makes for a run that can emit.
  function AttemptMade(key: RunKey, run: Run, turn: Option<TurnSnapshot>, event: Option<Event>, trace: Option<nat>,
      sink: bool): Attempt
    requires CanEmit(run)
  {
    var batch := Batch(run.source.value, run.snapshot.value, turn, event);
    Attempt(key, batch, trace, !run.captureFailed && BatchValid(batch) && sink)
  }

  function Added(key: RunKey, run: Run, turn: Option<TurnSnapshot>, event: Option<Event>, trace: Option<nat>,
      sink: bool): seq<Attempt>
  {
    if CanEmit(run) then [AttemptMade(key, run, turn, event, trace, sink)] else []
  }

  // The run record as an emission finds it: like RunInv, but memory is one operation ahead of the log.
  ghost predicate Ahead(key: RunKey, run: Run, states: map<TurnKey, TurnState>, attempts: seq<Attempt>,
      turn: Option<TurnSnapshot>, event: Option<Event>, eventIds: nat)
  {
    && run.snapshot.Some? && run.source.Some?
    && run.snapshot.value.runId == run.runId
    && run.snapshot.value.sourceId == run.source.value.sourceId
    && run.snapshot.value.tenant == run.source.value.tenant
    && StatesNamed(key, run, states)
    && PrefixesValid(attempts)
    && Latched(attempts, run.captureFailed)
    && var batch := Batch(run.source.value, run.snapshot.value, turn, event);
       && BatchValid(batch)
       && if CanEmit(run) then Matches(Apply(Replay(attempts), batch), key, run, states, eventIds) else attempts == []
  }

  lemma LatchedNext(attempts: seq<Attempt>, failed: bool, a: Attempt)
    requires Latched(attempts, failed) && BatchValid(a.batch) && (a.stored ==> !failed)
    ensures Latched(attempts + [a], failed || !a.stored)
  {
    hide BatchValid;
  }

  // The latch does not matter to what memory holds.
  lemma MatchesLatched(b: Bundle, key: RunKey, run: Run, states: map<TurnKey, TurnState>, eventIds: nat, failed: bool)
    requires Matches(b, key, run, states, eventIds)
    ensures Matches(b, key, run.(captureFailed := failed), states, eventIds)
  {
    hide Numbered, EventsOf;
  }

  lemma EmitKeepsInv(key: RunKey, run: Run, states: map<TurnKey, TurnState>, attempts: seq<Attempt>,
      eventIds: nat, turn: Option<TurnSnapshot>, event: Option<Event>, trace: Option<nat>, sink: bool, channel: Channel)
    requires Ahead(key, run, states, attempts, turn, event, eventIds)
    ensures var e := Emit(key, run, channel, turn, event, trace, sink);
            var added := Added(key, run, turn, event, trace, sink);
            && e.channel.log == channel.log + added
            && RunInv(key, e.run, states, attempts + added, eventIds)
  {
    hide Matches, Replay, Apply, ValidBundle, PrefixesValid, Latched, BatchValid;
    if CanEmit(run) {
      var a := AttemptMade(key, run, turn, event, trace, sink);
      var failed := run.captureFailed || !a.stored;
      ReplayNext(attempts, a);
      MatchesIsValid(Replay(attempts + [a]), key, run, states, eventIds);
      MatchesLatched(Replay(attempts + [a]), key, run, states, eventIds, failed);
      PrefixesNext(attempts, a);
      LatchedNext(attempts, run.captureFailed, a);
    } else {
      assert attempts + [] == attempts;
    }
  }

  // ---- The four operations that emit ----

  // A run is entered or closed: only its own snapshot changes.
  lemma RunAhead(key: RunKey, before: Run, run: Run, states: map<TurnKey, TurnState>, attempts: seq<Attempt>,
      eventIds: nat)
    requires RunInv(key, before, states, attempts, eventIds)
    requires run.snapshot.Some? && run.source.Some?
    requires run.snapshot.value.runId == run.runId
    requires run.snapshot.value.sourceId == run.source.value.sourceId
    requires run.snapshot.value.tenant == run.source.value.tenant
    requires before.snapshot.Some? ==> run.runId == before.runId && run.sampled == before.sampled
    requires run.turnSequence == before.turnSequence && run.producerSequence == before.producerSequence
    requires run.captureFailed == before.captureFailed
    ensures Ahead(key, run, states, attempts, None, None, eventIds)
  {
  }

  lemma {:induction false} EventsOfNone(events: seq<Event>, id: TurnKey)
    requires forall i :: 0 <= i < |events| ==> events[i].turnId != id
    ensures EventsOf(events, id) == []
  {
    if events != [] {
      EventsOfNone(events[..|events| - 1], id);
    }
  }

  // A turn is entered: a new state takes the run's next turn number.
  lemma TurnOpenedAhead(key: RunKey, before: Run, run: Run, states: map<TurnKey, TurnState>, attempts: seq<Attempt>,
      eventIds: nat, turn: TurnSnapshot)
    requires RunInv(key, before, states, attempts, eventIds)
    requires before.snapshot.Some? && turn.turnId !in states
    requires turn.runId == before.runId && turn.sequence == before.turnSequence
    requires run == before.(turnSequence := before.turnSequence + 1, latestTurn := run.latestTurn)
    ensures Ahead(key, run, states[turn.turnId := TurnState(key, turn, 0)], attempts, Some(turn), None, eventIds)
  {
    hide TurnsMatch, EventsMatch, Numbered, PrefixesValid, Upsert;
    if CanEmit(run) {
      TurnsMatchOpened(Replay(attempts), key, before, run, states, turn);
      EventsMatchOpened(Replay(attempts), key, before, run, states, eventIds, turn);
    }
  }

  lemma TurnsMatchOpened(b: Bundle, key: RunKey, before: Run, run: Run, states: map<TurnKey, TurnState>,
      turn: TurnSnapshot)
    requires TurnsMatch(b, key, before, states) && turn.turnId !in states && turn.sequence == before.turnSequence
    requires run.turnSequence == before.turnSequence + 1
    ensures TurnsMatch(b.(turns := Upsert(b.turns, turn)), key, run, states[turn.turnId := TurnState(key, turn, 0)])
  {
    assert TurnIndex(b.turns, turn.turnId) == |b.turns|;
  }

  lemma EventsMatchOpened(b: Bundle, key: RunKey, before: Run, run: Run, states: map<TurnKey, TurnState>,
      eventIds: nat, turn: TurnSnapshot)
    requires EventsMatch(b, key, before, states, eventIds) && turn.turnId !in states
    requires run.producerSequence == before.producerSequence
    ensures EventsMatch(b.(turns := Upsert(b.turns, turn)), key, run,
                        states[turn.turnId := TurnState(key, turn, 0)], eventIds)
  {
    EventsOfNone(b.events, turn.turnId);
  }

  // A turn is closed: its snapshot changes, its identity does not.
  lemma TurnClosedAhead(key: RunKey, run: Run, states: map<TurnKey, TurnState>, attempts: seq<Attempt>,
      eventIds: nat, k: TurnKey, turn: TurnSnapshot)
    requires RunInv(key, run, states, attempts, eventIds)
    requires run.snapshot.Some? && k in states && states[k].owner == key
    requires turn.turnId == k && turn.runId == states[k].turn.runId && turn.sequence == states[k].turn.sequence
    ensures Ahead(key, run, states[k := states[k].(turn := turn)], attempts, Some(turn), None, eventIds)
  {
    hide TurnsMatch, EventsMatch, Numbered, PrefixesValid, Upsert;
    if CanEmit(run) {
      var b := Replay(attempts);
      TurnsMatchClosed(b, key, run, states, k, turn);
      EventsMatchFrame(b, key, run, states, eventIds, k, turn);
    }
  }

  lemma TurnsMatchClosed(b: Bundle, key: RunKey, run: Run, states: map<TurnKey, TurnState>, k: TurnKey,
      turn: TurnSnapshot)
    requires TurnsMatch(b, key, run, states) && k in states && states[k].owner == key
    requires turn.turnId == k && turn.sequence == states[k].turn.sequence
    ensures TurnsMatch(b.(turns := Upsert(b.turns, turn)), key, run, states[k := states[k].(turn := turn)])
  {
    TurnFound(b, key, run, states, k);
  }

  lemma EventsMatchFrame(b: Bundle, key: RunKey, run: Run, states: map<TurnKey, TurnState>, eventIds: nat,
      k: TurnKey, turn: TurnSnapshot)
    requires EventsMatch(b, key, run, states, eventIds) && k in states && states[k].owner == key
    ensures EventsMatch(b.(turns := Upsert(b.turns, turn)), key, run, states[k := states[k].(turn := turn)], eventIds)
  {
  }

  lemma TurnFound(b: Bundle, key: RunKey, run: Run, states: map<TurnKey, TurnState>, k: TurnKey)
    requires TurnsMatch(b, key, run, states) && k in states && states[k].owner == key
    ensures TurnIndex(b.turns, k) == states[k].turn.sequence
  {
    var i := TurnIndex(b.turns, k);
    assert b.turns[states[k].turn.sequence].turnId == k;
    assert states[b.turns[i].turnId].turn == b.turns[i];
  }

  lemma EventsOfNext(events: seq<Event>, e: Event, id: TurnKey)
    ensures EventsOf(events + [e], id) == EventsOf(events, id) + if e.turnId == id then [e] else []
  {
    assert (events + [e])[..|events|] == events;
  }

  // An event is recorded: it takes the next number of its turn and of its run.
  lemma EventAhead(key: RunKey, before: Run, run: Run, states: map<TurnKey, TurnState>, attempts: seq<Attempt>,
      eventIds: nat, k: TurnKey, event: Event)
    requires RunInv(key, before, states, attempts, eventIds)
    requires before.snapshot.Some? && k in states && states[k].owner == key
    requires run == before.(producerSequence := before.producerSequence + 1)
    requires event.turnId == k && event.eventId == eventIds
    requires event.sequence == states[k].nextEvent && event.producerSequence == before.producerSequence
    ensures Ahead(key, run, states[k := states[k].(nextEvent := states[k].nextEvent + 1)], attempts,
                  Some(states[k].turn), Some(event), eventIds + 1)
  {
    if CanEmit(run) {
      var b := Replay(attempts);
      assert Matches(b, key, before, states, eventIds);
      EventMatches(b, key, before, states, eventIds, k, event);
    }
    hide Matches, PrefixesValid;
  }

  lemma EventMatches(b: Bundle, key: RunKey, run: Run, states: map<TurnKey, TurnState>, eventIds: nat,
      k: TurnKey, event: Event)
    requires Matches(b, key, run, states, eventIds) && k in states && states[k].owner == key
    requires event.turnId == k && event.eventId == eventIds
    requires event.sequence == states[k].nextEvent && event.producerSequence == run.producerSequence
    ensures Matches(Bundle(b.run, Upsert(b.turns, states[k].turn), b.events + [event]), key,
                    run.(producerSequence := run.producerSequence + 1),
                    states[k := states[k].(nextEvent := states[k].nextEvent + 1)], eventIds + 1)
  {
    SameTurnKept(b, key, run, states, k);
    EventNumbersFollow(b, key, run, states, eventIds, k, event);
    hide Numbered, EventsMatch, Upsert;
    EventNumbered(b.events, event);
    EventMatched(b, key, run, states, eventIds, k, event);
    CountedTurnsMatch(b, key, run, states, k);
    hide TurnsMatch;
  }

  lemma SameTurnKept(b: Bundle, key: RunKey, run: Run, states: map<TurnKey, TurnState>, k: TurnKey)
    requires TurnsMatch(b, key, run, states) && k in states && states[k].owner == key
    ensures Upsert(b.turns, states[k].turn) == b.turns
  {
    TurnFound(b, key, run, states, k);
    hide TurnIndex;
  }

  // The numbers an event takes are the next ones of the bundle.
  lemma EventNumbersFollow(b: Bundle, key: RunKey, run: Run, states: map<TurnKey, TurnState>, eventIds: nat,
      k: TurnKey, event: Event)
    requires EventsMatch(b, key, run, states, eventIds) && k in states && states[k].owner == key
    requires event.turnId == k && event.eventId == eventIds
    requires event.sequence == states[k].nextEvent && event.producerSequence == run.producerSequence
    ensures event.producerSequence == |b.events| && event.sequence == |EventsOf(b.events, event.turnId)|
    ensures forall i :: 0 <= i < |b.events| ==> b.events[i].eventId < event.eventId
  {
    hide EventsOf;
  }

  lemma CountedTurnsMatch(b: Bundle, key: RunKey, run: Run, states: map<TurnKey, TurnState>, k: TurnKey)
    requires TurnsMatch(b, key, run, states) && k in states && states[k].owner == key
    ensures forall events, n, p :: TurnsMatch(b.(events := events), key, run.(producerSequence := p),
                                              states[k := states[k].(nextEvent := n)])
  {
  }

  lemma EventNumbered(events: seq<Event>, event: Event)
    requires Numbered(events)
    requires event.producerSequence == |events| && event.sequence == |EventsOf(events, event.turnId)|
    requires forall i :: 0 <= i < |events| ==> events[i].eventId < event.eventId
    ensures Numbered(events + [event])
  {
    forall id: TurnKey, j | 0 <= j < |EventsOf(events + [event], id)|
      ensures EventsOf(events + [event], id)[j].sequence == j
    {
      EventsOfNext(events, event, id);
    }
  }

  lemma EventMatched(b: Bundle, key: RunKey, run: Run, states: map<TurnKey, TurnState>, eventIds: nat,
      k: TurnKey, event: Event)
    requires EventsMatch(b, key, run, states, eventIds) && k in states && states[k].owner == key
    requires event.turnId == k && event.eventId == eventIds
    ensures EventsMatch(b.(events := b.events + [event]), key, run.(producerSequence := run.producerSequence + 1),
                        states[k := states[k].(nextEvent := states[k].nextEvent + 1)], eventIds + 1)
  {
    forall i | i in states && states[i].owner == key
      ensures |EventsOf(b.events + [event], i)| == states[i].nextEvent + if i == k then 1 else 0
    {
      EventsOfNext(b.events, event, i);
    }
  }

  // ---- Runs an operation does not touch ----

  lemma OtherStates(key: RunKey, run: Run, states: map<TurnKey, TurnState>, attempts: seq<Attempt>, eventIds: nat,
      states': map<TurnKey, TurnState>, eventIds': nat)
    requires RunInv(key, run, states, attempts, eventIds) && eventIds <= eventIds'
    requires forall k :: k in states' && states'[k].owner == key <==> k in states && states[k].owner == key
    requires forall k :: k in states && states[k].owner == key ==> states'[k] == states[k]
    ensures RunInv(key, run, states', attempts, eventIds')
  {
  }
}
