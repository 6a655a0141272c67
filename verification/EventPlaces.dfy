/** The numbers of events told by places: where an event stands in the log, and which request it serves. */
module EventPlaces {
  import opened EventNumbering

  datatype Kind = AnyEvent | EventOf(k: TurnKey) | AnyOpening | TakenBy(t: ThreadId)

  predicate IsA(x: Taken, kind: Kind) {
    match kind
    case AnyEvent => x.EventTaken?
    case EventOf(k) => x.EventTaken? && x.turn == k
    case AnyOpening => x.TurnTaken?
    case TakenBy(t) => x.thread == t
  }

  function Selected(log: seq<Taken>, kind: Kind): seq<Taken> {
    match kind
    case AnyEvent => Events(log)
    case EventOf(k) => OnTurn(log, k)
    case AnyOpening => Openings(log)
    case TakenBy(t) => By(log, t)
  }

  // All the places of the log with a number of the kind, in order.
  ghost predicate ArePlaces(at: seq<nat>, log: seq<Taken>, kind: Kind) {
    && (forall i :: 0 <= i < |at| ==> at[i] < |log|)
    && (forall i, j :: 0 <= i < j < |at| ==> at[i] < at[j])
    && (forall i :: 0 <= i < |log| ==> (i in at <==> IsA(log[i], kind)))
  }

  lemma PlacesGrow(at: seq<nat>, log: seq<Taken>, kind: Kind)
    requires log != [] && ArePlaces(at, log[..|log| - 1], kind)
    ensures ArePlaces(at + if IsA(log[|log| - 1], kind) then [|log| - 1] else [], log, kind)
  {
    hide IsA;
    var n := |log| - 1;
    assert forall i :: 0 <= i < n ==> log[..n][i] == log[i];
  }

  lemma SelectedNext(log: seq<Taken>, kind: Kind)
    requires log != []
    ensures var n := |log| - 1;
            Selected(log, kind) == Selected(log[..n], kind) + if IsA(log[n], kind) then [log[n]] else []
  {
  }

  lemma NoPlaces(kind: Kind)
    ensures ArePlaces([], [], kind) && Selected([], kind) == []
  {
  }

  lemma {:induction false} PlacesOf(log: seq<Taken>, kind: Kind) returns (at: seq<nat>)
    ensures ArePlaces(at, log, kind) && |at| == |Selected(log, kind)|
    ensures forall i :: 0 <= i < |at| ==> at[i] < |log| && Selected(log, kind)[i] == log[at[i]]
  {
    hide Selected, IsA, ArePlaces;
    if log == [] {
      NoPlaces(kind);
      at := [];
    } else {
      var n := |log| - 1;
      at := PlacesOf(log[..n], kind);
      PlacesGrow(at, log, kind);
      SelectedNext(log, kind);
      at := at + if IsA(log[n], kind) then [n] else [];
    }
  }

  /** The numbers are places in the log: the n-th event of the run has number n, the n-th of a turn number n
      in its turn, and the n-th opening of a turn number n. */
  lemma NumbersArePlaces(log: seq<Taken>, k: TurnKey) returns (events: seq<nat>, onTurn: seq<nat>, openings: seq<nat>)
    requires Numbered(log)
    ensures ArePlaces(events, log, AnyEvent)
    ensures forall n :: 0 <= n < |events| ==> log[events[n]].EventTaken? && log[events[n]].producer == n
    ensures ArePlaces(onTurn, log, EventOf(k))
    ensures forall n :: 0 <= n < |onTurn| ==> log[onTurn[n]].EventTaken? && log[onTurn[n]].sequence == n
    ensures ArePlaces(openings, log, AnyOpening)
    ensures forall n :: 0 <= n < |openings| ==> log[openings[n]].TurnTaken? && log[openings[n]].number == n
  {
    events := PlacesOf(log, AnyEvent);
    onTurn := PlacesOf(log, EventOf(k));
    openings := PlacesOf(log, AnyOpening);
    hide ArePlaces, Events, OnTurn, Openings;
    assert forall n :: 0 <= n < |events| ==> Events(log)[n] == log[events[n]];
    assert forall n :: 0 <= n < |onTurn| ==> OnTurn(log, k)[n] == log[onTurn[n]];
    assert forall n :: 0 <= n < |openings| ==> Openings(log)[n] == log[openings[n]];
  }

  // All the requests of a program but the invalid ones, in order.
  ghost predicate AreAccepted(at: seq<nat>, program: seq<Request>) {
    && (forall i :: 0 <= i < |at| ==> at[i] < |program|)
    && (forall i, j :: 0 <= i < j < |at| ==> at[i] < at[j])
    && (forall i :: 0 <= i < |program| ==> (i in at <==> program[i].OpenTurn? || program[i].valid))
  }

  lemma AcceptedGrow(at: seq<nat>, program: seq<Request>)
    requires program != [] && AreAccepted(at, program[..|program| - 1])
    ensures var n := |program| - 1;
            AreAccepted(at + if program[n].OpenTurn? || program[n].valid then [n] else [], program)
  {
    var n := |program| - 1;
    assert forall i :: 0 <= i < n ==> program[..n][i] == program[i];
  }

  function OneAccepted(request: Request): seq<Request> {
    if request.OpenTurn? || request.valid then [request] else []
  }

  lemma AcceptedFirst(program: seq<Request>)
    requires program != []
    ensures Accepted(program) == OneAccepted(program[0]) + Accepted(program[1..])
  {
  }

  lemma {:induction false} AcceptedNext(program: seq<Request>)
    requires program != []
    ensures var n := |program| - 1;
            Accepted(program) == Accepted(program[..n]) + OneAccepted(program[n])
  {
    var n := |program| - 1;
    AcceptedFirst(program);
    if n == 0 {
      assert program[..0] == [] && program[1..] == [];
      assert Accepted([]) == [];
    } else {
      AcceptedNext(program[1..]);
      AcceptedFirst(program[..n]);
      hide Accepted, OneAccepted;
      assert program[1..][..n - 1] == program[..n][1..];
      assert OneAccepted(program[0]) + (Accepted(program[1..][..n - 1]) + OneAccepted(program[n]))
          == OneAccepted(program[0]) + Accepted(program[1..][..n - 1]) + OneAccepted(program[n]);
    }
  }

  lemma {:induction false} AcceptedPlaces(program: seq<Request>) returns (at: seq<nat>)
    ensures AreAccepted(at, program) && |at| == |Accepted(program)|
    ensures forall i :: 0 <= i < |at| ==> at[i] < |program| && Accepted(program)[i] == program[at[i]]
  {
    at := [];
    if program != [] {
      var n := |program| - 1;
      at := AcceptedPlaces(program[..n]);
      AcceptedGrow(at, program);
      AcceptedNext(program);
      hide Accepted, AreAccepted;
      at := at + if program[n].OpenTurn? || program[n].valid then [n] else [];
    }
  }

  /** When all threads have finished, the requests of a thread that were not rejected match the numbers it took,
      one by one and in order: a turn it opened, or an event of the turn it named. */
  lemma RequestsMatchNumbers(programs: seq<seq<Request>>, schedule: seq<ThreadId>, t: ThreadId)
    returns (asked: seq<nat>, given: seq<nat>)
    requires Schedulable(Start(programs), schedule) && Finished(RunAll(Start(programs), schedule)) && t < |programs|
    ensures var log := RunAll(Start(programs), schedule).log;
            && AreAccepted(asked, programs[t]) && ArePlaces(given, log, TakenBy(t)) && |asked| == |given|
            && forall i :: 0 <= i < |asked| ==>
                 match programs[t][asked[i]]
                 case OpenTurn => log[given[i]].TurnTaken?
                 case RecordEvent(k, _) => log[given[i]].EventTaken? && log[given[i]].turn == k
  {
    RejectedEventsTakeNoNumber(programs, schedule, t);
    var log := RunAll(Start(programs), schedule).log;
    asked := AcceptedPlaces(programs[t]);
    given := PlacesOf(log, TakenBy(t));
    AskedEach(By(log, t));
    hide RunAll, Schedulable, Finished, ArePlaces, AreAccepted, By, Accepted, AllAsked;
    assert Selected(log, TakenBy(t)) == By(log, t);
  }

  lemma {:induction false} AskedEach(made: seq<Taken>)
    ensures |AllAsked(made)| == |made|
    ensures forall i :: 0 <= i < |made| ==> AllAsked(made)[i] == Asked(made[i])
  {
    if made != [] {
      AskedEach(made[..|made| - 1]);
    }
  }
}
