/** Threads numbering events of one run. A thread that records an event takes the lock of the turn
    and inside it the lock of the run; a thread that opens a turn takes the lock of the run alone.
    Every lock operation, read and write is a step, and threads interleave freely. */
module EventNumbering {
  type TurnKey = nat
  type ThreadId = nat

  // What a thread is asked to do. An invalid event is rejected when it is constructed.
  datatype Request = RecordEvent(turn: TurnKey, valid: bool) | OpenTurn

  // The numbers one request took.
  datatype Taken =
    | EventTaken(thread: ThreadId, turn: TurnKey, sequence: nat, producer: nat)
    | TurnTaken(thread: ThreadId, number: nat)

  datatype Pc =
    | Idle
    | AtTurnLock(turn: TurnKey)
    | InTurn(turn: TurnKey)
    | AtRunLock(turn: TurnKey, sequence: nat)
    | InRun(turn: TurnKey, sequence: nat)
    | ReadProducer(turn: TurnKey, sequence: nat, producer: nat)
    | WroteProducer(turn: TurnKey, sequence: nat, producer: nat)
    | LeftRun(turn: TurnKey, sequence: nat, producer: nat)
    | WroteSequence(turn: TurnKey, sequence: nat, producer: nat)
    | AtRunLockToOpen
    | InRunToOpen
    | ReadNumber(number: nat)
    | WroteNumber(number: nat)

  datatype Thread = Thread(pc: Pc, todo: seq<Request>, made: seq<Taken>)

  // held says which thread holds the lock of a turn. log is a history variable: the numbers in the
  // order in which the run's counters moved.
  datatype State = State(
    threads: seq<Thread>, held: map<TurnKey, ThreadId>, runLock: int,
    sequences: map<TurnKey, nat>, producer: nat, turnNumber: nat, log: seq<Taken>)

  const FREE := -1

  function SequenceOf(s: State, k: TurnKey): nat {
    if k in s.sequences then s.sequences[k] else 0
  }

  function Start(programs: seq<seq<Request>>): State {
    State(seq(|programs|, i requires 0 <= i < |programs| => Thread(Idle, programs[i], [])), map[], FREE, map[], 0, 0,
        [])
  }

  // ---- Steps ----

  predicate Enabled(s: State, t: ThreadId) {
    && t < |s.threads|
    && match s.threads[t].pc
       case Idle => s.threads[t].todo != []
       case AtTurnLock(k) => k !in s.held
       case AtRunLock(_, _) => s.runLock == FREE
       case AtRunLockToOpen => s.runLock == FREE
       case _ => true
  }

  function At(s: State, t: ThreadId, pc: Pc): State
    requires t < |s.threads|
  {
    s.(threads := s.threads[t := s.threads[t].(pc := pc)])
  }

  function Made(s: State, t: ThreadId, x: Taken): State
    requires t < |s.threads|
  {
    s.(threads := s.threads[t := s.threads[t].(pc := Idle, made := s.threads[t].made + [x])])
  }

  function Next(s: State, t: ThreadId): State
    requires Enabled(s, t)
  {
    var thread := s.threads[t];
    match thread.pc
    case Idle =>
      var pc := match thread.todo[0]
                case OpenTurn => AtRunLockToOpen
                case RecordEvent(k, valid) => if valid then AtTurnLock(k) else Idle;
      s.(threads := s.threads[t := thread.(pc := pc, todo := thread.todo[1..])])
    case AtTurnLock(k) => At(s.(held := s.held[k := t]), t, InTurn(k))
    case InTurn(k) => At(s, t, AtRunLock(k, SequenceOf(s, k)))
    case AtRunLock(k, n) => At(s.(runLock := t), t, InRun(k, n))
    case InRun(k, n) => At(s, t, ReadProducer(k, n, s.producer))
    case ReadProducer(k, n, p) =>
      At(s.(producer := s.producer + 1, log := s.log + [EventTaken(t, k, n, p)]), t, WroteProducer(k, n, p))
    case WroteProducer(k, n, p) => At(s.(runLock := FREE), t, LeftRun(k, n, p))
    case LeftRun(k, n, p) => At(s.(sequences := s.sequences[k := SequenceOf(s, k) + 1]), t, WroteSequence(k, n, p))
    case WroteSequence(k, n, p) => Made(s.(held := s.held - {k}), t, EventTaken(t, k, n, p))
    case AtRunLockToOpen => At(s.(runLock := t), t, InRunToOpen)
    case InRunToOpen => At(s, t, ReadNumber(s.turnNumber))
    case ReadNumber(n) => At(s.(turnNumber := s.turnNumber + 1, log := s.log + [TurnTaken(t, n)]), t, WroteNumber(n))
    case WroteNumber(n) => Made(s.(runLock := FREE), t, TurnTaken(t, n))
  }

  predicate Schedulable(s: State, schedule: seq<ThreadId>)
    decreases |schedule|
  {
    schedule == [] || (Enabled(s, schedule[0]) && Schedulable(Next(s, schedule[0]), schedule[1..]))
  }

  function RunAll(s: State, schedule: seq<ThreadId>): State
    requires Schedulable(s, schedule)
    decreases |schedule|
  {
    if schedule == [] then s else RunAll(Next(s, schedule[0]), schedule[1..])
  }

  // ---- What the numbers should be ----

  function Events(log: seq<Taken>): seq<Taken> {
    if log == [] then []
    else Events(log[..|log| - 1]) + if log[|log| - 1].EventTaken? then [log[|log| - 1]] else []
  }

  function OnTurn(log: seq<Taken>, k: TurnKey): seq<Taken> {
    if log == [] then []
    else
      var x := log[|log| - 1];
      OnTurn(log[..|log| - 1], k) + if x.EventTaken? && x.turn == k then [x] else []
  }

  function Openings(log: seq<Taken>): seq<Taken> {
    if log == [] then []
    else Openings(log[..|log| - 1]) + if log[|log| - 1].TurnTaken? then [log[|log| - 1]] else []
  }

  function By(log: seq<Taken>, t: ThreadId): seq<Taken> {
    if log == [] then []
    else By(log[..|log| - 1], t) + if log[|log| - 1].thread == t then [log[|log| - 1]] else []
  }

  // The run counts its events 0, 1, 2, ..., each turn counts its own, and turns are counted likewise.
  ghost predicate Numbered(log: seq<Taken>) {
    && (forall i {:trigger Events(log)[i]} :: 0 <= i < |Events(log)| ==>
         Events(log)[i].EventTaken? && Events(log)[i].producer == i)
    && (forall k, j {:trigger OnTurn(log, k)[j]} :: 0 <= j < |OnTurn(log, k)| ==>
          OnTurn(log, k)[j].EventTaken? && OnTurn(log, k)[j].turn == k && OnTurn(log, k)[j].sequence == j)
    && (forall i {:trigger Openings(log)[i]} :: 0 <= i < |Openings(log)| ==>
         Openings(log)[i].TurnTaken? && Openings(log)[i].number == i)
  }

  // Of two events of one turn, the one with the lower number in the turn has the lower number in the run.
  predicate OrdersAgree(log: seq<Taken>) {
    forall i, j :: 0 <= i < j < |log| && log[i].EventTaken? && log[j].EventTaken? ==>
      && log[i].producer < log[j].producer
      && (log[i].turn == log[j].turn ==> log[i].sequence < log[j].sequence)
  }

  lemma Appended(log: seq<Taken>, x: Taken)
    ensures Events(log + [x]) == Events(log) + if x.EventTaken? then [x] else []
    ensures forall k :: OnTurn(log + [x], k) == OnTurn(log, k) + if x.EventTaken? && x.turn == k then [x] else []
    ensures Openings(log + [x]) == Openings(log) + if x.TurnTaken? then [x] else []
    ensures forall t :: By(log + [x], t) == By(log, t) + if x.thread == t then [x] else []
  {
    assert (log + [x])[..|log|] == log;
  }

  // ---- Locks ----

  predicate HoldsTurn(pc: Pc) {
    pc.InTurn? || pc.AtRunLock? || pc.InRun? || pc.ReadProducer? || pc.WroteProducer? || pc.LeftRun?
        || pc.WroteSequence?
  }

  predicate HoldsRun(pc: Pc) {
    pc.InRun? || pc.ReadProducer? || pc.WroteProducer? || pc.InRunToOpen? || pc.ReadNumber? || pc.WroteNumber?
  }

  // A lock is held by the one thread that is between taking and releasing it.
  ghost predicate Locked(s: State) {
    && -1 <= s.runLock < |s.threads|
    && (forall t {:trigger ThreadLocks(s, t)} :: 0 <= t < |s.threads| ==> ThreadLocks(s, t))
    && (forall k {:trigger HeldByHolder(s, k)} :: k in s.held ==> HeldByHolder(s, k))
  }

  predicate ThreadLocks(s: State, t: ThreadId)
    requires t < |s.threads|
  {
    var pc := s.threads[t].pc;
    && (HoldsRun(pc) <==> s.runLock == t)
    && (HoldsTurn(pc) ==> pc.turn in s.held && s.held[pc.turn] == t)
  }

  predicate HeldByHolder(s: State, k: TurnKey) {
    k in s.held && s.held[k] < |s.threads| && HoldsTurn(s.threads[s.held[k]].pc) && s.threads[s.held[k]].pc.turn == k
  }

  // A number read but not yet returned is the one the counter still shows, or just showed.
  ghost predicate Fresh(s: State, t: ThreadId)
    requires t < |s.threads|
  {
    match s.threads[t].pc
    case AtRunLock(k, n) => n == SequenceOf(s, k)
    case InRun(k, n) => n == SequenceOf(s, k)
    case ReadProducer(k, n, p) => n == SequenceOf(s, k) && p == s.producer
    case WroteProducer(k, n, _) => n == SequenceOf(s, k)
    case LeftRun(k, n, _) => n == SequenceOf(s, k)
    case ReadNumber(n) => n == s.turnNumber
    case _ => true
  }

  // The thread has taken its numbers and has yet to count up the turn.
  predicate Ahead(pc: Pc) {
    pc.WroteProducer? || pc.LeftRun?
  }

  // Of the events of turn k, all but one in flight are counted by the turn.
  ghost predicate Counted(s: State, k: TurnKey) {
    |OnTurn(s.log, k)| == SequenceOf(s, k) + Gap(s, k)
  }

  function Gap(s: State, k: TurnKey): nat {
    if k in s.held && s.held[k] < |s.threads| && Ahead(s.threads[s.held[k]].pc) then 1 else 0
  }

  // ---- What each thread got for what it was asked ----

  function InFlight(pc: Pc, t: ThreadId): seq<Taken> {
    match pc
    case WroteProducer(k, n, p) => [EventTaken(t, k, n, p)]
    case LeftRun(k, n, p) => [EventTaken(t, k, n, p)]
    case WroteSequence(k, n, p) => [EventTaken(t, k, n, p)]
    case WroteNumber(n) => [TurnTaken(t, n)]
    case _ => []
  }

  function Asked(x: Taken): Request {
    if x.EventTaken? then RecordEvent(x.turn, true) else OpenTurn
  }

  function AllAsked(made: seq<Taken>): seq<Request> {
    if made == [] then [] else AllAsked(made[..|made| - 1]) + [Asked(made[|made| - 1])]
  }

  // The request a thread is working on.
  function Current(pc: Pc): seq<Request> {
    if pc.Idle? then []
    else if pc.AtRunLockToOpen? || pc.InRunToOpen? || pc.ReadNumber? || pc.WroteNumber? then [OpenTurn]
    else [RecordEvent(pc.turn, true)]
  }

  function Accepted(requests: seq<Request>): seq<Request> {
    if requests == [] then []
    else (if requests[0] == OpenTurn || requests[0].valid then [requests[0]] else []) + Accepted(requests[1..])
  }

  ghost predicate Serves(s: State, t: ThreadId, program: seq<Request>)
    requires t < |s.threads|
  {
    var thread := s.threads[t];
    && By(s.log, t) == thread.made + InFlight(thread.pc, t)
    && AllAsked(thread.made) + Current(thread.pc) + Accepted(thread.todo) == Accepted(program)
  }

  ghost predicate Inv(s: State, programs: seq<seq<Request>>) {
    && |s.threads| == |programs|
    && Locked(s)
    && Numbered(s.log) && OrdersAgree(s.log) && Below(s.log)
    && |Events(s.log)| == s.producer && |Openings(s.log)| == s.turnNumber
    && (forall k {:trigger Counted(s, k)} :: Counted(s, k))
    && (forall t {:trigger Fresh(s, t)} :: 0 <= t < |s.threads| ==> Fresh(s, t))
    && (forall t {:trigger Serves(s, t, programs[t])} :: 0 <= t < |s.threads| ==> Serves(s, t, programs[t]))
  }

  lemma NothingLogged()
    ensures Numbered([]) && OrdersAgree([]) && Below([]) && Events([]) == [] && Openings([]) == []
    ensures forall k :: OnTurn([], k) == []
    ensures forall t :: By([], t) == []
    ensures AllAsked([]) == []
  {
  }

  lemma StartInv(programs: seq<seq<Request>>)
    ensures Inv(Start(programs), programs)
  {
    var s := Start(programs);
    NothingLogged();
    hide Numbered, OrdersAgree, Below, Events, OnTurn, Openings, By, Accepted, AllAsked;
    forall t | 0 <= t < |s.threads| ensures Serves(s, t, programs[t]) {
      assert [] + [] + Accepted(programs[t]) == Accepted(programs[t]);
    }
  }

  // ---- Every step keeps the invariant ----

  // What a step does to the other threads, and to the locks.
  lemma NextThreads(s: State, t: ThreadId)
    requires Enabled(s, t)
    ensures |Next(s, t).threads| == |s.threads|
    ensures forall u :: 0 <= u < |s.threads| && u != t ==> Next(s, t).threads[u] == s.threads[u]
  {
  }

  lemma NextRunLock(s: State, t: ThreadId)
    requires Enabled(s, t)
    ensures var s', pc := Next(s, t), s.threads[t].pc;
            || (s'.runLock == s.runLock && (HoldsRun(s'.threads[t].pc) <==> HoldsRun(pc)))
            || (s.runLock == FREE && s'.runLock == t && HoldsRun(s'.threads[t].pc))
            || (HoldsRun(pc) && s'.runLock == FREE && !HoldsRun(s'.threads[t].pc))
  {
  }

  lemma NextHeld(s: State, t: ThreadId)
    requires Enabled(s, t)
    ensures var s', pc := Next(s, t), s.threads[t].pc;
            || (s'.held == s.held
                && (HoldsTurn(pc) <==> HoldsTurn(s'.threads[t].pc))
                     && (HoldsTurn(pc) ==> s'.threads[t].pc.turn == pc.turn))
            || (pc.AtTurnLock? && pc.turn !in s.held && s'.held == s.held[pc.turn := t]
                && HoldsTurn(s'.threads[t].pc) && s'.threads[t].pc.turn == pc.turn)
            || (pc.WroteSequence? && s'.held == s.held - {pc.turn} && !HoldsTurn(s'.threads[t].pc))
  {
  }

  lemma NextShape(s: State, t: ThreadId)
    requires Enabled(s, t)
    ensures var s' := Next(s, t);
            && |s'.threads| == |s.threads|
            && (forall u :: 0 <= u < |s.threads| && u != t ==> s'.threads[u] == s.threads[u])
            && (s'.runLock == s.runLock || (s.runLock == FREE && s'.runLock == t)
                 || (HoldsRun(s.threads[t].pc) && s'.runLock == FREE))
            && (forall k :: ((k in s'.held <==> k in s.held) && (k in s.held ==> s'.held[k] == s.held[k]))
                  || (s.threads[t].pc == AtTurnLock(k) && k !in s.held && k in s'.held && s'.held[k] == t)
                  || (s.threads[t].pc.WroteSequence? && s.threads[t].pc.turn == k && k !in s'.held))
  {
    NextThreads(s, t);
    NextRunLock(s, t);
    NextHeld(s, t);
    hide Next;
  }

  lemma NextLocked(s: State, t: ThreadId)
    requires Locked(s) && Enabled(s, t)
    ensures Locked(Next(s, t))
  {
    hide Next;
    var s' := Next(s, t);
    NextThreads(s, t);
    NextRunLock(s, t);
    NextHeld(s, t);
    assert ThreadLocks(s, t);
    hide HoldsRun, HoldsTurn;
    forall u | 0 <= u < |s'.threads| ensures ThreadLocks(s', u) {
      assert ThreadLocks(s, u);
    }
    forall k | k in s'.held ensures HeldByHolder(s', k) {
      assert k in s.held ==> HeldByHolder(s, k);
    }
    assert -1 <= s'.runLock < |s'.threads|;
    hide ThreadLocks, HeldByHolder;
  }

  // Every number in the log is below the next one to be given out.
  predicate Below(log: seq<Taken>) {
    forall i :: 0 <= i < |log| && log[i].EventTaken? ==>
      log[i].producer < |Events(log)| && log[i].sequence < |OnTurn(log, log[i].turn)|
  }

  lemma NumberedNext(log: seq<Taken>, x: Taken)
    requires Numbered(log) && OrdersAgree(log) && Below(log)
    requires x.EventTaken? ==> x.producer == |Events(log)| && x.sequence == |OnTurn(log, x.turn)|
    requires x.TurnTaken? ==> x.number == |Openings(log)|
    ensures Numbered(log + [x]) && OrdersAgree(log + [x]) && Below(log + [x])
  {
    Appended(log, x);
    hide Events, OnTurn, Openings;
  }

  lemma NextNumbered(s: State, t: ThreadId)
    requires Locked(s) && Enabled(s, t) && Fresh(s, t)
    requires Numbered(s.log) && OrdersAgree(s.log) && Below(s.log)
    requires |Events(s.log)| == s.producer && |Openings(s.log)| == s.turnNumber
    requires forall k :: Counted(s, k)
    ensures var s' := Next(s, t);
            && Numbered(s'.log) && OrdersAgree(s'.log) && Below(s'.log)
            && |Events(s'.log)| == s'.producer && |Openings(s'.log)| == s'.turnNumber
  {
    hide Numbered, OrdersAgree, Below;
    var pc := s.threads[t].pc;
    assert ThreadLocks(s, t);
    if pc.ReadProducer? {
      assert Counted(s, pc.turn);
      NumberedNext(s.log, EventTaken(t, pc.turn, pc.sequence, pc.producer));
      Appended(s.log, EventTaken(t, pc.turn, pc.sequence, pc.producer));
    } else if pc.ReadNumber? {
      NumberedNext(s.log, TurnTaken(t, pc.number));
      Appended(s.log, TurnTaken(t, pc.number));
    }
  }

  // What a step does to the log.
  function Logged(pc: Pc, t: ThreadId): seq<Taken> {
    match pc
    case ReadProducer(k, n, p) => [EventTaken(t, k, n, p)]
    case ReadNumber(n) => [TurnTaken(t, n)]
    case _ => []
  }

  lemma NextLog(s: State, t: ThreadId)
    requires Enabled(s, t)
    ensures Next(s, t).log == s.log + Logged(s.threads[t].pc, t)
    ensures forall k :: |OnTurn(Next(s, t).log, k)| ==
              |OnTurn(s.log, k)| + if s.threads[t].pc.ReadProducer? && s.threads[t].pc.turn == k then 1 else 0
    ensures forall u :: By(Next(s, t).log, u) == By(s.log, u) + if u == t then Logged(s.threads[t].pc, t) else []
  {
    var added := Logged(s.threads[t].pc, t);
    if added == [] {
      assert s.log + [] == s.log;
      assert forall u :: By(s.log, u) + [] == By(s.log, u);
    } else {
      Appended(s.log, added[0]);
    }
  }

  lemma NextCounted(s: State, t: ThreadId, k: TurnKey)
    requires Locked(s) && Enabled(s, t) && Counted(s, k)
    ensures Counted(Next(s, t), k)
  {
    NextLog(s, t);
    hide OnTurn, By, Next, Gap;
    assert ThreadLocks(s, t);
    if k in s.held && s.held[k] == t {
      assert HeldByHolder(s, k);
      HolderGap(s, t);
    } else {
      OtherGap(s, t, k);
    }
  }

  // Only the holder of a turn's lock moves the turn's counter, and it counts up what it has taken.
  lemma HolderGap(s: State, t: ThreadId)
    requires Enabled(s, t) && HoldsTurn(s.threads[t].pc) && ThreadLocks(s, t)
    ensures var k, s' := s.threads[t].pc.turn, Next(s, t);
            SequenceOf(s', k) + Gap(s', k) == SequenceOf(s, k) + Gap(s, k) + if s.threads[t].pc.ReadProducer? then 1
                else 0
  {
    var k, s' := s.threads[t].pc.turn, Next(s, t);
    assert !s.threads[t].pc.WroteSequence? ==> k in s'.held && s'.held[k] == t;
  }

  lemma OtherGap(s: State, t: ThreadId, k: TurnKey)
    requires Enabled(s, t) && ThreadLocks(s, t) && !(k in s.held && s.held[k] == t)
    ensures var s' := Next(s, t);
            && SequenceOf(s', k) == SequenceOf(s, k) && Gap(s', k) == Gap(s, k)
            && !(s.threads[t].pc.ReadProducer? && s.threads[t].pc.turn == k)
  {
    NextShape(s, t);
    var s' := Next(s, t);
    assert SequenceOf(s', k) == SequenceOf(s, k);
    assert s.threads[t].pc == AtTurnLock(k) ==> s'.threads[t].pc == InTurn(k);
    hide Next;
  }

  // Only the thread that moves a counter changes it.
  lemma NextCounters(s: State, t: ThreadId)
    requires Enabled(s, t)
    ensures var s', pc := Next(s, t), s.threads[t].pc;
            && (pc.ReadProducer? || s'.producer == s.producer)
            && (pc.ReadNumber? || s'.turnNumber == s.turnNumber)
            && (forall k :: (pc.LeftRun? && pc.turn == k) || SequenceOf(s', k) == SequenceOf(s, k))
  {
  }

  lemma NextFresh(s: State, t: ThreadId, u: ThreadId)
    requires Locked(s) && Enabled(s, t) && u < |s.threads| && Fresh(s, u)
    ensures Fresh(Next(s, t), u)
  {
    assert ThreadLocks(s, t) && ThreadLocks(s, u);
    if u == t {
      hide Locked;
    } else {
      hide Next, Locked;
      NextThreads(s, t);
      NextCounters(s, t);
    }
  }

  lemma {:induction false} AskedNext(made: seq<Taken>, x: Taken)
    ensures AllAsked(made + [x]) == AllAsked(made) + [Asked(x)]
  {
    assert (made + [x])[..|made|] == made;
  }

  lemma NextServes(s: State, t: ThreadId, u: ThreadId, program: seq<Request>)
    requires Enabled(s, t) && u < |s.threads| && Serves(s, u, program) && u < |Next(s, t).threads|
    ensures Serves(Next(s, t), u, program)
  {
    hide By, Accepted, Next, AllAsked, Current, InFlight, OnTurn, Logged;
    LoggedBy(s, t, u);
    if u == t {
      MadeStep(s, t);
      AskedStep(s, t);
    } else {
      NextThreads(s, t);
    }
  }

  // A step logs for the thread that takes it alone.
  lemma LoggedBy(s: State, t: ThreadId, u: ThreadId)
    requires Enabled(s, t)
    ensures By(Next(s, t).log, u) == if u == t then By(s.log, u) + Logged(s.threads[t].pc, t) else By(s.log, u)
  {
    NextLog(s, t);
    hide By, Next, OnTurn;
    assert By(s.log, u) + [] == By(s.log, u);
  }

  // What was taken is returned once.
  lemma MadeStep(s: State, t: ThreadId)
    requires Enabled(s, t)
    ensures var thread, thread' := s.threads[t], Next(s, t).threads[t];
            thread'.made + InFlight(thread'.pc, t) == thread.made + InFlight(thread.pc, t) + Logged(thread.pc, t)
  {
    var made := s.threads[t].made;
    assert made + [] == made;
    assert made + [] + [] == made;
  }

  // What was asked and accepted is done once, in order.
  lemma AskedStep(s: State, t: ThreadId)
    requires Enabled(s, t)
    ensures var thread, thread' := s.threads[t], Next(s, t).threads[t];
            AllAsked(thread'.made) + Current(thread'.pc) + Accepted(thread'.todo)
              == AllAsked(thread.made) + Current(thread.pc) + Accepted(thread.todo)
  {
    hide AllAsked, Accepted;
    var thread := s.threads[t];
    if thread.pc.Idle? {
      BeginStep(s, t);
    } else if thread.pc.WroteSequence? || thread.pc.WroteNumber? {
      EndStep(s, t);
    }
  }

  lemma BeginStep(s: State, t: ThreadId)
    requires Enabled(s, t) && s.threads[t].pc.Idle?
    ensures var thread, thread' := s.threads[t], Next(s, t).threads[t];
            && thread'.made == thread.made
            && Current(thread'.pc) + Accepted(thread'.todo) == Accepted(thread.todo)
    ensures var thread, thread' := s.threads[t], Next(s, t).threads[t];
            AllAsked(thread'.made) + Current(thread'.pc) + Accepted(thread'.todo)
              == AllAsked(thread.made) + [] + Accepted(thread.todo)
  {
    hide AllAsked;
    var thread, thread' := s.threads[t], Next(s, t).threads[t];
    assert thread'.todo == thread.todo[1..] && thread'.made == thread.made;
    var rest, current := Accepted(thread.todo[1..]), Current(thread'.pc);
    assert Accepted(thread.todo) == current + rest;
    hide Next, Accepted;
    Regroup(AllAsked(thread.made), current, rest);
  }

  lemma EndStep(s: State, t: ThreadId)
    requires Enabled(s, t) && (s.threads[t].pc.WroteSequence? || s.threads[t].pc.WroteNumber?)
    ensures var thread, thread' := s.threads[t], Next(s, t).threads[t];
            AllAsked(thread'.made) + Current(thread'.pc) + Accepted(thread'.todo)
              == AllAsked(thread.made) + Current(thread.pc) + Accepted(thread.todo)
  {
    hide AllAsked, Accepted;
    var thread, thread' := s.threads[t], Next(s, t).threads[t];
    var x := InFlight(thread.pc, t)[0];
    AskedNext(thread.made, x);
    assert thread'.todo == thread.todo && thread'.made == thread.made + [x] && Current(thread'.pc) == [];
    assert Current(thread.pc) == [Asked(x)];
    hide Next;
    assert AllAsked(thread.made) + [Asked(x)] + [] == AllAsked(thread.made) + [Asked(x)];
  }

  lemma Regroup(a: seq<Request>, b: seq<Request>, c: seq<Request>)
    ensures a + b + c == a + [] + (b + c)
  {
  }

  lemma NextInv(s: State, t: ThreadId, programs: seq<seq<Request>>)
    requires Inv(s, programs) && Enabled(s, t)
    ensures Inv(Next(s, t), programs)
  {
    var s' := Next(s, t);
    NextShape(s, t);
    hide Next, Counted, Serves, Fresh, Locked, Numbered, OrdersAgree, Below;
    assert Fresh(s, t);
    NextLocked(s, t);
    NextNumbered(s, t);
    forall k ensures Counted(s', k) {
      assert Counted(s, k);
      NextCounted(s, t, k);
    }
    forall u | 0 <= u < |s'.threads| ensures Fresh(s', u) {
      assert Fresh(s, u);
      NextFresh(s, t, u);
    }
    forall u | 0 <= u < |s'.threads| ensures Serves(s', u, programs[u]) {
      assert Serves(s, u, programs[u]);
      NextServes(s, t, u, programs[u]);
    }
  }

  lemma {:induction false} ReachableInv(s: State, schedule: seq<ThreadId>, programs: seq<seq<Request>>)
    requires Inv(s, programs) && Schedulable(s, schedule)
    ensures Inv(RunAll(s, schedule), programs)
    decreases |schedule|
  {
    if schedule != [] {
      hide Inv, Next;
      NextInv(s, schedule[0], programs);
      ReachableInv(Next(s, schedule[0]), schedule[1..], programs);
    }
  }

  // ---- Theorems ----

  /** In every interleaving, at every moment, the numbers given out so far are: to the events of the
      run 0..m-1, to the events of each turn 0..n-1, to the turns 0..q-1, each number once; and the two
      orders of a turn's events agree. */
  lemma NumbersAreExact(programs: seq<seq<Request>>, schedule: seq<ThreadId>)
    requires Schedulable(Start(programs), schedule)
    ensures var s := RunAll(Start(programs), schedule);
            && Numbered(s.log) && OrdersAgree(s.log)
            && |Events(s.log)| == s.producer && |Openings(s.log)| == s.turnNumber
  {
    StartInv(programs);
    ReachableInv(Start(programs), schedule, programs);
  }

  predicate Finished(s: State) {
    forall t :: 0 <= t < |s.threads| ==> s.threads[t].pc == Idle && s.threads[t].todo == []
  }

  /** The lock order cannot deadlock: while some thread has work left, some thread can step. */
  lemma SomeThreadCanStep(s: State, programs: seq<seq<Request>>) returns (t: ThreadId)
    requires Inv(s, programs) && !Finished(s)
    ensures Enabled(s, t)
  {
    t :| 0 <= t < |s.threads| && !(s.threads[t].pc == Idle && s.threads[t].todo == []);
    if s.threads[t].pc.AtTurnLock? && s.threads[t].pc.turn in s.held {
      assert HeldByHolder(s, s.threads[t].pc.turn);
      t := s.held[s.threads[t].pc.turn];
    }
    if !Enabled(s, t) {
      assert s.runLock != FREE;
      t := s.runLock;
      assert ThreadLocks(s, t);
    }
  }

  // Steps a thread has left.
  function StepsLeft(pc: Pc): nat {
    match pc
    case Idle => 0
    case AtTurnLock(_) => 9
    case InTurn(_) => 8
    case AtRunLock(_, _) => 7
    case InRun(_, _) => 6
    case ReadProducer(_, _, _) => 5
    case WroteProducer(_, _, _) => 4
    case LeftRun(_, _, _) => 3
    case WroteSequence(_, _, _) => 2
    case AtRunLockToOpen => 4
    case InRunToOpen => 3
    case ReadNumber(_) => 2
    case WroteNumber(_) => 1
  }

  function Work(threads: seq<Thread>): nat {
    if threads == [] then 0
    else Work(threads[..|threads| - 1]) + 10 * |threads[|threads| - 1].todo| + StepsLeft(threads[|threads| - 1].pc)
  }

  lemma {:induction false} WorkChanges(threads: seq<Thread>, t: ThreadId, thread: Thread)
    requires t < |threads|
    ensures Work(threads[t := thread]) + 10 * |threads[t].todo| + StepsLeft(threads[t].pc)
         == Work(threads) + 10 * |thread.todo| + StepsLeft(thread.pc)
  {
    var n := |threads| - 1;
    if t < n {
      assert threads[t := thread][..n] == threads[..n][t := thread];
      WorkChanges(threads[..n], t, thread);
    } else {
      assert threads[t := thread][..n] == threads[..n];
    }
  }

  lemma StepDoesWork(s: State, t: ThreadId)
    requires Enabled(s, t)
    ensures Work(Next(s, t).threads) < Work(s.threads)
  {
    hide Work;
    WorkChanges(s.threads, t, Next(s, t).threads[t]);
    assert Next(s, t).threads == s.threads[t := Next(s, t).threads[t]];
  }

  /** Every schedule ends: it is no longer than the work there was. */
  lemma {:induction false} SchedulesEnd(s: State, schedule: seq<ThreadId>)
    requires Schedulable(s, schedule)
    ensures |schedule| + Work(RunAll(s, schedule).threads) <= Work(s.threads)
    decreases |schedule|
  {
    if schedule != [] {
      hide Work, Next;
      StepDoesWork(s, schedule[0]);
      SchedulesEnd(Next(s, schedule[0]), schedule[1..]);
    }
  }

  /** When all threads have finished, each holds exactly the numbers it took, in its own order: one for
      every request that was accepted and none for an event rejected at construction; and what all
      threads took together is the log, numbered without gap or repeat. */
  lemma RejectedEventsTakeNoNumber(programs: seq<seq<Request>>, schedule: seq<ThreadId>, t: ThreadId)
    requires Schedulable(Start(programs), schedule) && Finished(RunAll(Start(programs), schedule)) && t < |programs|
    ensures var s := RunAll(Start(programs), schedule);
            && |s.threads| == |programs|
            && s.threads[t].made == By(s.log, t)
            && AllAsked(s.threads[t].made) == Accepted(programs[t])
  {
    StartInv(programs);
    ReachableInv(Start(programs), schedule, programs);
    var s := RunAll(Start(programs), schedule);
    assert Serves(s, t, programs[t]);
    var made := s.threads[t].made;
    assert made + [] == made;
    assert AllAsked(made) + [] + [] == AllAsked(made);
  }

  /** A thread with work left that cannot step waits for the lock of a turn or of the run, which another thread
      holds. */
  lemma WaitsForLock(s: State, programs: seq<seq<Request>>, t: ThreadId)
    requires Inv(s, programs) && t < |s.threads| && !Enabled(s, t)
    requires s.threads[t].pc != Idle || s.threads[t].todo != []
    ensures var pc := s.threads[t].pc;
            || (pc.AtTurnLock? && pc.turn in s.held && s.held[pc.turn] != t && s.held[pc.turn] < |s.threads|)
            || ((pc.AtRunLock? || pc.AtRunLockToOpen?) && s.runLock != t && 0 <= s.runLock < |s.threads|)
  {
    assert ThreadLocks(s, t);
    var pc := s.threads[t].pc;
    if pc.AtTurnLock? {
      assert HeldByHolder(s, pc.turn);
    }
  }
}
