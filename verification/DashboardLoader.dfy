/** The dashboard's data loader: requests overtake one another, and only the newest may be shown,
    together with the filter it was asked for. */
module DashboardLoader {
  import opened Options

  // A response body, with the evaluator it says is selected.
  datatype Snapshot = Snapshot(body: string, selected: Option<string>)

  const EMPTY := Snapshot("", None)

  datatype Origin = NotLoaded | NewStore | Live

  // The part of a request that is stored beside its snapshot.
  datatype Filter = Filter(traceOffset: nat, traceJudgeStatus: string, traceId: Option<string>,
      traceDate: Option<string>)

  const NO_FILTER := Filter(0, "all", None, None)

  datatype Args = Args(evaluatorId: Option<string>, filter: Filter, reportDays: nat)

  datatype View = View(snapshot: Snapshot, source: Origin, loading: bool, error: Option<string>, filter: Filter)

  // How a request ends: with a valid body, with the answer that no store exists yet, with any other
  // failure, or with the error of its own abort signal.
  datatype Outcome = Answered(snapshot: Snapshot) | StoreNotCreated | Failed | Aborted

  // The view, the two refs. A controller is known by the request it was made for.
  datatype Loader = Loader(view: View, requestSequence: nat, active: Option<nat>)

  function Initial(): Loader {
    Loader(View(EMPTY, NotLoaded, false, None, NO_FILTER), 0, None)
  }

  // ---- Steps ----

  function Begin(l: Loader): Loader {
    var id := l.requestSequence + 1;
    Loader(l.view.(loading := true, error := None), id, Some(id))
  }

  // A text that is there and not empty, or another one.
  function OrText(text: Option<string>, other: string): string {
    if text.Some? && text.value != "" then text.value else other
  }

  function Message(v: View, args: Args): string {
    if v.source != Live then "Could not load dashboard data. Check the Verdict server log."
    else
      var requested := OrText(args.evaluatorId, "the default evaluator");
      var shown := OrText(v.snapshot.selected, "the current snapshot");
      "Could not load " + requested + ". Still showing " + shown + "."
  }

  function Failure(v: View, args: Args): View {
    v.(loading := false, error := Some(Message(v, args)))
  }

  function Settle(l: Loader, id: nat, args: Args, outcome: Outcome): Loader {
    if id != l.requestSequence then l
    else
      var view :=
        match outcome
        case Answered(snapshot) => View(snapshot, Live, false, None, args.filter)
        case StoreNotCreated => View(EMPTY, NewStore, false, None, NO_FILTER)
        case Failed => Failure(l.view, args)
        case Aborted => l.view;
      l.(view := view, active := None)
  }

  function Unmount(l: Loader): Loader {
    l.(requestSequence := l.requestSequence + 1)
  }

  // ---- The loader as an object ----

  class AbortController {
    const id: nat
    var aborted: bool

    constructor (id: nat)
      ensures this.id == id && !aborted
    {
      this.id, aborted := id, false;
    }

    method Abort()
      modifies this
      ensures aborted
    {
      aborted := true;
    }
  }

  class Dashboard {
    var view: View
    var requestSequence: nat
    var activeController: AbortController?

    constructor ()
      ensures State() == Initial()
    {
      view, requestSequence, activeController := Initial().view, 0, null;
    }

    ghost function State(): Loader
      reads this
    {
      Loader(view, requestSequence, if activeController == null then None else Some(activeController.id))
    }

    // Starts a request: the one before it, if it is still active, is aborted.
    method BeginLoad() returns (requestId: nat, controller: AbortController)
      modifies this, activeController
      ensures State() == Begin(old(State()))
      ensures requestId == requestSequence && controller == activeController
      ensures fresh(controller) && controller.id == requestId && !controller.aborted
      ensures old(activeController) != null ==> old(activeController).aborted
    {
      requestId := requestSequence + 1;
      requestSequence := requestId;
      if activeController != null {
        activeController.Abort();
      }
      controller := new AbortController(requestId);
      activeController := controller;
      view := view.(loading := true, error := None);
    }

    // Ends a request; says whether its snapshot is now shown.
    method EndLoad(requestId: nat, args: Args, outcome: Outcome) returns (shown: bool)
      modifies this
      ensures State() == Settle(old(State()), requestId, args, outcome)
      ensures shown <==> outcome.Answered? && requestId == old(requestSequence)
    {
      shown := false;
      match outcome {
        case StoreNotCreated =>
          if requestId == requestSequence {
            view := View(EMPTY, NewStore, false, None, NO_FILTER);
          }
        case Answered(snapshot) =>
          if requestId == requestSequence {
            view := View(snapshot, Live, false, None, args.filter);
            shown := true;
          }
        case Aborted =>
        case Failed =>
          hide Message;
          if requestId == requestSequence {
            view := Failure(view, args);
          }
      }
      if requestId == requestSequence {
        activeController := null;
      }
    }

    method Leave()
      modifies this`requestSequence, activeController
      ensures State() == Unmount(old(State())) && activeController == old(activeController)
      ensures activeController != null ==> activeController.aborted
    {
      requestSequence := requestSequence + 1;
      if activeController != null {
        activeController.Abort();
      }
    }
  }

  // ---- Requests in flight ----

  // What is shown and why: the request that was answered, if any.
  // live tells a snapshot from the answer that no store exists.
  datatype Commit = Commit(id: nat, live: bool, snapshot: Snapshot, filter: Filter)

  datatype System = System(
    loader: Loader, mounted: bool, requests: map<nat, Args>, aborted: set<nat>, commits: seq<Commit>)

  datatype Step = Mount(args: Args) | Load(args: Args) | Settles(id: nat, outcome: Outcome) | Unmounts

  // A fetch fails with an abort error only if its signal was aborted.
  predicate Enabled(s: System, step: Step) {
    match step
    case Mount(_) => !s.mounted
    case Load(_) => s.mounted
    case Settles(id, outcome) => id in s.requests && (outcome == Aborted ==> id in s.aborted)
    case Unmounts => s.mounted
  }

  function Cut(s: System): set<nat> {
    s.aborted + if s.loader.active.Some? then {s.loader.active.value} else {}
  }

  function Next(s: System, step: Step): System {
    if !Enabled(s, step) then s
    else
      match step
      case Mount(args) => Started(s.(mounted := true), args)
      case Load(args) => Started(s, args)
      case Settles(id, outcome) =>
        var args := s.requests[id];
        var current := id == s.loader.requestSequence;
        s.(loader := Settle(s.loader, id, args, outcome), requests := s.requests - {id},
           commits := if current && outcome.Answered? then s.commits + [Commit(id, true, outcome.snapshot, args.filter)]
                      else if current && outcome.StoreNotCreated? then s.commits + [Commit(id, false, EMPTY, NO_FILTER)]
                      else s.commits)
      case Unmounts => s.(loader := Unmount(s.loader), mounted := false, aborted := Cut(s))
  }

  function Started(s: System, args: Args): System {
    var loader := Begin(s.loader);
    s.(loader := loader, requests := s.requests[loader.requestSequence := args], aborted := Cut(s))
  }

  function RunAll(steps: seq<Step>): System {
    if steps == [] then System(Initial(), false, map[], {}, [])
    else Next(RunAll(steps[..|steps| - 1]), steps[|steps| - 1])
  }

  predicate CommitsIncrease(s: System) {
    && (forall i, j :: 0 <= i < j < |s.commits| ==> s.commits[i].id < s.commits[j].id)
    && (forall i :: 0 <= i < |s.commits| ==>
          s.commits[i].id <= s.loader.requestSequence && s.commits[i].id !in s.requests)
  }

  // The snapshot, the filter and the source shown are those of one and the same answer.
  predicate Paired(s: System) {
    var shown := if s.commits == [] then Commit(0, false, EMPTY, NO_FILTER) else s.commits[|s.commits| - 1];
    && s.loader.view.snapshot == shown.snapshot && s.loader.view.filter == shown.filter
    && s.loader.view.source == if s.commits == [] then NotLoaded else if shown.live then Live else NewStore
  }

  // Loading means that the newest request is in flight; it is then the active one, and not aborted.
  predicate Watching(s: System) {
    var newest := s.loader.requestSequence;
    if !s.mounted then newest !in s.requests
    else
      && (s.loader.view.loading <==> newest in s.requests)
      && (s.loader.active == Some(newest) <==> newest in s.requests)
      && newest !in s.aborted
  }

  predicate Inv(s: System) {
    && (forall id :: id in s.requests ==> id <= s.loader.requestSequence)
    && (forall id :: id in s.aborted ==> id <= s.loader.requestSequence)
    && (s.loader.active.Some? ==> s.loader.active.value <= s.loader.requestSequence)
    && CommitsIncrease(s) && Paired(s) && Watching(s)
    && (forall i :: 0 <= i < |s.commits| && !s.commits[i].live ==>
          s.commits[i].snapshot == EMPTY && s.commits[i].filter == NO_FILTER)
  }

  // A response that is not the newest request's leaves the loader alone.
  lemma OldSettleKeepsInv(s: System, id: nat, outcome: Outcome)
    requires Inv(s) && Enabled(s, Settles(id, outcome)) && id != s.loader.requestSequence
    ensures Inv(Next(s, Settles(id, outcome)))
  {
    hide Failure;
  }

  lemma NewSettleKeepsInv(s: System, id: nat, outcome: Outcome)
    requires Inv(s) && Enabled(s, Settles(id, outcome)) && id == s.loader.requestSequence
    ensures Inv(Next(s, Settles(id, outcome)))
  {
    hide Message;
  }

  lemma NextKeepsInv(s: System, step: Step)
    requires Inv(s)
    ensures Inv(Next(s, step))
  {
    hide Settle, Failure, Message;
    if step.Settles? && Enabled(s, step) {
      if step.id == s.loader.requestSequence {
        NewSettleKeepsInv(s, step.id, step.outcome);
      } else {
        OldSettleKeepsInv(s, step.id, step.outcome);
      }
    }
  }

  lemma {:induction false} ReachableInv(steps: seq<Step>)
    ensures Inv(RunAll(steps))
  {
    if steps != [] {
      ReachableInv(steps[..|steps| - 1]);
      NextKeepsInv(RunAll(steps[..|steps| - 1]), steps[|steps| - 1]);
    }
  }

  // ---- Theorems ----

  /** The snapshot and the stored offset, status, trace and date always belong to one and the same
      request, the one answered last; the source tells what that answer was, and whether there was one; and
      answers are shown in the order of their requests. */
  lemma SnapshotAndFilterArePaired(steps: seq<Step>)
    ensures var s := RunAll(steps);
            var v := s.loader.view;
            && CommitsIncrease(s)
            && (v.source == NotLoaded <==> s.commits == [])
            && (s.commits == [] ==> v.snapshot == Snapshot("", None) && v.filter == Filter(0, "all", None, None))
            && (s.commits != [] ==>
                  var shown := s.commits[|s.commits| - 1];
                  && v.snapshot == shown.snapshot && v.filter == shown.filter && (v.source == Live <==> shown.live)
                  && (!shown.live ==> v.snapshot == Snapshot("", None) && v.filter == Filter(0, "all", None, None)))
  {
    ReachableInv(steps);
  }

  /** While mounted, the loader says it is loading exactly while the newest request is unsettled. */
  lemma LoadingIsNewestUnsettled(steps: seq<Step>)
    requires RunAll(steps).mounted
    ensures var s := RunAll(steps); s.loader.view.loading <==> s.loader.requestSequence in s.requests
  {
    ReachableInv(steps);
  }

  /** Once a newer request has started, or the view was left, a response changes nothing. */
  lemma OvertakenResponsesAreDropped(steps: seq<Step>, id: nat, outcome: Outcome)
    requires var s := RunAll(steps); id in s.requests && (id < s.loader.requestSequence || !s.mounted)
    ensures var s := RunAll(steps);
            Next(s, Settles(id, outcome)).loader == s.loader && Next(s, Settles(id, outcome)).commits == s.commits
  {
    ReachableInv(steps);
  }

  // What a failure says: what was asked for, and which snapshot is still shown, if one is.
  function FailureText(commits: seq<Commit>, evaluatorId: Option<string>): string {
    if commits == [] || !commits[|commits| - 1].live then
      "Could not load dashboard data. Check the Verdict server log."
    else
      var selected := commits[|commits| - 1].snapshot.selected;
      "Could not load "
      + (if evaluatorId.None? || evaluatorId == Some("") then "the default evaluator" else evaluatorId.value)
      + ". Still showing "
      + (if selected.None? || selected == Some("") then "the current snapshot" else selected.value) + "."
  }

  lemma MessageIs(s: System, id: nat)
    requires Paired(s) && id in s.requests
    ensures Message(s.loader.view, s.requests[id]) == FailureText(s.commits, s.requests[id].evaluatorId)
  {
  }

  /** A request that starts shows that it loads and clears the error, and leaves what is shown. */
  lemma StartKeepsWhatIsShown(steps: seq<Step>, step: Step)
    requires Enabled(RunAll(steps), step) && (step.Mount? || step.Load?)
    ensures var s, s' := RunAll(steps), Next(RunAll(steps), step);
            var v, v' := s.loader.view, s'.loader.view;
            && v'.loading && v'.error.None? && v'.snapshot == v.snapshot && v'.filter == v.filter
                 && v'.source == v.source
            && s'.loader.requestSequence > s.loader.requestSequence
            && s'.requests == s.requests[s'.loader.requestSequence := step.args]
            && s'.aborted == s.aborted + if s.loader.active.Some? then {s.loader.active.value} else {}
  {
  }

  /** While mounted the newest request is never aborted, so when it settles the loader stops loading, and
      shows either what was answered or an error beside what was shown before. */
  lemma NewestRequestIsHeard(steps: seq<Step>, id: nat, outcome: Outcome)
    requires var s := RunAll(steps); s.mounted && id == s.loader.requestSequence && Enabled(s, Settles(id, outcome))
    ensures var s := RunAll(steps);
            var v, v' := s.loader.view, Next(s, Settles(id, outcome)).loader.view;
            && outcome != Aborted
            && !v'.loading
            && (outcome.Answered? ==>
                  v'.snapshot == outcome.snapshot && v'.filter == s.requests[id].filter
                  && v'.error.None?)
            && (outcome.Failed? ==>
                  v'.error == Some(FailureText(s.commits, s.requests[id].evaluatorId))
                  && v'.snapshot == v.snapshot && v'.filter == v.filter && v'.source == v.source)
            && (outcome.StoreNotCreated? ==> v'.snapshot == EMPTY && v'.filter == NO_FILTER && v'.error.None?)
  {
    ReachableInv(steps);
    MessageIs(RunAll(steps), id);
    hide Message, FailureText;
  }

  /** A request that ends by its own abort shows nothing, whichever request it is. */
  lemma AbortedRequestsAreSilent(l: Loader, id: nat, args: Args)
    ensures Settle(l, id, args, Aborted).view == l.view
    ensures Settle(l, id, args, Aborted).requestSequence == l.requestSequence
  {
  }
}
