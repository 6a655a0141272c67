/** The delivery queue panel: full reloads race with page fetches, and one generation counter decides
    which responses may still be shown. */
module DeliveryPages {
  import opened Options

  datatype Row = Row(intentId: string, createdAt: string, status: string)

  datatype Busy = Free | FetchingPage | OtherWork(name: string)

  // The fields of the panel that the two protocols read and write. base is the queue of the last
  // committed reload.
  datatype View = View(
    base: Option<seq<Row>>, extra: seq<Row>, cursor: Option<Row>, hasMore: Option<bool>,
    error: Option<string>, busy: Busy, generation: nat, pageInFlight: bool)

  datatype ReloadOutcome = Loaded(queue: seq<Row>) | ReloadFailed(message: string)

  datatype PageOutcome = Page(rows: seq<Row>, hasMore: bool) | PageFailed(message: string)

  datatype PageTicket = PageTicket(generation: nat, anchor: Option<Row>)

  // ---- The rows shown ----

  // A map that keeps the place of the first row with an id and the value of the last.
  function SetRow(rows: seq<Row>, r: Row): seq<Row> {
    if rows == [] then [r]
    else if rows[0].intentId == r.intentId then [r] + rows[1..]
    else [rows[0]] + SetRow(rows[1..], r)
  }

  function Merged(items: seq<Row>): seq<Row> {
    if items == [] then [] else SetRow(Merged(items[..|items| - 1]), items[|items| - 1])
  }

  function Rows(v: View): seq<Row> {
    Merged((if v.base.Some? then v.base.value else []) + v.extra)
  }

  function Last(rows: seq<Row>): (r: Option<Row>)
    ensures r.None? <==> rows == []
    ensures forall front, x :: rows == front + [x] ==> r == Some(x)
  {
    if rows == [] then None else Some(rows[|rows| - 1])
  }

  function OrElse(a: Option<Row>, b: Option<Row>): (r: Option<Row>)
    ensures a.Some? ==> r == a
    ensures a.None? ==> r == b
  {
    if a.Some? then a else b
  }

  predicate Distinct(rows: seq<Row>) {
    forall i, j :: 0 <= i < j < |rows| ==> rows[i].intentId != rows[j].intentId
  }

  lemma {:induction false} SetRowKeepsDistinct(rows: seq<Row>, r: Row)
    requires Distinct(rows)
    ensures Distinct(SetRow(rows, r))
    ensures forall x :: x in SetRow(rows, r) <==> x == r || (x in rows && x.intentId != r.intentId)
  {
    if rows != [] {
      SetRowKeepsDistinct(rows[1..], r);
      assert rows == [rows[0]] + rows[1..];
      if rows[0].intentId == r.intentId {
        assert SetRow(rows, r) == [r] + rows[1..];
      } else {
        var rest := SetRow(rows[1..], r);
        assert forall i :: 0 <= i < |rest| ==> rest[i] in rest;
        assert SetRow(rows, r) == [rows[0]] + rest;
      }
    }
  }

  // The last item with the id of x.
  predicate IsLatest(items: seq<Row>, x: Row) {
    exists i :: 0 <= i < |items| && items[i] == x && forall j :: i < j < |items| ==> items[j].intentId != x.intentId
  }

  /** The rows shown have different ids, and are for each id the latest row received. */
  lemma {:induction false} MergedKeepsLatest(items: seq<Row>, x: Row)
    ensures Distinct(Merged(items))
    ensures x in Merged(items) <==> IsLatest(items, x)
  {
    if items != [] {
      var n := |items| - 1;
      var front, last := items[..n], items[n];
      MergedKeepsLatest(front, x);
      LatestNext(front, last, x);
      assert front + [last] == items;
      hide SetRow, IsLatest;
      SetRowKeepsDistinct(Merged(front), last);
    }
  }

  lemma LatestNext(front: seq<Row>, last: Row, x: Row)
    ensures IsLatest(front + [last], x) <==> x == last || (IsLatest(front, x) && x.intentId != last.intentId)
  {
    var items, n := front + [last], |front|;
    assert items[n] == last;
    if IsLatest(items, x) && x != last {
      var i :| 0 <= i < |items| && items[i] == x && forall j :: i < j < |items| ==> items[j].intentId != x.intentId;
      assert i < n && front[i] == x && forall j :: i < j < n ==> front[j] == items[j];
    }
    if IsLatest(front, x) && x.intentId != last.intentId {
      var i :| 0 <= i < n && front[i] == x && forall j :: i < j < n ==> front[j].intentId != x.intentId;
      assert items[i] == x && forall j :: i < j < n ==> items[j] == front[j];
    }
  }

  function Ids(rows: seq<Row>): seq<string> {
    seq(|rows|, i requires 0 <= i < |rows| => rows[i].intentId)
  }

  lemma IdsNext(row: Row, rows: seq<Row>)
    ensures Ids([row] + rows) == [row.intentId] + Ids(rows)
  {
  }

  lemma {:induction false} SetRowIds(rows: seq<Row>, r: Row)
    ensures Ids(SetRow(rows, r)) == if r.intentId in Ids(rows) then Ids(rows) else Ids(rows) + [r.intentId]
  {
    IdsNext(r, []);
    if rows != [] {
      assert rows == [rows[0]] + rows[1..];
      IdsNext(rows[0], rows[1..]);
      if rows[0].intentId == r.intentId {
        IdsNext(r, rows[1..]);
      } else {
        SetRowIds(rows[1..], r);
        IdsNext(rows[0], SetRow(rows[1..], r));
      }
      hide Ids;
    }
  }

  // The first item with id x comes before any with id y.
  ghost predicate AppearsFirst(items: seq<Row>, x: string, y: string) {
    exists p :: 0 <= p < |items| && items[p].intentId == x && forall q :: 0 <= q <= p ==> items[q].intentId != y
  }

  lemma AppearsFirstGrows(front: seq<Row>, last: Row, x: string, y: string)
    requires AppearsFirst(front, x, y)
    ensures AppearsFirst(front + [last], x, y)
  {
    var p :| 0 <= p < |front| && front[p].intentId == x && forall q :: 0 <= q <= p ==> front[q].intentId != y;
    var items := front + [last];
    assert items[p].intentId == x && forall q :: 0 <= q <= p ==> items[q] == front[q];
  }

  lemma {:induction false} MergedIds(items: seq<Row>)
    ensures forall k :: k in Ids(Merged(items)) <==> k in Ids(items)
  {
    if items != [] {
      var n := |items| - 1;
      MergedIds(items[..n]);
      SetRowIds(Merged(items[..n]), items[n]);
      assert Ids(items) == Ids(items[..n]) + [items[n].intentId];
    }
  }

  /** And they stand in the order in which their ids first came. */
  lemma {:induction false} MergedKeepsOrder(items: seq<Row>, i: nat, j: nat)
    requires i < j < |Merged(items)|
    ensures AppearsFirst(items, Merged(items)[i].intentId, Merged(items)[j].intentId)
  {
    var n := |items| - 1;
    var front, last := items[..n], items[n];
    var before := Merged(front);
    assert front + [last] == items;
    SetRowIds(before, last);
    var ids := Ids(Merged(items));
    assert ids[i] == Merged(items)[i].intentId && ids[j] == Merged(items)[j].intentId;
    hide SetRow, AppearsFirst;
    if j < |before| {
      assert Ids(before)[i] == ids[i] && Ids(before)[j] == ids[j];
      MergedKeepsOrder(front, i, j);
      AppearsFirstGrows(front, last, ids[i], ids[j]);
    } else {
      MergedIds(front);
      assert Ids(before)[i] == ids[i] && ids[j] == last.intentId;
      NewIdIsLast(front, last, ids[i]);
    }
  }

  lemma NewIdIsLast(front: seq<Row>, last: Row, x: string)
    requires x in Ids(front) && last.intentId !in Ids(front)
    ensures AppearsFirst(front + [last], x, last.intentId)
  {
    var p :| 0 <= p < |front| && Ids(front)[p] == x;
    var items := front + [last];
    assert items[p].intentId == x;
    forall q | 0 <= q <= p ensures items[q].intentId != last.intentId {
      assert Ids(front)[q] == items[q].intentId;
    }
  }

  // ---- The protocol steps ----

  function StartReload(v: View): (View, nat) {
    (v.(generation := v.generation + 1, error := None), v.generation + 1)
  }

  function FinishReload(v: View, ticket: nat, outcome: ReloadOutcome): View {
    if ticket != v.generation then v
    else
      match outcome
      case Loaded(queue) =>
        v.(generation := v.generation + 1, base := Some(queue), extra := [], cursor := None, hasMore := None)
      case ReloadFailed(message) => v.(error := Some(message))
  }

  function StartPage(v: View): (View, Option<PageTicket>) {
    if v.pageInFlight then (v, None)
    else
      (v.(pageInFlight := true, busy := FetchingPage, error := None),
       Some(PageTicket(v.generation, OrElse(v.cursor, Last(Rows(v))))))
  }

  function FinishPage(v: View, ticket: PageTicket, outcome: PageOutcome): View {
    var shown :=
      if ticket.generation != v.generation then v
      else
        match outcome
        case Page(rows, hasMore) =>
          v.(extra := v.extra + rows, cursor := OrElse(Last(rows), ticket.anchor), hasMore := Some(hasMore))
        case PageFailed(message) => v.(error := Some(message));
    shown.(pageInFlight := false, busy := if shown.busy == FetchingPage then Free else shown.busy)
  }

  function StartPost(v: View, name: string): View {
    v.(busy := OtherWork(name), error := None)
  }

  function FinishPost(v: View, failure: Option<string>): View {
    v.(busy := Free, error := if failure.Some? then failure else v.error)
  }

  // The panel as an object; each method is one synchronous stretch between two awaits.
  class DeliveryPanel {
    var base: Option<seq<Row>>
    var extra: seq<Row>
    var cursor: Option<Row>
    var hasMore: Option<bool>
    var error: Option<string>
    var busy: Busy
    var generation: nat
    var pageInFlight: bool

    constructor ()
      ensures Shown() == Initial()
    {
      base, extra, cursor, hasMore, error, busy, generation, pageInFlight := None, [], None, None, None, Free, 0, false;
    }

    ghost function Shown(): View
      reads this
    {
      View(base, extra, cursor, hasMore, error, busy, generation, pageInFlight)
    }

    method BeginLoad() returns (ticket: nat)
      modifies this
      ensures (Shown(), ticket) == StartReload(old(Shown()))
    {
      generation := generation + 1;
      ticket := generation;
      error := None;
    }

    method EndLoad(ticket: nat, outcome: ReloadOutcome)
      modifies this
      ensures Shown() == FinishReload(old(Shown()), ticket, outcome)
    {
      match outcome
      case Loaded(queue) =>
        if ticket != generation {
          return;
        }
        generation := generation + 1;
        base := Some(queue);
        extra := [];
        cursor := None;
        hasMore := None;
      case ReloadFailed(message) =>
        if ticket == generation {
          error := Some(message);
        }
    }

    method BeginPage() returns (ticket: Option<PageTicket>)
      modifies this
      ensures (Shown(), ticket) == StartPage(old(Shown()))
    {
      if pageInFlight {
        return None;
      }
      pageInFlight := true;
      var started := generation;
      busy := FetchingPage;
      error := None;
      var anchor := cursor;
      if anchor.None? {
        var rows := Merged((if base.Some? then base.value else []) + extra);
        anchor := Last(rows);
      }
      return Some(PageTicket(started, anchor));
    }

    method EndPage(ticket: PageTicket, outcome: PageOutcome)
      modifies this
      ensures Shown() == FinishPage(old(Shown()), ticket, outcome)
    {
      if ticket.generation == generation {
        match outcome
        case Page(rows, more) =>
          extra := extra + rows;
          cursor := if rows != [] then Some(rows[|rows| - 1]) else ticket.anchor;
          hasMore := Some(more);
        case PageFailed(message) =>
          error := Some(message);
      }
      pageInFlight := false;
      if busy == FetchingPage {
        busy := Free;
      }
    }

    // Other requests of the panel report on the same two fields.
    method BeginPost(name: string)
      modifies this`busy, this`error
      ensures Shown() == StartPost(old(Shown()), name)
    {
      busy := OtherWork(name);
      error := None;
    }

    method EndPost(failure: Option<string>)
      modifies this`busy, this`error
      ensures Shown() == FinishPost(old(Shown()), failure)
    {
      if failure.Some? {
        error := failure;
      }
      busy := Free;
    }
  }

  function Initial(): View {
    View(None, [], None, None, None, Free, 0, false)
  }

  // ---- Requests in flight, in any order of completion ----

  // A page request and what the panel showed when it was made.
  datatype Request = Request(ticket: PageTicket, base: Option<seq<Row>>, extra: seq<Row>, cursor: Option<Row>)

  // A page that was shown: its anchor, its rows and whether it said that there are more.
  datatype Received = Received(anchor: Option<Row>, rows: seq<Row>, hasMore: bool)

  // A reload that was shown, and the queue it brought.
  datatype Commit = Commit(ticket: nat, queue: seq<Row>)

  // started and committed are the reloads in order; pages are those shown on the present base.
  datatype System = System(
    view: View, reloads: set<nat>, requests: set<Request>, started: seq<nat>, committed: seq<Commit>,
        pages: seq<Received>)

  datatype Step =
    | ReloadStarts
    | ReloadEnds(ticket: nat, loaded: ReloadOutcome)
    | PageStarts
    | PageEnds(request: Request, outcome: PageOutcome)
    | PostStarts(name: string)
    | PostEnds(failure: Option<string>)

  predicate Enabled(s: System, step: Step) {
    match step
    case ReloadStarts => true
    case ReloadEnds(ticket, _) => ticket in s.reloads
    case PageStarts => true
    case PageEnds(request, _) => request in s.requests
    case PostStarts(_) => true
    case PostEnds(_) => true
  }

  function Next(s: System, step: Step): System {
    if !Enabled(s, step) then s
    else
      match step
      case ReloadStarts =>
        var (view, ticket) := StartReload(s.view);
        s.(view := view, reloads := s.reloads + {ticket}, started := s.started + [ticket])
      case ReloadEnds(ticket, outcome) =>
        var commits := ticket == s.view.generation && outcome.Loaded?;
        s.(view := FinishReload(s.view, ticket, outcome), reloads := s.reloads - {ticket},
           committed := if commits then s.committed + [Commit(ticket, outcome.queue)] else s.committed,
           pages := if commits then [] else s.pages)
      case PageStarts =>
        var (view, ticket) := StartPage(s.view);
        s.(view := view,
           requests := if ticket.Some? then s.requests
               + {Request(ticket.value, s.view.base, s.view.extra, s.view.cursor)}
                       else s.requests)
      case PageEnds(request, outcome) =>
        var ticket := request.ticket;
        s.(view := FinishPage(s.view, ticket, outcome), requests := s.requests - {request},
           pages := if ticket.generation == s.view.generation && outcome.Page?
                    then s.pages + [Received(ticket.anchor, outcome.rows, outcome.hasMore)] else s.pages)
      case PostStarts(name) => s.(view := StartPost(s.view, name))
      case PostEnds(failure) => s.(view := FinishPost(s.view, failure))
  }

  function RunAll(steps: seq<Step>): System {
    if steps == [] then System(Initial(), {}, {}, [], [], [])
    else Next(RunAll(steps[..|steps| - 1]), steps[|steps| - 1])
  }

  // ---- The invariant ----

  function AllRows(pages: seq<Received>): seq<Row> {
    if pages == [] then [] else AllRows(pages[..|pages| - 1]) + pages[|pages| - 1].rows
  }

  // Where the list stands after these pages.
  function CursorAfter(pages: seq<Received>): Option<Row> {
    if pages == [] then None
    else var p := pages[|pages| - 1]; OrElse(Last(p.rows), p.anchor)
  }

  // What the last of these pages said of more.
  function MoreAfter(pages: seq<Received>): Option<bool> {
    if pages == [] then None else Some(pages[|pages| - 1].hasMore)
  }

  function LastQueue(commits: seq<Commit>): Option<seq<Row>> {
    if commits == [] then None else Some(commits[|commits| - 1].queue)
  }

  // Each page was asked for at the place where the list of the pages before it ended: the end of these
  // pages, or the last row shown where they tell none.
  ghost predicate Chained(base: Option<seq<Row>>, pages: seq<Received>) {
    forall i :: 0 <= i < |pages| ==>
      pages[i].anchor == OrElse(
        CursorAfter(pages[..i]),
        Last(Merged((if base.Some? then base.value else []) + AllRows(pages[..i]))))
  }

  predicate Increasing(numbers: seq<nat>) {
    forall i, j :: 0 <= i < j < |numbers| ==> numbers[i] < numbers[j]
  }

  predicate Below(numbers: seq<nat>, limit: nat) {
    forall i :: 0 <= i < |numbers| ==> numbers[i] < limit
  }

  ghost predicate ReloadsInv(s: System) {
    && Increasing(s.started) && Below(s.started, s.view.generation + 1)
    && CommitsIncrease(s.committed)
    && (forall i :: 0 <= i < |s.committed| ==>
          && s.committed[i].ticket < s.view.generation
          && s.committed[i].ticket in s.started && s.committed[i].ticket !in s.reloads)
    && (forall t :: t in s.reloads ==> t in s.started)
    && (s.started != [] ==>
          var newest := s.started[|s.started| - 1];
          s.view.generation == newest || (s.view.generation == newest + 1 && newest !in s.reloads))
  }

  predicate CommitsIncrease(commits: seq<Commit>) {
    forall i, j :: 0 <= i < j < |commits| ==> commits[i].ticket < commits[j].ticket
  }

  ghost predicate PagesInv(s: System) {
    && |s.requests| == (if s.view.pageInFlight then 1 else 0)
    && (forall r :: r in s.requests ==>
          && r.ticket.generation <= s.view.generation
          && (r.ticket.generation == s.view.generation ==>
                r.base == s.view.base && r.extra == s.view.extra && r.cursor == s.view.cursor))
    && (forall r :: r in s.requests ==>
          r.ticket.anchor == OrElse(r.cursor, Last(Merged((if r.base.Some? then r.base.value else []) + r.extra))))
  }

  ghost predicate ShownInv(s: System) {
    && s.view.extra == AllRows(s.pages)
    && s.view.cursor == CursorAfter(s.pages)
    && Chained(s.view.base, s.pages)
    && s.view.hasMore == MoreAfter(s.pages)
    && s.view.base == LastQueue(s.committed)
  }

  ghost predicate Inv(s: System) {
    ReloadsInv(s) && PagesInv(s) && ShownInv(s)
  }

  // Pages leave the generation alone.
  lemma PagesKeepGeneration(v: View, ticket: PageTicket, outcome: PageOutcome)
    ensures StartPage(v).0.generation == v.generation && FinishPage(v, ticket, outcome).generation == v.generation
    ensures !FinishPage(v, ticket, outcome).pageInFlight
    ensures FinishPage(v, ticket, outcome).base == v.base
  {
  }

  lemma NextKeepsReloads(s: System, step: Step)
    requires ReloadsInv(s)
    ensures ReloadsInv(Next(s, step))
  {
    if step.PageStarts? || step.PageEnds? || step.PostStarts? || step.PostEnds? {
      if step.PageEnds? {
        PagesKeepGeneration(s.view, step.request.ticket, step.outcome);
      }
      hide FinishPage, ReloadsInv;
      assert Next(s, step).view.generation == s.view.generation;
      assert Next(s, step).reloads == s.reloads && Next(s, step).started == s.started
          && Next(s, step).committed == s.committed;
      hide Next;
      SameReloads(s, Next(s, step));
    } else if step.ReloadStarts? {
      hide FinishPage, StartPage, FinishReload;
    } else {
      hide FinishPage, StartPage, StartReload;
    }
  }

  lemma SameReloads(s: System, s': System)
    requires ReloadsInv(s)
    requires s'.view.generation == s.view.generation && s'.reloads == s.reloads && s'.started == s.started
               && s'.committed == s.committed
    ensures ReloadsInv(s')
  {
  }

  // What a request says stays true while the generation moves on or nothing it saw changes.
  lemma SamePages(s: System, s': System)
    requires PagesInv(s) && s'.requests == s.requests && s'.view.pageInFlight == s.view.pageInFlight
    requires s.view.generation <= s'.view.generation
    requires s'.view.generation == s.view.generation ==>
               s'.view.base == s.view.base && s'.view.extra == s.view.extra && s'.view.cursor == s.view.cursor
    ensures PagesInv(s')
  {
    hide Merged, Last, OrElse;
  }

  lemma PageStartKeepsPages(s: System)
    requires PagesInv(s) && !s.view.pageInFlight
    ensures PagesInv(Next(s, PageStarts))
  {
    hide Merged, Last, OrElse;
    assert s.requests == {};
  }

  lemma PageEndKeepsPages(s: System, request: Request, outcome: PageOutcome)
    requires PagesInv(s) && request in s.requests
    ensures PagesInv(Next(s, PageEnds(request, outcome)))
  {
    hide Merged, Last, OrElse, FinishPage;
    PagesKeepGeneration(s.view, request.ticket, outcome);
    var rest := s.requests - {request};
    assert s.requests == rest + {request};
    assert rest == {};
  }

  lemma NextKeepsPages(s: System, step: Step)
    requires PagesInv(s)
    ensures PagesInv(Next(s, step))
  {
    if step.PageStarts? && !s.view.pageInFlight {
      PageStartKeepsPages(s);
    } else if step.PageEnds? && Enabled(s, step) {
      PageEndKeepsPages(s, step.request, step.outcome);
    } else {
      hide PagesInv, FinishPage;
      SamePages(s, Next(s, step));
    }
  }

  lemma ChainedNext(base: Option<seq<Row>>, pages: seq<Received>, p: Received)
    requires Chained(base, pages)
    requires p.anchor == OrElse(CursorAfter(pages),
               Last(Merged((if base.Some? then base.value else []) + AllRows(pages))))
    ensures Chained(base, pages + [p])
    ensures AllRows(pages + [p]) == AllRows(pages) + p.rows
              && CursorAfter(pages + [p]) == OrElse(Last(p.rows), p.anchor)
  {
    hide Merged, AllRows, CursorAfter, Last;
    var grown := pages + [p];
    assert grown[..|pages|] == pages;
    assert AllRows(grown) == AllRows(pages) + p.rows && CursorAfter(grown) == OrElse(Last(p.rows), p.anchor) by {
      RowsNext(pages, p);
    }
    forall i | 0 <= i < |grown|
      ensures grown[i].anchor == OrElse(CursorAfter(grown[..i]),
                Last(Merged((if base.Some? then base.value else []) + AllRows(grown[..i]))))
    {
      if i < |pages| {
        assert grown[..i] == pages[..i];
      }
    }
  }

  lemma RowsNext(pages: seq<Received>, p: Received)
    ensures AllRows(pages + [p]) == AllRows(pages) + p.rows
              && CursorAfter(pages + [p]) == OrElse(Last(p.rows), p.anchor)
  {
    assert (pages + [p])[..|pages|] == pages;
  }

  lemma NextKeepsShown(s: System, step: Step)
    requires Inv(s)
    ensures ShownInv(Next(s, step))
  {
    if step.PageEnds? && Enabled(s, step) {
      PageEndKeepsShown(s, step.request, step.outcome);
    } else if step.ReloadEnds? && Enabled(s, step) {
      hide Merged;
    } else {
      hide Merged, ReloadsInv, Chained, AllRows, CursorAfter, MoreAfter, LastQueue;
    }
  }

  // What a current request was asked for.
  lemma CurrentRequest(s: System, request: Request)
    requires PagesInv(s) && request in s.requests && request.ticket.generation == s.view.generation
    ensures request.ticket.anchor == OrElse(s.view.cursor,
              Last(Merged((if s.view.base.Some? then s.view.base.value else []) + s.view.extra)))
  {
    hide Merged;
  }

  lemma PageEndKeepsShown(s: System, request: Request, outcome: PageOutcome)
    requires Inv(s) && request in s.requests
    ensures ShownInv(Next(s, PageEnds(request, outcome)))
  {
    hide Merged, ReloadsInv, Last;
    if request.ticket.generation == s.view.generation && outcome.Page? {
      CurrentRequest(s, request);
      hide PagesInv;
      var p := Received(request.ticket.anchor, outcome.rows, outcome.hasMore);
      ChainedNext(s.view.base, s.pages, p);
      assert MoreAfter(s.pages + [p]) == Some(p.hasMore);
      hide Chained, AllRows, CursorAfter, MoreAfter, LastQueue;
    } else {
      hide Chained, AllRows, CursorAfter, MoreAfter, LastQueue, PagesInv;
    }
  }

  lemma {:induction false} ReachableInv(steps: seq<Step>)
    ensures Inv(RunAll(steps))
  {
    if steps != [] {
      var before := RunAll(steps[..|steps| - 1]);
      ReachableInv(steps[..|steps| - 1]);
      NextKeepsReloads(before, steps[|steps| - 1]);
      NextKeepsPages(before, steps[|steps| - 1]);
      NextKeepsShown(before, steps[|steps| - 1]);
    }
  }

  // ---- Theorems ----

  /** In any order of completion, what is shown is the queue of the last reload that committed, none
      before; and after it the rows of pages that were asked for against that queue, one after the other,
      each from where the list then ended. The cursor and whether there are more are those of the last of
      these pages, and none without one; and at most one page is in flight. */
  lemma ExtraRowsContinueTheBase(steps: seq<Step>)
    ensures var s := RunAll(steps);
            && s.view.base == (if s.committed == [] then None else Some(s.committed[|s.committed| - 1].queue))
            && s.view.extra == AllRows(s.pages)
            && Chained(s.view.base, s.pages)
            && (s.pages == [] ==> s.view.cursor.None? && s.view.hasMore.None?)
            && (s.pages != [] ==>
                  var p := s.pages[|s.pages| - 1];
                  && s.view.cursor == (if p.rows == [] then p.anchor else Some(p.rows[|p.rows| - 1]))
                  && s.view.hasMore == Some(p.hasMore))
            && |s.requests| <= 1
            && (s.view.pageInFlight <==> s.requests != {})
  {
    ReachableInv(steps);
    hide RunAll, ReloadsInv, Merged, Chained, AllRows;
  }

  /** A page is shown exactly if nothing it was asked for has changed meanwhile: then its rows come behind
      what was shown, and otherwise nothing is shown of it. */
  lemma ShownPageIsCurrent(steps: seq<Step>, request: Request, outcome: PageOutcome)
    requires request in RunAll(steps).requests && outcome.Page?
    ensures var s := RunAll(steps);
            var s' := Next(s, PageEnds(request, outcome));
            if request.ticket.generation == s.view.generation then
              && request.base == s.view.base && request.extra == s.view.extra && request.cursor == s.view.cursor
              && s'.view.extra == request.extra + outcome.rows && s'.view.base == request.base
              && s'.view.hasMore == Some(outcome.hasMore)
            else
              && s'.view.base == s.view.base && s'.view.extra == s.view.extra
              && s'.view.cursor == s.view.cursor && s'.view.hasMore == s.view.hasMore && s'.view.error == s.view.error
  {
    ReachableInv(steps);
  }

  // What a reload shows when it commits.
  predicate ShowsQueue(v: View, queue: seq<Row>) {
    v.base == Some(queue) && v.extra == [] && v.cursor.None? && v.hasMore.None?
  }

  /** The reload that was started last, and no other, commits when it is loaded, showing just its queue;
      so reloads commit in the order they were started, each at most once; and any other that ends changes
      nothing. */
  lemma OnlyNewestReloadCommits(steps: seq<Step>, ticket: nat, outcome: ReloadOutcome)
    requires ticket in RunAll(steps).reloads
    ensures var s := RunAll(steps);
            var s' := Next(s, ReloadEnds(ticket, outcome));
            && CommitsIncrease(s'.committed)
            && s.started != []
            && (ticket == s.started[|s.started| - 1] && outcome.Loaded? ==>
                  s'.committed == s.committed + [Commit(ticket, outcome.queue)] && ShowsQueue(s'.view, outcome.queue))
            && (s'.committed != s.committed ==> ticket == s.started[|s.started| - 1] && outcome.Loaded?)
            && (ticket != s.started[|s.started| - 1] ==> s'.view == s.view)
  {
    ReachableInv(steps);
    hide RunAll, PagesInv, ShownInv, Next;
    ReloadEnd(RunAll(steps), ticket, outcome);
  }

  lemma NewestIsCurrent(s: System, ticket: nat)
    requires ReloadsInv(s) && ticket in s.reloads
    ensures s.started != [] && (ticket == s.started[|s.started| - 1] <==> ticket == s.view.generation)
  {
    var i :| 0 <= i < |s.started| && s.started[i] == ticket;
    assert ticket <= s.started[|s.started| - 1] <= s.view.generation;
  }

  lemma ReloadEnd(s: System, ticket: nat, outcome: ReloadOutcome)
    requires ReloadsInv(s) && ticket in s.reloads
    ensures var s' := Next(s, ReloadEnds(ticket, outcome));
            && CommitsIncrease(s'.committed)
            && s.started != []
            && (ticket == s.started[|s.started| - 1] && outcome.Loaded? ==>
                  s'.committed == s.committed + [Commit(ticket, outcome.queue)] && ShowsQueue(s'.view, outcome.queue))
            && (s'.committed != s.committed ==> ticket == s.started[|s.started| - 1] && outcome.Loaded?)
            && (ticket != s.started[|s.started| - 1] ==> s'.view == s.view)
  {
    NextKeepsReloads(s, ReloadEnds(ticket, outcome));
    NewestIsCurrent(s, ticket);
    hide ReloadsInv, Increasing, Below, CommitsIncrease;
  }

  // ---- Failures and work ----

  // What the end or the start of a request makes of the error that is shown: a failure is shown unless it
  // was overtaken, and any start clears it.
  ghost predicate ErrorAfter(s: System, step: Step, error: Option<string>) {
    match step
    case ReloadStarts => error.None?
    case PostStarts(_) => error.None?
    case PageStarts => error == if s.requests == {} then None else s.view.error
    case ReloadEnds(ticket, outcome) =>
      && s.started != []
      && error == if outcome.ReloadFailed? && ticket == s.started[|s.started| - 1] then Some(outcome.message)
                  else s.view.error
    case PageEnds(request, outcome) =>
      error == if outcome.PageFailed? && request.ticket.generation == s.view.generation then Some(outcome.message)
               else s.view.error
    case PostEnds(failure) => if failure.Some? then error == failure else error == s.view.error
  }

  // And of the work that is named: a start takes the name over, a post's end frees it, and a page's end
  // frees it if it is still its own.
  ghost predicate BusyAfter(s: System, step: Step, busy: Busy) {
    match step
    case PostStarts(name) => busy == OtherWork(name)
    case PostEnds(_) => busy == Free
    case PageStarts => busy == if s.requests == {} then FetchingPage else s.view.busy
    case PageEnds(_, _) => busy != FetchingPage && (s.view.busy != FetchingPage ==> busy == s.view.busy)
                           && (s.view.busy == FetchingPage ==> busy == Free)
    case _ => busy == s.view.busy
  }

  /** Whatever happened before, each step leaves the error and the named work so, and no reload or post
      touches what a page fetch holds. */
  lemma FailuresAreShown(steps: seq<Step>, step: Step)
    requires Enabled(RunAll(steps), step)
    requires step.ReloadEnds? ==> step.ticket in RunAll(steps).reloads
    ensures var s := RunAll(steps);
            var v := Next(s, step).view;
            && ErrorAfter(s, step, v.error) && BusyAfter(s, step, v.busy)
            && (!step.PageStarts? && !step.PageEnds? ==> v.pageInFlight == s.view.pageInFlight)
  {
    ReachableInv(steps);
    var s := RunAll(steps);
    assert s.view.pageInFlight <==> s.requests != {};
    if step.ReloadEnds? {
      NewestIsCurrent(s, step.ticket);
    }
    hide RunAll, Inv, Merged;
  }
}
