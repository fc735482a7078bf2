/**
 The one pagination loop of the repository (src/pagination/paginateAtlassian.ts), run against a
 modelled server. A server may answer each fetch differently, so its answer depends on the
 number of the call as well as on (startAt, maxResults); it may also reject.
 */
module Pagination {
  import opened Common
  import opened Division

  datatype Page<T> = Page(values: Option<seq<T>>, issues: Option<seq<T>>, total: Option<int>, isLast: Option<bool>)

  /** The item array of a page, under whichever key the endpoint uses. */
  function Items<T>(page: Page<T>): seq<T> {
    if page.values.Some? then page.values.value else if page.issues.Some? then page.issues.value else []
  }

  datatype Reply<T> = Delivered(page: Page<T>) | Rejected

  type Server<T> = (nat, nat, nat) -> Reply<T>

  datatype Reason = EmptyPage | IsLast | ShortPage | TotalReached

  datatype Result<T> = Result(
    items: seq<T>,
    totalFetched: nat,
    apiReportedTotal: Option<int>,
    pagesFetched: nat,
    reconciled: bool,
    gap: Option<int>)

  /** The loop variables before a fetch. */
  datatype Progress<T> = Progress(items: seq<T>, startAt: nat, total: Option<int>, pages: nat)

  /** `StillFetching` is a run that has not ended after the fetches observed so far. */
  datatype Outcome<T> = Finished(result: Result<T>, reason: Reason) | Failed | StillFetching(progress: Progress<T>)

  function Absorb<T>(p: Progress<T>, page: Page<T>): Progress<T> {
    Progress(p.items + Items(page), p.startAt, if p.total == None then page.total else p.total, p.pages + 1)
  }

  /** The four exits, in the order the loop tries them; `p` has absorbed `page`. */
  function ExitReason<T>(p: Progress<T>, page: Page<T>, maxResults: nat): Option<Reason> {
    if |Items(page)| == 0 then Some(EmptyPage)
    else if page.isLast == Some(true) then Some(IsLast)
    else if |Items(page)| < maxResults then Some(ShortPage)
    else if p.total.Some? && |p.items| >= p.total.value then Some(TotalReached)
    else None
  }

  function ResultOf<T>(p: Progress<T>): Result<T> {
    var reconciled := p.total == None || |p.items| == p.total.value;
    Result(p.items, |p.items|, p.total, p.pages, reconciled,
           if reconciled then None else Some(p.total.value - |p.items|))
  }

  /** The loop from `p` on, observed for at most `budget` fetches. */
  function Run<T>(server: Server<T>, maxResults: nat, p: Progress<T>, budget: nat): Outcome<T>
    decreases budget
  {
    if budget == 0 then StillFetching(p)
    else
      match server(p.pages, p.startAt, maxResults)
      case Rejected => Failed
      case Delivered(page) =>
        var q := Absorb(p, page);
        match ExitReason(q, page, maxResults)
        case Some(reason) => Finished(ResultOf(q), reason)
        case None => Run(server, maxResults, q.(startAt := q.startAt + |Items(page)|), budget - 1)
  }

  function Start<T>(): Progress<T> {
    Progress([], 0, None, 0)
  }

  method PaginateAtlassian<T>(server: Server<T>, maxResults: nat, budget: nat) returns (outcome: Outcome<T>)
    ensures outcome == Run(server, maxResults, Start(), budget)
  {
    var items: seq<T> := [];
    var startAt: nat := 0;
    var apiReportedTotal: Option<int> := None;
    var pagesFetched: nat := 0;
    while pagesFetched < budget
      invariant 0 <= pagesFetched <= budget
      invariant Run(server, maxResults, Start(), budget)
                == Run(server, maxResults, Progress(items, startAt, apiReportedTotal, pagesFetched),
                       budget - pagesFetched)
    {
      var reply := server(pagesFetched, startAt, maxResults);
      if reply.Rejected? {
        return Failed;
      }
      var page := reply.page;
      pagesFetched := pagesFetched + 1;
      var pageItems := Items(page);
      items := items + pageItems;
      if apiReportedTotal == None && page.total != None {
        apiReportedTotal := page.total;
      }
      var terminationReason: Option<Reason> := None;
      if |pageItems| == 0 {
        terminationReason := Some(EmptyPage);
      } else if page.isLast == Some(true) {
        terminationReason := Some(IsLast);
      } else if |pageItems| < maxResults {
        terminationReason := Some(ShortPage);
      } else if apiReportedTotal != None && |items| >= apiReportedTotal.value {
        terminationReason := Some(TotalReached);
      }
      if terminationReason != None {
        var reconciled := apiReportedTotal == None || |items| == apiReportedTotal.value;
        var gap := if reconciled then None else Some(apiReportedTotal.value - |items|);
        return Finished(Result(items, |items|, apiReportedTotal, pagesFetched, reconciled, gap),
                        terminationReason.value);
      }
      startAt := startAt + |pageItems|;
    }
    outcome := StillFetching(Progress(items, startAt, apiReportedTotal, pagesFetched));
  }

  // Any server

  /** The loop asks for the item after those it has, and every page so far was full and showed something. */
  predicate Collected<T>(p: Progress<T>, maxResults: nat) {
    p.startAt == |p.items| && |p.items| >= p.pages * maxResults && |p.items| >= p.pages
  }

  /** The books of a result of a run that had fetched so many pages before. */
  predicate Balanced<T>(r: Result<T>, maxResults: nat, before: nat) {
    && r.totalFetched == |r.items| && before < r.pagesFetched
    && |r.items| >= (r.pagesFetched - 1) * maxResults && |r.items| >= r.pagesFetched - 1
    && (r.reconciled <==> r.apiReportedTotal == None || r.apiReportedTotal.value == |r.items|)
    && (r.gap.Some? <==> !r.reconciled)
    && (r.gap.Some? ==> r.gap.value == r.apiReportedTotal.value - |r.items|)
  }

  lemma OneMorePage<T>(p: Progress<T>, page: Page<T>, maxResults: nat, next: Progress<T>)
    requires Collected(p, maxResults) && ExitReason(Absorb(p, page), page, maxResults) == None
    requires next == Absorb(p, page).(startAt := p.startAt + |Items(page)|)
    ensures Collected(next, maxResults) && next.pages == p.pages + 1
  {
    MoreThan(|p.items|, p.pages, maxResults, |Items(page)|);
  }

  lemma MoreThan(items: nat, pages: nat, size: nat, shown: nat)
    requires items >= pages * size && shown >= size
    ensures items + shown >= (pages + 1) * size
  {
    assert (pages + 1) * size == pages * size + size;
  }

  lemma LastPageBalances<T>(p: Progress<T>, page: Page<T>, maxResults: nat, r: Result<T>)
    requires Collected(p, maxResults) && r == ResultOf(Absorb(p, page))
    ensures Balanced(r, maxResults, p.pages) && r.pagesFetched == p.pages + 1
  {
    assert r.pagesFetched - 1 == p.pages;
  }

  /** What one observed run has collected so far, whether it ended or not. */
  lemma {:induction false} RunKeepsBooks<T>(server: Server<T>, maxResults: nat, p: Progress<T>, budget: nat)
    requires Collected(p, maxResults)
    ensures var out := Run(server, maxResults, p, budget);
            && (out.StillFetching? ==> Collected(out.progress, maxResults) && out.progress.pages == p.pages + budget)
            && (out.Finished? ==>
                  Balanced(out.result, maxResults, p.pages) && out.result.pagesFetched <= p.pages + budget)
    decreases budget
  {
    if budget > 0 {
      match server(p.pages, p.startAt, maxResults)
      case Rejected =>
      case Delivered(page) =>
        var q := Absorb(p, page);
        if ExitReason(q, page, maxResults) == None {
          var next := q.(startAt := q.startAt + |Items(page)|);
          OneMorePage(p, page, maxResults, next);
          RunKeepsBooks(server, maxResults, next, budget - 1);
        } else {
          LastPageBalances(p, page, maxResults, ResultOf(q));
        }
    }
  }

  /**
   A run ends at one page, for the reason it gives: a page that shows nothing, one that calls itself last, one that is
   not full, or one with which the reported total is reached. What it shows is the end of the items.
   */
  lemma {:induction false} EndsForItsReason<T>(server: Server<T>, maxResults: nat, p: Progress<T>, budget: nat)
    returns (before: Progress<T>, page: Page<T>, last: seq<T>)
    requires Run(server, maxResults, p, budget).Finished?
    ensures var out := Run(server, maxResults, p, budget);
            && server(before.pages, before.startAt, maxResults) == Delivered(page) && Shows(page, last)
            && out.result.items == before.items + last && out.result.pagesFetched == before.pages + 1
            && (out.reason == EmptyPage <==> last == [])
            && (out.reason == IsLast <==> last != [] && page.isLast == Some(true))
            && (out.reason == ShortPage <==> last != [] && page.isLast != Some(true) && |last| < maxResults)
            && (out.reason == TotalReached ==>
                  out.result.apiReportedTotal.Some? && |out.result.items| >= out.result.apiReportedTotal.value)
    decreases budget
  {
    page := server(p.pages, p.startAt, maxResults).page;
    var q := Absorb(p, page);
    if ExitReason(q, page, maxResults) == None {
      var next := q.(startAt := q.startAt + |Items(page)|);
      before, page, last := EndsForItsReason(server, maxResults, next, budget - 1);
    } else {
      before, last := p, Items(page);
      WhatAPageShows(page, last);
    }
  }

  function Max(a: int, b: int): int {
    if a >= b then a else b
  }

  /** How many fetches a known total still allows when every page but the last brings at least `step` items. */
  function FetchBound(missing: int, step: nat): (n: nat)
    requires step >= 1
    ensures n >= 1
    decreases Max(0, missing)
  {
    if missing <= step then 1 else 1 + FetchBound(missing - step, step)
  }

  lemma {:induction false} FetchBoundFalls(missing: int, step: nat, brought: nat)
    requires step >= 1 && brought >= step && missing > brought
    ensures FetchBound(missing, step) >= 1 + FetchBound(missing - brought, step)
    decreases brought
  {
    if brought >= 2 * step {
      FetchBoundFalls(missing - step, step, brought - step);
    } else {
      FetchBoundMonotone(missing - brought, missing - step, step);
    }
  }

  lemma {:induction false} FetchBoundMonotone(a: int, b: int, step: nat)
    requires step >= 1 && a <= b
    ensures FetchBound(a, step) <= FetchBound(b, step)
    decreases Max(0, a)
  {
    if a > step {
      FetchBoundMonotone(a - step, b - step, step);
    }
  }

  lemma {:induction false} KnownTotalBoundsTheRun<T>(server: Server<T>, maxResults: nat, p: Progress<T>, budget: nat)
    requires p.startAt == |p.items| && p.total.Some? && |p.items| < p.total.value
    requires budget >= FetchBound(p.total.value - |p.items|, Max(1, maxResults))
    ensures var out := Run(server, maxResults, p, budget);
            && !out.StillFetching?
            && (out.Finished? ==>
                out.result.pagesFetched <= p.pages + FetchBound(p.total.value - |p.items|, Max(1, maxResults)))
    decreases budget
  {
    match server(p.pages, p.startAt, maxResults)
    case Rejected =>
    case Delivered(page) =>
      var q := Absorb(p, page);
      if ExitReason(q, page, maxResults) == None {
        FetchBoundFalls(p.total.value - |p.items|, Max(1, maxResults), |Items(page)|);
        KnownTotalBoundsTheRun(server, maxResults, q.(startAt := q.startAt + |Items(page)|), budget - 1);
      }
  }

  lemma {:induction false} FetchBoundIsCeiling(missing: int, step: nat)
    requires step >= 1
    ensures FetchBound(missing, step) == Max(1, CeilDiv(missing, step))
    decreases Max(0, missing)
  {
    if missing > step {
      FetchBoundIsCeiling(missing - step, step);
      CeilDivStep(missing - step, step);
    } else {
      CeilDivSmall(missing, step);
    }
  }

  /** Whatever the server sends, a first page that reports a total bounds the number of fetches by that total. */
  lemma FirstTotalBoundsTheRun<T>(server: Server<T>, maxResults: nat, total: int, budget: nat)
    requires server(0, 0, maxResults).Delivered? && server(0, 0, maxResults).page.total == Some(total)
    requires budget >= Max(1, CeilDiv(total, Max(1, maxResults)))
    ensures var out := Run(server, maxResults, Start(), budget);
            && !out.StillFetching?
            && (out.Finished? ==> out.result.pagesFetched <= Max(1, CeilDiv(total, Max(1, maxResults))))
  {
    FetchBoundIsCeiling(total, Max(1, maxResults));
    var page := server(0, 0, maxResults).page;
    var q := Absorb(Start(), page);
    assert q.items == Items(page);
    if ExitReason(q, page, maxResults) == None {
      FetchBoundFalls(total, Max(1, maxResults), |Items(page)|);
      KnownTotalBoundsTheRun(server, maxResults, q.(startAt := |Items(page)|), budget - 1);
    }
  }

  /** A larger budget never changes a run that has ended. */
  lemma {:induction false} EndedRunsAreFinal<T>(server: Server<T>, maxResults: nat, p: Progress<T>, budget: nat,
                                                more: nat)
    requires !Run(server, maxResults, p, budget).StillFetching? && budget <= more
    ensures Run(server, maxResults, p, more) == Run(server, maxResults, p, budget)
    decreases budget
  {
    match server(p.pages, p.startAt, maxResults)
    case Rejected =>
    case Delivered(page) =>
      var q := Absorb(p, page);
      if ExitReason(q, page, maxResults) == None {
        EndedRunsAreFinal(server, maxResults, q.(startAt := q.startAt + |Items(page)|), budget - 1, more - 1);
      }
  }

  // Honest servers

  /** The part of `list` that a page of `size` items starting at `startAt` shows. */
  function Slice<T>(list: seq<T>, startAt: nat, size: nat): seq<T> {
    if startAt >= |list| then []
    else if startAt + size >= |list| then list[startAt..]
    else list[startAt..startAt + size]
  }

  /** The page shows these items, under whichever key its endpoint uses, or no array at all when there are none. */
  predicate Shows<T(==)>(page: Page<T>, items: seq<T>) {
    || page.values == Some(items)
    || (page.values == None && page.issues == Some(items))
    || (page.values == None && page.issues == None && items == [])
  }

  /** `values` wins over `issues`, and a page with neither shows nothing. */
  lemma WhatAPageShows<T>(page: Page<T>, items: seq<T>)
    ensures Shows(page, items) <==> Items(page) == items
    ensures page.values.Some? ==> Items(page) == page.values.value
    ensures page.values == None && page.issues.Some? ==> Items(page) == page.issues.value
    ensures page.values == None && page.issues == None ==> Items(page) == []
  {
  }

  /** A page that shows the right items, reports no wrong total and does not call itself last too early. */
  predicate HonestPage<T(==)>(page: Page<T>, list: seq<T>, startAt: nat, size: nat) {
    && Shows(page, Slice(list, startAt, size))
    && (page.total == None || page.total == Some(|list|))
    && (page.isLast == Some(true) ==> startAt + size >= |list|)
  }

  /** Every page of this size that arrives is honest; some fetches may be rejected. */
  ghost predicate TruthfulAt<T(!new)>(server: Server<T>, list: seq<T>, size: nat) {
    forall call, startAt ::
      server(call, startAt, size).Delivered? ==> HonestPage(server(call, startAt, size).page, list, startAt, size)
  }

  ghost predicate Truthful<T(!new)>(server: Server<T>, list: seq<T>) {
    forall size :: TruthfulAt(server, list, size)
  }

  ghost predicate NeverRejectsAt<T(!new)>(server: Server<T>, size: nat) {
    forall call, startAt :: server(call, startAt, size).Delivered?
  }

  ghost predicate NeverRejects<T(!new)>(server: Server<T>) {
    forall size :: NeverRejectsAt(server, size)
  }

  /** From call number `call` on, some page that still shows items reports the total or calls itself last. */
  predicate Signalled<T>(server: Server<T>, list: seq<T>, size: nat, call: nat, startAt: nat)
    requires size >= 1
    decreases |list| - startAt
  {
    startAt < |list| &&
    var reply := server(call, startAt, size);
    || (reply.Delivered? && (reply.page.total.Some? || reply.page.isLast == Some(true)))
    || Signalled(server, list, size, call + 1, startAt + size)
  }

  /** The number of pages: without an end signal a list that fills its last page costs one more, empty page. */
  function PageCount(items: nat, size: nat, signalled: bool): (n: nat)
    requires size >= 1
    ensures n >= 1
  {
    if items < size || (items == size && signalled) then 1 else 1 + PageCount(items - size, size, signalled)
  }

  lemma {:induction false} PageCountClosedForm(items: nat, size: nat)
    requires size >= 1
    ensures PageCount(items, size, true) == Max(1, CeilDiv(items, size))
    ensures PageCount(items, size, false) == items / size + 1
  {
    PageCountIsCeiling(items, size);
    PageCountIsFloor(items, size);
  }

  lemma {:induction false} PageCountIsCeiling(items: nat, size: nat)
    requires size >= 1
    ensures PageCount(items, size, true) == Max(1, CeilDiv(items, size))
  {
    if items <= size {
      CeilDivSmall(items, size);
    } else {
      PageCountIsCeiling(items - size, size);
      CeilDivStep(items - size, size);
    }
  }

  lemma {:induction false} PageCountIsFloor(items: nat, size: nat)
    requires size >= 1
    ensures PageCount(items, size, false) == items / size + 1
  {
    if items < size {
      QuotientIs(items, size, 0, items);
    } else {
      PageCountIsFloor(items - size, size);
      QuotientIs(items, size, (items - size) / size + 1, (items - size) % size);
    }
  }

  lemma {:induction false} TruthfulRun<T(!new)>(server: Server<T>, list: seq<T>, size: nat, p: Progress<T>, budget: nat)
    requires TruthfulAt(server, list, size) && size >= 1
    requires p.startAt == |p.items| <= |list| && p.items == list[..p.startAt]
    requires p.total == None || (p.total == Some(|list|) && p.startAt < |list|)
    requires var signalled := p.total.Some? || Signalled(server, list, size, p.pages, p.startAt);
             budget >= PageCount(|list| - p.startAt, size, signalled)
    ensures var signalled := p.total.Some? || Signalled(server, list, size, p.pages, p.startAt);
            var out := Run(server, size, p, budget);
            && !out.StillFetching?
            && (NeverRejectsAt(server, size) ==> out.Finished?)
            && (out.Finished? ==>
                  && out.result.items == list
                  && out.result.reconciled
                  && out.result.pagesFetched == p.pages + PageCount(|list| - p.startAt, size, signalled))
    decreases budget
  {
    var signalled := p.total.Some? || Signalled(server, list, size, p.pages, p.startAt);
    var reply := server(p.pages, p.startAt, size);
    if reply.Rejected? {
      return;
    }
    var page := reply.page;
    var q := Absorb(p, page);
    assert HonestPage(page, list, p.startAt, size);
    if ExitReason(q, page, size) == None {
      assert p.startAt + size <= |list|;
      var next := q.(startAt := q.startAt + |Items(page)|);
      assert next.items == list[..next.startAt];
      assert signalled == (next.total.Some? || Signalled(server, list, size, next.pages, next.startAt));
      TruthfulRun(server, list, size, next, budget - 1);
    } else {
      assert q.items == list;
    }
  }

  lemma TruthfulServer<T(!new)>(server: Server<T>, list: seq<T>, size: nat, budget: nat, pages: nat)
    requires Truthful(server, list) && size >= 1
    requires pages == PageCount(|list|, size, Signalled(server, list, size, 0, 0)) <= budget
    ensures var out := Run(server, size, Start(), budget);
            && !out.StillFetching?
            && (NeverRejects(server) ==> out.Finished?)
            && (out.Finished? ==> out.result.items == list && out.result.reconciled && out.result.pagesFetched == pages)
  {
    assert TruthfulAt(server, list, size);
    assert NeverRejects(server) ==> NeverRejectsAt(server, size);
    TruthfulRun(server, list, size, Start(), budget);
  }

  /**
   Completeness: from an honest server that delivers every page the loop collects the list, in order and
   reconciled, in exactly as many pages as its length, the page size and the presence of an end signal require.
   */
  lemma HonestServerIsReadCompletely<T(!new)>(server: Server<T>, list: seq<T>, size: nat, budget: nat)
    requires Truthful(server, list) && NeverRejects(server) && size >= 1
    requires budget > |list|
    ensures var out := Run(server, size, Start(), budget);
            && out.Finished?
            && out.result.items == list
            && out.result.totalFetched == |list|
            && out.result.reconciled
            && out.result.pagesFetched
               == if Signalled(server, list, size, 0, 0) then Max(1, CeilDiv(|list|, size)) else |list| / size + 1
  {
    var signalled := Signalled(server, list, size, 0, 0);
    var pages := PageCount(|list|, size, signalled);
    PageCountIsSmall(|list|, size, signalled);
    TruthfulServer(server, list, size, budget, pages);
    PageCountClosedForm(|list|, size);
    RunKeepsBooks(server, size, Start(), budget);
  }

  lemma {:induction false} PageCountIsSmall(items: nat, size: nat, signalled: bool)
    requires size >= 1
    ensures PageCount(items, size, signalled) <= items + 1
  {
    if !(items < size || (items == size && signalled)) {
      PageCountIsSmall(items - size, size, signalled);
    }
  }

  /** A page size of zero reads only an empty list: the first page shows nothing and ends the loop. */
  lemma PageSizeZeroReadsNothing<T(!new)>(server: Server<T>, list: seq<T>, budget: nat)
    requires Truthful(server, list) && NeverRejects(server) && budget >= 1
    ensures var out := Run(server, 0, Start(), budget);
            out.Finished? && out.reason == EmptyPage && (out.result.items == list <==> |list| == 0)
  {
    assert TruthfulAt(server, list, 0) && NeverRejectsAt(server, 0);
    assert HonestPage(server(0, 0, 0).page, list, 0, 0);
  }

  // Servers that are honest but show no more than `cap` items on a page

  function Min(a: nat, b: nat): nat {
    if a <= b then a else b
  }

  ghost predicate Capped<T(!new)>(server: Server<T>, list: seq<T>, cap: nat) {
    forall call, startAt, size ::
      && server(call, startAt, size).Delivered?
      && HonestPage(server(call, startAt, size).page, list, startAt, Min(cap, size))
  }

  lemma UncappedIsTruthful<T(!new)>(server: Server<T>, list: seq<T>, cap: nat, size: nat)
    requires Capped(server, list, cap) && cap >= size
    ensures TruthfulAt(server, list, size) && NeverRejectsAt(server, size)
  {
    assert Min(cap, size) == size;
  }

  /** A list that does not fit a capped first page ends there, since a page that is not full counts as the last. */
  lemma CappedPageEndsTheRun<T(!new)>(server: Server<T>, list: seq<T>, cap: nat, size: nat, budget: nat)
    requires Capped(server, list, cap) && cap < size && budget >= 1
    ensures var out := Run(server, size, Start(), budget);
            var shown := Slice(list, 0, cap);
            && out.Finished? && out.result.items == shown
            && out.result.apiReportedTotal == server(0, 0, size).page.total
            && (out.result.reconciled <==> server(0, 0, size).page.total == None || |shown| == |list|)
  {
    var page := server(0, 0, size).page;
    assert HonestPage(page, list, 0, Min(cap, size));
    assert Absorb(Start(), page).items == Items(page);
  }

  /**
   Such a server is read completely exactly when a page may be as large as the one asked for, or the whole list fits
   its first page. What is lost otherwise is flagged exactly when that page reports a total.
   */
  lemma CappedServerIsReadCompletelyExactly<T(!new)>(server: Server<T>, list: seq<T>, cap: nat, size: nat, budget: nat)
    requires Capped(server, list, cap) && size >= 1 && budget > |list|
    ensures var out := Run(server, size, Start(), budget);
            var whole := cap >= size || |list| <= cap;
            && out.Finished?
            && (out.result.items == list <==> whole)
            && (!out.result.reconciled <==> !whole && server(0, 0, size).page.total.Some?)
            && (!whole ==> out.result.items == list[..cap])
  {
    if cap >= size {
      UncappedIsTruthful(server, list, cap, size);
      PageCountIsSmall(|list|, size, Signalled(server, list, size, 0, 0));
      TruthfulRun(server, list, size, Start(), budget);
    } else {
      CappedPageEndsTheRun(server, list, cap, size, budget);
    }
  }
}
