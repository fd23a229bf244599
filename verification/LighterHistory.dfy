/** Backward paging of a market's settled funding history, against any venue and against one that
    answers with the newest rows of the window. */
module LighterHistory {
  import opened Common

  const PAGE_SIZE := 750
  const MAX_ROWS := 9000

  /** One row as received; `None` stands for a field that does not parse. */
  datatype Row = Row(stamp: Option<int>, rate: Option<real>)

  datatype Rate = Rate(at: int, value: real)

  datatype Error = RequestFailed | BadTimestamp | BadRate | NoHistory

  /** The k-th request: start, end and count back. `None` is a failed request. */
  type Venue = (nat, int, int, nat) -> Option<seq<Row>>

  /** Millisecond stamps are recognised by size. */
  function Seconds(stamp: int): int {
    if stamp > 1_000_000_000_000 then stamp / 1000 else stamp
  }

  function ClampLimit(limit: int): (wanted: nat)
    ensures 1 <= wanted <= MAX_ROWS
  {
    if limit <= 0 || limit > MAX_ROWS then MAX_ROWS else limit
  }

  function Times(rates: seq<Rate>): set<int> {
    set r | r in rates :: r.at
  }

  predicate Distinct(rates: seq<Rate>) {
    forall i, j :: 0 <= i < j < |rates| ==> rates[i].at != rates[j].at
  }

  predicate Ascending(rates: seq<Rate>) {
    forall i, j :: 0 <= i < j < |rates| ==> rates[i].at < rates[j].at
  }

  predicate Within(times: set<int>, low: int, high: int) {
    forall t :: t in times ==> low <= t <= high
  }

  lemma {:induction false} DistinctCount(rates: seq<Rate>)
    requires Distinct(rates)
    ensures |Times(rates)| == |rates|
  {
    if rates != [] {
      var front, last := rates[..|rates| - 1], rates[|rates| - 1];
      DistinctCount(front);
      assert Times(rates) == Times(front) + {last.at};
      assert last.at !in Times(front);
    }
  }

  /* Sorting by time. */

  function Insert(r: Rate, sorted: seq<Rate>): seq<Rate> {
    if sorted == [] || r.at < sorted[0].at then [r] + sorted
    else [sorted[0]] + Insert(r, sorted[1..])
  }

  function SortByTime(rates: seq<Rate>): seq<Rate> {
    if rates == [] then [] else Insert(rates[0], SortByTime(rates[1..]))
  }

  lemma {:induction false} InsertSorts(r: Rate, sorted: seq<Rate>)
    requires Ascending(sorted) && forall x :: x in sorted ==> x.at != r.at
    ensures Ascending(Insert(r, sorted))
    ensures forall x :: x in Insert(r, sorted) <==> x == r || x in sorted
    ensures |Insert(r, sorted)| == |sorted| + 1
  {
    if sorted == [] || r.at < sorted[0].at {
      assert forall i :: 0 < i < |sorted| ==> sorted[0].at < sorted[i].at;
    } else {
      var rest := Insert(r, sorted[1..]);
      InsertSorts(r, sorted[1..]);
      assert sorted == [sorted[0]] + sorted[1..];
      assert sorted[0] in sorted;
      assert forall i :: 0 < i < |sorted| ==> sorted[0].at < sorted[i].at;
      assert forall x :: x in rest ==> sorted[0].at < x.at;
    }
  }

  lemma {:induction false} SortSorts(rates: seq<Rate>)
    requires Distinct(rates)
    ensures Ascending(SortByTime(rates)) && |SortByTime(rates)| == |rates|
    ensures forall x :: x in SortByTime(rates) <==> x in rates
  {
    if rates != [] {
      var tail := SortByTime(rates[1..]);
      SortSorts(rates[1..]);
      forall x | x in tail ensures x.at != rates[0].at {
        var i :| 0 <= i < |rates| - 1 && rates[1..][i] == x;
      }
      InsertSorts(rates[0], tail);
      assert rates == [rates[0]] + rates[1..];
    }
  }

  /* One page. */

  /** The stamps of a page that fall inside the requested window. */
  function Accepted(page: seq<Row>, low: int, high: int): set<int> {
    set row | row in page && row.stamp.Some? && low <= Seconds(row.stamp.value) <= high :: Seconds(row.stamp.value)
  }

  predicate Parses(page: seq<Row>) {
    forall row :: row in page ==> row.stamp.Some? && row.rate.Some?
  }

  predicate FromPage(page: seq<Row>, r: Rate) {
    exists row :: row in page && row.stamp.Some? && row.rate == Some(r.value) && Seconds(row.stamp.value) == r.at
  }

  /** The running minimum, with zero meaning that none was seen yet. */
  function Earliest(page: seq<Row>): int {
    if page == [] then 0
    else
      var front, last := Earliest(page[..|page| - 1]), page[|page| - 1].stamp;
      if last.None? then front
      else if front == 0 || Seconds(last.value) < front then Seconds(last.value)
      else front
  }

  lemma {:induction false} EarliestIsLeast(page: seq<Row>)
    requires page != [] && Parses(page) && forall row :: row in page ==> Seconds(row.stamp.value) > 0
    ensures exists row :: row in page && Seconds(row.stamp.value) == Earliest(page)
    ensures forall row :: row in page ==> Earliest(page) <= Seconds(row.stamp.value)
  {
    var front, last := page[..|page| - 1], page[|page| - 1];
    assert page == front + [last] && last in page;
    if front != [] {
      EarliestIsLeast(front);
      assert forall row :: row in front ==> row in page;
    }
    assert Earliest(page) == Seconds(last.stamp.value) || front != [];
  }

  lemma AcceptedStep(page: seq<Row>, i: nat, low: int, high: int)
    requires i < |page| && page[i].stamp.Some?
    ensures Accepted(page[..i + 1], low, high) == Accepted(page[..i], low, high) +
              if low <= Seconds(page[i].stamp.value) <= high then {Seconds(page[i].stamp.value)} else {}
  {
    assert page[..i + 1] == page[..i] + [page[i]];
    assert page[i] in page[..i + 1];
  }

  lemma AppendRate(rates: seq<Rate>, r: Rate)
    requires Distinct(rates) && r.at !in Times(rates)
    ensures Distinct(rates + [r]) && Times(rates + [r]) == Times(rates) + {r.at}
  {
    forall i | 0 <= i < |rates| ensures rates[i].at != r.at {
      assert rates[i] in rates;
    }
    assert r in rates + [r];
  }

  /** Collect the new in-window rows of one page and its earliest stamp. */
  method Absorb(page: seq<Row>, low: int, high: int, rates: seq<Rate>, seen: set<int>)
    returns (failure: Option<Error>, out: seq<Rate>, outSeen: set<int>, earliest: int)
    requires Distinct(rates) && seen == Times(rates)
    ensures failure.Some? ==> !Parses(page)
    ensures failure.None? ==> Distinct(out) && outSeen == Times(out) == seen + Accepted(page, low, high)
    ensures failure.None? ==> forall r :: r in out ==> r in rates || FromPage(page, r)
    ensures failure.None? ==> earliest == Earliest(page)
  {
    out, outSeen, earliest := rates, seen, 0;
    for i := 0 to |page|
      invariant Distinct(out) && outSeen == Times(out) == seen + Accepted(page[..i], low, high)
      invariant forall r :: r in out ==> r in rates || FromPage(page, r)
      invariant earliest == Earliest(page[..i])
    {
      assert page[i] in page && page[..i + 1][..i] == page[..i];
      if page[i].stamp.None? { return Some(BadTimestamp), out, outSeen, earliest; }
      var at := Seconds(page[i].stamp.value);
      AcceptedStep(page, i, low, high);
      if earliest == 0 || at < earliest { earliest := at; }
      if low <= at <= high && at !in outSeen {
        if page[i].rate.None? { return Some(BadRate), out, outSeen, earliest; }
        AppendRate(out, Rate(at, page[i].rate.value));
        out, outSeen := out + [Rate(at, page[i].rate.value)], outSeen + {at};
      }
    }
    assert page[..|page|] == page;
    return None, out, outSeen, earliest;
  }

  /* The newest rows of a set of times. */

  function Min(a: int, b: int): int { if a < b then a else b }

  /** `top` holds the `n` newest members of `all`, or all of them when there are fewer. */
  ghost predicate IsNewest(top: set<int>, all: set<int>, n: nat) {
    && top <= all
    && |top| == Min(n, |all|)
    && forall t, u :: t in top && u in all && u > t ==> u in top
  }

  function Above(times: set<int>, bound: int): set<int> {
    set t | t in times && t > bound
  }

  function AtMost(times: set<int>, bound: int): set<int> {
    set t | t in times && t <= bound
  }

  lemma SubsetSize(a: set<int>, b: set<int>)
    requires a <= b
    ensures |a| <= |b| && (|a| == |b| ==> a == b)
  {
    assert b == a + (b - a);
  }

  /** The newest rows are determined by the predicate. */
  lemma NewestIsUnique(a: set<int>, b: set<int>, all: set<int>, n: nat)
    requires IsNewest(a, all, n) && IsNewest(b, all, n)
    ensures a == b
  {
    if t :| t in a && t !in b {
      assert forall u :: u in b ==> u in a;
      SubsetSize(b, a);
    } else {
      assert forall u :: u in a ==> u in b;
      SubsetSize(a, b);
    }
  }

  /* Paging against a venue that answers with the newest rows. */

  function Window(history: map<int, real>, low: int, high: int): set<int> {
    set t | t in history && low <= t <= high
  }

  /** A page with exactly the `count` newest rows of the window, in any order. */
  ghost predicate PageOf(page: seq<Row>, history: map<int, real>, low: int, high: int, count: nat) {
    && Parses(page)
    && (forall row :: row in page ==>
          && low <= Seconds(row.stamp.value) <= high
          && Seconds(row.stamp.value) in history
          && history[Seconds(row.stamp.value)] == row.rate.value)
    && IsNewest(Accepted(page, low, high), Window(history, low, high), count)
  }

  ghost predicate Honest(venue: Venue, history: map<int, real>) {
    && (forall t :: t in history ==> t > 0)
    && (forall k: nat, low, high, count: nat ::
          venue(k, low, high, count).Some? && PageOf(venue(k, low, high, count).value, history, low, high, count))
  }

  /** The case in which paging stops one second above a row at the very start of the window. */
  ghost predicate SkipsOldest(all: set<int>, low: int, now: int, wanted: nat) {
    var newer := |Above(all, low)|;
    && low in all
    && newer < wanted
    && newer % PAGE_SIZE == 0
    && if newer == 0 then now == low else low + 1 in all
  }

  /** What a complete run returns: the newest rows, less the oldest one in the case above. */
  ghost predicate Exact(seen: set<int>, all: set<int>, low: int, now: int, wanted: nat) {
    if SkipsOldest(all, low, now, wanted) then seen == all - {low} else IsNewest(seen, all, wanted)
  }

  /** What holds before every request. */
  ghost predicate Progress(seen: set<int>, all: set<int>, low: int, now: int, end: int, wanted: nat) {
    && Within(all, low, now)
    && seen == Above(all, end)
    && end <= now && (end == now || low <= end)
    && |seen| <= wanted
    && (|seen| < wanted && seen != all ==> |seen| % PAGE_SIZE == 0)
    && (if seen == {} then end == now else end + 1 in all)
  }

  lemma AboveAll(all: set<int>, low: int, now: int, end: int)
    requires Within(all, low, now) && end < low
    ensures Above(all, end) == all
  {
  }

  /** A page moves the boundary down to its earliest row. */
  lemma PageExtends(all: set<int>, end: int, page: set<int>, n: nat, earliest: int)
    requires IsNewest(page, AtMost(all, end), n)
    requires earliest in page && forall t :: t in page ==> earliest <= t
    ensures Above(all, end) + page == Above(all, earliest - 1)
    ensures |Above(all, earliest - 1)| == |Above(all, end)| + |page|
    ensures |page| < n ==> Above(all, earliest - 1) == all
  {
    assert Above(all, end) !! page;
    if |page| < n {
      SubsetSize(page, AtMost(all, end));
      assert all == Above(all, end) + AtMost(all, end);
    }
  }

  lemma ContinueKeepsProgress(seen: set<int>, all: set<int>, low: int, now: int, end: int, wanted: nat,
                              page: set<int>, earliest: int)
    requires Progress(seen, all, low, now, end, wanted) && |seen| < wanted
    requires IsNewest(page, AtMost(all, end), Min(PAGE_SIZE, wanted - |seen|))
    requires earliest in page && earliest > low && forall t :: t in page ==> earliest <= t
    ensures Progress(seen + page, all, low, now, earliest - 1, wanted)
  {
    PageExtends(all, end, page, Min(PAGE_SIZE, wanted - |seen|), earliest);
    assert earliest in seen + page;
  }

  lemma StopAtGuard(seen: set<int>, all: set<int>, low: int, now: int, end: int, wanted: nat)
    requires Progress(seen, all, low, now, end, wanted) && (|seen| >= wanted || end <= low)
    ensures Exact(seen, all, low, now, wanted)
  {
    SubsetSize(seen, all);
    if end >= low {
      SubsetSize(seen, Above(all, low));
      assert end == low ==> all - {low} == Above(all, low);
    }
  }

  lemma StopWhenEmpty(seen: set<int>, all: set<int>, low: int, now: int, end: int, wanted: nat, n: nat)
    requires Progress(seen, all, low, now, end, wanted) && end > low && n > 0
    requires IsNewest({}, AtMost(all, end), n)
    ensures Exact(seen, all, low, now, wanted)
  {
    assert AtMost(all, end) == {};
    assert forall t :: t in all ==> t in Above(all, end) || t in AtMost(all, end);
    assert seen == all;
  }

  /** A page that reaches the start of the window has everything, and the skip did not happen. */
  lemma StopAtStart(seen: set<int>, all: set<int>, low: int, now: int, end: int, wanted: nat,
                    page: set<int>, earliest: int)
    requires Progress(seen, all, low, now, end, wanted) && |seen| < wanted && end > low
    requires IsNewest(page, AtMost(all, end), Min(PAGE_SIZE, wanted - |seen|))
    requires earliest in page && earliest <= low && forall t :: t in page ==> earliest <= t
    ensures Exact(seen + page, all, low, now, wanted)
  {
    PageExtends(all, end, page, Min(PAGE_SIZE, wanted - |seen|), earliest);
    AboveAll(all, low, now, earliest - 1);
    assert earliest == low && low !in seen;
    assert all == Above(all, low) + {low};
    SubsetSize(seen, Above(all, low));
    if SkipsOldest(all, low, now, wanted) {
      PagesAlign(|seen|, |Above(all, low)|, |page|);
      assert false;
    }
  }

  lemma PagesAlign(seen: nat, newer: nat, page: nat)
    requires seen % PAGE_SIZE == 0 && newer % PAGE_SIZE == 0
    requires seen <= newer && page == newer + 1 - seen && page <= PAGE_SIZE
    ensures seen == newer
  {
  }

  lemma HonestPage(page: seq<Row>, history: map<int, real>, low: int, high: int, count: nat)
    requires page != [] && PageOf(page, history, low, high, count) && forall t :: t in history ==> t > 0
    ensures 0 < Earliest(page) <= high && Earliest(page) in Accepted(page, low, high)
    ensures forall t :: t in Accepted(page, low, high) ==> Earliest(page) <= t
    ensures forall r :: FromPage(page, r) ==> r.at in history && history[r.at] == r.value
  {
    EarliestIsLeast(page);
  }

  ghost predicate Faithful(rates: seq<Rate>, history: map<int, real>) {
    forall x :: x in rates ==> x.at in history && history[x.at] == x.value
  }

  /** The loop invariant: sound for any venue, on course for an honest one. */
  ghost predicate Paging(venue: Venue, history: map<int, real>, rates: seq<Rate>,
                         since: int, now: int, end: int, wanted: nat) {
    && Distinct(rates) && end <= now && Within(Times(rates), since, now)
    && (Honest(venue, history) ==>
          && Progress(Times(rates), Window(history, since, now), since, now, end, wanted)
          && Faithful(rates, history))
  }

  ghost predicate Finished(venue: Venue, history: map<int, real>, rates: seq<Rate>,
                           since: int, now: int, wanted: nat) {
    && Distinct(rates) && Within(Times(rates), since, now)
    && (Honest(venue, history) ==>
          Exact(Times(rates), Window(history, since, now), since, now, wanted) && Faithful(rates, history))
  }

  lemma PagingStops(venue: Venue, history: map<int, real>, rates: seq<Rate>,
                    since: int, now: int, end: int, wanted: nat)
    requires Paging(venue, history, rates, since, now, end, wanted) && (|rates| >= wanted || end <= since)
    ensures Finished(venue, history, rates, since, now, wanted)
  {
    DistinctCount(rates);
    if Honest(venue, history) {
      StopAtGuard(Times(rates), Window(history, since, now), since, now, end, wanted);
    }
  }

  lemma EmptyPageStops(venue: Venue, history: map<int, real>, rates: seq<Rate>,
                       since: int, now: int, end: int, wanted: nat, k: nat, count: nat)
    requires Paging(venue, history, rates, since, now, end, wanted) && end > since && count > 0
    requires venue(k, since, end, count) == Some([])
    ensures Finished(venue, history, rates, since, now, wanted)
  {
    if Honest(venue, history) {
      var all := Window(history, since, now);
      assert PageOf([], history, since, end, count);
      assert Accepted([], since, end) == {} && Window(history, since, end) == AtMost(all, end);
      StopWhenEmpty(Times(rates), all, since, now, end, wanted, count);
    }
  }

  lemma PageMovesOn(venue: Venue, history: map<int, real>, rates: seq<Rate>,
                    since: int, now: int, end: int, wanted: nat, k: nat, page: seq<Row>, out: seq<Rate>)
    requires Paging(venue, history, rates, since, now, end, wanted) && end > since && |rates| < wanted
    requires page != [] && venue(k, since, end, Min(PAGE_SIZE, wanted - |rates|)) == Some(page)
    requires Distinct(out) && Times(out) == Times(rates) + Accepted(page, since, end)
    requires forall r :: r in out ==> r in rates || FromPage(page, r)
    ensures var earliest := Earliest(page);
            if earliest == 0 || earliest <= since || earliest - 1 >= end
            then Finished(venue, history, out, since, now, wanted)
            else Paging(venue, history, out, since, now, earliest - 1, wanted)
  {
    if Honest(venue, history) {
      HonestPageMovesOn(venue, history, rates, since, now, end, wanted, k, page, out);
    }
  }

  /** A page of the newest rows either completes the window or leaves the loop on course. */
  lemma NewestPageMovesOn(seen: set<int>, all: set<int>, low: int, now: int, end: int, wanted: nat, page: set<int>, earliest: int)
    requires Progress(seen, all, low, now, end, wanted) && |seen| < wanted && end > low
    requires IsNewest(page, AtMost(all, end), Min(PAGE_SIZE, wanted - |seen|))
    requires earliest in page && forall t :: t in page ==> earliest <= t
    ensures if earliest <= low then Exact(seen + page, all, low, now, wanted)
            else Progress(seen + page, all, low, now, earliest - 1, wanted)
  {
    if earliest <= low {
      StopAtStart(seen, all, low, now, end, wanted, page, earliest);
    } else {
      ContinueKeepsProgress(seen, all, low, now, end, wanted, page, earliest);
    }
  }

  /** What an honest venue's non-empty page is. */
  lemma HonestPageIsNewest(venue: Venue, history: map<int, real>, since: int, now: int, end: int, k: nat, count: nat, page: seq<Row>)
    requires Honest(venue, history) && end <= now && page != [] && venue(k, since, end, count) == Some(page)
    ensures 0 < Earliest(page) <= end && Earliest(page) in Accepted(page, since, end)
    ensures forall t :: t in Accepted(page, since, end) ==> Earliest(page) <= t
    ensures forall r :: FromPage(page, r) ==> r.at in history && history[r.at] == r.value
    ensures IsNewest(Accepted(page, since, end), AtMost(Window(history, since, now), end), count)
  {
    assert PageOf(page, history, since, end, count);
    HonestPage(page, history, since, end, count);
    assert Window(history, since, end) == AtMost(Window(history, since, now), end);
  }

  lemma HonestPageMovesOn(venue: Venue, history: map<int, real>, rates: seq<Rate>,
                          since: int, now: int, end: int, wanted: nat, k: nat, page: seq<Row>, out: seq<Rate>)
    requires Paging(venue, history, rates, since, now, end, wanted) && end > since && |rates| < wanted
    requires page != [] && venue(k, since, end, Min(PAGE_SIZE, wanted - |rates|)) == Some(page)
    requires Times(out) == Times(rates) + Accepted(page, since, end)
    requires forall r :: r in out ==> r in rates || FromPage(page, r)
    requires Honest(venue, history)
    ensures var all, earliest := Window(history, since, now), Earliest(page);
            && 0 < earliest <= end && Faithful(out, history)
            && if earliest <= since then Exact(Times(out), all, since, now, wanted)
               else Progress(Times(out), all, since, now, earliest - 1, wanted)
  {
    DistinctCount(rates);
    HonestPageIsNewest(venue, history, since, now, end, k, Min(PAGE_SIZE, wanted - |rates|), page);
    NewestPageMovesOn(Times(rates), Window(history, since, now), since, now, end, wanted,
                      Accepted(page, since, end), Earliest(page));
  }

  /** One request and what it adds; `stop` is the loop's break. */
  method FetchPage(venue: Venue, k: nat, ghost history: map<int, real>, rates: seq<Rate>, seen: set<int>,
                   since: int, ghost now: int, end: int, wanted: nat)
    returns (failure: Option<Error>, out: seq<Rate>, outSeen: set<int>, stop: bool, nextEnd: int)
    requires Paging(venue, history, rates, since, now, end, wanted)
    requires seen == Times(rates) && |rates| < wanted && end > since
    ensures failure.Some? ==> !Honest(venue, history)
    ensures failure.None? ==> outSeen == Times(out) && (!stop ==> nextEnd < end)
    ensures failure.None? && stop ==> Finished(venue, history, out, since, now, wanted)
    ensures failure.None? && !stop ==> Paging(venue, history, out, since, now, nextEnd, wanted)
  {
    out, outSeen, stop, nextEnd := rates, seen, true, end;
    var count := Min(PAGE_SIZE, wanted - |rates|);
    var page := venue(k, since, end, count);
    if page.None? { return Some(RequestFailed), out, outSeen, stop, nextEnd; }
    if page.value == [] {
      EmptyPageStops(venue, history, rates, since, now, end, wanted, k, count);
      return None, out, outSeen, true, end;
    }
    var earliest;
    failure, out, outSeen, earliest := Absorb(page.value, since, end, rates, seen);
    if failure.Some? {
      assert Honest(venue, history) ==> PageOf(page.value, history, since, end, count);
      return failure, out, outSeen, true, end;
    }
    PageMovesOn(venue, history, rates, since, now, end, wanted, k, page.value, out);
    stop := earliest == 0 || earliest <= since || earliest - 1 >= end;
    nextEnd := earliest - 1;
  }

  lemma SortKeepsFinished(venue: Venue, history: map<int, real>, rates: seq<Rate>, since: int, now: int, wanted: nat)
    requires Finished(venue, history, rates, since, now, wanted)
    ensures Ascending(SortByTime(rates)) && |SortByTime(rates)| == |rates|
    ensures Finished(venue, history, SortByTime(rates), since, now, wanted)
  {
    SortSorts(rates);
    assert Times(SortByTime(rates)) == Times(rates);
  }

  /** Fetch the history. Against any venue the result is ascending, distinct and inside the window;
      against one that serves `history` it is exact. */
  method FetchHistory(venue: Venue, since: int, limit: int, now: int, ghost history: map<int, real>)
    returns (r: Result<seq<Rate>, Error>)
    ensures r.Ok? ==> r.value != [] && Ascending(r.value) && Within(Times(r.value), since, now)
    ensures Honest(venue, history) && r.Ok? ==>
              && Exact(Times(r.value), Window(history, since, now), since, now, ClampLimit(limit))
              && Faithful(r.value, history)
    ensures Honest(venue, history) && r.Err? ==>
              r.error == NoHistory && Exact({}, Window(history, since, now), since, now, ClampLimit(limit))
  {
    var wanted := ClampLimit(limit);
    var rates: seq<Rate>, seen: set<int> := [], {};
    var end, calls: nat, stop := now, 0, false;
    while !stop && |rates| < wanted && end > since
      invariant seen == Times(rates)
      invariant if stop then Finished(venue, history, rates, since, now, wanted)
                else Paging(venue, history, rates, since, now, end, wanted)
      decreases !stop, end - since
    {
      var failure;
      failure, rates, seen, stop, end := FetchPage(venue, calls, history, rates, seen, since, now, end, wanted);
      if failure.Some? { return Err(failure.value); }
      calls := calls + 1;
    }
    if !stop { PagingStops(venue, history, rates, since, now, end, wanted); }
    if |rates| == 0 { return Err(NoHistory); }
    SortKeepsFinished(venue, history, rates, since, now, wanted);
    return Ok(SortByTime(rates));
  }

  /** A complete run returns the newest rows exactly when it does not skip the oldest. */
  lemma NewestExactlyUnlessSkipped(seen: set<int>, all: set<int>, low: int, now: int, wanted: nat)
    requires Within(all, low, now) && Exact(seen, all, low, now, wanted)
    ensures IsNewest(seen, all, wanted) <==> !SkipsOldest(all, low, now, wanted)
  {
    if SkipsOldest(all, low, now, wanted) {
      assert all == Above(all, low) + {low};
    }
  }

  /** Rows at least two seconds apart, as hourly rows are, always come back complete. */
  lemma SpacedHistoryIsExact(seen: set<int>, all: set<int>, low: int, now: int, wanted: nat)
    requires Exact(seen, all, low, now, wanted)
    requires now > low && forall t :: t in all ==> t + 1 !in all
    ensures IsNewest(seen, all, wanted)
  {
  }

  function Range(low: int, n: nat): (times: set<int>)
    ensures forall t :: t in times <==> low < t <= low + n
    ensures |times| == n
  {
    if n == 0 then {} else Range(low, n - 1) + {low + n}
  }

  /* A venue for every history. */

  /** A stamp that reads as the given second. */
  function Stamp(at: int): int {
    if at > 1_000_000_000_000 then at * 1000 else at
  }

  /** The newest rows of a window, newest first. */
  function NewestRows(history: map<int, real>, low: int, high: int, count: nat): seq<Row>
    decreases high - low
  {
    if count == 0 || high < low then []
    else if high in history then
      [Row(Some(Stamp(high)), Some(history[high]))] + NewestRows(history, low, high - 1, count - 1)
    else NewestRows(history, low, high - 1, count)
  }

  function Serving(history: map<int, real>): Venue {
    (k: nat, low: int, high: int, count: nat) => Some(NewestRows(history, low, high, count))
  }

  lemma {:induction false} RowsAreOfWindow(history: map<int, real>, low: int, high: int, count: nat, row: Row)
    requires row in NewestRows(history, low, high, count)
    ensures row.stamp.Some? && row.rate.Some? && low <= Seconds(row.stamp.value) <= high
    ensures Seconds(row.stamp.value) in history && history[Seconds(row.stamp.value)] == row.rate.value
    decreases high - low
  {
    if high in history {
      var rest := NewestRows(history, low, high - 1, count - 1);
      if row in rest {
        RowsAreOfWindow(history, low, high - 1, count - 1, row);
      }
    } else {
      RowsAreOfWindow(history, low, high - 1, count, row);
    }
  }

  /** The seconds that a page's stamps read as. */
  function Stamps(page: seq<Row>): set<int> {
    set row | row in page && row.stamp.Some? :: Seconds(row.stamp.value)
  }

  lemma StampsOfCons(row: Row, page: seq<Row>)
    requires row.stamp.Some?
    ensures Stamps([row] + page) == {Seconds(row.stamp.value)} + Stamps(page)
  {
    assert row in [row] + page;
  }

  lemma NewestOfSmaller(top: set<int>, all: set<int>, n: nat, t: int)
    requires IsNewest(top, all, n) && t !in all && forall u :: u in all ==> u < t
    ensures IsNewest({t} + top, {t} + all, n + 1)
  {
  }

  lemma WindowStep(history: map<int, real>, low: int, high: int)
    requires low <= high
    ensures Window(history, low, high) == (if high in history then {high} else {}) + Window(history, low, high - 1)
  {
  }

  lemma NoneIsNewest(history: map<int, real>, low: int, high: int, count: nat)
    requires count == 0 || high < low
    ensures IsNewest({}, Window(history, low, high), count)
  {
    if count > 0 {
      assert Window(history, low, high) == {};
    }
  }

  lemma OneMoreNewest(history: map<int, real>, low: int, high: int, count: nat, rest: seq<Row>)
    requires low <= high && high in history && IsNewest(Stamps(rest), Window(history, low, high - 1), count)
    ensures IsNewest(Stamps([Row(Some(Stamp(high)), Some(history[high]))] + rest), Window(history, low, high), count + 1)
  {
    WindowStep(history, low, high);
    StampsOfCons(Row(Some(Stamp(high)), Some(history[high])), rest);
    NewestOfSmaller(Stamps(rest), Window(history, low, high - 1), count, high);
  }

  lemma {:induction false} RowsAreNewest(history: map<int, real>, low: int, high: int, count: nat)
    ensures IsNewest(Stamps(NewestRows(history, low, high, count)), Window(history, low, high), count)
    decreases high - low
  {
    if count == 0 || high < low {
      NoneIsNewest(history, low, high, count);
      assert Stamps([]) == {};
    } else if high in history {
      RowsAreNewest(history, low, high - 1, count - 1);
      OneMoreNewest(history, low, high, count - 1, NewestRows(history, low, high - 1, count - 1));
    } else {
      RowsAreNewest(history, low, high - 1, count);
      WindowStep(history, low, high);
      assert Window(history, low, high) == Window(history, low, high - 1);
    }
  }

  lemma ServedPage(history: map<int, real>, low: int, high: int, count: nat)
    ensures PageOf(NewestRows(history, low, high, count), history, low, high, count)
  {
    var page := NewestRows(history, low, high, count);
    forall row | row in page
      ensures row.stamp.Some? && row.rate.Some? && low <= Seconds(row.stamp.value) <= high
      ensures Seconds(row.stamp.value) in history && history[Seconds(row.stamp.value)] == row.rate.value
    {
      RowsAreOfWindow(history, low, high, count, row);
    }
    RowsAreNewest(history, low, high, count);
    assert Accepted(page, low, high) == Stamps(page);
  }

  /** Every history of positive times has an honest venue. */
  lemma ServingIsHonest(history: map<int, real>)
    requires forall t :: t in history ==> t > 0
    ensures Honest(Serving(history), history)
  {
    forall k: nat, low, high, count: nat
      ensures Serving(history)(k, low, high, count).Some?
      ensures PageOf(Serving(history)(k, low, high, count).value, history, low, high, count)
    {
      ServedPage(history, low, high, count);
    }
  }

  /** One row per second from `low` on, just enough for a full page above the first. */
  function Consecutive(low: int): map<int, real> {
    Flat(Range(low - 1, PAGE_SIZE + 1))
  }

  function Flat(times: set<int>): map<int, real> {
    map t | t in times :: 0.0
  }

  lemma ConsecutiveSkips(low: int)
    ensures var all := Window(Consecutive(low), low, low + PAGE_SIZE);
            SkipsOldest(all, low, low + PAGE_SIZE, MAX_ROWS) && all - {low} == Range(low, PAGE_SIZE)
  {
    var all := Window(Consecutive(low), low, low + PAGE_SIZE);
    assert Above(all, low) == Range(low, PAGE_SIZE);
  }

  /** The skip is real: an honest venue serves a row at the very start of the window, the window has room
      for it, and the fetched history lacks exactly that row. */
  method SkipHappens(low: int) returns (r: Result<seq<Rate>, Error>)
    requires low > 0
    ensures Honest(Serving(Consecutive(low)), Consecutive(low)) && low in Window(Consecutive(low), low, low + PAGE_SIZE)
    ensures r.Ok? && Times(r.value) == Window(Consecutive(low), low, low + PAGE_SIZE) - {low}
    ensures |Times(r.value)| < MAX_ROWS
  {
    ServingIsHonest(Consecutive(low));
    ConsecutiveSkips(low);
    r := FetchHistory(Serving(Consecutive(low)), low, MAX_ROWS, low + PAGE_SIZE, Consecutive(low));
  }
}
