/** The sliding-window limiter of the gateway's OAuth endpoint. */
module RateLimiter {

  /** The hits kept by one call: those strictly after the cutoff, in order. */
  function Recent(hits: seq<int>, cutoff: int): (kept: seq<int>)
  {
    if hits == [] then []
    else
      var rest := Recent(hits[..|hits| - 1], cutoff);
      if hits[|hits| - 1] > cutoff then rest + [hits[|hits| - 1]] else rest
  }

  class Limiter {
    var hits: map<string, seq<int>>
    const window: int
    const limit: int

    constructor (window: int, limit: int)
      ensures this.window == window && this.limit == limit
      ensures hits == map[]
    {
      this.window, this.limit, hits := window, limit, map[];
    }

    /** One call at time `now`. */
    method Allow(key: string, now: int) returns (ok: bool)
      modifies this`hits
      ensures (hits, ok) == AllowStep(old(hits), window, limit, key, now)
    {
      var kept := Compact(Stored(hits, key), now - window);
      if |kept| >= limit {
        hits := hits[key := kept];
        return false;
      }
      hits := hits[key := kept + [now]];
      return true;
    }
  }

  /** Compaction inside one buffer: the write index never overtakes the read index. */
  method Compact(original: seq<int>, cutoff: int) returns (recent: seq<int>)
    ensures recent == Recent(original, cutoff)
  {
    var buffer := original;
    var kept := 0;
    for index := 0 to |original|
      invariant kept <= index && |buffer| == |original|
      invariant buffer[..kept] == Recent(original[..index], cutoff)
      invariant forall j :: index <= j < |original| ==> buffer[j] == original[j]
    {
      RecentOfNext(original, index, cutoff);
      var at := buffer[index];
      if at > cutoff {
        ghost var written := buffer[..kept];
        buffer := buffer[kept := at];
        kept := kept + 1;
        assert buffer[..kept] == written + [at];
      }
    }
    assert original[..|original|] == original;
    return buffer[..kept];
  }

  lemma RecentOfNext(hits: seq<int>, i: nat, cutoff: int)
    requires i < |hits|
    ensures Recent(hits[..i + 1], cutoff) ==
            if hits[i] > cutoff then Recent(hits[..i], cutoff) + [hits[i]] else Recent(hits[..i], cutoff)
  {
    assert hits[..i + 1][..i] == hits[..i];
  }

  function Stored(hits: map<string, seq<int>>, key: string): seq<int> {
    if key in hits then hits[key] else []
  }

  /** What one call does to the table, stated without the in-place loop. */
  function AllowStep(hits: map<string, seq<int>>, window: int, limit: int, key: string, now: int)
    : (r: (map<string, seq<int>>, bool))
  {
    var kept := Recent(Stored(hits, key), now - window);
    if |kept| >= limit then (hits[key := kept], false)
    else (hits[key := kept + [now]], true)
  }

  /** A run is a fresh limiter followed by any number of calls. */
  datatype Run = Fresh | Call(before: Run, key: string, now: int)

  /** The table after a run. */
  function Table(window: int, limit: int, run: Run): map<string, seq<int>> {
    match run
    case Fresh => map[]
    case Call(before, key, now) => AllowStep(Table(window, limit, before), window, limit, key, now).0
  }

  /** Whether the last call of a run was allowed. */
  predicate Allowed(window: int, limit: int, run: Run)
    requires run.Call?
  {
    AllowStep(Table(window, limit, run.before), window, limit, run.key, run.now).1
  }

  /** The times of the allowed calls of one key, in the order they were made. */
  function AllowedTimes(window: int, limit: int, run: Run, key: string): seq<int> {
    match run
    case Fresh => []
    case Call(before, k, now) =>
      var earlier := AllowedTimes(window, limit, before, key);
      if k == key && Allowed(window, limit, run) then earlier + [now] else earlier
  }

  /** The clock never goes back, and the run ends no later than `now`. */
  predicate ClockedBy(run: Run, now: int) {
    run.Call? ==> run.now <= now && ClockedBy(run.before, run.now)
  }

  lemma {:induction false} RecentOfRecent(hits: seq<int>, earlier: int, later: int)
    requires earlier <= later
    ensures Recent(Recent(hits, earlier), later) == Recent(hits, later)
  {
    if hits != [] {
      var front, last := hits[..|hits| - 1], hits[|hits| - 1];
      RecentOfRecent(front, earlier, later);
      var kept := Recent(front, earlier);
      assert (kept + [last])[..|kept|] == kept;
    }
  }

  lemma {:induction false} RecentOfAppend(hits: seq<int>, at: int, cutoff: int)
    ensures Recent(hits + [at], cutoff) == if at > cutoff then Recent(hits, cutoff) + [at] else Recent(hits, cutoff)
  {
    assert (hits + [at])[..|hits|] == hits;
  }

  /** Non-decreasing times, none later than `now`. */
  predicate SortedBy(times: seq<int>, now: int) {
    && (forall i, j :: 0 <= i < j < |times| ==> times[i] <= times[j])
    && (forall i :: 0 <= i < |times| ==> times[i] <= now)
  }

  lemma SortedByAppend(times: seq<int>, at: int, now: int)
    requires SortedBy(times, at) && at <= now
    ensures SortedBy(times, now) && SortedBy(times + [at], now)
  {
  }

  /** In a non-decreasing list everything after a kept hit is kept. */
  lemma {:induction false} RecentCount(times: seq<int>, now: int, cutoff: int, i: nat)
    requires SortedBy(times, now) && i < |times| && times[i] > cutoff
    ensures |Recent(times, cutoff)| >= |times| - i
  {
    var front := times[..|times| - 1];
    if i < |front| {
      RecentCount(front, now, cutoff, i);
    }
  }

  /** What one call of the key leaves stored, and what it adds to the history. */
  lemma CallStep(window: int, limit: int, run: Run)
    requires run.Call?
    ensures var kept := Recent(Stored(Table(window, limit, run.before), run.key), run.now - window);
            var history := AllowedTimes(window, limit, run.before, run.key);
            if Allowed(window, limit, run)
            then Stored(Table(window, limit, run), run.key) == kept + [run.now]
                 && AllowedTimes(window, limit, run, run.key) == history + [run.now]
            else Stored(Table(window, limit, run), run.key) == kept
                 && AllowedTimes(window, limit, run, run.key) == history
  {
  }

  lemma OtherCallStep(window: int, limit: int, run: Run, key: string)
    requires run.Call? && run.key != key
    ensures Stored(Table(window, limit, run), key) == Stored(Table(window, limit, run.before), key)
    ensures AllowedTimes(window, limit, run, key) == AllowedTimes(window, limit, run.before, key)
  {
  }

  /** From a cutoff on, two lists keep the same hits. */
  ghost predicate SameRecent(stored: seq<int>, history: seq<int>, cutoff: int) {
    Recent(stored, cutoff) == Recent(history, cutoff)
  }

  lemma {:induction false} HistoryStep(stored: seq<int>, history: seq<int>, earlier: int, later: int, at: int)
    requires earlier <= later && SameRecent(stored, history, later)
    ensures SameRecent(Recent(stored, earlier), history, later)
    ensures SameRecent(Recent(stored, earlier) + [at], history + [at], later)
  {
    RecentOfRecent(stored, earlier, later);
    RecentOfAppend(Recent(stored, earlier), at, later);
    RecentOfAppend(history, at, later);
  }

  lemma {:induction false} KeySeesHistory(window: int, limit: int, run: Run, now: int)
    requires run.Call? && run.now <= now
    requires SameRecent(Stored(Table(window, limit, run.before), run.key), AllowedTimes(window, limit, run.before, run.key), now - window)
    ensures SameRecent(Stored(Table(window, limit, run), run.key), AllowedTimes(window, limit, run, run.key), now - window)
  {
    var stored := Stored(Table(window, limit, run.before), run.key);
    var history := AllowedTimes(window, limit, run.before, run.key);
    HistoryStep(stored, history, run.now - window, now - window, run.now);
    CallStep(window, limit, run);
  }

  /** Pruning is invisible: from the latest cutoff on, the stored hits of a key and its whole
      history of allowed calls keep the same calls. */
  lemma {:induction false} StoredSeesHistory(window: int, limit: int, run: Run, key: string, now: int)
    requires ClockedBy(run, now)
    ensures SameRecent(Stored(Table(window, limit, run), key), AllowedTimes(window, limit, run, key), now - window)
  {
    if run.Call? {
      StoredSeesHistory(window, limit, run.before, key, now);
      if run.key == key {
        KeySeesHistory(window, limit, run, now);
      } else {
        OtherCallStep(window, limit, run, key);
      }
    }
  }

  lemma {:induction false} AllowedTimesSorted(window: int, limit: int, run: Run, key: string, now: int)
    requires ClockedBy(run, now)
    ensures SortedBy(AllowedTimes(window, limit, run, key), now)
  {
    if run.Call? {
      AllowedTimesSorted(window, limit, run.before, key, run.now);
      SortedByAppend(AllowedTimes(window, limit, run.before, key), run.now, now);
    }
  }

  /** A call is allowed exactly when fewer than `limit` allowed calls of its key lie strictly
      inside the window that ends now. */
  lemma {:induction false} AllowedExactlyWhenRoom(window: int, limit: int, run: Run)
    requires run.Call? && ClockedBy(run, run.now)
    ensures Allowed(window, limit, run) <==>
            |Recent(AllowedTimes(window, limit, run.before, run.key), run.now - window)| < limit
  {
    StoredSeesHistory(window, limit, run.before, run.key, run.now);
  }

  lemma OldestHasLeft(times: seq<int>, now: int, cutoff: int, limit: nat, i: nat)
    requires SortedBy(times, now) && i + limit == |times|
    requires |Recent(times, cutoff)| < limit
    ensures times[i] <= cutoff
  {
    if times[i] > cutoff {
      RecentCount(times, now, cutoff, i);
    }
  }

  lemma {:induction false} NewestIsApart(window: int, limit: nat, run: Run, i: nat)
    requires run.Call? && ClockedBy(run, run.now) && Allowed(window, limit, run)
    requires i + limit == |AllowedTimes(window, limit, run.before, run.key)|
    ensures limit > 0 ==> run.now - AllowedTimes(window, limit, run.before, run.key)[i] >= window
    ensures limit > 0
  {
    AllowedExactlyWhenRoom(window, limit, run);
    AllowedTimesSorted(window, limit, run.before, run.key, run.now);
    OldestHasLeft(AllowedTimes(window, limit, run.before, run.key), run.now, run.now - window, limit, i);
  }

  /** Any limit + 1 consecutive allowed calls of one key span at least the window. */
  lemma {:induction false} WindowIsRespected(window: int, limit: nat, run: Run, key: string, now: int, i: nat)
    requires ClockedBy(run, now)
    requires i + limit < |AllowedTimes(window, limit, run, key)|
    ensures AllowedTimes(window, limit, run, key)[i + limit] - AllowedTimes(window, limit, run, key)[i] >= window
  {
    var before, all := AllowedTimes(window, limit, run.before, key), AllowedTimes(window, limit, run, key);
    if run.key != key {
      OtherCallStep(window, limit, run, key);
    } else {
      CallStep(window, limit, run);
    }
    assert all == before || (run.key == key && Allowed(window, limit, run) && all == before + [run.now]);
    if i + limit < |before| {
      WindowIsRespected(window, limit, run.before, key, run.now, i);
    } else {
      NewestIsApart(window, limit, run, i);
    }
  }
}
