/** Incremental sync of one account's trade fills: overlapping windows, a deduplicating insert and
    a cursor saved in the same transaction. Syncs may overlap, fail, or ask for an earlier end. */
module TradeFillSync {
  import opened Common

  /** Times are nanoseconds. */
  const SECOND := 1_000_000_000
  const FIRST_WINDOW := 7 * 24 * 3600 * SECOND
  const OVERLAP := 300 * SECOND
  const AHEAD := 60 * SECOND
  /** The overlap less the time that a request may run ahead. */
  const VISIBILITY := 240 * SECOND

  /** `visibleAt` is when the venue starts to return the fill. */
  datatype Fill = Fill(id: nat, tradedAt: int, visibleAt: int)

  /** The cursor row; `value` is empty when only an error was ever saved. */
  datatype Cursor = Cursor(value: Option<int>, lastFill: Option<int>)

  function LoadCursor(row: Option<Cursor>): Option<int> {
    if row.None? then None
    else if row.value.value.Some? then row.value.value
    else row.value.lastFill
  }

  function ClampThrough(through: Option<int>, now: int): int {
    if through.None? || through.value > now + AHEAD then now else through.value
  }

  function WindowStart(cursor: Option<int>, through: int): int {
    if cursor.None? then through - FIRST_WINDOW else cursor.value - OVERLAP
  }

  /** Insert in order, keeping what is already there on a duplicate id. */
  function InsertAll(store: map<nat, Fill>, fills: seq<Fill>): map<nat, Fill> {
    if fills == [] then store
    else
      var front, last := InsertAll(store, fills[..|fills| - 1]), fills[|fills| - 1];
      if last.id in front then front else front[last.id := last]
  }

  function Latest(fills: seq<Fill>): Option<int> {
    if fills == [] then None
    else
      var front, last := Latest(fills[..|fills| - 1]), fills[|fills| - 1].tradedAt;
      if front.None? || last > front.value then Some(last) else front
  }

  function Greatest(a: Option<int>, b: Option<int>): Option<int> {
    if b.None? then a else if a.None? || a.value < b.value then b else a
  }

  function SavedCursor(row: Option<Cursor>, fills: seq<Fill>, through: int): Cursor {
    Cursor(Some(through), Greatest(if row.Some? then row.value.lastFill else None, Latest(fills)))
  }

  class Repository {
    var store: map<nat, Fill>
    var row: Option<Cursor>

    constructor ()
      ensures store == map[] && row == None
    {
      store, row := map[], None;
    }

    /** The transaction that saves a page and moves the cursor. */
    method SaveFills(fills: seq<Fill>, through: int) returns (inserted: nat)
      modifies this
      ensures store == InsertAll(old(store), fills)
      ensures inserted == |store| - |old(store)|
      ensures row == Some(SavedCursor(old(row), fills, through))
    {
      inserted := 0;
      var last: Option<int> := None;
      for i := 0 to |fills|
        invariant store == InsertAll(old(store), fills[..i]) && row == old(row)
        invariant |store| == |old(store)| + inserted
        invariant last == Latest(fills[..i])
      {
        assert fills[..i + 1][..i] == fills[..i];
        if fills[i].id !in store {
          store := store[fills[i].id := fills[i]];
          inserted := inserted + 1;
        }
        if last.None? || fills[i].tradedAt > last.value {
          last := Some(fills[i].tradedAt);
        }
      }
      assert fills[..|fills|] == fills;
      row := Some(Cursor(Some(through), Greatest(if row.Some? then row.value.lastFill else None, last)));
    }

    /** A failed sync leaves the cursor where it was. */
    method SaveSyncError()
      modifies this`row
      ensures LoadCursor(row) == LoadCursor(old(row)) && row.Some?
    {
      if row.None? {
        row := Some(Cursor(None, None));
      }
    }
  }

  /** One undisturbed sync: choose the window, ask the venue, save. */
  method SyncRecord(repository: Repository, now: int, requested: Option<int>,
                    venue: (int, int) -> Option<seq<Fill>>) returns (r: Result<nat, string>)
    modifies repository
    ensures var end := ClampThrough(requested, now);
            var since := WindowStart(LoadCursor(old(repository.row)), end);
            if since >= end then
              r == Ok(0) && repository.store == old(repository.store) && repository.row == old(repository.row)
            else if venue(since, end).None? then
              && r.Err? && repository.store == old(repository.store)
              && LoadCursor(repository.row) == LoadCursor(old(repository.row))
            else
              && repository.store == InsertAll(old(repository.store), venue(since, end).value)
              && LoadCursor(repository.row) == Some(end)
              && r == Ok(|repository.store| - |old(repository.store)|)
  {
    var end := ClampThrough(requested, now);
    var since := WindowStart(LoadCursor(repository.row), end);
    if since >= end {
      return Ok(0);
    }
    var fills := venue(since, end);
    if fills.None? {
      repository.SaveSyncError();
      return Err("venue");
    }
    var inserted := repository.SaveFills(fills.value, end);
    return Ok(inserted);
  }

  /** A sync between its steps: it has chosen a window, or also has the venue's answer. */
  datatype Job =
    | Chosen(since: int, through: int, first: bool)
    | Fetched(since: int, through: int, first: bool, fills: seq<Fill>)

  /** `coveredFrom` records where the stored history starts: the start of the first window, the
      latest one if several first syncs overlapped. */
  datatype State = State(
    now: int, row: Option<Cursor>, store: map<nat, Fill>, jobs: map<nat, Job>, coveredFrom: Option<int>)

  datatype Event =
    | Tick(delta: nat)
    | Begin(j: nat, through: Option<int>)
    | Fetch(j: nat, fills: seq<Fill>)
    | Fail(j: nat)
    | Save(j: nat)

  function Max(a: Option<int>, b: int): int {
    if a.None? || a.value < b then b else a.value
  }

  function Next(s: State, e: Event): State {
    match e
    case Tick(delta) => s.(now := s.now + delta)
    case Begin(j, through) =>
      var end := ClampThrough(through, s.now);
      var since := WindowStart(LoadCursor(s.row), end);
      if j in s.jobs || since >= end then s
      else s.(jobs := s.jobs[j := Chosen(since, end, LoadCursor(s.row).None?)])
    case Fetch(j, fills) =>
      if j in s.jobs && s.jobs[j].Chosen? then
        s.(jobs := s.jobs[j := Fetched(s.jobs[j].since, s.jobs[j].through, s.jobs[j].first, fills)])
      else s
    case Fail(j) =>
      s.(jobs := s.jobs - {j}, row := if s.row.None? then Some(Cursor(None, None)) else s.row)
    case Save(j) =>
      if j in s.jobs && s.jobs[j].Fetched? then
        var job := s.jobs[j];
        s.(row := Some(SavedCursor(s.row, job.fills, job.through)),
           store := InsertAll(s.store, job.fills),
           jobs := s.jobs - {j},
           coveredFrom := if job.first then Some(Max(s.coveredFrom, job.since)) else s.coveredFrom)
      else s
  }

  datatype Run = Boot(now: int) | Then(before: Run, event: Event)

  function After(run: Run): State {
    match run
    case Boot(now) => State(now, None, map[], map[], None)
    case Then(before, e) => Next(After(before), e)
  }

  /** The account's fills, past and future: one per id, each visible within the delay. */
  predicate Market(market: set<Fill>, delay: int) {
    && (forall f :: f in market ==> f.visibleAt <= f.tradedAt + delay)
    && (forall f, g :: f in market && g in market && f.id == g.id ==> f == g)
  }

  /** The venue answers with fills of the account, among them all visible ones of the window. */
  ghost predicate Honest(market: set<Fill>, fills: seq<Fill>, since: int, through: int, now: int) {
    && (forall f :: f in fills ==> f in market)
    && (forall f :: f in market && f.visibleAt <= now && since <= f.tradedAt <= through ==> f in fills)
  }

  ghost predicate HonestRun(market: set<Fill>, run: Run) {
    run.Then? ==>
      && HonestRun(market, run.before)
      && (run.event.Fetch? ==>
            var s := After(run.before);
            run.event.j in s.jobs ==>
              Honest(market, run.event.fills, s.jobs[run.event.j].since, s.jobs[run.event.j].through, s.now))
  }

  predicate Holds(store: map<nat, Fill>, f: Fill) {
    f.id in store && store[f.id] == f
  }

  /** Every fill executed between `from` and `to` is stored. */
  ghost predicate Covered(market: set<Fill>, store: map<nat, Fill>, from: int, to: int) {
    forall f :: f in market && from <= f.tradedAt <= to ==> Holds(store, f)
  }

  /** A running sync can close the gap between what is stored and its window's end. */
  ghost predicate JobOk(market: set<Fill>, slack: nat, s: State, job: Job) {
    && job.through <= s.now + AHEAD
    && (!job.first ==> s.coveredFrom.Some? && Covered(market, s.store, s.coveredFrom.value, job.since - slack))
    && (job.Fetched? ==>
          && (forall f :: f in job.fills ==> f in market)
          && (forall f :: f in market && job.since <= f.tradedAt <= job.through - OVERLAP - slack ==> f in job.fills))
  }

  ghost predicate Invariant(market: set<Fill>, slack: nat, s: State) {
    && (forall id :: id in s.store ==> s.store[id] in market && s.store[id].id == id)
    && (s.coveredFrom.Some? <==> LoadCursor(s.row).Some?)
    && (s.row.Some? && s.row.value.lastFill.Some? ==> s.row.value.value.Some?)
    && (s.coveredFrom.Some? ==>
          Covered(market, s.store, s.coveredFrom.value, LoadCursor(s.row).value - OVERLAP - slack))
    && (forall j :: j in s.jobs ==> JobOk(market, slack, s, s.jobs[j]))
  }

  /** Inserting keeps what was stored and adds every id that was missing. */
  lemma {:induction false} InsertAllContents(store: map<nat, Fill>, fills: seq<Fill>)
    ensures forall id :: id in store ==> id in InsertAll(store, fills) && InsertAll(store, fills)[id] == store[id]
    ensures forall f :: f in fills ==> f.id in InsertAll(store, fills)
    ensures forall id :: id in InsertAll(store, fills) && id !in store ==>
              InsertAll(store, fills)[id].id == id && InsertAll(store, fills)[id] in fills
  {
    if fills != [] {
      InsertAllContents(store, fills[..|fills| - 1]);
      assert fills == fills[..|fills| - 1] + [fills[|fills| - 1]];
    }
  }

  /** Nothing stored is ever changed or lost, whatever the venue sends. */
  lemma StoredFillsStay(s: State, e: Event, id: nat)
    requires id in s.store
    ensures id in Next(s, e).store && Next(s, e).store[id] == s.store[id]
  {
    if e.Save? && e.j in s.jobs && s.jobs[e.j].Fetched? {
      InsertAllContents(s.store, s.jobs[e.j].fills);
    }
  }

  lemma SaveCovers(market: set<Fill>, slack: nat, s: State, j: nat)
    requires slack <= 1 && Market(market, VISIBILITY + slack) && Invariant(market, slack, s) && j in s.jobs && s.jobs[j].Fetched?
    ensures Next(s, Save(j)).coveredFrom.Some?
    ensures Covered(market, Next(s, Save(j)).store, Next(s, Save(j)).coveredFrom.value, s.jobs[j].through - OVERLAP - slack)
    ensures forall f :: f in market && Holds(s.store, f) ==> Holds(Next(s, Save(j)).store, f)
    ensures forall id :: id in Next(s, Save(j)).store ==>
              Next(s, Save(j)).store[id] in market && Next(s, Save(j)).store[id].id == id
  {
    var t, job := Next(s, Save(j)), s.jobs[j];
    InsertAllContents(s.store, job.fills);
    assert JobOk(market, slack, s, job);
    forall f | f in market && t.coveredFrom.value <= f.tradedAt <= job.through - OVERLAP - slack
      ensures Holds(t.store, f)
    {
      if f.tradedAt >= job.since {
        assert f in job.fills;
        assert f.id in t.store && t.store[f.id] in market;
      } else {
        assert Holds(s.store, f);
      }
    }
  }

  lemma SaveKeepsInvariant(market: set<Fill>, slack: nat, s: State, j: nat)
    requires slack <= 1 && Market(market, VISIBILITY + slack) && Invariant(market, slack, s) && j in s.jobs && s.jobs[j].Fetched?
    ensures Invariant(market, slack, Next(s, Save(j)))
  {
    var t := Next(s, Save(j));
    SaveCovers(market, slack, s, j);
    forall k | k in t.jobs ensures JobOk(market, slack, t, t.jobs[k]) {
      assert JobOk(market, slack, s, s.jobs[k]);
      assert t.coveredFrom.Some? && (s.coveredFrom.Some? ==> s.coveredFrom.value <= t.coveredFrom.value);
    }
  }

  lemma FetchKeepsInvariant(market: set<Fill>, slack: nat, s: State, j: nat, fills: seq<Fill>)
    requires slack <= 1 && Market(market, VISIBILITY + slack) && Invariant(market, slack, s) && j in s.jobs && s.jobs[j].Chosen?
    requires Honest(market, fills, s.jobs[j].since, s.jobs[j].through, s.now)
    ensures Invariant(market, slack, Next(s, Fetch(j, fills)))
  {
    var t := Next(s, Fetch(j, fills));
    forall k | k in t.jobs ensures JobOk(market, slack, t, t.jobs[k]) {
      assert JobOk(market, slack, s, s.jobs[k]);
    }
  }

  lemma OtherKeepsInvariant(market: set<Fill>, slack: nat, s: State, e: Event)
    requires slack <= 1 && Market(market, VISIBILITY + slack) && Invariant(market, slack, s) && (e.Tick? || e.Begin? || e.Fail?)
    ensures Invariant(market, slack, Next(s, e))
  {
    var t := Next(s, e);
    forall k | k in t.jobs ensures JobOk(market, slack, t, t.jobs[k]) {
      assert k in s.jobs ==> JobOk(market, slack, s, s.jobs[k]);
    }
  }

  lemma {:induction false} Reachable(market: set<Fill>, slack: nat, run: Run)
    requires slack <= 1 && Market(market, VISIBILITY + slack) && HonestRun(market, run)
    ensures Invariant(market, slack, After(run))
  {
    if run.Then? {
      var s, e := After(run.before), run.event;
      Reachable(market, slack, run.before);
      if e.Save? {
        if e.j in s.jobs && s.jobs[e.j].Fetched? { SaveKeepsInvariant(market, slack, s, e.j); }
      } else if e.Fetch? {
        if e.j in s.jobs && s.jobs[e.j].Chosen? { FetchKeepsInvariant(market, slack, s, e.j, e.fills); }
      } else {
        OtherKeepsInvariant(market, slack, s, e);
      }
    }
  }

  /** In every run, overlapping or failed syncs included, each fill executed between the start of
      the stored history and five minutes before the cursor is stored under its id, when fills are
      visible within four minutes; a nanosecond more delay costs the last nanosecond. */
  lemma EveryFillIsStored(market: set<Fill>, slack: nat, run: Run, f: Fill)
    requires slack <= 1 && Market(market, VISIBILITY + slack) && HonestRun(market, run) && f in market
    requires After(run).coveredFrom.Some? && LoadCursor(After(run).row).Some?
    requires After(run).coveredFrom.value <= f.tradedAt <= LoadCursor(After(run).row).value - OVERLAP - slack
    ensures f.id in After(run).store && After(run).store[f.id] == f
  {
    Reachable(market, slack, run);
  }

  /** The fill belongs to the stored history, is not stored, and lies before the window that the next
      sync will ask for, whatever end it is given. */
  ghost predicate FallsBehind(s: State, f: Fill) {
    && s.coveredFrom.Some? && s.coveredFrom.value <= f.tradedAt && !Holds(s.store, f)
    && forall end :: WindowStart(LoadCursor(s.row), end) > f.tradedAt
  }

  lemma BehindMeansBeforeWindow(s: State, f: Fill)
    requires FallsBehind(s, f)
    ensures LoadCursor(s.row).Some? && f.tradedAt < LoadCursor(s.row).value - OVERLAP
  {
    assert WindowStart(LoadCursor(s.row), f.tradedAt) > f.tradedAt;
  }

  lemma NothingFallsBehind(market: set<Fill>, delay: int, run: Run, f: Fill)
    requires delay <= VISIBILITY + 1 && Market(market, delay) && HonestRun(market, run) && f in market
    ensures !FallsBehind(After(run), f)
  {
    if FallsBehind(After(run), f) {
      BehindMeansBeforeWindow(After(run), f);
      EveryFillIsStored(market, 1, run, f);
    }
  }

  /* What has fallen behind stays missing. */

  /** The venue keeps to the window it is asked for, and no sync asks for an end before the cursor. */
  ghost predicate Regular(market: set<Fill>, s: State, e: Event) {
    && (e.Fetch? && e.j in s.jobs ==> forall g :: g in e.fills ==> g in market && s.jobs[e.j].since <= g.tradedAt)
    && (e.Begin? && LoadCursor(s.row).Some? ==> LoadCursor(s.row).value <= ClampThrough(e.through, s.now))
  }

  ghost predicate Continues(market: set<Fill>, run: Run, later: Run) {
    later == run || (later.Then? && Continues(market, run, later.before) && Regular(market, After(later.before), later.event))
  }

  ghost predicate JobPast(job: Job, f: Fill, from: int) {
    from - OVERLAP <= job.since && from <= job.through && (job.Fetched? ==> forall g :: g in job.fills ==> g.id != f.id)
  }

  /** Cursor and windows are past the fill, which is neither stored nor fetched. */
  ghost predicate Past(s: State, f: Fill, from: int) {
    && LoadCursor(s.row).Some? && from <= LoadCursor(s.row).value && f.tradedAt < from - OVERLAP && f.id !in s.store
    && forall j :: j in s.jobs ==> JobPast(s.jobs[j], f, from)
  }

  lemma {:induction false} OnlyFetchedIdsAreInserted(store: map<nat, Fill>, fills: seq<Fill>, id: nat)
    requires id !in store && forall g :: g in fills ==> g.id != id
    ensures id !in InsertAll(store, fills)
  {
    if fills != [] {
      OnlyFetchedIdsAreInserted(store, fills[..|fills| - 1], id);
    }
  }

  lemma RegularStepStaysPast(market: set<Fill>, delay: int, s: State, e: Event, f: Fill, from: int)
    requires Market(market, delay) && f in market && Past(s, f, from) && Regular(market, s, e)
    ensures Past(Next(s, e), f, from)
  {
    var t := Next(s, e);
    if e.Save? && e.j in s.jobs && s.jobs[e.j].Fetched? {
      assert JobPast(s.jobs[e.j], f, from);
      OnlyFetchedIdsAreInserted(s.store, s.jobs[e.j].fills, f.id);
    }
    forall j | j in t.jobs ensures JobPast(t.jobs[j], f, from) {
      assert j in s.jobs ==> JobPast(s.jobs[j], f, from);
    }
  }

  lemma {:induction false} StaysMissing(market: set<Fill>, delay: int, run: Run, later: Run, f: Fill, from: int)
    requires Market(market, delay) && f in market && Past(After(run), f, from) && Continues(market, run, later)
    ensures Past(After(later), f, from)
  {
    if later != run {
      StaysMissing(market, delay, run, later.before, f, from);
      RegularStepStaysPast(market, delay, After(later.before), later.event, f, from);
    }
  }

  lemma LongerDelayLeavesAFillBehind(at: int, delay: int) returns (run: Run, f: Fill)
    requires delay > VISIBILITY + 1
    ensures f.tradedAt == at && f.visibleAt == at + delay && HonestRun({f}, run)
    ensures FallsBehind(After(run), f) && Past(After(run), f, at + OVERLAP + 1)
  {
    f := Fill(0, at, at + delay);
    var begun := Then(Boot(at + VISIBILITY + 1), Begin(0, Some(at + OVERLAP + 1)));
    assert After(begun).jobs == map[0 := Chosen(at + OVERLAP + 1 - FIRST_WINDOW, at + OVERLAP + 1, true)];
    var fetched := Then(begun, Fetch(0, []));
    assert After(fetched).jobs[0].fills == [];
    run := Then(fetched, Save(0));
    assert After(run).store == map[];
    assert HonestRun({f}, begun);
    assert HonestRun({f}, fetched);
  }

  /** One sync that asks a minute ahead passes over a fill that is hidden for longer, and no later sync stores it
      as long as the venue keeps to its windows and no end lies before the cursor. */
  lemma LongerDelayLosesAFill(at: int, delay: int) returns (run: Run, f: Fill)
    requires delay > VISIBILITY + 1
    ensures f.tradedAt == at && f.visibleAt == at + delay && HonestRun({f}, run)
    ensures FallsBehind(After(run), f)
    ensures forall later :: Continues({f}, run, later) ==> !Holds(After(later).store, f)
  {
    run, f := LongerDelayLeavesAFillBehind(at, delay);
    forall later | Continues({f}, run, later) ensures !Holds(After(later).store, f) {
      StaysMissing({f}, delay, run, later, f, at + OVERLAP + 1);
    }
  }

  ghost predicate LeavesBehind(delay: int, market: set<Fill>, run: Run, f: Fill) {
    Market(market, delay) && HonestRun(market, run) && f in market && FallsBehind(After(run), f)
  }

  /** No fill ever falls behind if and only if every fill is visible within four minutes and a nanosecond. */
  lemma NothingFallsBehindExactlyWithinFourMinutes(delay: int)
    ensures delay <= VISIBILITY + 1 <==> forall market, run, f :: !LeavesBehind(delay, market, run, f)
  {
    if delay <= VISIBILITY + 1 {
      forall market, run, f ensures !LeavesBehind(delay, market, run, f) {
        if Market(market, delay) && HonestRun(market, run) && f in market {
          NothingFallsBehind(market, delay, run, f);
        }
      }
    } else {
      var run, f := LongerDelayLosesAFill(0, delay);
      assert LeavesBehind(delay, {f}, run, f);
    }
  }
}
