/** Any number of workers at once: the alias cache stays in order exactly when no stored contract lists its
    own name as an alias. From any other store a run is built that leaves a cached contract without its slot. */
module AliasRace {
  import opened Common
  import opened AliasCache
  import ResolverQueue

  /** The job of a key, started at time zero with nothing to attach. */
  function BareJob(key: string): Job {
    Job(key, 0, map[])
  }

  /** A job that finds nothing cached searches its key and saves the contract it finds. */
  function SearchRun(run: Run, t: nat, key: string, id: nat): Run {
    Then(Then(Then(Then(Then(run, Begin(t, BareJob(key))), Step(t, Contract(id), true)), Step(t, Contract(id), true)),
              Step(t, Contract(id), true)), Step(t, Contract(id), true))
  }

  function FoundContract(id: nat, key: string): Resolution {
    Resolution(ConIdSymbol(id), Some(id), true, ACTIVE_TTL, [key], map[])
  }

  function WithTask(s: State, t: nat, key: string, stage: Stage): State {
    s.(tasks := s.tasks[t := Task(BareJob(key), stage)])
  }

  lemma FirstReadMisses(s: State, t: nat, key: string)
    requires CanBegin(s, t, BareJob(key)) && key !in s.cache
    ensures Next(s, Begin(t, BareJob(key))) == WithTask(s, t, key, Reread)
  {
  }

  lemma SecondReadMisses(s: State, t: nat, key: string, found: Found)
    requires key !in s.cache
    ensures Next(WithTask(s, t, key, Reread), Step(t, found, true)) == WithTask(s, t, key, Search)
  {
  }

  lemma SearchFinds(s: State, t: nat, key: string, id: nat)
    requires id > 0
    ensures Next(WithTask(s, t, key, Search), Step(t, Contract(id), true)) == WithTask(s, t, key, Merge(id))
  {
  }

  lemma ThirdReadMisses(s: State, t: nat, key: string, id: nat, found: Found)
    requires key !in s.cache
    ensures Next(WithTask(s, t, key, Merge(id)), Step(t, found, true)) == WithTask(s, t, key, Save(FoundContract(id, key)))
  {
    var none: map<string, string> := map[];
    assert none + none == none && [] + [key] == [key];
  }

  lemma Saving(s: State, t: nat, key: string, item: Resolution, found: Found)
    ensures Next(WithTask(s, t, key, Save(item)), Step(t, found, true))
         == WithTask(s.(store := Upserted(s.store, item)), t, key, Remember(Saved(s.store, item)))
  {
  }

  /** A whole search, up to its save. */
  lemma SearchSaves(run: Run, t: nat, key: string, id: nat)
    requires CanBegin(After(run), t, BareJob(key)) && key !in After(run).cache && id > 0
    ensures var s, item := After(run), FoundContract(id, key);
            After(SearchRun(run, t, key, id))
              == WithTask(s.(store := Upserted(s.store, item)), t, key, Remember(Saved(s.store, item)))
  {
    var s := After(run);
    FirstReadMisses(s, t, key);
    var read := Then(run, Begin(t, BareJob(key)));
    assert After(read) == WithTask(s, t, key, Reread);
    SecondReadMisses(s, t, key, Contract(id));
    var searching := Then(read, Step(t, Contract(id), true));
    assert After(searching) == WithTask(s, t, key, Search);
    SearchFinds(s, t, key, id);
    var merging := Then(searching, Step(t, Contract(id), true));
    assert After(merging) == WithTask(s, t, key, Merge(id));
    ThirdReadMisses(s, t, key, id, Contract(id));
    var saving := Then(merging, Step(t, Contract(id), true));
    assert After(saving) == WithTask(s, t, key, Save(FoundContract(id, key)));
    Saving(s, t, key, FoundContract(id, key), Contract(id));
    assert SearchRun(run, t, key, id) == Then(saving, Step(t, Contract(id), true));
  }

  lemma Remembering(s: State, t: nat, key: string, saved: Resolution)
    requires t !in s.tasks
    ensures Next(WithTask(s, t, key, Remember(saved)), Step(t, NoMatch, true))
         == s.(cache := Remembered(s.cache, saved))
  {
    assert s.tasks[t := Task(BareJob(key), Remember(saved))] - {t} == s.tasks;
  }

  /** A whole search, and its result remembered. */
  lemma SearchRemembers(run: Run, t: nat, key: string, id: nat)
    requires CanBegin(After(run), t, BareJob(key)) && key !in After(run).cache && id > 0
    ensures var s, item := After(run), FoundContract(id, key);
            After(Then(SearchRun(run, t, key, id), Step(t, NoMatch, true)))
              == s.(store := Upserted(s.store, item), cache := Remembered(s.cache, Saved(s.store, item)))
  {
    SearchSaves(run, t, key, id);
    var s, item := After(run), FoundContract(id, key);
    Remembering(s.(store := Upserted(s.store, item)), t, key, Saved(s.store, item));
  }

  /* What a save and a remembered result do to names. */

  /** The text is no cache key and no alias of any row. */
  ghost predicate Unknown(s: State, u: string) {
    u !in s.cache && forall k :: k in s.store ==> u !in s.store[k].aliases
  }

  /** The stored contract lists its own name. */
  predicate ListsSelf(store: map<string, Resolution>, id: nat) {
    ContractRow(store, id).Some? && ConIdSymbol(id) in ContractRow(store, id).value.aliases
  }

  lemma SavedNames(store: map<string, Resolution>, id: nat, key: string)
    requires id > 0 && ContractRow(store, id).Some? && key != ""
    ensures var saved, next := Saved(store, FoundContract(id, key)), Upserted(store, FoundContract(id, key));
            && ContractRow(next, id) == Some(saved) && saved.symbol == ConIdSymbol(id) && saved.conId == Some(id)
            && (forall a :: a in saved.aliases <==> (a in ContractRow(store, id).value.aliases && a != "") || a == key)
            && (forall k :: k in next && k != ConIdSymbol(id) ==> k in store && next[k] == store[k])
  {
    FirstOccurrencesContents(ContractRow(store, id).value.aliases + [key]);
  }

  lemma RememberedNames(cache: map<string, Resolution>, saved: Resolution, u: string)
    requires u !in saved.aliases && u != saved.symbol
    ensures u in Remembered(cache, saved) <==> u in cache && cache[u].symbol != saved.symbol
    ensures u in Remembered(cache, saved) ==> Remembered(cache, saved)[u] == cache[u]
  {
  }

  lemma RememberedAlias(cache: map<string, Resolution>, saved: Resolution, a: string)
    requires a in saved.aliases && a != ""
    ensures a in Remembered(cache, saved) && Remembered(cache, saved)[a] == saved
  {
  }

  /* The failing run. */

  /** Two searches find the same contract. The first saves, the second saves and remembers, and then the
      first remembers its older copy: the key of the second is stored as an alias but no longer cached. */
  function SavedBoth(start: Run, id: nat, x: string, y: string): Run {
    Then(SearchRun(SearchRun(start, 0, x, id), 1, y, id), Step(1, NoMatch, true))
  }

  function ForgottenRun(start: Run, id: nat, x: string, y: string): Run {
    Then(SavedBoth(start, id, x, y), Step(0, NoMatch, true))
  }

  /** An idle state in which the contract lists its own name and the texts are new. */
  ghost predicate Ready(s: State, id: nat, x: string, y: string) {
    && s.tasks == map[] && id > 0 && ListsSelf(s.store, id) && x != y
    && Unknown(s, x) && Unknown(s, y) && Plain(x) && Plain(y) && x != "" && y != ""
  }

  function StoreAfter(store: map<string, Resolution>, id: nat, x: string): map<string, Resolution> {
    Upserted(store, FoundContract(id, x))
  }

  function CopyOf(store: map<string, Resolution>, id: nat, x: string): Resolution {
    Saved(store, FoundContract(id, x))
  }

  lemma FirstHasSaved(start: Run, id: nat, x: string, y: string)
    requires Ready(After(start), id, x, y)
    ensures var s := After(start);
            After(SearchRun(start, 0, x, id))
              == WithTask(s.(store := StoreAfter(s.store, id, x)), 0, x, Remember(CopyOf(s.store, id, x)))
    ensures CanBegin(After(SearchRun(start, 0, x, id)), 1, BareJob(y)) && y !in After(SearchRun(start, 0, x, id)).cache
  {
    SearchSaves(start, 0, x, id);
  }

  lemma BothHaveSaved(start: Run, id: nat, x: string, y: string)
    requires Ready(After(start), id, x, y)
    ensures var s := After(start);
            var once := StoreAfter(s.store, id, x);
            After(SavedBoth(start, id, x, y))
              == WithTask(State(Remembered(s.cache, CopyOf(once, id, y)), StoreAfter(once, id, y), map[]), 0, x,
                          Remember(CopyOf(s.store, id, x)))
  {
    FirstHasSaved(start, id, x, y);
    SearchRemembers(SearchRun(start, 0, x, id), 1, y, id);
  }

  lemma Forgotten(start: Run, id: nat, x: string, y: string)
    requires Ready(After(start), id, x, y)
    ensures var s := After(start);
            var once := StoreAfter(s.store, id, x);
            After(ForgottenRun(start, id, x, y))
              == State(Remembered(Remembered(s.cache, CopyOf(once, id, y)), CopyOf(s.store, id, x)), StoreAfter(once, id, y), map[])
  {
    BothHaveSaved(start, id, x, y);
    var s := After(start);
    var once := StoreAfter(s.store, id, x);
    Remembering(State(Remembered(s.cache, CopyOf(once, id, y)), StoreAfter(once, id, y), map[]), 0, x, CopyOf(s.store, id, x));
  }

  lemma ForgottenKey(start: Run, id: nat, x: string, y: string)
    requires Ready(After(start), id, x, y)
    ensures var t := After(ForgottenRun(start, id, x, y));
            t.tasks == map[] && ListsSelf(t.store, id) && y !in t.cache && y in ContractRow(t.store, id).value.aliases
  {
    Forgotten(start, id, x, y);
    var s := After(start);
    var once := StoreAfter(s.store, id, x);
    SavedNames(s.store, id, x);
    SavedNames(once, id, y);
    RememberedAlias(s.cache, CopyOf(once, id, y), y);
    RememberedNames(Remembered(s.cache, CopyOf(once, id, y)), CopyOf(s.store, id, x), y);
  }

  lemma ForgottenKeepsUnknown(start: Run, id: nat, x: string, y: string, u: string)
    requires Ready(After(start), id, x, y) && u != x && u != y && Plain(u) && Unknown(After(start), u)
    ensures Unknown(After(ForgottenRun(start, id, x, y)), u)
  {
    Forgotten(start, id, x, y);
    var s := After(start);
    var once := StoreAfter(s.store, id, x);
    SavedNames(s.store, id, x);
    SavedNames(once, id, y);
    RememberedNames(s.cache, CopyOf(once, id, y), u);
    RememberedNames(Remembered(s.cache, CopyOf(once, id, y)), CopyOf(s.store, id, x), u);
  }

  /* A job on the forgotten key, with two more searches around its third read. */

  function MergingRun(run: Run, y: string, other: nat): Run {
    Then(Then(Then(run, Begin(2, BareJob(y))), Step(2, Contract(other), true)), Step(2, Contract(other), true))
  }

  /** An idle state with the forgotten key, and two new texts. */
  ghost predicate Set(s: State, id: nat, y: string, z: string, v: string) {
    && s.tasks == map[] && id > 0 && ListsSelf(s.store, id)
    && y !in s.cache && y in ContractRow(s.store, id).value.aliases && Plain(y) && y != ""
    && Unknown(s, z) && Unknown(s, v) && Plain(z) && Plain(v) && z != "" && v != "" && y != z && y != v && z != v
  }

  lemma Merging(run: Run, y: string, other: nat)
    requires After(run).tasks == map[] && y !in After(run).cache && Plain(y) && other > 0
    ensures After(MergingRun(run, y, other)) == WithTask(After(run), 2, y, Merge(other))
  {
    var s := After(run);
    FirstReadMisses(s, 2, y);
    var read := Then(run, Begin(2, BareJob(y)));
    assert After(read) == WithTask(s, 2, y, Reread);
    SecondReadMisses(s, 2, y, Contract(other));
    var searching := Then(read, Step(2, Contract(other), true));
    assert After(searching) == WithTask(s, 2, y, Search);
    SearchFinds(s, 2, y, other);
  }

  function RefoundRun(run: Run, id: nat, y: string, z: string, other: nat): Run {
    Then(SearchRun(MergingRun(run, y, other), 3, z, id), Step(3, NoMatch, true))
  }

  /** The forgotten key is cached again while the job waits for its third read. */
  lemma Refound(run: Run, id: nat, y: string, z: string, v: string, other: nat)
    requires Set(After(run), id, y, z, v) && other > 0
    ensures var s := After(run);
            var copy := CopyOf(s.store, id, z);
            && After(RefoundRun(run, id, y, z, other))
                 == WithTask(State(Remembered(s.cache, copy), StoreAfter(s.store, id, z), map[]), 2, y, Merge(other))
            && y in Remembered(s.cache, copy) && Remembered(s.cache, copy)[y] == copy
            && ConIdSymbol(id) in copy.aliases && y in copy.aliases && v !in copy.aliases && copy.symbol == ConIdSymbol(id)
            && ListsSelf(StoreAfter(s.store, id, z), id)
            && Unknown(State(Remembered(s.cache, copy), StoreAfter(s.store, id, z), map[]), v)
  {
    var s := After(run);
    Merging(run, y, other);
    SearchRemembers(MergingRun(run, y, other), 3, z, id);
    SavedNames(s.store, id, z);
    RememberedAlias(s.cache, CopyOf(s.store, id, z), y);
    RememberedNames(s.cache, CopyOf(s.store, id, z), v);
  }

  /** The other contract, with the aliases it takes over. */
  function Heir(copy: Resolution, other: nat): Resolution {
    Resolution(ConIdSymbol(other), Some(other), true, ACTIVE_TTL, copy.aliases, copy.pairs)
  }

  lemma ThirdReadInherits(s: State, y: string, other: nat, found: Found)
    requires y in s.cache && y in s.cache[y].aliases
    ensures Next(WithTask(s, 2, y, Merge(other)), Step(2, found, true)) == WithTask(s, 2, y, Save(Heir(s.cache[y], other)))
  {
    var none: map<string, string> := map[];
    assert s.cache[y].pairs + none == s.cache[y].pairs;
  }

  function InheritedRun(run: Run, id: nat, y: string, z: string, other: nat): Run {
    Then(Then(RefoundRun(run, id, y, z, other), Step(2, NoMatch, true)), Step(2, NoMatch, true))
  }

  lemma HeirNames(store: map<string, Resolution>, copy: Resolution, id: nat, other: nat, v: string)
    requires other > 0 && other != id && ConIdSymbol(id) in copy.aliases && v !in copy.aliases
    requires ListsSelf(store, id) && forall k :: k in store ==> v !in store[k].aliases
    ensures var saved, next := Saved(store, Heir(copy, other)), Upserted(store, Heir(copy, other));
            && saved.symbol == ConIdSymbol(other) != ConIdSymbol(id)
            && ConIdSymbol(id) in saved.aliases && v !in saved.aliases
            && ListsSelf(next, id) && forall k :: k in next ==> v !in next[k].aliases
  {
    DecimalInjective(id, other);
    if ContractRow(store, other).Some? {
      FirstOccurrencesContents(ContractRow(store, other).value.aliases + copy.aliases);
    }
  }

  /** The other contract is saved with the name of the first among its aliases. */
  lemma Inherited(run: Run, id: nat, y: string, z: string, v: string, other: nat)
    requires Set(After(run), id, y, z, v) && other > 0 && other != id
    ensures var s := After(run);
            var copy, store := CopyOf(s.store, id, z), StoreAfter(s.store, id, z);
            After(InheritedRun(run, id, y, z, other))
              == WithTask(State(Remembered(s.cache, copy), Upserted(store, Heir(copy, other)), map[]), 2, y,
                          Remember(Saved(store, Heir(copy, other))))
  {
    Refound(run, id, y, z, v, other);
    var s := After(run);
    var copy, store := CopyOf(s.store, id, z), StoreAfter(s.store, id, z);
    var known := State(Remembered(s.cache, copy), store, map[]);
    ThirdReadInherits(known, y, other, NoMatch);
    Saving(known, 2, y, Heir(copy, other), NoMatch);
  }

  function BrokenRun(run: Run, id: nat, y: string, z: string, v: string, other: nat): Run {
    Then(Then(SearchRun(InheritedRun(run, id, y, z, other), 4, v, id), Step(4, NoMatch, true)), Step(2, NoMatch, true))
  }

  /** A cached contract is not found under its own name. */
  ghost predicate SlotLost(cache: map<string, Resolution>) {
    exists k :: k in cache && HasContract(cache[k]) && Lookup(cache, cache[k].symbol) != Some(cache[k])
  }

  lemma HeirTakesSlot(cache: map<string, Resolution>, copy: Resolution, heir: Resolution, v: string)
    requires v in copy.aliases && v != "" && copy.symbol in heir.aliases && copy.symbol != "" && heir.symbol != copy.symbol
    requires v !in heir.aliases && v != heir.symbol && HasContract(copy)
    ensures SlotLost(Remembered(Remembered(cache, copy), heir))
  {
    var once := Remembered(cache, copy);
    RememberedAlias(cache, copy, v);
    RememberedNames(once, heir, v);
    RememberedAlias(once, heir, copy.symbol);
    assert v in Remembered(once, heir) && Remembered(once, heir)[v] == copy;
  }

  /** One more search puts the first contract under a new key; then the heir takes its slot. */
  lemma Broken(run: Run, id: nat, y: string, z: string, v: string, other: nat)
    requires Set(After(run), id, y, z, v) && other > 0 && other != id
    ensures SlotLost(After(BrokenRun(run, id, y, z, v, other)).cache)
  {
    Inherited(run, id, y, z, v, other);
    Refound(run, id, y, z, v, other);
    var s := After(run);
    var copy, store := CopyOf(s.store, id, z), StoreAfter(s.store, id, z);
    HeirNames(store, copy, id, other, v);
    var heir, stored := Saved(store, Heir(copy, other)), Upserted(store, Heir(copy, other));
    SearchRemembers(InheritedRun(run, id, y, z, other), 4, v, id);
    SavedNames(stored, id, v);
    var last := CopyOf(stored, id, v);
    Remembering(State(Remembered(Remembered(s.cache, copy), last), StoreAfter(stored, id, v), map[]), 2, y, heir);
    HeirTakesSlot(Remembered(s.cache, copy), last, heir, v);
  }

  /* New keys. */

  function Ticker(n: nat): (s: string)
    ensures |s| == n
  {
    if n == 0 then "" else "A" + Ticker(n - 1)
  }

  /** The cache key of a stock with a ticker of the given length. */
  function StockKey(n: nat): (key: string)
    ensures |key| == n + 13
  {
    ResolverQueue.CacheKey("stock", Ticker(n), "USD", "US")
  }

  lemma StockKeyIsReferenceKey(n: nat)
    requires n > 0
    ensures IsReferenceKey(StockKey(n)) && Plain(StockKey(n)) && StockKey(n) != ""
  {
    ReferenceKeysArePlain("stock", Ticker(n), "USD", "US");
    assert RoutableClass("stock") && Ticker(n) != "";
  }

  ghost predicate AllShorter(texts: set<string>, n: nat) {
    forall t :: t in texts ==> |t| < n
  }

  lemma {:induction false} SomeLength(texts: set<string>) returns (n: nat)
    ensures n > 0 && AllShorter(texts, n)
  {
    if texts == {} {
      n := 1;
    } else {
      var t :| t in texts;
      n := SomeLength(texts - {t});
      n := if |t| >= n then |t| + 1 else n;
      forall u | u in texts ensures |u| < n {
        assert u == t || u in texts - {t};
      }
    }
  }

  function Aliases(store: map<string, Resolution>): set<string> {
    set k, a | k in store && a in store[k].aliases :: a
  }

  lemma LongKeysAreUnknown(s: State, n: nat, m: nat)
    requires 0 < n <= m && AllShorter(s.cache.Keys + Aliases(s.store), n)
    ensures Unknown(s, StockKey(m)) && Plain(StockKey(m)) && StockKey(m) != "" && IsReferenceKey(StockKey(m))
  {
    StockKeyIsReferenceKey(m);
    assert forall k, a :: k in s.store && a in s.store[k].aliases ==> a in Aliases(s.store);
  }

  /* The exact condition. */

  /** Every job of the run has the key of a routable reference. */
  ghost predicate ByReference(run: Run) {
    run.Then? ==> ByReference(run.before) && (run.event.Begin? ==> IsReferenceKey(run.event.job.key))
  }

  /** A run of such jobs from the given cache and store. */
  ghost predicate Possible(run: Run, cache: map<string, Resolution>, store: map<string, Resolution>) {
    StartsFrom(run, cache, store) && ByReference(run)
  }

  lemma StepIsPossible(run: Run, e: Event, cache: map<string, Resolution>, store: map<string, Resolution>)
    requires Possible(run, cache, store) && (e.Begin? ==> IsReferenceKey(e.job.key))
    ensures Possible(Then(run, e), cache, store)
  {
  }

  lemma {:induction false} SearchIsPossible(
    run: Run, cache: map<string, Resolution>, store: map<string, Resolution>, t: nat, key: string, id: nat)
    requires Possible(run, cache, store) && IsReferenceKey(key)
    ensures Possible(SearchRun(run, t, key, id), cache, store)
  {
    var step := Step(t, Contract(id), true);
    var read := Then(run, Begin(t, BareJob(key)));
    StepIsPossible(run, Begin(t, BareJob(key)), cache, store);
    StepIsPossible(read, step, cache, store);
    StepIsPossible(Then(read, step), step, cache, store);
    StepIsPossible(Then(Then(read, step), step), step, cache, store);
    StepIsPossible(Then(Then(Then(read, step), step), step), step, cache, store);
  }

  lemma {:induction false} ForgottenIsPossible(
    run: Run, cache: map<string, Resolution>, store: map<string, Resolution>, id: nat, x: string, y: string)
    requires Possible(run, cache, store) && IsReferenceKey(x) && IsReferenceKey(y)
    ensures Possible(ForgottenRun(run, id, x, y), cache, store)
  {
    SearchIsPossible(run, cache, store, 0, x, id);
    SearchIsPossible(SearchRun(run, 0, x, id), cache, store, 1, y, id);
    StepIsPossible(SearchRun(SearchRun(run, 0, x, id), 1, y, id), Step(1, NoMatch, true), cache, store);
    StepIsPossible(SavedBoth(run, id, x, y), Step(0, NoMatch, true), cache, store);
  }

  lemma {:induction false} RefoundIsPossible(
    run: Run, cache: map<string, Resolution>, store: map<string, Resolution>, id: nat, y: string, z: string, other: nat)
    requires Possible(run, cache, store) && IsReferenceKey(y) && IsReferenceKey(z)
    ensures Possible(RefoundRun(run, id, y, z, other), cache, store)
  {
    var read := Then(run, Begin(2, BareJob(y)));
    var step := Step(2, Contract(other), true);
    StepIsPossible(run, Begin(2, BareJob(y)), cache, store);
    StepIsPossible(read, step, cache, store);
    StepIsPossible(Then(read, step), step, cache, store);
    SearchIsPossible(MergingRun(run, y, other), cache, store, 3, z, id);
    StepIsPossible(SearchRun(MergingRun(run, y, other), 3, z, id), Step(3, NoMatch, true), cache, store);
  }

  lemma {:induction false} BrokenIsPossible(
    run: Run, cache: map<string, Resolution>, store: map<string, Resolution>, id: nat, y: string, z: string, v: string, other: nat)
    requires Possible(run, cache, store) && IsReferenceKey(y) && IsReferenceKey(z) && IsReferenceKey(v)
    ensures Possible(BrokenRun(run, id, y, z, v, other), cache, store)
  {
    var step := Step(2, NoMatch, true);
    RefoundIsPossible(run, cache, store, id, y, z, other);
    StepIsPossible(RefoundRun(run, id, y, z, other), step, cache, store);
    StepIsPossible(Then(RefoundRun(run, id, y, z, other), step), step, cache, store);
    var search := SearchRun(InheritedRun(run, id, y, z, other), 4, v, id);
    SearchIsPossible(InheritedRun(run, id, y, z, other), cache, store, 4, v, id);
    StepIsPossible(search, Step(4, NoMatch, true), cache, store);
    StepIsPossible(Then(search, Step(4, NoMatch, true)), step, cache, store);
  }

  /** From a store in which a contract lists its own name, jobs of routable references can leave a cached
      contract that is not found under its own name. */
  lemma {:induction false} SelfListingBreaks(cache: map<string, Resolution>, store: map<string, Resolution>, id: nat)
    returns (run: Run)
    requires id > 0 && ListsSelf(store, id)
    ensures Possible(run, cache, store) && SlotLost(After(run).cache)
  {
    var start := Boot(cache, store);
    var n := SomeLength(cache.Keys + Aliases(store));
    var x, y, z, v := StockKey(n), StockKey(n + 1), StockKey(n + 2), StockKey(n + 3);
    LongKeysAreUnknown(After(start), n, n);
    LongKeysAreUnknown(After(start), n, n + 1);
    LongKeysAreUnknown(After(start), n, n + 2);
    LongKeysAreUnknown(After(start), n, n + 3);
    ForgottenKey(start, id, x, y);
    ForgottenKeepsUnknown(start, id, x, y, z);
    ForgottenKeepsUnknown(start, id, x, y, v);
    Broken(ForgottenRun(start, id, x, y), id, y, z, v, id + 1);
    run := BrokenRun(ForgottenRun(start, id, x, y), id, y, z, v, id + 1);
    ForgottenIsPossible(start, cache, store, id, x, y);
    BrokenIsPossible(ForgottenRun(start, id, x, y), cache, store, id, y, z, v, id + 1);
  }

  lemma NotStrictListsSelf(store: map<string, Resolution>) returns (id: nat)
    requires CanonicalStore(store) && !StrictStore(store)
    ensures id > 0 && ListsSelf(store, id)
  {
    var s :| s in store && !Strict(store[s]);
    id := store[s].conId.value;
  }

  lemma LostSlotIsOutOfOrder(cache: map<string, Resolution>)
    requires SlotLost(cache)
    ensures !InOrder(cache)
  {
  }

  /** Any number of workers on jobs of routable references keep the cache in order in every run if and only
      if no stored contract lists its own name as an alias. */
  lemma {:induction false} InOrderExactlyWhenNoContractListsItself(cache: map<string, Resolution>, store: map<string, Resolution>)
    requires GoodStart(cache, store)
    ensures StrictStore(store) <==> forall run :: Possible(run, cache, store) ==> InOrder(After(run).cache)
  {
    if StrictStore(store) {
      forall run | Possible(run, cache, store) ensures InOrder(After(run).cache) {
        CacheStaysOk(run, cache, store);
      }
    } else {
      var id := NotStrictListsSelf(store);
      var run := SelfListingBreaks(cache, store, id);
      LostSlotIsOutOfOrder(After(run).cache);
    }
  }
}
