/** The resolver's cache of contract resolutions, keyed by symbol and by every alias, and the store
    behind it. Many workers read, save and remember concurrently. */
module AliasCache {
  import opened Common
  import ResolverQueue

  /** Pair matches are kept as opaque texts under their venue pair. */
  datatype Resolution = Resolution(
    symbol: string, conId: Option<nat>, active: bool, nextVerify: int,
    aliases: seq<string>, pairs: map<string, string>)

  const ACTIVE_TTL := 24 * 3600
  const NEGATIVE_TTL := 6 * 3600

  predicate HasContract(r: Resolution) {
    r.conId.Some? && r.conId.value > 0
  }

  function Digit(d: nat): char
    requires d < 10
  {
    "0123456789"[d]
  }

  function Decimal(n: nat): (s: string)
    ensures s != ""
  {
    if n < 10 then [Digit(n)] else Decimal(n / 10) + [Digit(n % 10)]
  }

  function ConIdSymbol(id: nat): (s: string)
    ensures !Plain(s)
  {
    "conid:" + Decimal(id)
  }

  /** A text that does not look like the name of a contract; reference keys and ticker names do not. */
  predicate Plain(s: string) {
    !("conid:" <= s)
  }

  /** A canonical row: contracts are named by id, and an alias is a plain text or the contract's own name;
      a row without a contract has a plain name and no alias. */
  predicate Canonical(r: Resolution) {
    if HasContract(r) then
      && r.symbol == ConIdSymbol(r.conId.value)
      && forall a :: a in r.aliases ==> a == r.symbol || Plain(a)
    else
      r.aliases == [] && Plain(r.symbol)
  }

  /** A canonical row that does not list its own name as an alias. */
  predicate Strict(r: Resolution) {
    Canonical(r) && r.symbol !in r.aliases
  }

  /** The cache keys of a resolution. */
  function Names(r: Resolution): set<string> {
    {r.symbol} + (set a | a in r.aliases && a != "")
  }

  /** The item under the given names, and the rest without older copies of the item. */
  function RememberedAs(cache: map<string, Resolution>, item: Resolution, names: set<string>)
    : map<string, Resolution>
  {
    map k | k in cache.Keys + names && (k in names || cache[k].symbol != item.symbol)
      :: if k in names then item else cache[k]
  }

  function Remembered(cache: map<string, Resolution>, item: Resolution): map<string, Resolution> {
    RememberedAs(cache, item, Names(item))
  }

  function Stale(cache: map<string, Resolution>, symbol: string): set<string> {
    set k | k in cache && cache[k].symbol == symbol
  }

  lemma RememberStart(cache: map<string, Resolution>, item: Resolution)
    ensures (cache - Stale(cache, item.symbol))[item.symbol := item] == RememberedAs(cache, item, NamesUpTo(item, 0))
  {
    assert NamesUpTo(item, 0) == {item.symbol};
  }

  lemma RememberOneMore(cache: map<string, Resolution>, item: Resolution, names: set<string>, name: string)
    ensures RememberedAs(cache, item, names + {name}) == RememberedAs(cache, item, names)[name := item]
  {
  }

  lemma RememberAlias(cache: map<string, Resolution>, item: Resolution, i: nat)
    requires i < |item.aliases|
    ensures RememberedAs(cache, item, NamesUpTo(item, i + 1)) ==
            if item.aliases[i] != "" && item.aliases[i] != item.symbol
            then RememberedAs(cache, item, NamesUpTo(item, i))[item.aliases[i] := item]
            else RememberedAs(cache, item, NamesUpTo(item, i))
  {
    if item.aliases[i] != "" && item.aliases[i] != item.symbol {
      assert NamesUpTo(item, i + 1) == NamesUpTo(item, i) + {item.aliases[i]};
      RememberOneMore(cache, item, NamesUpTo(item, i), item.aliases[i]);
    } else {
      assert NamesUpTo(item, i + 1) == NamesUpTo(item, i);
    }
  }

  /** Every key names its value, and the value is also found under its own symbol. */
  predicate InOrder(cache: map<string, Resolution>) {
    forall k :: k in cache ==> k in Names(cache[k]) && cache[k].symbol in cache && cache[cache[k].symbol] == cache[k]
  }

  predicate CacheOk(cache: map<string, Resolution>) {
    InOrder(cache) && forall k :: k in cache ==> Canonical(cache[k])
  }

  lemma RememberKeepsCacheOk(cache: map<string, Resolution>, item: Resolution)
    requires CacheOk(cache) && Canonical(item)
    ensures CacheOk(Remembered(cache, item))
  {
    var next := Remembered(cache, item);
    forall k | k in next && k !in Names(item) ensures next[k].symbol in next && next[next[k].symbol] == next[k] {
      OthersKeepTheirSymbol(cache[k], item, k);
    }
  }

  /** An item's alias can only be the symbol of a row that has no other name. */
  lemma OthersKeepTheirSymbol(other: Resolution, item: Resolution, k: string)
    requires Canonical(other) && Canonical(item) && k in Names(other) && k !in Names(item)
    requires other.symbol != item.symbol
    ensures other.symbol !in Names(item)
  {
  }

  class Cache {
    var entries: map<string, Resolution>

    constructor ()
      ensures entries == map[]
    {
      entries := map[];
    }

    method Remember(item: Resolution)
      modifies this
      ensures entries == Remembered(old(entries), item)
    {
      RememberStart(entries, item);
      var started := (entries - Stale(entries, item.symbol))[item.symbol := item];
      var next := AddAliases(started, item, entries);
      entries := next;
    }

    /** Contracts first, then rows without one unless their key already names a contract. */
    method Restore(rows: seq<Resolution>)
      modifies this
      requires CacheOk(entries) && forall r :: r in rows ==> Canonical(r)
      ensures CacheOk(entries)
      ensures forall r :: r in rows && HasContract(r) && Unique(rows, r) ==> Lookup(entries, r.symbol) == Some(r)
      ensures forall r :: r in rows && !HasContract(r) ==> KeyServed(entries, r.symbol)
      ensures old(entries) == map[] ==> OnlyRows(entries, rows)
    {
      var legacy := RestoreContracts(rows);
      RestoreLegacy(rows, legacy);
    }

    method RestoreContracts(rows: seq<Resolution>) returns (legacy: seq<Resolution>)
      modifies this
      requires CacheOk(entries) && forall r :: r in rows ==> Canonical(r)
      ensures CacheOk(entries) && ContractsFound(entries, rows, rows)
      ensures forall r :: r in legacy <==> r in rows && !HasContract(r)
      ensures OnlyRows(old(entries), rows) ==> OnlyRows(entries, rows)
    {
      legacy := [];
      for i := 0 to |rows|
        invariant CacheOk(entries) && ContractsFound(entries, rows, rows[..i])
        invariant OnlyRows(old(entries), rows) ==> OnlyRows(entries, rows)
        invariant forall r :: r in legacy <==> r in rows[..i] && !HasContract(r)
      {
        var item := rows[i];
        assert item in rows;
        assert rows[..i + 1] == rows[..i] + [item];
        if HasContract(item) {
          RememberKeepsCacheOk(entries, item);
          RememberKeepsContracts(entries, rows, rows[..i], item);
          Remember(item);
        } else {
          legacy := legacy + [item];
        }
      }
      assert rows[..|rows|] == rows;
    }

    method RestoreLegacy(rows: seq<Resolution>, legacy: seq<Resolution>)
      modifies this
      requires CacheOk(entries) && ContractsFound(entries, rows, rows) && forall r :: r in rows ==> Canonical(r)
      requires forall r :: r in legacy ==> r in rows && !HasContract(r)
      ensures CacheOk(entries) && ContractsFound(entries, rows, rows)
      ensures forall r :: r in legacy ==> KeyServed(entries, r.symbol)
      ensures OnlyRows(old(entries), rows) ==> OnlyRows(entries, rows)
    {
      for i := 0 to |legacy|
        invariant CacheOk(entries) && ContractsFound(entries, rows, rows)
        invariant OnlyRows(old(entries), rows) ==> OnlyRows(entries, rows)
        invariant AllServed(entries, legacy[..i])
      {
        var item := legacy[i];
        assert item in legacy && legacy[..i + 1] == legacy[..i] + [item];
        if !(item.symbol in entries && entries[item.symbol].symbol != item.symbol) {
          RememberKeepsCacheOk(entries, item);
          LegacyKeepsContracts(entries, rows, item);
          LegacyKeepsServed(entries, item, legacy[..i]);
          Remember(item);
        } else {
          AliasedKeyHasContract(entries, item.symbol);
        }
      }
      assert legacy[..|legacy|] == legacy;
    }
  }

  /** Every alias of the item names it too. */
  method AddAliases(started: map<string, Resolution>, item: Resolution, ghost cache: map<string, Resolution>)
    returns (next: map<string, Resolution>)
    requires started == RememberedAs(cache, item, NamesUpTo(item, 0))
    ensures next == Remembered(cache, item)
  {
    next := started;
    for i := 0 to |item.aliases|
      invariant next == RememberedAs(cache, item, NamesUpTo(item, i))
    {
      var alias := item.aliases[i];
      RememberAlias(cache, item, i);
      if alias != "" && alias != item.symbol {
        next := next[alias := item];
      }
    }
    NamesUpToAll(item);
  }

  /** Every cached resolution is one of the rows. */
  predicate OnlyRows(cache: map<string, Resolution>, rows: seq<Resolution>) {
    forall k :: k in cache ==> cache[k] in rows
  }

  predicate AllServed(cache: map<string, Resolution>, rows: seq<Resolution>) {
    forall r :: r in rows ==> KeyServed(cache, r.symbol)
  }

  lemma LegacyKeepsContracts(cache: map<string, Resolution>, rows: seq<Resolution>, item: Resolution)
    requires item in rows && forall r :: r in rows ==> Canonical(r)
    requires ContractsFound(cache, rows, rows)
    ensures ContractsFound(Remembered(cache, item), rows, rows)
  {
    RememberKeepsContracts(cache, rows, rows, item);
    assert forall r :: r in rows ==> r in rows + [item];
  }

  lemma LegacyKeepsServed(cache: map<string, Resolution>, item: Resolution, served: seq<Resolution>)
    requires CacheOk(cache) && Canonical(item) && !HasContract(item)
    requires item.symbol in cache ==> cache[item.symbol].symbol == item.symbol
    requires AllServed(cache, served)
    ensures AllServed(Remembered(cache, item), served + [item])
  {
    RememberKeepsServed(cache, item);
  }

  function Lookup(cache: map<string, Resolution>, key: string): Option<Resolution> {
    if key in cache then Some(cache[key]) else None
  }

  predicate Unique(rows: seq<Resolution>, r: Resolution) {
    forall q :: q in rows && q.symbol == r.symbol ==> q == r
  }

  /** A reference key answers with its own row or with a contract that took the key over. */
  predicate KeyServed(cache: map<string, Resolution>, key: string) {
    key in cache && (cache[key].symbol == key || HasContract(cache[key]))
  }

  /** The contract rows seen so far are found under their symbol. */
  predicate ContractsFound(cache: map<string, Resolution>, rows: seq<Resolution>, seen: seq<Resolution>) {
    forall r :: r in seen && HasContract(r) ==>
      r.symbol in cache && cache[r.symbol].symbol == r.symbol && cache[r.symbol] in rows
  }

  lemma RememberKeepsContract(cache: map<string, Resolution>, item: Resolution, r: Resolution)
    requires Canonical(item) && Canonical(r) && HasContract(r)
    requires r.symbol in cache && cache[r.symbol].symbol == r.symbol
    ensures Lookup(Remembered(cache, item), r.symbol) == Some(if r.symbol == item.symbol then item else cache[r.symbol])
  {
  }

  lemma RememberKeepsContracts(cache: map<string, Resolution>, rows: seq<Resolution>, seen: seq<Resolution>, item: Resolution)
    requires item in rows && forall r :: r in rows ==> Canonical(r)
    requires ContractsFound(cache, rows, seen) && forall r :: r in seen ==> r in rows
    ensures ContractsFound(Remembered(cache, item), rows, seen + [item])
  {
    var next := Remembered(cache, item);
    forall r | r in seen + [item] && HasContract(r)
      ensures r.symbol in next && next[r.symbol].symbol == r.symbol && next[r.symbol] in rows
    {
      if r.symbol != item.symbol { RememberKeepsContract(cache, item, r); }
    }
  }

  lemma RememberKeepsServed(cache: map<string, Resolution>, item: Resolution)
    requires CacheOk(cache) && Canonical(item) && !HasContract(item)
    requires item.symbol in cache ==> cache[item.symbol].symbol == item.symbol
    ensures KeyServed(Remembered(cache, item), item.symbol)
    ensures forall k :: KeyServed(cache, k) ==> KeyServed(Remembered(cache, item), k)
  {
    forall k | KeyServed(cache, k) && k != item.symbol ensures cache[k].symbol != item.symbol {
      assert CacheOk(cache);
    }
  }

  /** Only a contract has names besides its symbol. */
  lemma AliasedKeyHasContract(cache: map<string, Resolution>, key: string)
    requires CacheOk(cache) && key in cache && cache[key].symbol != key
    ensures HasContract(cache[key])
  {
  }

  lemma NamesUpToAll(r: Resolution)
    ensures NamesUpTo(r, |r.aliases|) == Names(r)
  {
  }

  ghost function NamesUpTo(r: Resolution, n: nat): set<string>
    requires n <= |r.aliases|
  {
    {r.symbol} + (set i | 0 <= i < n && r.aliases[i] != "" :: r.aliases[i])
  }

  /** A list of the entries found under their own symbol, each symbol once. */
  ghost predicate ListsOwners(cache: map<string, Resolution>, owners: seq<Resolution>) {
    && (forall r :: r in owners <==> r.symbol in cache && cache[r.symbol] == r)
    && forall i, j :: 0 <= i < j < |owners| ==> owners[i].symbol != owners[j].symbol
  }

  method CanonicalOwners(cache: map<string, Resolution>) returns (owners: seq<Resolution>)
    ensures ListsOwners(cache, owners)
  {
    owners := [];
    var rest := cache.Keys;
    while rest != {}
      invariant rest <= cache.Keys
      invariant forall k :: k in cache.Keys - rest && cache[k].symbol == k ==> cache[k] in owners
      invariant forall r :: r in owners ==> r.symbol in cache.Keys - rest && cache[r.symbol] == r
      invariant forall i, j :: 0 <= i < j < |owners| ==> owners[i].symbol != owners[j].symbol
      decreases rest
    {
      var k :| k in rest;
      if cache[k].symbol == k {
        assert forall r :: r in owners ==> r.symbol != k;
        owners := owners + [cache[k]];
      }
      rest := rest - {k};
    }
  }

  /* The store behind the cache. */

  /** The non-empty texts of a list, each at its first occurrence. */
  function FirstOccurrences(list: seq<string>): seq<string> {
    if list == [] then []
    else
      var front, last := FirstOccurrences(list[..|list| - 1]), list[|list| - 1];
      if last == "" || last in front then front else front + [last]
  }

  lemma {:induction false} FirstOccurrencesContents(list: seq<string>)
    ensures forall a :: a in FirstOccurrences(list) <==> a in list && a != ""
    ensures forall i, j :: 0 <= i < j < |FirstOccurrences(list)| ==>
              FirstOccurrences(list)[i] != FirstOccurrences(list)[j]
  {
    if list != [] {
      FirstOccurrencesContents(list[..|list| - 1]);
      assert list == list[..|list| - 1] + [list[|list| - 1]];
    }
  }

  method MergeAliases(current: seq<string>, extra: seq<string>) returns (result: seq<string>)
    ensures result == FirstOccurrences(current + extra)
  {
    var all := current + extra;
    var seen: set<string> := {};
    result := [];
    for i := 0 to |all|
      invariant result == FirstOccurrences(all[..i])
      invariant forall a :: a in seen <==> a in result
    {
      assert all[..i + 1][..i] == all[..i];
      if all[i] != "" && all[i] !in seen {
        seen, result := seen + {all[i]}, result + [all[i]];
      }
    }
    assert all[..|all|] == all;
  }

  predicate CanonicalStore(store: map<string, Resolution>) {
    forall s :: s in store ==> store[s].symbol == s && Canonical(store[s])
  }

  /** The row of a contract id; in a canonical store it can only be under that id's symbol. */
  function ContractRow(store: map<string, Resolution>, id: nat): Option<Resolution> {
    if ConIdSymbol(id) in store && store[ConIdSymbol(id)].conId == Some(id) then Some(store[ConIdSymbol(id)]) else None
  }

  /** What an upsert saves: a contract is merged with its stored row, anything else replaces. */
  function Saved(store: map<string, Resolution>, item: Resolution): Resolution {
    if !HasContract(item) then item
    else
      var named := item.(symbol := ConIdSymbol(item.conId.value));
      var row := ContractRow(store, item.conId.value);
      if row.None? then named
      else named.(pairs := row.value.pairs + item.pairs, aliases := FirstOccurrences(row.value.aliases + item.aliases))
  }

  function Upserted(store: map<string, Resolution>, item: Resolution): map<string, Resolution> {
    store[Saved(store, item).symbol := Saved(store, item)]
  }

  lemma SavedIsCanonical(store: map<string, Resolution>, item: Resolution)
    requires CanonicalStore(store) && Canonical(item)
    ensures Canonical(Saved(store, item)) && CanonicalStore(Upserted(store, item))
  {
    if HasContract(item) && ContractRow(store, item.conId.value).Some? {
      FirstOccurrencesContents(ContractRow(store, item.conId.value).value.aliases + item.aliases);
    }
  }

  /** A contract never loses an alias or a pair, whatever is saved. */
  lemma ContractsOnlyGain(store: map<string, Resolution>, item: Resolution, id: nat)
    requires CanonicalStore(store) && Canonical(item) && id > 0 && ContractRow(store, id).Some?
    ensures ContractRow(Upserted(store, item), id).Some?
    ensures forall a :: a in ContractRow(store, id).value.aliases && a != "" ==>
              a in ContractRow(Upserted(store, item), id).value.aliases
    ensures ContractRow(store, id).value.pairs.Keys <= ContractRow(Upserted(store, item), id).value.pairs.Keys
  {
    SavedIsCanonical(store, item);
    if HasContract(item) {
      FirstOccurrencesContents(ContractRow(store, id).value.aliases + item.aliases);
      assert Saved(store, item).symbol == ConIdSymbol(id) ==> store[ConIdSymbol(id)].conId == Some(id);
      DecimalInjective(item.conId.value, id);
    }
  }

  lemma {:induction false} DecimalInjective(a: nat, b: nat)
    ensures ConIdSymbol(a) == ConIdSymbol(b) ==> a == b
  {
    assert ConIdSymbol(a)[6..] == Decimal(a) && ConIdSymbol(b)[6..] == Decimal(b);
    DecimalDigits(a, b);
  }

  lemma {:induction false} DecimalDigits(a: nat, b: nat)
    ensures Decimal(a) == Decimal(b) ==> a == b
  {
    if Decimal(a) == Decimal(b) {
      assert Decimal(a)[|Decimal(a)| - 1] == Digit(a % 10) && Decimal(b)[|Decimal(b)| - 1] == Digit(b % 10);
      if a >= 10 && b >= 10 {
        assert Decimal(a)[..|Decimal(a)| - 1] == Decimal(a / 10) && Decimal(b)[..|Decimal(b)| - 1] == Decimal(b / 10);
        DecimalDigits(a / 10, b / 10);
      }
    }
  }

  /* Resolving a job: three reads of the cache, with slow lookups between them. */

  /** A contract lookup: it failed, found no single contract, or found one. */
  datatype Found = Failed | NoMatch | Contract(id: nat)

  function AppendAlias(aliases: seq<string>, key: string): seq<string> {
    if key in aliases then aliases else aliases + [key]
  }

  /** A job's key, the time it started, and the pairs it will attach. */
  datatype Job = Job(key: string, now: int, attached: map<string, string>)

  /** What a job does next. */
  datatype Stage =
    | Reread
    | Recheck(previous: Resolution)
    | Search
    | Merge(id: nat)
    | Save(item: Resolution)
    | Remember(saved: Resolution)
    | Over

  predicate IsFresh(cached: Option<Resolution>, now: int) {
    cached.Some? && cached.value.nextVerify > now
  }

  function Attach(r: Resolution, job: Job): Resolution {
    r.(pairs := r.pairs + job.attached)
  }

  /** The first read: a verified answer only gains pairs, a fresh rejection ends the job. */
  function AfterFirstRead(cached: Option<Resolution>, job: Job): Stage {
    if !IsFresh(cached, job.now) then Reread
    else if cached.value.active then Save(Attach(cached.value, job))
    else Over
  }

  /** The second read: a known contract is checked again by its id, anything else is searched. */
  function AfterSecondRead(cached: Option<Resolution>): Stage {
    if cached.Some? && HasContract(cached.value) then Recheck(cached.value) else Search
  }

  function AfterRecheck(previous: Resolution, found: Found, compatible: bool, job: Job): Stage
    requires HasContract(previous)
  {
    if found.Failed? then Over
    else if found == Contract(previous.conId.value) && compatible then
      Save(Attach(previous.(active := true, nextVerify := job.now + ACTIVE_TTL,
                            aliases := AppendAlias(previous.aliases, job.key)), job))
    else Save(Attach(previous.(active := false, nextVerify := job.now + NEGATIVE_TTL), job))
  }

  function AfterSearch(found: Found, job: Job): Stage {
    match found
    case Failed => Over
    case NoMatch => Save(Resolution(job.key, None, false, job.now + NEGATIVE_TTL, [], job.attached))
    case Contract(id) =>
      if id > 0 then Merge(id) else Save(Resolution(job.key, None, false, job.now + NEGATIVE_TTL, [], job.attached))
  }

  /** The third read: the found contract takes over the aliases and pairs now cached under the key. */
  function AfterThirdRead(cached: Option<Resolution>, id: nat, job: Job): Stage {
    var aliases, pairs := if cached.Some? then cached.value.aliases else [], if cached.Some? then cached.value.pairs else map[];
    Save(Resolution(ConIdSymbol(id), Some(id), true, job.now + ACTIVE_TTL, AppendAlias(aliases, job.key), pairs + job.attached))
  }

  predicate RoutableClass(assetClass: string) {
    assetClass in {"stock", "etf", "fx", "commodity"}
  }

  /** The key of a routable reference, under which every job is submitted. */
  ghost predicate IsReferenceKey(key: string) {
    exists assetClass, symbol, currency, region ::
      RoutableClass(assetClass) && symbol != "" && key == ResolverQueue.CacheKey(assetClass, symbol, currency, region)
  }

  /** The keys of routable references are plain. */
  lemma ReferenceKeysArePlain(assetClass: string, symbol: string, currency: string, region: string)
    requires RoutableClass(assetClass)
    ensures Plain(ResolverQueue.CacheKey(assetClass, symbol, currency, region))
  {
    var key := ResolverQueue.CacheKey(assetClass, symbol, currency, region);
    assert key[0] == assetClass[0] && (assetClass == "commodity" ==> key[2] == 'm');
  }

  /* The interleavings. */

  datatype Task = Task(job: Job, stage: Stage)

  datatype State = State(cache: map<string, Resolution>, store: map<string, Resolution>, tasks: map<nat, Task>)

  datatype Event =
    | Begin(t: nat, job: Job)
    | Step(t: nat, found: Found, compatible: bool)
    | Drop(t: nat)

  /** At most one job per key is in flight. */
  predicate InFlight(s: State, key: string) {
    exists t :: t in s.tasks && s.tasks[t].job.key == key
  }

  predicate CanBegin(s: State, t: nat, job: Job) {
    t !in s.tasks && !InFlight(s, job.key) && Plain(job.key)
  }

  function Moved(s: State, t: nat, stage: Stage): State
    requires t in s.tasks
  {
    s.(tasks := if stage.Over? then s.tasks - {t} else s.tasks[t := s.tasks[t].(stage := stage)])
  }

  /** The stage that follows a read or a lookup. */
  function Follows(s: State, t: nat, found: Found, compatible: bool): Stage
    requires t in s.tasks
  {
    var job := s.tasks[t].job;
    match s.tasks[t].stage
    case Reread => AfterSecondRead(Lookup(s.cache, job.key))
    case Recheck(previous) => if HasContract(previous) then AfterRecheck(previous, found, compatible, job) else Recheck(previous)
    case Search => AfterSearch(found, job)
    case Merge(id) => AfterThirdRead(Lookup(s.cache, job.key), id, job)
    case stage => stage
  }

  function Stepped(s: State, t: nat, found: Found, compatible: bool): State
    requires t in s.tasks
  {
    match s.tasks[t].stage
    case Save(item) => Moved(s.(store := Upserted(s.store, item)), t, Remember(Saved(s.store, item)))
    case Remember(saved) => Moved(s.(cache := Remembered(s.cache, saved)), t, Over)
    case _ => Moved(s, t, Follows(s, t, found, compatible))
  }

  function Next(s: State, e: Event): State {
    match e
    case Begin(t, job) =>
      var stage := AfterFirstRead(Lookup(s.cache, job.key), job);
      if CanBegin(s, t, job) && !stage.Over? then s.(tasks := s.tasks[t := Task(job, stage)]) else s
    case Step(t, found, compatible) => if t in s.tasks then Stepped(s, t, found, compatible) else s
    case Drop(t) => s.(tasks := s.tasks - {t})
  }

  /** A run starts from a cache restored from the store. */
  datatype Run = Boot(cache: map<string, Resolution>, store: map<string, Resolution>) | Then(before: Run, event: Event)

  function After(run: Run): State {
    match run
    case Boot(cache, store) => State(cache, store, map[])
    case Then(before, e) => Next(After(before), e)
  }

  /** Every cached resolution is a row of the store. */
  predicate RestoredFrom(cache: map<string, Resolution>, store: map<string, Resolution>) {
    forall k :: k in cache ==> cache[k].symbol in store && store[cache[k].symbol] == cache[k]
  }

  predicate GoodStart(cache: map<string, Resolution>, store: map<string, Resolution>) {
    CacheOk(cache) && CanonicalStore(store) && RestoredFrom(cache, store)
  }

  /** The rows are those of the store. */
  ghost predicate ListsRows(rows: seq<Resolution>, store: map<string, Resolution>) {
    forall r :: r in rows <==> r.symbol in store && store[r.symbol] == r
  }

  /** A service restarted over a canonical store makes a good start. */
  method Restart(rows: seq<Resolution>, ghost store: map<string, Resolution>) returns (cache: Cache)
    requires CanonicalStore(store) && ListsRows(rows, store)
    ensures fresh(cache) && GoodStart(cache.entries, store)
  {
    cache := new Cache();
    cache.Restore(rows);
  }

  predicate StartsFrom(run: Run, cache: map<string, Resolution>, store: map<string, Resolution>) {
    match run
    case Boot(c, s) => c == cache && s == store
    case Then(before, _) => StartsFrom(before, cache, store)
  }

  predicate StrictStore(store: map<string, Resolution>) {
    forall s :: s in store ==> Strict(store[s])
  }

  /* Many workers at a time, over a store in which no contract lists its own name. */

  predicate StageOk(stage: Stage) {
    match stage
    case Recheck(previous) => HasContract(previous) && Strict(previous)
    case Save(item) => Strict(item)
    case Remember(saved) => Strict(saved)
    case Merge(id) => id > 0
    case _ => true
  }

  predicate StrictCache(cache: map<string, Resolution>) {
    forall k :: k in cache ==> Strict(cache[k])
  }

  ghost predicate Invariant(s: State) {
    && CacheOk(s.cache) && StrictCache(s.cache) && CanonicalStore(s.store) && StrictStore(s.store)
    && forall t :: t in s.tasks ==> Plain(s.tasks[t].job.key) && StageOk(s.tasks[t].stage)
  }

  lemma SavedIsStrict(store: map<string, Resolution>, item: Resolution)
    requires CanonicalStore(store) && StrictStore(store) && Strict(item)
    ensures Strict(Saved(store, item)) && StrictStore(Upserted(store, item))
  {
    SavedIsCanonical(store, item);
    if HasContract(item) && ContractRow(store, item.conId.value).Some? {
      FirstOccurrencesContents(ContractRow(store, item.conId.value).value.aliases + item.aliases);
    }
  }

  lemma ThirdReadIsStrict(cached: Option<Resolution>, id: nat, job: Job)
    requires id > 0 && Plain(job.key) && (cached.Some? ==> Strict(cached.value))
    ensures StageOk(AfterThirdRead(cached, id, job))
  {
  }

  lemma MoveKeeps(s: State, t: nat, stage: Stage)
    requires Invariant(s) && t in s.tasks && StageOk(stage)
    ensures Invariant(Moved(s, t, stage))
  {
  }

  lemma SaveKeeps(s: State, item: Resolution)
    requires Invariant(s) && Strict(item)
    ensures Invariant(s.(store := Upserted(s.store, item))) && Strict(Saved(s.store, item))
  {
    SavedIsCanonical(s.store, item);
    SavedIsStrict(s.store, item);
  }

  lemma RememberKeeps(s: State, saved: Resolution)
    requires Invariant(s) && Strict(saved)
    ensures Invariant(s.(cache := Remembered(s.cache, saved)))
  {
    RememberKeepsCacheOk(s.cache, saved);
  }

  lemma FollowsIsOk(s: State, t: nat, found: Found, compatible: bool)
    requires Invariant(s) && t in s.tasks
    ensures StageOk(Follows(s, t, found, compatible))
  {
    var task := s.tasks[t];
    if task.stage.Merge? {
      ThirdReadIsStrict(Lookup(s.cache, task.job.key), task.stage.id, task.job);
    }
  }

  lemma StepKeeps(s: State, t: nat, found: Found, compatible: bool)
    requires Invariant(s) && t in s.tasks
    ensures Invariant(Stepped(s, t, found, compatible))
  {
    match s.tasks[t].stage
    case Save(item) =>
      SaveKeeps(s, item);
      MoveKeeps(s.(store := Upserted(s.store, item)), t, Remember(Saved(s.store, item)));
    case Remember(saved) =>
      RememberKeeps(s, saved);
      MoveKeeps(s.(cache := Remembered(s.cache, saved)), t, Over);
    case _ =>
      FollowsIsOk(s, t, found, compatible);
      MoveKeeps(s, t, Follows(s, t, found, compatible));
  }

  /** Under every interleaving of any number of workers each cache key names its value, the value is also
      under its own symbol, and cache and store stay canonical. */
  lemma {:induction false} Reachable(run: Run, cache: map<string, Resolution>, store: map<string, Resolution>)
    requires StartsFrom(run, cache, store) && GoodStart(cache, store) && StrictStore(store)
    ensures Invariant(After(run))
  {
    if run.Then? {
      Reachable(run.before, cache, store);
      var s := After(run.before);
      if run.event.Step? && run.event.t in s.tasks {
        StepKeeps(s, run.event.t, run.event.found, run.event.compatible);
      }
    }
  }

  /* One worker at a time, over any canonical store. */

  /** A job begins only when no other is under way. */
  predicate OneAtATime(run: Run) {
    run.Then? ==> OneAtATime(run.before) && (run.event.Begin? ==> After(run.before).tasks == map[])
  }

  /** What the cache holds under a key is no contract. */
  predicate NoContractAt(cache: map<string, Resolution>, key: string) {
    key in cache ==> !HasContract(cache[key])
  }

  predicate SoleStageOk(cache: map<string, Resolution>, task: Task) {
    match task.stage
    case Recheck(previous) => HasContract(previous) && Canonical(previous)
    case Save(item) => Canonical(item)
    case Remember(saved) => Canonical(saved)
    case Search => NoContractAt(cache, task.job.key)
    case Merge(id) => id > 0 && NoContractAt(cache, task.job.key)
    case _ => true
  }

  ghost predicate SoleInvariant(s: State) {
    && CacheOk(s.cache) && CanonicalStore(s.store)
    && (forall t, u :: t in s.tasks && u in s.tasks ==> t == u)
    && (forall t :: t in s.tasks ==> Plain(s.tasks[t].job.key) && SoleStageOk(s.cache, s.tasks[t]))
  }

  lemma SoleMoveKeeps(s: State, t: nat, stage: Stage)
    requires SoleInvariant(s) && t in s.tasks && SoleStageOk(s.cache, Task(s.tasks[t].job, stage))
    ensures SoleInvariant(Moved(s, t, stage))
  {
  }

  lemma SoleFollowsIsOk(s: State, t: nat, found: Found, compatible: bool)
    requires SoleInvariant(s) && t in s.tasks
    ensures SoleStageOk(s.cache, Task(s.tasks[t].job, Follows(s, t, found, compatible)))
  {
  }

  lemma SoleRememberKeeps(s: State, t: nat, saved: Resolution)
    requires SoleInvariant(s) && t in s.tasks && Canonical(saved)
    ensures SoleInvariant(Moved(s.(cache := Remembered(s.cache, saved)), t, Over))
  {
    RememberKeepsCacheOk(s.cache, saved);
    assert Moved(s.(cache := Remembered(s.cache, saved)), t, Over).tasks == map[];
  }

  lemma SoleSaveKeeps(s: State, t: nat, item: Resolution)
    requires SoleInvariant(s) && t in s.tasks && Canonical(item)
    ensures SoleInvariant(Moved(s.(store := Upserted(s.store, item)), t, Remember(Saved(s.store, item))))
  {
    SavedIsCanonical(s.store, item);
    SoleMoveKeeps(s.(store := Upserted(s.store, item)), t, Remember(Saved(s.store, item)));
  }

  lemma SoleStepKeeps(s: State, t: nat, found: Found, compatible: bool)
    requires SoleInvariant(s) && t in s.tasks
    ensures SoleInvariant(Stepped(s, t, found, compatible))
  {
    match s.tasks[t].stage
    case Save(item) => SoleSaveKeeps(s, t, item);
    case Remember(saved) => SoleRememberKeeps(s, t, saved);
    case _ =>
      SoleFollowsIsOk(s, t, found, compatible);
      SoleMoveKeeps(s, t, Follows(s, t, found, compatible));
  }

  lemma SoleBeginKeeps(s: State, t: nat, job: Job)
    requires SoleInvariant(s) && s.tasks == map[]
    ensures SoleInvariant(Next(s, Begin(t, job)))
  {
  }

  lemma {:induction false} SoleReachable(run: Run, cache: map<string, Resolution>, store: map<string, Resolution>)
    requires StartsFrom(run, cache, store) && GoodStart(cache, store) && OneAtATime(run)
    ensures SoleInvariant(After(run))
  {
    if run.Then? {
      SoleReachable(run.before, cache, store);
      var s := After(run.before);
      match run.event
      case Begin(t, job) => SoleBeginKeeps(s, t, job);
      case Step(t, found, compatible) => if t in s.tasks { SoleStepKeeps(s, t, found, compatible); }
      case Drop(_) =>
    }
  }

  /* What is published. */

  /** From a restored cache the cache stays in order when one worker runs at a time, as the service does
      once it is started, and for any number of workers when no contract lists its own name. */
  lemma {:induction false} CacheStaysOk(run: Run, cache: map<string, Resolution>, store: map<string, Resolution>)
    requires StartsFrom(run, cache, store) && GoodStart(cache, store) && (OneAtATime(run) || StrictStore(store))
    ensures CacheOk(After(run).cache)
  {
    if OneAtATime(run) {
      SoleReachable(run, cache, store);
    } else {
      Reachable(run, cache, store);
    }
  }

  lemma OwnersOfOkCache(cache: map<string, Resolution>, owners: seq<Resolution>, r: Resolution)
    requires CacheOk(cache) && ListsOwners(cache, owners)
    ensures r in owners <==> r in cache.Values
    ensures forall i, j :: 0 <= i < j < |owners| ==> owners[i] != owners[j]
    ensures forall i, j :: 0 <= i < j < |owners| && HasContract(owners[i]) && HasContract(owners[j]) ==>
              owners[i].conId != owners[j].conId
  {
    if r in cache.Values {
      var k :| k in cache && cache[k] == r;
      assert cache[r.symbol] == r;
    }
    forall i | 0 <= i < |owners| ensures Canonical(owners[i]) {
      assert owners[i] in owners;
    }
  }

  /** The published list then holds each cached resolution exactly once, and at most one per contract id. */
  lemma {:induction false} EachResolutionIsPublishedOnce(
    run: Run, cache: map<string, Resolution>, store: map<string, Resolution>, owners: seq<Resolution>, r: Resolution)
    requires StartsFrom(run, cache, store) && GoodStart(cache, store) && (OneAtATime(run) || StrictStore(store))
    requires ListsOwners(After(run).cache, owners)
    ensures r in owners <==> r in After(run).cache.Values
    ensures forall i, j :: 0 <= i < j < |owners| ==> owners[i] != owners[j]
    ensures forall i, j :: 0 <= i < j < |owners| && HasContract(owners[i]) && HasContract(owners[j]) ==>
              owners[i].conId != owners[j].conId
  {
    CacheStaysOk(run, cache, store);
    OwnersOfOkCache(After(run).cache, owners, r);
  }
}
