/** Cross-venue funding spreads: group by pairing symbol, sort, keep one rate per exchange, pair and
    deduplicate, against the naive definition over all pairs. */
module SpreadBuilder {
  import opened Common
  import opened Pairing

  predicate Usable(r: Rate) {
    r.globalSymbol != "" && r.exchange != "" && r.intervalHours > 0.0
  }

  /** The usable rates that pair under a symbol, in input order. */
  function Group(rates: seq<Rate>, symbol: string): seq<Rate> {
    if rates == [] then []
    else
      var front, last := Group(rates[..|rates| - 1], symbol), rates[|rates| - 1];
      if Usable(last) && symbol in PairingSymbols(last) then front + [last] else front
  }

  lemma {:induction false} GroupContents(rates: seq<Rate>, symbol: string, r: Rate)
    ensures r in Group(rates, symbol) <==> r in rates && Usable(r) && symbol in PairingSymbols(r)
  {
    if rates != [] {
      GroupContents(rates[..|rates| - 1], symbol, r);
      assert rates == rates[..|rates| - 1] + [rates[|rates| - 1]];
    }
  }

  /* Stable sort by exchange, then exchange symbol. */

  predicate Before(a: Rate, b: Rate) {
    if a.exchange == b.exchange then Less(a.exchangeSymbol, b.exchangeSymbol) else Less(a.exchange, b.exchange)
  }

  /** Insert after every element that does not come later. */
  function InsertRate(r: Rate, sorted: seq<Rate>): seq<Rate> {
    if sorted != [] && Before(r, sorted[|sorted| - 1])
    then InsertRate(r, sorted[..|sorted| - 1]) + [sorted[|sorted| - 1]]
    else sorted + [r]
  }

  function SortRates(rates: seq<Rate>): seq<Rate> {
    if rates == [] then [] else InsertRate(rates[|rates| - 1], SortRates(rates[..|rates| - 1]))
  }

  predicate Sorted(rates: seq<Rate>) {
    forall i, j :: 0 <= i < j < |rates| ==> !Before(rates[j], rates[i])
  }

  lemma BeforeIsWeakOrder(a: Rate, b: Rate, c: Rate)
    ensures !(Before(a, b) && Before(b, a))
    ensures !Before(b, a) && !Before(c, b) ==> !Before(c, a)
  {
    LessIsTotal(a.exchange, b.exchange);
    LessIsTotal(a.exchangeSymbol, b.exchangeSymbol);
    LessIsTotal(b.exchange, c.exchange);
    LessIsTotal(b.exchangeSymbol, c.exchangeSymbol);
    if !Before(b, a) && !Before(c, b) && Before(c, a) {
      if a.exchange == c.exchange {
        LessIsTotal(a.exchange, b.exchange);
        if a.exchange == b.exchange && b.exchangeSymbol != c.exchangeSymbol && a.exchangeSymbol != b.exchangeSymbol {
          LessIsTransitive(a.exchangeSymbol, b.exchangeSymbol, c.exchangeSymbol);
          LessIsTotal(a.exchangeSymbol, c.exchangeSymbol);
        }
      } else if a.exchange != b.exchange && b.exchange != c.exchange {
        LessIsTransitive(a.exchange, b.exchange, c.exchange);
        LessIsTotal(a.exchange, c.exchange);
      } else {
        LessIsTotal(a.exchange, c.exchange);
      }
    }
  }

  lemma {:induction false} InsertContents(r: Rate, sorted: seq<Rate>)
    ensures multiset(InsertRate(r, sorted)) == multiset(sorted) + multiset{r}
  {
    if sorted != [] {
      var front, last := sorted[..|sorted| - 1], sorted[|sorted| - 1];
      InsertContents(r, front);
      assert sorted == front + [last];
    }
  }

  lemma {:induction false} InsertContentsOf(r: Rate, sorted: seq<Rate>, rates: seq<Rate>)
    requires multiset(sorted) == multiset(rates)
    ensures multiset(InsertRate(r, sorted)) == multiset(rates + [r])
  {
    InsertContents(r, sorted);
  }

  lemma SplitLast(rates: seq<Rate>)
    requires rates != []
    ensures rates == rates[..|rates| - 1] + [rates[|rates| - 1]]
  {
  }

  lemma {:induction false} SortContents(rates: seq<Rate>)
    ensures multiset(SortRates(rates)) == multiset(rates)
  {
    if rates == [] {
      assert SortRates(rates) == rates;
    } else {
      var front, last := rates[..|rates| - 1], rates[|rates| - 1];
      SortContents(front);
      InsertContentsOf(last, SortRates(front), front);
      SplitLast(rates);
    }
  }

  lemma {:induction false} InsertedMembers(r: Rate, sorted: seq<Rate>, x: Rate)
    requires x in InsertRate(r, sorted)
    ensures x == r || x in sorted
  {
    InsertContents(r, sorted);
    assert x in multiset(InsertRate(r, sorted));
    assert x == r || x in multiset(sorted);
  }

  lemma {:induction false} InsertedStayBefore(r: Rate, front: seq<Rate>, last: Rate)
    requires Sorted(front + [last]) && Before(r, last)
    ensures forall x :: x in InsertRate(r, front) ==> !Before(last, x)
  {
    forall x | x in InsertRate(r, front) ensures !Before(last, x) {
      InsertedMembers(r, front, x);
      BeforeIsWeakOrder(r, last, last);
      if x != r {
        var k :| 0 <= k < |front| && front[k] == x;
        assert (front + [last])[k] == x && (front + [last])[|front|] == last;
      }
    }
  }

  lemma {:induction false} SortedAppend(sorted: seq<Rate>, r: Rate)
    requires Sorted(sorted) && forall x :: x in sorted ==> !Before(r, x)
    ensures Sorted(sorted + [r])
  {
  }

  lemma {:induction false} InsertKeepsSorted(r: Rate, sorted: seq<Rate>)
    requires Sorted(sorted)
    ensures Sorted(InsertRate(r, sorted))
  {
    if sorted != [] {
      var front, last := sorted[..|sorted| - 1], sorted[|sorted| - 1];
      assert sorted == front + [last];
      if Before(r, last) {
        InsertKeepsSorted(r, front);
        InsertedStayBefore(r, front, last);
        SortedAppend(InsertRate(r, front), last);
      } else {
        forall x | x in sorted ensures !Before(r, x) {
          BeforeIsWeakOrder(x, last, r);
        }
        SortedAppend(sorted, r);
      }
    }
  }

  lemma {:induction false} SortSorts(rates: seq<Rate>)
    ensures Sorted(SortRates(rates))
  {
    if rates != [] {
      SortSorts(rates[..|rates| - 1]);
      InsertKeepsSorted(rates[|rates| - 1], SortRates(rates[..|rates| - 1]));
    }
  }

  /* One rate per exchange. */

  function FirstPerExchange(sorted: seq<Rate>): seq<Rate> {
    if sorted == [] then []
    else
      var front, last := FirstPerExchange(sorted[..|sorted| - 1]), sorted[|sorted| - 1];
      if front == [] || front[|front| - 1].exchange != last.exchange then front + [last] else front
  }

  /** The representatives of a symbol's group. */
  function Representatives(rates: seq<Rate>, symbol: string): seq<Rate> {
    FirstPerExchange(SortRates(Group(rates, symbol)))
  }

  lemma {:induction false} FirstPerExchangeEnds(sorted: seq<Rate>)
    requires sorted != []
    ensures FirstPerExchange(sorted) != []
    ensures FirstPerExchange(sorted)[|FirstPerExchange(sorted)| - 1].exchange == sorted[|sorted| - 1].exchange
    ensures FirstPerExchange(sorted)[|FirstPerExchange(sorted)| - 1] in sorted
  {
    var front := sorted[..|sorted| - 1];
    assert sorted == front + [sorted[|sorted| - 1]];
    if front != [] { FirstPerExchangeEnds(front); }
  }

  predicate IncreasingExchanges(rates: seq<Rate>) {
    forall i, j :: 0 <= i < j < |rates| ==> Less(rates[i].exchange, rates[j].exchange)
  }

  lemma {:induction false} FirstPerExchangeIncreases(sorted: seq<Rate>)
    requires Sorted(sorted)
    ensures IncreasingExchanges(FirstPerExchange(sorted))
  {
    if sorted != [] {
      var front, last := sorted[..|sorted| - 1], sorted[|sorted| - 1];
      var kept := FirstPerExchange(front);
      FirstPerExchangeIncreases(front);
      if kept != [] && kept[|kept| - 1].exchange != last.exchange {
        FirstPerExchangeEnds(front);
        var newest := kept[|kept| - 1];
        var k :| 0 <= k < |front| && front[k] == newest;
        assert sorted[k] == newest && !Before(last, newest);
        LessIsTotal(newest.exchange, last.exchange);
        forall i | 0 <= i < |kept| ensures Less(kept[i].exchange, last.exchange) {
          if i < |kept| - 1 { LessIsTransitive(kept[i].exchange, newest.exchange, last.exchange); }
        }
      }
    }
  }

  /** The kept rate of an exchange is one of its rates, and none of them sorts before it. */
  lemma {:induction false} FirstPerExchangeIsLeast(sorted: seq<Rate>, r: Rate)
    requires Sorted(sorted) && r in sorted
    ensures exists u :: u in FirstPerExchange(sorted) && u in sorted && u.exchange == r.exchange && !Before(r, u)
  {
    var front, last := sorted[..|sorted| - 1], sorted[|sorted| - 1];
    assert sorted == front + [last];
    if r in front {
      FirstPerExchangeIsLeast(front, r);
      var u :| u in FirstPerExchange(front) && u in front && u.exchange == r.exchange && !Before(r, u);
      assert u in FirstPerExchange(sorted);
    } else {
      var kept := FirstPerExchange(front);
      FirstPerExchangeEnds(sorted);
      var u := FirstPerExchange(sorted)[|FirstPerExchange(sorted)| - 1];
      assert u in FirstPerExchange(sorted);
      var k :| 0 <= k < |sorted| && sorted[k] == u;
      BeforeIsWeakOrder(r, r, r);
    }
  }

  lemma {:induction false} FirstPerExchangeKeeps(sorted: seq<Rate>, u: Rate)
    requires u in FirstPerExchange(sorted)
    ensures u in sorted
  {
    if sorted != [] {
      var front, last := sorted[..|sorted| - 1], sorted[|sorted| - 1];
      assert sorted == front + [last];
      if u in FirstPerExchange(front) { FirstPerExchangeKeeps(front, u); }
    }
  }

  lemma {:induction false} SortMembers(rates: seq<Rate>, r: Rate)
    ensures r in SortRates(rates) <==> r in rates
  {
    SortContents(rates);
    assert r in rates <==> r in multiset(rates);
    assert r in SortRates(rates) <==> r in multiset(SortRates(rates));
  }

  /** Whatever the input, a symbol's representatives are rates of its group in strictly increasing
      exchange order. */
  lemma {:induction false} RepresentativesAreOnePerExchange(rates: seq<Rate>, symbol: string, r: Rate)
    ensures IncreasingExchanges(Representatives(rates, symbol))
    ensures r in Representatives(rates, symbol) ==> r in Group(rates, symbol)
  {
    var sorted := SortRates(Group(rates, symbol));
    SortSorts(Group(rates, symbol));
    FirstPerExchangeIncreases(sorted);
    if r in Representatives(rates, symbol) {
      FirstPerExchangeKeeps(sorted, r);
      SortMembers(Group(rates, symbol), r);
    }
  }

  /** Each exchange of the group is represented, by its least exchange symbol. */
  lemma {:induction false} RepresentativeIsLeast(rates: seq<Rate>, symbol: string, r: Rate) returns (u: Rate)
    requires r in Group(rates, symbol)
    ensures u in Representatives(rates, symbol) && u.exchange == r.exchange
    ensures !Less(r.exchangeSymbol, u.exchangeSymbol)
  {
    var sorted := SortRates(Group(rates, symbol));
    SortSorts(Group(rates, symbol));
    SortMembers(Group(rates, symbol), r);
    FirstPerExchangeIsLeast(sorted, r);
    u :| u in FirstPerExchange(sorted) && u in sorted && u.exchange == r.exchange && !Before(r, u);
  }

  /* The emitted pairs. */

  datatype Emission = Emission(symbol: string, first: Rate, second: Rate)

  function KeyOf(e: Emission): string {
    SpreadKey(e.first, e.second)
  }

  function Keys(out: seq<Emission>): set<string> {
    set e | e in out :: KeyOf(e)
  }

  predicate DistinctKeys(out: seq<Emission>) {
    forall i, j :: 0 <= i < j < |out| ==> KeyOf(out[i]) != KeyOf(out[j])
  }

  /** A pair of a symbol's representatives that may be paired, in their order. */
  ghost predicate Offers(reps: seq<Rate>, first: Rate, second: Rate) {
    exists i, j :: 0 <= i < j < |reps| && reps[i] == first && reps[j] == second && PairableRates(first, second)
  }

  /** Every pair the symbol offers has its key among the emitted ones. */
  predicate CoveredBy(reps: seq<Rate>, keys: set<string>) {
    forall i, j :: 0 <= i < j < |reps| && PairableRates(reps[i], reps[j]) ==> SpreadKey(reps[i], reps[j]) in keys
  }

  lemma {:induction false} AppendEmission(out: seq<Emission>, e: Emission)
    requires DistinctKeys(out) && KeyOf(e) !in Keys(out)
    ensures DistinctKeys(out + [e]) && Keys(out + [e]) == Keys(out) + {KeyOf(e)}
  {
    forall i | 0 <= i < |out| ensures KeyOf(out[i]) != KeyOf(e) {
      assert out[i] in out;
    }
    assert e in out + [e];
  }

  /* Building a spread. */

  datatype Leg = Leg(exchange: string, exchangeSymbol: string, effectiveRate: real, intervalHours: real)

  datatype Spread = Spread(
    symbol: string, base: string, quote: string, long: Leg, short: Leg, singleAnnualized: real,
    annualized24h: real, annualized7d: real, minPositionUsd: real, minTurnoverUsd: real, updatedAt: int,
    complete24h: Option<bool>, complete7d: Option<bool>)

  function EffectiveRate(r: Rate): real {
    if r.nextRate.Some? then r.nextRate.value else r.rate
  }

  function MinReal(a: real, b: real): real { if b < a then b else a }

  function CombineCoverage(a: Option<bool>, b: Option<bool>): Option<bool> {
    if a.None? && b.None? then None
    else Some((a.None? || a.value) && (b.None? || b.value))
  }

  function LegOf(r: Rate): Leg {
    Leg(r.exchange, r.exchangeSymbol, EffectiveRate(r), r.intervalHours)
  }

  function Hourly(r: Rate): real
    requires r.intervalHours > 0.0
  {
    EffectiveRate(r) / r.intervalHours
  }

  function BuildSpread(symbol: string, first: Rate, second: Rate): Spread
    requires first.intervalHours > 0.0 && second.intervalHours > 0.0
  {
    var swap := Hourly(first) > Hourly(second);
    var long, short := if swap then second else first, if swap then first else second;
    Spread(symbol, long.base, PairingQuote(long), LegOf(long), LegOf(short),
           (Hourly(short) - Hourly(long)) * 24.0 * 365.0,
           (short.cumulative24h - long.cumulative24h) * 365.0,
           (short.cumulative7d - long.cumulative7d) * 365.0 / 7.0,
           MinReal(long.positionUsd, short.positionUsd), MinReal(long.turnoverUsd, short.turnoverUsd),
           if long.updatedAt < short.updatedAt then long.updatedAt else short.updatedAt,
           CombineCoverage(long.complete24h, short.complete24h), CombineCoverage(long.complete7d, short.complete7d))
  }

  /** A spread goes long where the hourly funding is lower, so it never earns less than nothing; and
      unless both sides fund equally it does not depend on the order of its rates. */
  lemma SpreadEarnsItsFundingGap(symbol: string, a: Rate, b: Rate)
    requires a.intervalHours > 0.0 && b.intervalHours > 0.0
    ensures BuildSpread(symbol, a, b).singleAnnualized == Abs(Hourly(a) - Hourly(b)) * 24.0 * 365.0
    ensures BuildSpread(symbol, a, b).singleAnnualized >= 0.0
    ensures Hourly(a) != Hourly(b) ==> BuildSpread(symbol, a, b) == BuildSpread(symbol, b, a)
  {
  }

  /* The loops. */

  function InsertText(t: string, sorted: seq<string>): seq<string> {
    if sorted != [] && Less(sorted[0], t) then [sorted[0]] + InsertText(t, sorted[1..]) else [t] + sorted
  }

  predicate Ascending(texts: seq<string>) {
    forall i, j :: 0 <= i < j < |texts| ==> Less(texts[i], texts[j])
  }

  lemma {:induction false} InsertTextSorts(t: string, sorted: seq<string>)
    requires Ascending(sorted) && t !in sorted
    ensures Ascending(InsertText(t, sorted))
    ensures forall x :: x in InsertText(t, sorted) <==> x == t || x in sorted
  {
    if sorted != [] {
      LessIsTotal(sorted[0], t);
      assert sorted[0] in sorted && sorted == [sorted[0]] + sorted[1..];
      if Less(sorted[0], t) {
        InsertTextSorts(t, sorted[1..]);
        forall x | x in InsertText(t, sorted[1..]) ensures Less(sorted[0], x) {
          if x != t {
            var k :| 0 <= k < |sorted| - 1 && sorted[1..][k] == x;
          }
        }
      } else {
        forall k | 0 <= k < |sorted| ensures Less(t, sorted[k]) {
          if k > 0 { LessIsTransitive(t, sorted[0], sorted[k]); }
        }
      }
    }
  }

  method SortSymbols(keys: set<string>) returns (symbols: seq<string>)
    ensures Ascending(symbols) && forall t :: t in symbols <==> t in keys
  {
    symbols := [];
    var rest := keys;
    while rest != {}
      invariant rest <= keys && Ascending(symbols) && forall t :: t in symbols <==> t in keys - rest
      decreases rest
    {
      var t :| t in rest;
      InsertTextSorts(t, symbols);
      symbols := InsertText(t, symbols);
      rest := rest - {t};
    }
  }

  function At(groups: map<string, seq<Rate>>, symbol: string): seq<Rate> {
    if symbol in groups then groups[symbol] else []
  }

  ghost predicate Grouped(groups: map<string, seq<Rate>>, rates: seq<Rate>) {
    forall t :: At(groups, t) == Group(rates, t)
  }

  lemma PairingSymbolsAreDistinct(r: Rate)
    ensures |PairingSymbols(r)| == 2 ==> PairingSymbols(r)[0] != PairingSymbols(r)[1]
    ensures |PairingSymbols(r)| <= 2
  {
    if IsLighterUSDC(r) {
      assert PairingSymbols(r)[0][|r.base| + 3] == 'C' && PairingSymbols(r)[1][|r.base| + 3] == 'T';
    }
  }

  /** The groups after the first k symbols of one more rate. */
  ghost predicate GroupedWith(groups: map<string, seq<Rate>>, before: seq<Rate>, rate: Rate, symbols: seq<string>) {
    forall t :: At(groups, t) == if t in symbols then Group(before, t) + [rate] else Group(before, t)
  }

  method AddRate(groups: map<string, seq<Rate>>, rate: Rate, ghost before: seq<Rate>) returns (r: map<string, seq<Rate>>)
    requires Usable(rate) && Grouped(groups, before)
    ensures GroupedWith(r, before, rate, PairingSymbols(rate))
  {
    r := groups;
    var symbols := PairingSymbols(rate);
    PairingSymbolsAreDistinct(rate);
    for k := 0 to |symbols|
      invariant GroupedWith(r, before, rate, symbols[..k])
    {
      assert symbols[..k + 1] == symbols[..k] + [symbols[k]];
      r := r[symbols[k] := At(r, symbols[k]) + [rate]];
    }
    assert symbols[..|symbols|] == symbols;
  }

  lemma {:induction false} GroupStep(rates: seq<Rate>, i: nat, t: string)
    requires i < |rates|
    ensures Group(rates[..i + 1], t) ==
            if Usable(rates[i]) && t in PairingSymbols(rates[i]) then Group(rates[..i], t) + [rates[i]] else Group(rates[..i], t)
  {
    assert rates[..i + 1][..i] == rates[..i];
  }

  /** Collect the usable rates under each of their pairing symbols. */
  method GroupRates(rates: seq<Rate>) returns (groups: map<string, seq<Rate>>)
    ensures Grouped(groups, rates)
  {
    groups := map[];
    for i := 0 to |rates|
      invariant Grouped(groups, rates[..i])
    {
      ghost var was := groups;
      if Usable(rates[i]) {
        groups := AddRate(groups, rates[i], rates[..i]);
      }
      forall t ensures At(groups, t) == Group(rates[..i + 1], t) {
        assert At(was, t) == Group(rates[..i], t);
        GroupStep(rates, i, t);
      }
    }
    assert rates[..|rates|] == rates;
  }

  method Deduplicate(sorted: seq<Rate>) returns (unique: seq<Rate>)
    ensures unique == FirstPerExchange(sorted)
  {
    unique := [];
    for i := 0 to |sorted|
      invariant unique == FirstPerExchange(sorted[..i])
    {
      assert sorted[..i + 1][..i] == sorted[..i];
      if |unique| == 0 || unique[|unique| - 1].exchange != sorted[i].exchange {
        unique := unique + [sorted[i]];
      }
    }
    assert sorted[..|sorted|] == sorted;
  }

  /** Every emission is new or an offer of this symbol. */
  ghost predicate Adds(out: seq<Emission>, before: seq<Emission>, symbol: string, reps: seq<Rate>) {
    && before <= out
    && forall k :: |before| <= k < |out| ==> out[k].symbol == symbol && Offers(reps, out[k].first, out[k].second)
                                             && KeyOf(out[k]) !in Keys(before)
  }

  ghost predicate Grown(out: seq<Emission>, seen: set<string>, before: seq<Emission>, symbol: string, reps: seq<Rate>) {
    DistinctKeys(out) && seen == Keys(out) && Adds(out, before, symbol, reps)
  }

  /** The offers of the i-th representative with those before position n are among the keys. */
  predicate RowCovered(reps: seq<Rate>, i: nat, n: nat, keys: set<string>)
    requires n <= |reps|
  {
    forall j :: i < j < n && PairableRates(reps[i], reps[j]) ==> SpreadKey(reps[i], reps[j]) in keys
  }

  predicate RowsCovered(reps: seq<Rate>, n: nat, keys: set<string>)
    requires n <= |reps|
  {
    forall i :: 0 <= i < n ==> RowCovered(reps, i, |reps|, keys)
  }

  lemma RowsGrow(reps: seq<Rate>, n: nat, keys: set<string>, more: set<string>)
    requires n < |reps| && RowsCovered(reps, n, keys) && keys <= more && RowCovered(reps, n, |reps|, more)
    ensures RowsCovered(reps, n + 1, more)
  {
    forall i | 0 <= i < n ensures RowCovered(reps, i, |reps|, more) {
      assert RowCovered(reps, i, |reps|, keys);
    }
  }

  lemma RowsCoverAll(reps: seq<Rate>, keys: set<string>)
    requires RowsCovered(reps, |reps|, keys)
    ensures CoveredBy(reps, keys)
  {
    forall i, j | 0 <= i < j < |reps| && PairableRates(reps[i], reps[j]) ensures SpreadKey(reps[i], reps[j]) in keys {
      assert RowCovered(reps, i, |reps|, keys);
    }
  }

  method EmitPair(symbol: string, reps: seq<Rate>, i: nat, j: nat, ghost before: seq<Emission>,
                  out0: seq<Emission>, seen0: set<string>)
    returns (out: seq<Emission>, seen: set<string>)
    requires i < j < |reps| && Grown(out0, seen0, before, symbol, reps)
    ensures Grown(out, seen, before, symbol, reps) && seen0 <= seen
    ensures PairableRates(reps[i], reps[j]) ==> SpreadKey(reps[i], reps[j]) in seen
  {
    out, seen := out0, seen0;
    if PairableRates(reps[i], reps[j]) {
      var key := SpreadKey(reps[i], reps[j]);
      if key !in seen {
        var e := Emission(symbol, reps[i], reps[j]);
        AppendEmission(out0, e);
        KeysGrow(before, out0);
        out, seen := out + [e], seen + {key};
        assert Offers(reps, e.first, e.second);
      }
    }
  }

  method EmitRow(symbol: string, reps: seq<Rate>, i: nat, ghost before: seq<Emission>,
                 out0: seq<Emission>, seen0: set<string>)
    returns (out: seq<Emission>, seen: set<string>)
    requires i < |reps| && Grown(out0, seen0, before, symbol, reps)
    ensures Grown(out, seen, before, symbol, reps) && seen0 <= seen
    ensures RowCovered(reps, i, |reps|, seen)
  {
    out, seen := out0, seen0;
    for j := i + 1 to |reps|
      invariant Grown(out, seen, before, symbol, reps) && seen0 <= seen
      invariant RowCovered(reps, i, j, seen)
    {
      out, seen := EmitPair(symbol, reps, i, j, before, out, seen);
    }
  }

  /** The two inner loops: pair the representatives of one symbol. */
  method EmitGroup(symbol: string, reps: seq<Rate>, before: seq<Emission>, seen0: set<string>)
    returns (out: seq<Emission>, seen: set<string>)
    requires DistinctKeys(before) && seen0 == Keys(before)
    ensures DistinctKeys(out) && seen == Keys(out)
    ensures Adds(out, before, symbol, reps)
    ensures CoveredBy(reps, seen)
  {
    out, seen := before, seen0;
    for i := 0 to |reps|
      invariant Grown(out, seen, before, symbol, reps)
      invariant RowsCovered(reps, i, seen)
    {
      ghost var was := seen;
      out, seen := EmitRow(symbol, reps, i, before, out, seen);
      RowsGrow(reps, i, was, seen);
    }
    RowsCoverAll(reps, seen);
  }

  lemma {:induction false} KeysGrow(before: seq<Emission>, out: seq<Emission>)
    requires before <= out
    ensures Keys(before) <= Keys(out)
  {
    assert forall e :: e in before ==> e in out;
  }

  /** No pair that may be formed among these representatives has the key. */
  predicate NotOffered(reps: seq<Rate>, key: string) {
    forall i, j :: 0 <= i < j < |reps| && PairableRates(reps[i], reps[j]) ==> SpreadKey(reps[i], reps[j]) != key
  }

  /** The emission is listed under the first symbol that offers its pair. */
  ghost predicate FirstLabel(rates: seq<Rate>, e: Emission) {
    forall t :: Less(t, e.symbol) ==> NotOffered(Representatives(rates, t), KeyOf(e))
  }

  /** What the emitted pairs are: the offers of all symbols, each key once, first symbol first. */
  ghost predicate Emits(rates: seq<Rate>, out: seq<Emission>) {
    && DistinctKeys(out)
    && (forall e :: e in out ==> Offers(Representatives(rates, e.symbol), e.first, e.second) && FirstLabel(rates, e))
    && (forall t :: CoveredBy(Representatives(rates, t), Keys(out)))
  }

  ghost predicate Realises(spreads: seq<Spread>, out: seq<Emission>) {
    && |spreads| == |out|
    && forall i :: 0 <= i < |out| ==>
         && out[i].first.intervalHours > 0.0 && out[i].second.intervalHours > 0.0
         && spreads[i] == BuildSpread(out[i].symbol, out[i].first, out[i].second)
  }

  /** What holds between symbols: the earlier ones are done. */
  ghost predicate EmitsUpTo(rates: seq<Rate>, symbols: seq<string>, k: nat, out: seq<Emission>)
    requires k <= |symbols|
  {
    && DistinctKeys(out)
    && (forall e :: e in out ==> Offers(Representatives(rates, e.symbol), e.first, e.second) && FirstLabel(rates, e))
    && (forall i :: 0 <= i < k ==> CoveredBy(Representatives(rates, symbols[i]), Keys(out)))
  }

  lemma CoveredIsNotOffered(reps: seq<Rate>, keys: set<string>, key: string)
    requires CoveredBy(reps, keys) && key !in keys
    ensures NotOffered(reps, key)
  {
  }

  lemma EarlierText(symbols: seq<string>, i: nat, k: nat)
    requires Ascending(symbols) && i < |symbols| && k < |symbols| && Less(symbols[i], symbols[k])
    ensures i < k
  {
    LessIsTotal(symbols[i], symbols[k]);
  }

  lemma {:induction false} NoGroupOffersNothing(rates: seq<Rate>, t: string, key: string)
    requires Group(rates, t) == []
    ensures NotOffered(Representatives(rates, t), key)
  {
    assert Representatives(rates, t) == [];
  }

  lemma {:induction false} EarlierSymbolsDone(rates: seq<Rate>, symbols: seq<string>, k: nat, before: seq<Emission>, e: Emission)
    requires Ascending(symbols) && k < |symbols| && e.symbol == symbols[k]
    requires forall t :: t !in symbols ==> Group(rates, t) == []
    requires EmitsUpTo(rates, symbols, k, before) && KeyOf(e) !in Keys(before)
    ensures FirstLabel(rates, e)
  {
    forall t | Less(t, e.symbol) ensures NotOffered(Representatives(rates, t), KeyOf(e)) {
      if t in symbols {
        var i :| 0 <= i < |symbols| && symbols[i] == t;
        EarlierText(symbols, i, k);
        CoveredIsNotOffered(Representatives(rates, symbols[i]), Keys(before), KeyOf(e));
      } else {
        NoGroupOffersNothing(rates, t, KeyOf(e));
      }
    }
  }

  lemma {:induction false} EmitStep(rates: seq<Rate>, symbols: seq<string>, k: nat, before: seq<Emission>, out: seq<Emission>)
    requires Ascending(symbols) && k < |symbols|
    requires forall t :: t !in symbols ==> Group(rates, t) == []
    requires EmitsUpTo(rates, symbols, k, before) && DistinctKeys(out)
    requires Adds(out, before, symbols[k], Representatives(rates, symbols[k]))
    requires CoveredBy(Representatives(rates, symbols[k]), Keys(out))
    ensures EmitsUpTo(rates, symbols, k + 1, out)
  {
    KeysGrow(before, out);
    forall e | e in out ensures Offers(Representatives(rates, e.symbol), e.first, e.second) && FirstLabel(rates, e) {
      var n :| 0 <= n < |out| && out[n] == e;
      if n < |before| {
        assert before[n] == e;
      } else {
        EarlierSymbolsDone(rates, symbols, k, before, e);
      }
    }
  }

  lemma {:induction false} EmitsAll(rates: seq<Rate>, symbols: seq<string>, out: seq<Emission>)
    requires EmitsUpTo(rates, symbols, |symbols|, out)
    requires forall t :: t !in symbols ==> Group(rates, t) == []
    ensures Emits(rates, out)
  {
    forall t ensures CoveredBy(Representatives(rates, t), Keys(out)) {
      if t !in symbols { assert Representatives(rates, t) == []; }
    }
  }

  /** Group, sort, deduplicate and pair. */
  method EmitPairs(rates: seq<Rate>) returns (out: seq<Emission>)
    ensures Emits(rates, out)
  {
    var groups := GroupRates(rates);
    var symbols := SortSymbols(groups.Keys);
    UngroupedSymbols(rates, groups, symbols);
    var seen: set<string> := {};
    out := [];
    for k := 0 to |symbols|
      invariant EmitsUpTo(rates, symbols, k, out) && seen == Keys(out)
    {
      ghost var before := out;
      var reps := Deduplicate(SortRates(groups[symbols[k]]));
      out, seen := EmitGroup(symbols[k], reps, out, seen);
      EmitStep(rates, symbols, k, before, out);
    }
    EmitsAll(rates, symbols, out);
  }

  lemma {:induction false} UngroupedSymbols(rates: seq<Rate>, groups: map<string, seq<Rate>>, symbols: seq<string>)
    requires Grouped(groups, rates) && forall t :: t in symbols <==> t in groups.Keys
    ensures forall t :: t !in symbols ==> Group(rates, t) == []
    ensures forall k :: 0 <= k < |symbols| ==> symbols[k] in groups && groups[symbols[k]] == Group(rates, symbols[k])
  {
    forall t | t !in symbols ensures Group(rates, t) == [] {
      assert At(groups, t) == [];
    }
    forall k | 0 <= k < |symbols| ensures symbols[k] in groups && groups[symbols[k]] == Group(rates, symbols[k]) {
      assert symbols[k] in symbols && At(groups, symbols[k]) == groups[symbols[k]];
    }
  }

  /** One spread for each emitted pair. */
  method SpreadsOf(emissions: seq<Emission>) returns (spreads: seq<Spread>)
    requires forall i :: 0 <= i < |emissions| ==>
               emissions[i].first.intervalHours > 0.0 && emissions[i].second.intervalHours > 0.0
    ensures Realises(spreads, emissions)
  {
    spreads := [];
    for i := 0 to |emissions|
      invariant |spreads| == i
      invariant forall k :: 0 <= k < i ==>
                  spreads[k] == BuildSpread(emissions[k].symbol, emissions[k].first, emissions[k].second)
    {
      spreads := spreads + [BuildSpread(emissions[i].symbol, emissions[i].first, emissions[i].second)];
    }
  }

  method BuildSpreads(rates: seq<Rate>) returns (spreads: seq<Spread>)
    ensures exists out :: Emits(rates, out) && Realises(spreads, out)
  {
    var emissions := EmitPairs(rates);
    OffersAreUsable(rates, emissions);
    spreads := SpreadsOf(emissions);
  }

  lemma {:induction false} OffersAreUsable(rates: seq<Rate>, out: seq<Emission>)
    requires Emits(rates, out)
    ensures forall e :: e in out ==>
              e.first in rates && e.second in rates && Usable(e.first) && Usable(e.second)
              && PairableRates(e.first, e.second)
  {
    forall e | e in out ensures e.first in rates && e.second in rates && Usable(e.first) && Usable(e.second)
                                && PairableRates(e.first, e.second) {
      assert e.first in Representatives(rates, e.symbol) && e.second in Representatives(rates, e.symbol);
      RepresentativesAreOnePerExchange(rates, e.symbol, e.first);
      RepresentativesAreOnePerExchange(rates, e.symbol, e.second);
      GroupContents(rates, e.symbol, e.first);
      GroupContents(rates, e.symbol, e.second);
    }
  }

  /* Against the naive definition. */

  predicate DistinctIdentities(rates: seq<Rate>) {
    forall i, j :: 0 <= i < j < |rates| ==> !SameIdentity(rates[i], rates[j])
  }

  /** No exchange has two usable rates under one pairing symbol. */
  predicate OnePerExchangeAndSymbol(rates: seq<Rate>) {
    forall i, j :: 0 <= i < j < |rates| && Usable(rates[i]) && Usable(rates[j]) && rates[i].exchange == rates[j].exchange
      ==> forall t :: t in PairingSymbols(rates[i]) ==> t !in PairingSymbols(rates[j])
  }

  predicate WellFormedRates(rates: seq<Rate>) {
    DistinctIdentities(rates) && OnePerExchangeAndSymbol(rates) && forall r :: r in rates ==> WellFormed(r)
  }

  predicate IsPair(e: Emission, a: Rate, b: Rate) {
    (e.first == a && e.second == b) || (e.first == b && e.second == a)
  }

  lemma {:induction false} IdentityDetermines(rates: seq<Rate>, a: Rate, b: Rate)
    requires DistinctIdentities(rates) && a in rates && b in rates && SameIdentity(a, b)
    ensures a == b
  {
    var i :| 0 <= i < |rates| && rates[i] == a;
    var j :| 0 <= j < |rates| && rates[j] == b;
    assert i == j;
  }

  /** With one rate per exchange and symbol, every rate of a group represents its exchange. */
  lemma {:induction false} EveryRateRepresents(rates: seq<Rate>, symbol: string, r: Rate)
    requires OnePerExchangeAndSymbol(rates) && r in rates && Usable(r) && symbol in PairingSymbols(r)
    ensures r in Representatives(rates, symbol)
  {
    GroupContents(rates, symbol, r);
    var u := RepresentativeIsLeast(rates, symbol, r);
    RepresentativesAreOnePerExchange(rates, symbol, u);
    GroupContents(rates, symbol, u);
    SameExchangeIsSameRate(rates, symbol, r, u);
  }

  lemma {:induction false} SameExchangeIsSameRate(rates: seq<Rate>, symbol: string, r: Rate, u: Rate)
    requires OnePerExchangeAndSymbol(rates) && r in rates && u in rates && Usable(r) && Usable(u)
    requires r.exchange == u.exchange && symbol in PairingSymbols(r) && symbol in PairingSymbols(u)
    ensures r == u
  {
    var i :| 0 <= i < |rates| && rates[i] == r;
    var j :| 0 <= j < |rates| && rates[j] == u;
    assert i == j;
  }

  lemma {:induction false} PairIsCovered(rates: seq<Rate>, out: seq<Emission>, a: Rate, b: Rate)
    requires WellFormedRates(rates) && Emits(rates, out) && a in rates && b in rates && Usable(a) && Usable(b)
    requires PairableRates(a, b)
    ensures SpreadKey(a, b) in Keys(out)
  {
    var symbol := PairableShareSymbol(a, b);
    EveryRateRepresents(rates, symbol, a);
    EveryRateRepresents(rates, symbol, b);
    CoveredPair(Representatives(rates, symbol), Keys(out), a, b);
  }

  lemma {:induction false} CoveredPair(reps: seq<Rate>, keys: set<string>, a: Rate, b: Rate)
    requires CoveredBy(reps, keys) && a in reps && b in reps && PairableRates(a, b)
    ensures SpreadKey(a, b) in keys
  {
    var i :| 0 <= i < |reps| && reps[i] == a;
    var j :| 0 <= j < |reps| && reps[j] == b;
    PairableIsSymmetric(a, b);
    SpreadKeyIsSymmetric(a, b);
    assert i < j || j < i;
  }

  lemma {:induction false} KeyIdentifiesPair(rates: seq<Rate>, e: Emission, a: Rate, b: Rate)
    requires WellFormedRates(rates) && e.first in rates && e.second in rates && a in rates && b in rates
    requires KeyOf(e) == SpreadKey(a, b)
    ensures IsPair(e, a, b)
  {
    SpreadKeyIsInjective(e.first, e.second, a, b);
    if SameIdentity(e.first, a) && SameIdentity(e.second, b) {
      IdentityDetermines(rates, e.first, a);
      IdentityDetermines(rates, e.second, b);
    } else {
      IdentityDetermines(rates, e.first, b);
      IdentityDetermines(rates, e.second, a);
    }
  }

  /** For well-formed rates each pairable pair is emitted exactly once. */
  lemma {:induction false} EachPairExactlyOnce(rates: seq<Rate>, out: seq<Emission>, a: Rate, b: Rate) returns (i: nat)
    requires WellFormedRates(rates) && Emits(rates, out) && a in rates && b in rates && Usable(a) && Usable(b)
    requires PairableRates(a, b)
    ensures i < |out| && IsPair(out[i], a, b)
    ensures forall j :: 0 <= j < |out| && j != i ==> !IsPair(out[j], a, b)
  {
    PairIsCovered(rates, out, a, b);
    i := EmissionOfKey(out, SpreadKey(a, b));
    OffersAreUsable(rates, out);
    KeyIdentifiesPair(rates, out[i], a, b);
    forall j | 0 <= j < |out| && j != i ensures !IsPair(out[j], a, b) {
      PairHasKey(out[j], a, b);
    }
  }

  lemma {:induction false} EmissionOfKey(out: seq<Emission>, key: string) returns (i: nat)
    requires DistinctKeys(out) && key in Keys(out)
    ensures i < |out| && KeyOf(out[i]) == key
    ensures forall j :: 0 <= j < |out| && j != i ==> KeyOf(out[j]) != key
  {
    var e :| e in out && KeyOf(e) == key;
    i :| 0 <= i < |out| && out[i] == e;
  }

  lemma PairHasKey(e: Emission, a: Rate, b: Rate)
    ensures IsPair(e, a, b) ==> KeyOf(e) == SpreadKey(a, b)
  {
    SpreadKeyIsSymmetric(a, b);
  }

  /** And nothing else is emitted. */
  lemma {:induction false} OnlyPairablePairs(rates: seq<Rate>, out: seq<Emission>, e: Emission)
    requires Emits(rates, out) && e in out
    ensures e.first in rates && e.second in rates && Usable(e.first) && Usable(e.second)
    ensures PairableRates(e.first, e.second)
  {
    OffersAreUsable(rates, out);
  }
}
