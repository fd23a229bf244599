/** The listing resolver: evidence is collected from every venue's catalogue, and an instrument is
    given a listing only when nothing known about it contradicts that listing. Texts are already
    normalised; index constituents, annotations and contract keys are given as already parsed. */
module ListingIdentity {
  import opened Common
  import opened ListingClaims

  datatype AssetClass = Stock | Etf | Fx | Commodity | TradfiUnclassified | Unknown | OtherClass

  datatype PricePolicy = Same | StablecoinParity | Forbid

  datatype Reference = Reference(
    assetClass: AssetClass, symbol: string, region: string, currency: string, nativeCurrency: string,
    quote: string, settlement: string, priceCurrency: string, fxBase: string, fxQuote: string,
    multiplier: real, fullName: string, source: string,
    preMarket: bool, rewritten: bool, dollarConverted: bool, policy: PricePolicy)

  const BLANK := Reference(OtherClass, "", "", "", "", "", "", "", "", "", 0.0, "", "", false, false, false, Forbid)

  datatype Status = Ok | NoRows | Failed | Conflict | OtherStatus

  /** A listing that a constituent's symbol spells out. */
  type Native = id: Listing | !Empty(id) witness Listing("1", "HK", "HKD")

  /** One index constituent: the listing it spells, and the contract it points to. */
  datatype Row = Row(native: Option<Native>, edge: Option<string>)

  datatype Evidence = Evidence(status: Status, rows: seq<Row>)

  /** `annotations` are the listings implied by the venue's keywords and display name;
      `contracts` are the keys under which an explicit edge would be found. */
  datatype Instrument = Instrument(
    exchange: string, exchangeSymbol: string, baseAsset: string, quoteAsset: string,
    underlying: Reference, evidence: Option<Evidence>, annotations: seq<Listing>,
    contracts: seq<string>, listedFxPair: bool, bitgetStock: bool)

  function Parity(price: string, currency: string): PricePolicy {
    if price == "" || currency == "" then Forbid
    else if price == currency then Same
    else if Stablecoin(price) && Stablecoin(currency) then StablecoinParity
    else Forbid
  }

  predicate Stablecoin(currency: string) {
    currency == "USD" || currency == "USDT" || currency == "USDC"
  }

  function Normalized(ref: Reference): Reference {
    var price := if ref.priceCurrency == "" && ref.dollarConverted then "USD" else ref.priceCurrency;
    ref.(multiplier := if ref.multiplier <= 0.0 then 1.0 else ref.multiplier, policy := Parity(price, ref.currency))
  }

  /** The reference has a broker query. */
  predicate Routable(ref: Reference) {
    && !ref.preMarket && !ref.rewritten && ref.symbol != ""
    && match ref.assetClass {
         case Stock => ref.currency != ""
         case Etf => ref.currency != ""
         case Fx => ref.fxBase != "" && ref.fxQuote != ""
         case Commodity => ref.symbol != "GOLD" && ref.symbol != "SILVER"
         case _ => false
       }
  }

  function DirectListing(ref: Reference): Option<Listing> {
    if !Routable(ref) || !(ref.assetClass.Stock? || ref.assetClass.Etf?) then None
    else
      var currency := if ref.currency == "" then ref.nativeCurrency else ref.currency;
      var region := if ref.region == "" && currency == "USD" then "US" else ref.region;
      var id := Listing(ref.symbol, region, currency);
      if Empty(id) then None else Some(id)
  }

  predicate Eligible(ref: Reference) {
    (ref.assetClass.Stock? || ref.assetClass.Etf? || ref.assetClass.TradfiUnclassified?) && !ref.preMarket
  }

  function UnknownIdentity(symbol: string, source: string): Reference {
    BLANK.(assetClass := Unknown, symbol := symbol, source := source)
  }

  function SetUnderlying(item: Instrument, ref: Reference): Instrument {
    item.(underlying := Normalized(ref))
  }

  function Conflicted(item: Instrument): Instrument {
    SetUnderlying(item, UnknownIdentity(item.baseAsset, "identity.conflict"))
  }

  function ApplyListing(item: Instrument, id: Listing, source: string): Reference {
    var was := item.underlying;
    var quote := if item.quoteAsset == "" then was.quote else item.quoteAsset;
    var price := if was.priceCurrency == "" && (id.region == "US" || was.dollarConverted) then "USD" else was.priceCurrency;
    Normalized(Reference(
      Stock, id.symbol, id.region, id.currency, id.currency, quote, quote, price, "", "",
      1.0, was.fullName, source, false, false, was.dollarConverted, Forbid))
  }

  /** A listing that was applied is read back unchanged. */
  lemma AppliedIsReadBack(item: Instrument, id: Listing, source: string)
    requires !Empty(id)
    ensures DirectListing(ApplyListing(item, id, source)) == Some(id)
    ensures Routable(ApplyListing(item, id, source))
    ensures Normalized(ApplyListing(item, id, source)) == ApplyListing(item, id, source)
  {
  }

  function RejectAnnotationConflict(item: Instrument): Instrument {
    var id := DirectListing(item.underlying);
    if id.Some? && exists a :: a in item.annotations && a != id.value
    then SetUnderlying(item, UnknownIdentity(item.baseAsset, "identity.annotation_conflict"))
    else item
  }

  /** The distinct native listings of the rows, in order of first appearance. */
  function Natives(rows: seq<Row>): seq<Native> {
    if rows == [] then []
    else
      var before := Natives(rows[..|rows| - 1]);
      var native := rows[|rows| - 1].native;
      if native.None? || native.value in before then before else before + [native.value]
  }

  function OwnNatives(item: Instrument): seq<Native> {
    if item.evidence.Some? && item.evidence.value.status.Ok? then Natives(item.evidence.value.rows) else []
  }

  type Edges = map<string, Native>

  function EdgeAt(item: Instrument, edges: Edges): Option<Listing> {
    EdgeAmong(item.exchange, item.contracts, edges)
  }

  function EdgeAmong(exchange: string, contracts: seq<string>, edges: Edges): Option<Listing> {
    if contracts == [] then None
    else if exchange + "|" + contracts[0] in edges then Some(edges[exchange + "|" + contracts[0]])
    else EdgeAmong(exchange, contracts[1..], edges)
  }

  predicate AllowsEdge(item: Instrument) {
    && (item.underlying.assetClass.Stock? || item.underlying.assetClass.Etf?)
    && (item.exchange == "bitget" ==> item.bitgetStock)
  }

  function AllowedEdge(item: Instrument, edges: Edges): Option<Listing> {
    if AllowsEdge(item) then EdgeAt(item, edges) else None
  }

  /** The resolver's verdict on one instrument, given what the claim book agreed on. */
  function Resolve(item: Instrument, agreed: Option<Listing>, edges: Edges, previous: Reference): Instrument {
    if !Eligible(item.underlying) then item
    else if item.evidence.Some? && item.evidence.value.status.Failed? && Routable(previous) then
      RejectAnnotationConflict(SetUnderlying(item, previous))
    else if item.evidence.Some? && item.evidence.value.status.Conflict? then Conflicted(item)
    else
      var natives := OwnNatives(item);
      if |natives| > 1 then Conflicted(item)
      else Choose(item, if |natives| == 1 then Some(natives[0]) else None, AllowedEdge(item, edges), agreed, previous)
  }

  function Choose(item: Instrument, own: Option<Listing>, edge: Option<Listing>, agreed: Option<Listing>,
                  previous: Reference): Instrument
  {
    if own.Some? && edge.Some? && own != edge then Conflicted(item)
    else if own.Some? then Assign(item, own.value, item.exchange + ".index_constituents", previous)
    else if edge.Some? then Assign(item, edge.value, "identity.explicit_edge", previous)
    else if agreed.Some? then Assign(item, agreed.value, "identity.two_sources", previous)
    else item
  }

  function Assign(item: Instrument, chosen: Listing, source: string, previous: Reference): Instrument {
    var current := DirectListing(item.underlying);
    var prior := DirectListing(previous);
    if current.Some? && current.value != chosen then Conflicted(item)
    else if prior.Some? && prior.value != chosen then Conflicted(item)
    else RejectAnnotationConflict(SetUnderlying(item, ApplyListing(item, chosen, source)))
  }

  /* What is known about an instrument. */

  function Known(id: Option<Listing>): set<Listing> {
    if id.Some? then {id.value} else {}
  }

  /** The listings named by the instrument's present and previous identity and by its annotations. */
  function Standing(item: Instrument, previous: Reference): set<Listing> {
    Known(DirectListing(item.underlying)) + Known(DirectListing(previous)) + set id | id in item.annotations
  }

  /** Every listing that something known about the instrument names. */
  function Witnesses(item: Instrument, edges: Edges, previous: Reference): set<Listing> {
    (set id: Listing | id in OwnNatives(item)) + Known(AllowedEdge(item, edges)) + Standing(item, previous)
  }

  /** The listing that the evidence proposes: the instrument's own, else an edge, else the agreed one. */
  function Proposed(item: Instrument, agreed: Option<Listing>, edges: Edges): Option<Listing> {
    if |OwnNatives(item)| >= 1 then Some(OwnNatives(item)[0])
    else if AllowedEdge(item, edges).Some? then AllowedEdge(item, edges)
    else agreed
  }

  /** The instrument's evidence is weighed at all. */
  predicate Weighed(item: Instrument, previous: Reference) {
    && Eligible(item.underlying)
    && (item.evidence.Some? ==> !item.evidence.value.status.Conflict?
                                && (item.evidence.value.status.Failed? ==> !Routable(previous)))
  }

  predicate Assigned(item: Instrument, id: Listing, r: Instrument) {
    DirectListing(r.underlying) == Some(id) && Routable(r.underlying) && r == item.(underlying := r.underlying)
  }

  /** An unroutable identity that names nothing but the venue's own symbol. */
  predicate Rejected(item: Instrument, r: Instrument) {
    r.underlying.assetClass.Unknown? && !Routable(r.underlying) && r == item.(underlying := r.underlying)
  }

  lemma AnnotationsDecide(item: Instrument, id: Listing)
    requires DirectListing(item.underlying) == Some(id)
    ensures (forall a :: a in item.annotations ==> a == id) ==> RejectAnnotationConflict(item) == item
    ensures (exists a :: a in item.annotations && a != id) ==> Rejected(item, RejectAnnotationConflict(item))
  {
  }

  lemma AssignExactlyWhenUncontradicted(item: Instrument, chosen: Listing, source: string, previous: Reference)
    requires !Empty(chosen)
    ensures Standing(item, previous) <= {chosen} ==> Assigned(item, chosen, Assign(item, chosen, source, previous))
    ensures !(Standing(item, previous) <= {chosen}) ==> Rejected(item, Assign(item, chosen, source, previous))
  {
    AppliedIsReadBack(item, chosen, source);
    var next := SetUnderlying(item, ApplyListing(item, chosen, source));
    AnnotationsDecide(next, chosen);
    assert forall a :: a in item.annotations ==> a in Standing(item, previous);
    assert Known(DirectListing(item.underlying)) + Known(DirectListing(previous)) <= Standing(item, previous);
  }

  lemma {:induction false} NativesAreDistinct(rows: seq<Row>)
    ensures forall i, j :: 0 <= i < j < |Natives(rows)| ==> Natives(rows)[i] != Natives(rows)[j]
  {
    if rows != [] {
      NativesAreDistinct(rows[..|rows| - 1]);
    }
  }

  lemma SingleNative(natives: seq<Native>)
    requires |natives| <= 1
    ensures (set id: Listing | id in natives) == if |natives| == 1 then {natives[0]} else {}
  {
  }

  lemma ChooseExactlyWhenUncontradicted(
    item: Instrument, own: Option<Listing>, edge: Option<Listing>, agreed: Option<Listing>, previous: Reference, id: Listing)
    requires !Empty(id) && Some(id) == if own.Some? then own else if edge.Some? then edge else agreed
    ensures Known(own) + Known(edge) + Standing(item, previous) <= {id}
            ==> Assigned(item, id, Choose(item, own, edge, agreed, previous))
    ensures !(Known(own) + Known(edge) + Standing(item, previous) <= {id})
            ==> Rejected(item, Choose(item, own, edge, agreed, previous))
  {
    var source := if own.Some? then item.exchange + ".index_constituents"
                  else if edge.Some? then "identity.explicit_edge" else "identity.two_sources";
    AssignExactlyWhenUncontradicted(item, id, source, previous);
    if own.Some? && edge.Some? && own != edge {
      assert edge.value in Known(edge);
    } else {
      assert Known(own) + Known(edge) <= {id};
    }
  }

  /** The resolver assigns the proposed listing exactly when every witness names it; otherwise the
      identity becomes unroutable. */
  lemma AssignedExactlyWhenEveryWitnessAgrees(
    item: Instrument, agreed: Option<Listing>, edges: Edges, previous: Reference, id: Listing)
    requires Weighed(item, previous) && Proposed(item, agreed, edges) == Some(id) && !Empty(id)
    ensures Witnesses(item, edges, previous) <= {id} ==> Assigned(item, id, Resolve(item, agreed, edges, previous))
    ensures !(Witnesses(item, edges, previous) <= {id}) ==> Rejected(item, Resolve(item, agreed, edges, previous))
  {
    var natives := OwnNatives(item);
    if |natives| > 1 {
      NativesAreDistinct(item.evidence.value.rows);
      assert natives[0] in Witnesses(item, edges, previous) && natives[1] in Witnesses(item, edges, previous);
    } else {
      var own := if |natives| == 1 then Some(natives[0]) else None;
      SingleNative(natives);
      ChooseExactlyWhenUncontradicted(item, own, AllowedEdge(item, edges), agreed, previous, id);
    }
  }

  /** An ineligible instrument, and one for which nothing is proposed, is returned untouched. */
  lemma UntouchedOtherwise(item: Instrument, agreed: Option<Listing>, edges: Edges, previous: Reference)
    requires !Eligible(item.underlying) || (Weighed(item, previous) && Proposed(item, agreed, edges).None?)
    ensures Resolve(item, agreed, edges, previous) == item
  {
  }

  /** Constituents that conflict among themselves always give an unroutable identity. */
  lemma ConflictIsRejected(item: Instrument, agreed: Option<Listing>, edges: Edges, previous: Reference)
    requires Eligible(item.underlying) && item.evidence.Some?
    requires item.evidence.value.status.Conflict? || |OwnNatives(item)| > 1
    ensures Rejected(item, Resolve(item, agreed, edges, previous))
  {
  }

  /** A failed request keeps the routable previous identity, unless an annotation contradicts its listing. */
  lemma FailedRequestKeepsPrevious(item: Instrument, agreed: Option<Listing>, edges: Edges, previous: Reference)
    requires Eligible(item.underlying) && item.evidence.Some? && item.evidence.value.status.Failed? && Routable(previous)
    ensures KeptPrevious(item, previous, Resolve(item, agreed, edges, previous))
  {
    var kept := SetUnderlying(item, previous);
    assert DirectListing(kept.underlying) == DirectListing(previous);
    if DirectListing(previous).Some? {
      AnnotationsDecide(kept, DirectListing(previous).value);
    }
  }

  predicate KeptPrevious(item: Instrument, previous: Reference, r: Instrument) {
    if DirectListing(previous).Some? && exists a :: a in item.annotations && a != DirectListing(previous).value
    then Rejected(item, r)
    else r == item.(underlying := Normalized(previous)) && Routable(r.underlying)
         && DirectListing(r.underlying) == DirectListing(previous)
  }

  /* Evidence collected from a catalogue. */

  function Claimed(item: Instrument, id: Listing): seq<Claim> {
    if id.symbol == item.baseAsset then [Claim(item.baseAsset, item.exchange, id)]
    else [Claim(item.baseAsset, item.exchange, id), Claim(id.symbol, item.exchange, id)]
  }

  function ClaimsOf(item: Instrument): seq<Claim> {
    var direct := DirectListing(item.underlying);
    var natives := OwnNatives(item);
    (if direct.Some? then Claimed(item, direct.value) else [])
    + if |natives| == 1 then Claimed(item, natives[0]) else []
  }

  function CatalogueClaims(items: seq<Instrument>): seq<Claim> {
    if items == [] then [] else CatalogueClaims(items[..|items| - 1]) + ClaimsOf(items[|items| - 1])
  }

  lemma {:induction false} CatalogueClaimsContents(items: seq<Instrument>, c: Claim)
    ensures c in CatalogueClaims(items) <==> exists item :: item in items && c in ClaimsOf(item)
  {
    if items != [] {
      var front, last := items[..|items| - 1], items[|items| - 1];
      assert items == front + [last];
      CatalogueClaimsContents(front, c);
    }
  }

  /** The claim book of a catalogue does not depend on the order of its instruments. */
  lemma {:induction false} CatalogueOrderIsIrrelevant(a: seq<Instrument>, b: seq<Instrument>)
    requires forall item :: item in a <==> item in b
    ensures Collected(CatalogueClaims(a)) == Collected(CatalogueClaims(b))
  {
    forall c ensures c in CatalogueClaims(a) <==> c in CatalogueClaims(b) {
      CatalogueClaimsContents(a, c);
      CatalogueClaimsContents(b, c);
    }
    BookIgnoresOrder(CatalogueClaims(a), CatalogueClaims(b));
  }

  /* Explicit edges: the last write of a contract wins. */

  datatype Write = Write(contract: string, id: Native)

  function RowWrites(rows: seq<Row>, id: Native): seq<Write> {
    if rows == [] then []
    else
      var before := RowWrites(rows[..|rows| - 1], id);
      var edge := rows[|rows| - 1].edge;
      if edge.Some? then before + [Write(edge.value, id)] else before
  }

  function WritesOf(item: Instrument): seq<Write> {
    if |OwnNatives(item)| == 1 then RowWrites(item.evidence.value.rows, OwnNatives(item)[0]) else []
  }

  function CatalogueWrites(items: seq<Instrument>): seq<Write> {
    if items == [] then [] else CatalogueWrites(items[..|items| - 1]) + WritesOf(items[|items| - 1])
  }

  function EdgesOf(writes: seq<Write>): Edges {
    if writes == [] then map[]
    else EdgesOf(writes[..|writes| - 1])[writes[|writes| - 1].contract := writes[|writes| - 1].id]
  }

  ghost predicate SingleValued(writes: seq<Write>) {
    forall v, w :: v in writes && w in writes && v.contract == w.contract ==> v.id == w.id
  }

  lemma {:induction false} EdgesContents(writes: seq<Write>, contract: string)
    ensures contract in EdgesOf(writes) ==> Write(contract, EdgesOf(writes)[contract]) in writes
    ensures forall w :: w in writes ==> w.contract in EdgesOf(writes)
  {
    if writes != [] {
      var front, last := writes[..|writes| - 1], writes[|writes| - 1];
      assert writes == front + [last];
      EdgesContents(front, contract);
    }
  }

  lemma {:induction false} SingleValuedIgnoresOrder(a: seq<Write>, b: seq<Write>)
    requires SingleValued(a) && forall w :: w in a <==> w in b
    ensures EdgesOf(a) == EdgesOf(b)
  {
    forall k ensures k in EdgesOf(a) <==> k in EdgesOf(b)
             ensures k in EdgesOf(a) ==> EdgesOf(a)[k] == EdgesOf(b)[k]
    {
      EdgesContents(a, k);
      EdgesContents(b, k);
    }
  }

  lemma {:induction false} RowWritesNameOne(rows: seq<Row>, id: Native, w: Write)
    requires w in RowWrites(rows, id)
    ensures w.id == id
  {
    var front := RowWrites(rows[..|rows| - 1], id);
    if w in front {
      RowWritesNameOne(rows[..|rows| - 1], id, w);
    }
  }

  /** All writes of one instrument name its one native listing. */
  lemma {:induction false} WritesNameOne(item: Instrument, v: Write, w: Write)
    requires v in WritesOf(item) && w in WritesOf(item)
    ensures v.id == w.id
  {
    RowWritesNameOne(item.evidence.value.rows, OwnNatives(item)[0], v);
    RowWritesNameOne(item.evidence.value.rows, OwnNatives(item)[0], w);
  }

  lemma {:induction false} CatalogueWritesContents(items: seq<Instrument>, w: Write)
    ensures w in CatalogueWrites(items) <==> exists item :: item in items && w in WritesOf(item)
  {
    if items != [] {
      var front, last := items[..|items| - 1], items[|items| - 1];
      assert items == front + [last];
      CatalogueWritesContents(front, w);
    }
  }

  /** Later writes decide; earlier ones do not matter for a contract written again. */
  lemma {:induction false} LaterWritesDecide(before: seq<Write>, later: seq<Write>, contract: string)
    requires exists w :: w in later && w.contract == contract
    ensures contract in EdgesOf(before + later) && Write(contract, EdgesOf(before + later)[contract]) in later
  {
    var front, last := later[..|later| - 1], later[|later| - 1];
    assert (before + later)[..|before + later| - 1] == before + front;
    if last.contract != contract {
      assert exists w :: w in front && w.contract == contract by {
        var w :| w in later && w.contract == contract;
        assert later == front + [last];
      }
      LaterWritesDecide(before, front, contract);
    } else {
      assert Write(contract, last.id) == last;
    }
  }

  /** The catalogue with one instrument moved to the end. */
  function MovedLast(items: seq<Instrument>, i: nat): seq<Instrument>
    requires i < |items|
  {
    items[..i] + items[i + 1..] + [items[i]]
  }

  lemma {:induction false} MovedLastWins(items: seq<Instrument>, i: nat, w: Write)
    requires i < |items| && w in WritesOf(items[i])
    ensures multiset(MovedLast(items, i)) == multiset(items)
    ensures w.contract in EdgesOf(CatalogueWrites(MovedLast(items, i)))
    ensures EdgesOf(CatalogueWrites(MovedLast(items, i)))[w.contract] == w.id
  {
    var rest, moved := items[..i] + items[i + 1..], MovedLast(items, i);
    assert items == items[..i] + [items[i]] + items[i + 1..];
    assert moved[..|moved| - 1] == rest;
    LaterWritesDecide(CatalogueWrites(rest), WritesOf(items[i]), w.contract);
    WritesNameOne(items[i], w, Write(w.contract, EdgesOf(CatalogueWrites(moved))[w.contract]));
  }

  lemma {:induction false} SameItemsSameEdges(a: seq<Instrument>, b: seq<Instrument>)
    requires SingleValued(CatalogueWrites(a)) && forall item :: item in a <==> item in b
    ensures EdgesOf(CatalogueWrites(a)) == EdgesOf(CatalogueWrites(b))
  {
    forall w ensures w in CatalogueWrites(a) <==> w in CatalogueWrites(b) {
      CatalogueWritesContents(a, w);
      CatalogueWritesContents(b, w);
    }
    SingleValuedIgnoresOrder(CatalogueWrites(a), CatalogueWrites(b));
  }

  lemma {:induction false} WriterOf(items: seq<Instrument>, w: Write) returns (i: nat)
    requires w in CatalogueWrites(items)
    ensures i < |items| && w in WritesOf(items[i])
  {
    CatalogueWritesContents(items, w);
    var item :| item in items && w in WritesOf(item);
    i :| 0 <= i < |items| && items[i] == item;
  }

  /** The edges are the same for every order of the instruments exactly when no contract is given two listings. */
  lemma {:induction false} EdgesIgnoreOrderExactlyWhenSingleValued(a: seq<Instrument>)
    ensures SingleValued(CatalogueWrites(a)) <==>
            forall b :: multiset(b) == multiset(a) ==> EdgesOf(CatalogueWrites(b)) == EdgesOf(CatalogueWrites(a))
  {
    if SingleValued(CatalogueWrites(a)) {
      forall b | multiset(b) == multiset(a) ensures EdgesOf(CatalogueWrites(b)) == EdgesOf(CatalogueWrites(a)) {
        assert forall item :: item in a <==> item in multiset(a);
        assert forall item :: item in b <==> item in multiset(b);
        SameItemsSameEdges(a, b);
      }
    } else {
      var v, w :| v in CatalogueWrites(a) && w in CatalogueWrites(a) && v.contract == w.contract && v.id != w.id;
      var i := WriterOf(a, v);
      var j := WriterOf(a, w);
      MovedLastWins(a, i, v);
      MovedLastWins(a, j, w);
      assert EdgesOf(CatalogueWrites(MovedLast(a, i))) != EdgesOf(CatalogueWrites(MovedLast(a, j)));
    }
  }

  /** An instrument whose one constituent spells the listing and points to the contract. */
  function Pointing(id: Native, contract: string): Instrument {
    Instrument("", "", "", "", BLANK, Some(Evidence(Status.Ok, [Row(Some(id), Some(contract))])), [], [], false, false)
  }

  lemma {:induction false} PointingWrites(id: Native, contract: string)
    ensures WritesOf(Pointing(id, contract)) == [Write(contract, id)]
  {
    var rows := [Row(Some(id), Some(contract))];
    assert rows[..0] == [] && Natives(rows[..0]) == [];
    assert Natives(rows) == [id];
    assert RowWrites(rows[..0], id) == [];
  }

  lemma {:induction false} LastPointingWins(a: Native, b: Native, contract: string)
    ensures var items := [Pointing(a, contract), Pointing(b, contract)];
            && CatalogueWrites(items) == [Write(contract, a), Write(contract, b)]
            && EdgesOf(CatalogueWrites(items)) == map[contract := b]
  {
    var items := [Pointing(a, contract), Pointing(b, contract)];
    PointingWrites(a, contract);
    PointingWrites(b, contract);
    assert items[..1] == [Pointing(a, contract)] && items[..1][..0] == [];
    assert CatalogueWrites(items[..1]) == [Write(contract, a)];
    assert CatalogueWrites(items)[..1] == [Write(contract, a)];
    assert EdgesOf([Write(contract, a)]) == map[contract := a];
  }

  /** Any two listings under one contract make a catalogue whose edge is decided by the order. */
  lemma {:induction false} OrderCanDecide(a: Native, b: Native, contract: string)
    requires a != b
    ensures var items, swapped := [Pointing(a, contract), Pointing(b, contract)], [Pointing(b, contract), Pointing(a, contract)];
            && multiset(items) == multiset(swapped) && !SingleValued(CatalogueWrites(items))
            && EdgesOf(CatalogueWrites(items)) == map[contract := b] && EdgesOf(CatalogueWrites(swapped)) == map[contract := a]
  {
    LastPointingWins(a, b, contract);
    LastPointingWins(b, a, contract);
    var writes := [Write(contract, a), Write(contract, b)];
    assert writes[0] in writes && writes[1] in writes;
  }

  /* The whole pass over the staged catalogues. */

  predicate HasSuffix(text: string, suffix: string) {
    |text| >= |suffix| && text[|text| - |suffix|..] == suffix
  }

  function Trimmed(symbol: string, suffixes: seq<string>): seq<string> {
    if suffixes == [] then []
    else if HasSuffix(symbol, suffixes[0]) && |symbol| > |suffixes[0]| then [symbol[..|symbol| - |suffixes[0]|]]
    else Trimmed(symbol, suffixes[1..])
  }

  function CandidateKeys(item: Instrument): seq<string> {
    if item.baseAsset == "" then []
    else if item.listedFxPair then [item.baseAsset]
    else [item.baseAsset] + Trimmed(item.baseAsset, ["USD1", "USDT", "USDC", "USD"])
  }

  function InstrumentKey(item: Instrument): string {
    item.exchange + "|" + item.exchangeSymbol
  }

  /** The identity last saved under a key; blank when there is none. */
  function Prior(previous: seq<Instrument>, key: string): Reference {
    if previous == [] then BLANK
    else if InstrumentKey(previous[|previous| - 1]) == key then previous[|previous| - 1].underlying
    else Prior(previous[..|previous| - 1], key)
  }

  lemma CollectedAppend(claims: seq<Claim>, c: Claim)
    ensures Collected(claims + [c]) == Added(Collected(claims), c)
  {
    assert (claims + [c])[..|claims|] == claims;
  }

  lemma {:induction false} CollectedNamesListings(claims: seq<Claim>)
    ensures NamesListings(Collected(claims))
  {
    if claims != [] {
      CollectedNamesListings(claims[..|claims| - 1]);
    }
  }

  method AddListingClaims(book: ClaimBook, item: Instrument, id: Listing, ghost before: seq<Claim>)
    requires book.View() == Collected(before)
    modifies book
    ensures book.View() == Collected(before + Claimed(item, id))
  {
    book.Add(item.baseAsset, item.exchange, id);
    CollectedAppend(before, Claim(item.baseAsset, item.exchange, id));
    if id.symbol != item.baseAsset {
      book.Add(id.symbol, item.exchange, id);
      CollectedAppend(before + [Claim(item.baseAsset, item.exchange, id)], Claim(id.symbol, item.exchange, id));
      assert before + [Claim(item.baseAsset, item.exchange, id)] + [Claim(id.symbol, item.exchange, id)]
          == before + Claimed(item, id);
    }
  }

  method AddClaims(book: ClaimBook, item: Instrument, ghost before: seq<Claim>)
    requires book.View() == Collected(before)
    modifies book
    ensures book.View() == Collected(before + ClaimsOf(item))
  {
    ghost var claims := before;
    var direct := DirectListing(item.underlying);
    if direct.Some? {
      AddListingClaims(book, item, direct.value, claims);
      claims := claims + Claimed(item, direct.value);
    }
    var natives := OwnNatives(item);
    if |natives| == 1 {
      AddListingClaims(book, item, natives[0], claims);
      claims := claims + Claimed(item, natives[0]);
    }
    assert claims == before + ClaimsOf(item);
  }

  lemma EdgesAppend(before: seq<Write>, written: seq<Write>, w: Write)
    ensures EdgesOf(before + (written + [w])) == EdgesOf(before + written)[w.contract := w.id]
  {
    var next := before + (written + [w]);
    assert next[..|next| - 1] == before + written;
  }

  method AddRowEdges(edges: Edges, rows: seq<Row>, id: Native, ghost before: seq<Write>) returns (r: Edges)
    requires edges == EdgesOf(before)
    ensures r == EdgesOf(before + RowWrites(rows, id))
  {
    r := edges;
    assert before + RowWrites(rows[..0], id) == before;
    for i := 0 to |rows|
      invariant r == EdgesOf(before + RowWrites(rows[..i], id))
    {
      assert rows[..i + 1][..i] == rows[..i];
      if rows[i].edge.Some? {
        EdgesAppend(before, RowWrites(rows[..i], id), Write(rows[i].edge.value, id));
        r := r[rows[i].edge.value := id];
      }
    }
    assert rows[..|rows|] == rows;
  }

  method AddEdges(edges: Edges, item: Instrument, ghost before: seq<Write>) returns (r: Edges)
    requires edges == EdgesOf(before)
    ensures r == EdgesOf(before + WritesOf(item))
  {
    var natives := OwnNatives(item);
    if |natives| != 1 {
      assert before + WritesOf(item) == before;
      return edges;
    }
    r := AddRowEdges(edges, item.evidence.value.rows, natives[0], before);
  }

  method CollectEvidence(items: seq<Instrument>) returns (book: ClaimBook, edges: Edges)
    ensures fresh(book)
    ensures book.View() == Collected(CatalogueClaims(items))
    ensures edges == EdgesOf(CatalogueWrites(items))
  {
    book := new ClaimBook();
    edges := map[];
    for i := 0 to |items|
      invariant fresh(book)
      invariant book.View() == Collected(CatalogueClaims(items[..i]))
      invariant edges == EdgesOf(CatalogueWrites(items[..i]))
    {
      assert items[..i + 1][..i] == items[..i];
      AddClaims(book, items[i], CatalogueClaims(items[..i]));
      edges := AddEdges(edges, items[i], CatalogueWrites(items[..i]));
    }
    assert items[..|items|] == items;
  }

  /** What the claim book agrees on for each instrument. */
  ghost function AgreementsOf(claims: seq<Claim>): Instrument -> Option<Listing> {
    (item: Instrument) => Agreement(Collected(claims), CandidateKeys(item))
  }

  /** The verdict on one target of a pass. */
  ghost predicate ResolvedBy(
    target: Instrument, agreements: Instrument -> Option<Listing>, edges: Edges, previous: seq<Instrument>, r: Instrument)
  {
    r == Resolve(target, agreements(target), edges, Prior(previous, InstrumentKey(target)))
  }

  ghost predicate Resolved(target: Instrument, sources: seq<Instrument>, previous: seq<Instrument>, r: Instrument) {
    ResolvedBy(target, AgreementsOf(CatalogueClaims(sources)), EdgesOf(CatalogueWrites(sources)), previous, r)
  }

  method ResolveTarget(
    target: Instrument, book: ClaimBook, edges: Edges, previous: seq<Instrument>, ghost claims: seq<Claim>)
    returns (r: Instrument)
    requires book.View() == Collected(claims) && NamesListings(book.View())
    ensures ResolvedBy(target, AgreementsOf(claims), edges, previous, r)
  {
    var keys := CandidateKeys(target);
    var agreed := book.Agree(keys);
    AgreementIsUnique(book.View(), keys, agreed);
    r := Resolve(target, agreed, edges, Prior(previous, InstrumentKey(target)));
  }

  /** One verdict per target, in their order. */
  method ResolveAll(
    targets: seq<Instrument>, book: ClaimBook, edges: Edges, previous: seq<Instrument>, ghost claims: seq<Claim>)
    returns (result: seq<Instrument>)
    requires book.View() == Collected(claims) && NamesListings(book.View())
    ensures |result| == |targets|
    ensures forall i :: 0 <= i < |targets| ==> ResolvedBy(targets[i], AgreementsOf(claims), edges, previous, result[i])
  {
    ghost var agreements := AgreementsOf(claims);
    result := [];
    for i := 0 to |targets|
      invariant |result| == i
      invariant forall j :: 0 <= j < i ==> ResolvedBy(targets[j], agreements, edges, previous, result[j])
    {
      var item := ResolveTarget(targets[i], book, edges, previous, claims);
      result := result + [item];
    }
  }

  method ApplyIdentities(targets: seq<Instrument>, sources: seq<Instrument>, previous: seq<Instrument>)
    returns (result: seq<Instrument>)
    ensures |result| == |targets|
    ensures forall i :: 0 <= i < |targets| ==> Resolved(targets[i], sources, previous, result[i])
  {
    var book, edges := CollectEvidence(sources);
    CollectedNamesListings(CatalogueClaims(sources));
    result := ResolveAll(targets, book, edges, previous, CatalogueClaims(sources));
  }

  /** When no contract is given two listings, a whole pass does not depend on the order of the catalogues. */
  lemma {:induction false} PassIgnoresOrder(
    target: Instrument, a: seq<Instrument>, b: seq<Instrument>, previous: seq<Instrument>, r: Instrument)
    requires forall item :: item in a <==> item in b
    requires SingleValued(CatalogueWrites(a))
    ensures Resolved(target, a, previous, r) <==> Resolved(target, b, previous, r)
  {
    CatalogueOrderIsIrrelevant(a, b);
    SameItemsSameEdges(a, b);
  }

  /** With no constituent and no edge of its own, an instrument's fate rests on the agreed listing alone. */
  lemma {:induction false} ClaimedVerdict(target: Instrument, edges: Edges, prior: Reference, id: Listing)
    requires Weighed(target, prior) && OwnNatives(target) == [] && AllowedEdge(target, edges).None? && !Empty(id)
    ensures var r := Resolve(target, Some(id), edges, prior);
            if Standing(target, prior) <= {id} then Assigned(target, id, r) else Rejected(target, r)
  {
    AssignedExactlyWhenEveryWitnessAgrees(target, Some(id), edges, prior, id);
    assert Witnesses(target, edges, prior) == Standing(target, prior);
  }

  /** Such an instrument changes only when the claims under its keys are unanimous, and then it is given
      that listing unless something standing contradicts it. */
  lemma {:induction false} ClaimedListingIsUnanimous(
    target: Instrument, sources: seq<Instrument>, previous: seq<Instrument>, r: Instrument) returns (id: Listing)
    requires Resolved(target, sources, previous, r) && r != target
    requires Weighed(target, Prior(previous, InstrumentKey(target)))
    requires OwnNatives(target) == [] && AllowedEdge(target, EdgesOf(CatalogueWrites(sources))).None?
    ensures Unanimous(Kept(CatalogueClaims(sources)), CandidateKeys(target), id)
    ensures if Standing(target, Prior(previous, InstrumentKey(target))) <= {id} then Assigned(target, id, r) else Rejected(target, r)
  {
    var claims, keys := CatalogueClaims(sources), CandidateKeys(target);
    var edges, prior := EdgesOf(CatalogueWrites(sources)), Prior(previous, InstrumentKey(target));
    var agreed := Agreement(Collected(claims), keys);
    UntouchedWithoutProposal(target, agreed, edges, prior);
    id := agreed.value;
    AgreesExactlyWhenUnanimous(claims, keys, id);
    AgreedIsListing(claims, keys, id);
    ClaimedVerdict(target, edges, prior, id);
  }

  lemma UntouchedWithoutProposal(target: Instrument, agreed: Option<Listing>, edges: Edges, prior: Reference)
    requires Weighed(target, prior) && OwnNatives(target) == [] && AllowedEdge(target, edges).None?
    ensures agreed.None? ==> Resolve(target, agreed, edges, prior) == target
  {
  }

  lemma {:induction false} AgreedIsListing(claims: seq<Claim>, keys: seq<string>, id: Listing)
    requires AgreedOn(Collected(claims), keys, id)
    ensures !Empty(id)
  {
    CollectedNamesListings(claims);
    var k, s := NamedByEntry(Collected(claims), keys, id);
  }
}
