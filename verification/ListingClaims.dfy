/** The claim book: listings claimed by venues under symbol keys, and the rule by which the
    consulted keys agree on one listing. Texts are already normalised. */
module ListingClaims {
  import opened Common

  datatype Listing = Listing(symbol: string, region: string, currency: string)

  const NO_LISTING := Listing("", "", "")

  predicate Empty(id: Listing) {
    id.symbol == "" || id.region == "" || id.currency == ""
  }

  /* The claim book. */

  datatype Claim = Claim(key: string, source: string, id: Listing)

  predicate Acceptable(c: Claim) {
    c.key != "" && c.source != "" && !Empty(c.id)
  }

  /** Listings by key and source; a key with a contradicting source is poisoned. */
  datatype Book = Book(values: map<string, map<string, Listing>>, bad: set<string>)

  function Under(book: Book, key: string): map<string, Listing> {
    if key in book.values then book.values[key] else map[]
  }

  function Added(book: Book, c: Claim): Book {
    if !Acceptable(c) || c.key in book.bad then book
    else
      var sources := Under(book, c.key);
      if c.source in sources && sources[c.source] != c.id then Book(book.values - {c.key}, book.bad + {c.key})
      else book.(values := book.values[c.key := sources[c.source := c.id]])
  }

  function Collected(claims: seq<Claim>): Book {
    if claims == [] then Book(map[], {})
    else Added(Collected(claims[..|claims| - 1]), claims[|claims| - 1])
  }

  /** Some source made two different claims under the key. */
  ghost predicate Contradicted(claims: set<Claim>, key: string) {
    exists c, d :: c in claims && d in claims && c.key == key && d.key == key && c.source == d.source && c.id != d.id
  }

  /** The book that a set of claims stands for, whatever their order. */
  ghost predicate Represents(book: Book, claims: set<Claim>) {
    && (forall k :: k in book.bad <==> Contradicted(claims, k))
    && (forall c :: c in claims && c.key !in book.bad ==>
          c.source in Under(book, c.key) && Under(book, c.key)[c.source] == c.id)
    && (forall k :: k in book.values ==> k !in book.bad && book.values[k] != map[])
    && (forall k, s :: s in Under(book, k) ==> Claim(k, s, Under(book, k)[s]) in claims)
  }

  lemma RepresentsIsUnique(a: Book, b: Book, claims: set<Claim>)
    requires Represents(a, claims) && Represents(b, claims)
    ensures a == b
  {
    SameEntries(a, b, claims);
    SameEntries(b, a, claims);
    assert a.bad == b.bad;
    assert a.values.Keys == b.values.Keys;
    forall k | k in a.values ensures a.values[k] == b.values[k] {
      assert Under(a, k) == a.values[k] && Under(b, k) == b.values[k];
      assert a.values[k].Keys == b.values[k].Keys;
    }
    assert a.values == b.values;
  }

  lemma SameEntries(a: Book, b: Book, claims: set<Claim>)
    requires Represents(a, claims) && Represents(b, claims)
    ensures forall k, s :: s in Under(a, k) ==> s in Under(b, k) && Under(b, k)[s] == Under(a, k)[s]
    ensures forall k :: k in a.values ==> k in b.values
  {
    forall k, s | s in Under(a, k) ensures s in Under(b, k) && Under(b, k)[s] == Under(a, k)[s] {
      var c := Claim(k, s, Under(a, k)[s]);
      assert c in claims && k in a.values && c.key !in b.bad;
    }
    forall k | k in a.values ensures k in b.values {
      var s :| s in a.values[k];
      assert s in Under(a, k);
    }
  }

  lemma ContradictionStep(book: Book, claims: set<Claim>, c: Claim)
    requires Represents(book, claims) && Acceptable(c)
    ensures forall k :: k in Added(book, c).bad <==> Contradicted(claims + {c}, k)
  {
  }

  lemma EntriesStep(book: Book, claims: set<Claim>, c: Claim)
    requires Represents(book, claims) && Acceptable(c)
    ensures forall d :: d in claims + {c} && d.key !in Added(book, c).bad ==>
              d.source in Under(Added(book, c), d.key) && Under(Added(book, c), d.key)[d.source] == d.id
  {
  }

  lemma OriginStep(book: Book, claims: set<Claim>, c: Claim)
    requires Represents(book, claims) && Acceptable(c)
    ensures forall k, s :: s in Under(Added(book, c), k) ==> Claim(k, s, Under(Added(book, c), k)[s]) in claims + {c}
    ensures forall k :: k in Added(book, c).values ==> k !in Added(book, c).bad && Added(book, c).values[k] != map[]
  {
    var next := Added(book, c);
    forall k, s | s in Under(next, k) ensures Claim(k, s, Under(next, k)[s]) in claims + {c} {
      if k == c.key && s == c.source {
        assert Claim(k, s, Under(next, k)[s]) == c || s in Under(book, k);
      } else {
        assert s in Under(book, k);
      }
    }
  }

  lemma AddRepresents(book: Book, claims: set<Claim>, c: Claim)
    requires Represents(book, claims) && Acceptable(c)
    ensures Represents(Added(book, c), claims + {c})
  {
    ContradictionStep(book, claims, c);
    EntriesStep(book, claims, c);
    OriginStep(book, claims, c);
  }

  /** The acceptable claims of a sequence. */
  function Kept(claims: seq<Claim>): set<Claim> {
    set c | c in claims && Acceptable(c)
  }

  lemma {:induction false} CollectedRepresents(claims: seq<Claim>)
    ensures Represents(Collected(claims), Kept(claims))
  {
    if claims != [] {
      var front, last := claims[..|claims| - 1], claims[|claims| - 1];
      CollectedRepresents(front);
      assert claims == front + [last];
      if Acceptable(last) {
        AddRepresents(Collected(front), Kept(front), last);
        assert Kept(claims) == Kept(front) + {last};
      } else {
        assert Kept(claims) == Kept(front);
      }
    }
  }

  /** Two sequences of the same claims, in any order and with any repetition, give the same book. */
  lemma {:induction false} BookIgnoresOrder(a: seq<Claim>, b: seq<Claim>)
    requires Kept(a) == Kept(b)
    ensures Collected(a) == Collected(b)
  {
    CollectedRepresents(a);
    CollectedRepresents(b);
    RepresentsIsUnique(Collected(a), Collected(b), Kept(a));
  }

  /* Agreement over the consulted keys. */

  predicate Poisoned(book: Book, keys: seq<string>) {
    exists k :: k in keys && k in book.bad
  }

  function Named(book: Book, keys: seq<string>): set<Listing> {
    if keys == [] then {}
    else Named(book, keys[..|keys| - 1]) + Under(book, keys[|keys| - 1]).Values
  }

  function Venues(book: Book, keys: seq<string>): set<string> {
    if keys == [] then {}
    else Venues(book, keys[..|keys| - 1]) + Under(book, keys[|keys| - 1]).Keys
  }

  /** The one listing that the consulted keys agree on. */
  ghost predicate AgreedOn(book: Book, keys: seq<string>, id: Listing) {
    && !Poisoned(book, keys)
    && Named(book, keys) == {id}
    && |Venues(book, keys)| >= 2
  }

  /** What the consulted keys agree on, if anything. */
  ghost function Agreement(book: Book, keys: seq<string>): Option<Listing> {
    if exists id :: AgreedOn(book, keys, id) then
      var id :| AgreedOn(book, keys, id);
      Some(id)
    else None
  }

  /** The result names what the keys agree on, and nothing exactly when they agree on nothing. */
  ghost predicate IsVerdict(book: Book, keys: seq<string>, r: Option<Listing>) {
    if r.Some? then AgreedOn(book, keys, r.value) else forall id :: !AgreedOn(book, keys, id)
  }

  lemma {:induction false} AgreementIsUnique(book: Book, keys: seq<string>, r: Option<Listing>)
    requires IsVerdict(book, keys, r)
    ensures r == Agreement(book, keys)
  {
    if r.Some? {
      var id := Agreement(book, keys).value;
      assert id in {r.value};
    }
  }

  predicate NamesListings(book: Book) {
    forall k :: k in book.values ==> NoneEmpty(book.values[k])
  }

  predicate NoneEmpty(sources: map<string, Listing>) {
    forall s :: s in sources ==> !Empty(sources[s])
  }

  class ClaimBook {
    var values: map<string, map<string, Listing>>
    var bad: set<string>

    constructor ()
      ensures View() == Collected([])
    {
      values, bad := map[], {};
    }

    function View(): Book
      reads this
    {
      Book(values, bad)
    }

    method Add(key: string, source: string, id: Listing)
      modifies this
      ensures View() == Added(old(View()), Claim(key, source, id))
    {
      if key == "" || source == "" || Empty(id) || key in bad {
        return;
      }
      if key !in values {
        values := values[key := map[]];
      }
      if source in values[key] && values[key][source] != id {
        bad := bad + {key};
        values := values - {key};
        return;
      }
      values := values[key := values[key][source := id]];
    }

    /** The agreement rule, one consulted key at a time. */
    method Agree(keys: seq<string>) returns (r: Option<Listing>)
      requires NamesListings(View())
      ensures IsVerdict(View(), keys, r)
    {
      ghost var book := View();
      var sources: map<string, Listing> := map[];
      var chosen := NO_LISTING;
      for i := 0 to |keys|
        invariant Tallied(book, keys, i, sources, chosen)
      {
        if keys[i] in bad {
          return None;
        }
        var walked := Walk(Under(View(), keys[i]), sources, chosen);
        TallyStep(book, keys, i, sources, chosen, walked);
        if walked.None? {
          return None;
        }
        sources, chosen := walked.value.0, walked.value.1;
      }
      TallyDecides(book, keys, sources, chosen);
      if |sources| < 2 || Empty(chosen) {
        return None;
      }
      return Some(chosen);
    }
  }

  /** The first n consulted keys are read: none is poisoned and their claims name one listing at most. */
  ghost predicate Tallied(book: Book, keys: seq<string>, n: nat, sources: map<string, Listing>, chosen: Listing)
    requires n <= |keys|
  {
    && !Poisoned(book, keys[..n])
    && Uniform(sources, chosen)
    && sources.Keys == Venues(book, keys[..n])
    && sources.Values == Named(book, keys[..n])
  }

  lemma {:induction false} OneMoreKey(book: Book, keys: seq<string>, n: nat)
    requires n < |keys|
    ensures Named(book, keys[..n + 1]) == Named(book, keys[..n]) + Under(book, keys[n]).Values
    ensures Venues(book, keys[..n + 1]) == Venues(book, keys[..n]) + Under(book, keys[n]).Keys
    ensures Poisoned(book, keys[..n + 1]) <==> Poisoned(book, keys[..n]) || keys[n] in book.bad
  {
    assert keys[..n + 1][..n] == keys[..n];
    assert keys[..n + 1] == keys[..n] + [keys[n]];
  }

  /** Two different listings under consulted keys leave no agreement. */
  lemma {:induction false} DifferingNeverAgree(book: Book, keys: seq<string>, n: nat, id: Listing)
    requires n <= |keys| && Differ(Named(book, keys[..n]))
    ensures !AgreedOn(book, keys, id)
  {
    NamedGrows(book, keys, n);
    var x, y :| x in Named(book, keys[..n]) && y in Named(book, keys[..n]) && x != y;
    assert x in Named(book, keys) && y in Named(book, keys);
  }

  lemma {:induction false} TallyStep(
    book: Book, keys: seq<string>, n: nat, sources: map<string, Listing>, chosen: Listing,
    walked: Option<(map<string, Listing>, Listing)>)
    requires n < |keys| && Tallied(book, keys, n, sources, chosen) && keys[n] !in book.bad
    requires WalkedOver(Under(book, keys[n]), sources, walked)
    ensures walked.Some? ==> Tallied(book, keys, n + 1, walked.value.0, walked.value.1)
    ensures walked.None? ==> IsVerdict(book, keys, None)
  {
    OneMoreKey(book, keys, n);
    if walked.None? {
      forall id ensures !AgreedOn(book, keys, id) {
        DifferingNeverAgree(book, keys, n + 1, id);
      }
    }
  }

  lemma {:induction false} TallyDecides(book: Book, keys: seq<string>, sources: map<string, Listing>, chosen: Listing)
    requires Tallied(book, keys, |keys|, sources, chosen)
    ensures IsVerdict(book, keys, if |sources| < 2 || Empty(chosen) then None else Some(chosen))
  {
    assert keys[..|keys|] == keys;
    assert |sources| == |sources.Keys|;
    if !Empty(chosen) {
      UniformNamesOne(sources, chosen);
    }
  }

  /** All sources so far name the chosen listing; nothing is chosen while there is no source. */
  predicate Uniform(sources: map<string, Listing>, chosen: Listing) {
    && (forall s :: s in sources ==> sources[s] == chosen)
    && (Empty(chosen) ==> sources == map[])
    && (!Empty(chosen) ==> sources != map[])
  }

  lemma UniformNamesOne(sources: map<string, Listing>, chosen: Listing)
    requires Uniform(sources, chosen) && !Empty(chosen)
    ensures sources.Values == {chosen}
  {
    var s :| s in sources;
    assert sources[s] in sources.Values;
  }

  ghost predicate Differ(ids: set<Listing>) {
    exists x, y :: x in ids && y in ids && x != y
  }

  /** The entries found are added to the sources; no result when two listings differ. */
  ghost predicate WalkedOver(
    found: map<string, Listing>, before: map<string, Listing>, r: Option<(map<string, Listing>, Listing)>)
  {
    if r.None? then Differ(before.Values + found.Values)
    else
      && Uniform(r.value.0, r.value.1)
      && r.value.0.Keys == before.Keys + found.Keys
      && r.value.0.Values == before.Values + found.Values
  }

  /** The entries of one key, in an arbitrary order; no result when two listings differ. */
  method Walk(found: map<string, Listing>, before: map<string, Listing>, first: Listing)
    returns (r: Option<(map<string, Listing>, Listing)>)
    requires NoneEmpty(found) && Uniform(before, first)
    ensures WalkedOver(found, before, r)
  {
    var sources, chosen := before, first;
    var left := found.Keys;
    while left != {}
      invariant left <= found.Keys
      invariant Uniform(sources, chosen)
      invariant sources.Keys == before.Keys + (found.Keys - left)
      invariant sources.Values <= before.Values + found.Values
      invariant forall s :: s in before ==> sources[s] == before[s]
      invariant forall s :: s in found.Keys - left ==> sources[s] == found[s]
      decreases left
    {
      var source :| source in left;
      var id := found[source];
      assert id in found.Values;
      if source in sources && sources[source] != id {
        assert sources[source] in sources.Values;
        return None;
      }
      if !Empty(chosen) && chosen != id {
        UniformNamesOne(sources, chosen);
        return None;
      }
      chosen := id;
      sources := sources[source := id];
      left := left - {source};
    }
    ValuesCovered(before, sources);
    ValuesCovered(found, sources);
    return Some((sources, chosen));
  }

  lemma ValuesCovered(part: map<string, Listing>, whole: map<string, Listing>)
    requires forall s :: s in part ==> s in whole && whole[s] == part[s]
    ensures part.Values <= whole.Values
  {
    forall v | v in part.Values ensures v in whole.Values {
      var s :| s in part && part[s] == v;
      assert whole[s] in whole.Values;
    }
  }

  lemma {:induction false} NamedGrows(book: Book, keys: seq<string>, i: nat)
    requires i <= |keys|
    ensures Named(book, keys[..i]) <= Named(book, keys)
  {
    if i == |keys| {
      assert keys[..i] == keys;
    } else {
      var front := keys[..|keys| - 1];
      NamedGrows(book, front, i);
      assert front[..i] == keys[..i];
    }
  }

  /** Two claims under consulted keys, made by different venues. */
  ghost predicate ApartOn(claims: set<Claim>, keys: seq<string>, c: Claim, d: Claim) {
    c in claims && d in claims && c.key in keys && d.key in keys && c.source != d.source
  }

  /** Every claim under a consulted key names the listing, and two venues made such claims. */
  ghost predicate Unanimous(claims: set<Claim>, keys: seq<string>, id: Listing) {
    && AllName(claims, keys, id)
    && (exists c, d :: ApartOn(claims, keys, c, d))
  }

  /** An entry of the book under a consulted key. */
  ghost predicate Entry(book: Book, keys: seq<string>, key: string, source: string) {
    key in keys && source in Under(book, key)
  }

  lemma {:induction false} EntriesAreCounted(book: Book, keys: seq<string>, key: string, source: string)
    requires Entry(book, keys, key, source)
    ensures Under(book, key)[source] in Named(book, keys) && source in Venues(book, keys)
  {
    var front, last := keys[..|keys| - 1], keys[|keys| - 1];
    assert keys == front + [last];
    if key == last {
      assert Under(book, last)[source] in Under(book, last).Values;
    } else {
      EntriesAreCounted(book, front, key, source);
    }
  }

  lemma {:induction false} NamedByEntry(book: Book, keys: seq<string>, id: Listing) returns (key: string, source: string)
    requires id in Named(book, keys)
    ensures Entry(book, keys, key, source) && Under(book, key)[source] == id
  {
    var front, last := keys[..|keys| - 1], keys[|keys| - 1];
    assert keys == front + [last];
    if id in Under(book, last).Values {
      key := last;
      source :| source in Under(book, last) && Under(book, last)[source] == id;
    } else {
      key, source := NamedByEntry(book, front, id);
    }
  }

  lemma {:induction false} VenueByEntry(book: Book, keys: seq<string>, source: string) returns (key: string)
    requires source in Venues(book, keys)
    ensures Entry(book, keys, key, source)
  {
    var front, last := keys[..|keys| - 1], keys[|keys| - 1];
    assert keys == front + [last];
    if source in Under(book, last) {
      key := last;
    } else {
      key := VenueByEntry(book, front, source);
    }
  }

  lemma TwoOf(s: set<string>) returns (a: string, b: string)
    requires |s| >= 2
    ensures a in s && b in s && a != b
  {
    a :| a in s;
    assert |s - {a}| >= 1;
    b :| b in s - {a};
  }

  lemma AtLeastTwo(s: set<string>, a: string, b: string)
    requires a in s && b in s && a != b
    ensures |s| >= 2
  {
    assert {a, b} <= s;
    var rest := s - {a, b};
    assert s == rest + {a, b};
  }

  lemma {:induction false} AgreedIsUnanimous(book: Book, claims: set<Claim>, keys: seq<string>, id: Listing)
    requires Represents(book, claims) && AgreedOn(book, keys, id)
    ensures Unanimous(claims, keys, id)
  {
    forall c | c in claims && c.key in keys ensures c.id == id {
      EntriesAreCounted(book, keys, c.key, c.source);
    }
    var a, b := TwoOf(Venues(book, keys));
    var ka := VenueByEntry(book, keys, a);
    var kb := VenueByEntry(book, keys, b);
    var c := Claim(ka, a, Under(book, ka)[a]);
    var d := Claim(kb, b, Under(book, kb)[b]);
    assert ApartOn(claims, keys, c, d);
  }

  ghost predicate AllName(claims: set<Claim>, keys: seq<string>, id: Listing) {
    forall c :: c in claims && c.key in keys ==> c.id == id
  }

  lemma {:induction false} OneNameIsNotPoisoned(book: Book, claims: set<Claim>, keys: seq<string>, id: Listing)
    requires Represents(book, claims) && AllName(claims, keys, id)
    ensures !Poisoned(book, keys)
  {
  }

  lemma {:induction false} OneNameIsNamed(book: Book, claims: set<Claim>, keys: seq<string>, id: Listing)
    requires Represents(book, claims) && AllName(claims, keys, id)
    ensures Named(book, keys) <= {id}
  {
    forall x | x in Named(book, keys) ensures x == id {
      var k, s := NamedByEntry(book, keys, x);
      assert Claim(k, s, x) in claims;
    }
  }

  lemma {:induction false} ClaimIsCounted(book: Book, claims: set<Claim>, keys: seq<string>, c: Claim)
    requires Represents(book, claims) && !Poisoned(book, keys) && c in claims && c.key in keys
    ensures c.id in Named(book, keys) && c.source in Venues(book, keys)
  {
    EntriesAreCounted(book, keys, c.key, c.source);
  }

  lemma {:induction false} TwoVenuesCount(book: Book, claims: set<Claim>, keys: seq<string>, c: Claim, d: Claim)
    requires Represents(book, claims) && !Poisoned(book, keys) && ApartOn(claims, keys, c, d)
    ensures c.id in Named(book, keys) && |Venues(book, keys)| >= 2
  {
    ClaimIsCounted(book, claims, keys, c);
    ClaimIsCounted(book, claims, keys, d);
    AtLeastTwo(Venues(book, keys), c.source, d.source);
  }

  lemma {:induction false} UnanimousIsAgreed(book: Book, claims: set<Claim>, keys: seq<string>, id: Listing)
    requires Represents(book, claims) && Unanimous(claims, keys, id)
    ensures AgreedOn(book, keys, id)
  {
    var c, d :| ApartOn(claims, keys, c, d);
    OneNameIsNotPoisoned(book, claims, keys, id);
    OneNameIsNamed(book, claims, keys, id);
    TwoVenuesCount(book, claims, keys, c, d);
  }

  /** The book's verdict in terms of the claims alone. */
  lemma {:induction false} AgreesExactlyWhenUnanimous(claims: seq<Claim>, keys: seq<string>, id: Listing)
    ensures AgreedOn(Collected(claims), keys, id) <==> Unanimous(Kept(claims), keys, id)
  {
    CollectedRepresents(claims);
    if AgreedOn(Collected(claims), keys, id) {
      AgreedIsUnanimous(Collected(claims), Kept(claims), keys, id);
    }
    if Unanimous(Kept(claims), keys, id) {
      UnanimousIsAgreed(Collected(claims), Kept(claims), keys, id);
    }
  }
}
