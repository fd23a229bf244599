/** Which funding rates of different venues may form a spread, and the key of such a pair. Texts are
    already trimmed and case-normalised; numbers are reals. */
module Pairing {
  import opened Common

  datatype Rate = Rate(
    exchange: string, exchangeSymbol: string, globalSymbol: string, base: string, quote: string,
    rate: real, nextRate: Option<real>, intervalHours: real, cumulative24h: real, cumulative7d: real,
    positionUsd: real, turnoverUsd: real, updatedAt: int, complete24h: Option<bool>, complete7d: Option<bool>,
    multiplier: real)

  predicate IsHyperCoreUSDC(r: Rate) {
    (r.exchange == "hyperliquid" || r.exchange == "entropy") && r.quote == "USDC"
  }

  predicate IsLighterUSDC(r: Rate) {
    r.exchange == "lighter" && r.quote == "USDC"
  }

  predicate IsUSDTContract(r: Rate) {
    r.exchange != "hyperliquid" && r.exchange != "entropy" && r.quote == "USDT"
  }

  function PairingSymbol(r: Rate): string {
    if IsHyperCoreUSDC(r) then r.base + "USDT" else r.globalSymbol
  }

  function PairingSymbols(r: Rate): seq<string> {
    if IsLighterUSDC(r) then [r.base + "USDC", r.base + "USDT"] else [PairingSymbol(r)]
  }

  function PairingQuote(r: Rate): string {
    if IsHyperCoreUSDC(r) then "USDT" else r.quote
  }

  predicate EntropyAllowed(left: Rate, right: Rate) {
    if left.exchange != "entropy" && right.exchange != "entropy" then true
    else
      var symbol := if right.exchange == "entropy" then right.exchangeSymbol else left.exchangeSymbol;
      symbol == "io:ANTH" || symbol == "io:SNDK"
  }

  predicate UsesMultiplier(r: Rate) {
    r.exchange == "aster" || r.exchange == "lighter"
  }

  function Abs(x: real): real { if x < 0.0 then -x else x }

  function MaxReal(a: real, b: real): real { if a < b then b else a }

  predicate MultipliersCompatible(left: Rate, right: Rate) {
    if !UsesMultiplier(left) && !UsesMultiplier(right) then true
    else if left.multiplier <= 0.0 || right.multiplier <= 0.0 then false
    else Abs(left.multiplier - right.multiplier) <= MaxReal(left.multiplier, right.multiplier) * 0.000000001
  }

  predicate PairableRates(left: Rate, right: Rate) {
    if left.exchange == right.exchange || left.base != right.base then false
    else if !EntropyAllowed(left, right) || !MultipliersCompatible(left, right) then false
    else if IsHyperCoreUSDC(left) || IsHyperCoreUSDC(right) then
      if IsHyperCoreUSDC(left) && IsHyperCoreUSDC(right) then true
      else if IsHyperCoreUSDC(left) && IsLighterUSDC(right) then true
      else if IsHyperCoreUSDC(right) && IsLighterUSDC(left) then true
      else (IsHyperCoreUSDC(left) && IsUSDTContract(right)) || (IsHyperCoreUSDC(right) && IsUSDTContract(left))
    else if (IsLighterUSDC(left) && IsUSDTContract(right)) || (IsLighterUSDC(right) && IsUSDTContract(left)) then true
    else left.globalSymbol == right.globalSymbol
  }

  lemma PairableIsSymmetric(left: Rate, right: Rate)
    ensures PairableRates(left, right) <==> PairableRates(right, left)
  {
    assert Abs(left.multiplier - right.multiplier) == Abs(right.multiplier - left.multiplier);
    assert EntropyAllowed(left, right) == EntropyAllowed(right, left) || left.exchange == right.exchange;
  }

  /** The global symbol of a stablecoin contract is its base and quote, and names hold no NUL. */
  predicate WellFormed(r: Rate) {
    && (r.quote == "USDT" ==> r.globalSymbol == r.base + "USDT")
    && (IsLighterUSDC(r) ==> r.globalSymbol == r.base + "USDC")
    && NoNul(r.exchange) && NoNul(r.exchangeSymbol)
  }

  /** Two pairable rates meet in some group. */
  lemma PairableShareSymbol(left: Rate, right: Rate) returns (symbol: string)
    requires WellFormed(left) && WellFormed(right) && PairableRates(left, right)
    ensures symbol in PairingSymbols(left) && symbol in PairingSymbols(right)
  {
    if IsHyperCoreUSDC(left) || IsHyperCoreUSDC(right) {
      symbol := left.base + "USDT";
    } else if (IsLighterUSDC(left) && IsUSDTContract(right)) || (IsLighterUSDC(right) && IsUSDTContract(left)) {
      symbol := left.base + "USDT";
    } else {
      symbol := left.globalSymbol;
    }
  }

  /* Byte order of texts. */

  predicate Less(a: string, b: string) {
    if b == "" then false
    else if a == "" then true
    else a[0] < b[0] || (a[0] == b[0] && Less(a[1..], b[1..]))
  }

  lemma {:induction false} LessIsTotal(a: string, b: string)
    ensures !(Less(a, b) && Less(b, a))
    ensures Less(a, b) || Less(b, a) || a == b
  {
    if a != "" && b != "" {
      LessIsTotal(a[1..], b[1..]);
      assert a == [a[0]] + a[1..] && b == [b[0]] + b[1..];
    }
  }

  lemma {:induction false} LessIsTransitive(a: string, b: string, c: string)
    requires Less(a, b) && Less(b, c)
    ensures Less(a, c)
  {
    if a != "" && a[0] == b[0] && b[0] == c[0] { LessIsTransitive(a[1..], b[1..], c[1..]); }
  }

  /* The key of a pair. */

  const NUL := '\0'

  predicate NoNul(s: string) {
    NUL !in s
  }

  function Identity(r: Rate): string {
    r.exchange + [NUL] + r.exchangeSymbol
  }

  function SpreadKey(left: Rate, right: Rate): string {
    var first, second := Identity(left), Identity(right);
    if Less(second, first) then second + [NUL] + first else first + [NUL] + second
  }

  lemma SpreadKeyIsSymmetric(left: Rate, right: Rate)
    ensures SpreadKey(left, right) == SpreadKey(right, left)
  {
    LessIsTotal(Identity(left), Identity(right));
  }

  /** A NUL-free text before a NUL can be read back. */
  lemma {:induction false} SplitAtNul(a: string, restA: string, b: string, restB: string)
    requires NoNul(a) && NoNul(b) && a + [NUL] + restA == b + [NUL] + restB
    ensures a == b && restA == restB
  {
    var wholeA, wholeB := a + [NUL] + restA, b + [NUL] + restB;
    assert wholeA[|a|] == NUL && wholeB[|b|] == NUL;
    assert |a| == |b|;
    assert a == wholeA[..|a|] && b == wholeB[..|b|];
    assert restA == wholeA[|a| + 1..] && restB == wholeB[|b| + 1..];
  }

  predicate SameIdentity(a: Rate, b: Rate) {
    a.exchange == b.exchange && a.exchangeSymbol == b.exchangeSymbol
  }

  lemma JoinedIdentities(a: Rate, b: Rate, c: Rate, d: Rate)
    requires WellFormed(a) && WellFormed(b) && WellFormed(c) && WellFormed(d)
    requires Identity(a) + [NUL] + Identity(b) == Identity(c) + [NUL] + Identity(d)
    ensures SameIdentity(a, c) && SameIdentity(b, d)
  {
    var restA, restC := a.exchangeSymbol + [NUL] + Identity(b), c.exchangeSymbol + [NUL] + Identity(d);
    assert Identity(a) + [NUL] + Identity(b) == a.exchange + [NUL] + restA;
    assert Identity(c) + [NUL] + Identity(d) == c.exchange + [NUL] + restC;
    SplitAtNul(a.exchange, restA, c.exchange, restC);
    SplitAtNul(a.exchangeSymbol, Identity(b), c.exchangeSymbol, Identity(d));
    SplitAtNul(b.exchange, b.exchangeSymbol, d.exchange, d.exchangeSymbol);
  }

  /** Equal keys mean the same two instruments. */
  lemma SpreadKeyIsInjective(a: Rate, b: Rate, c: Rate, d: Rate)
    requires WellFormed(a) && WellFormed(b) && WellFormed(c) && WellFormed(d)
    requires SpreadKey(a, b) == SpreadKey(c, d)
    ensures (SameIdentity(a, c) && SameIdentity(b, d)) || (SameIdentity(a, d) && SameIdentity(b, c))
  {
    var swapLeft, swapRight := Less(Identity(b), Identity(a)), Less(Identity(d), Identity(c));
    if !swapLeft && !swapRight { JoinedIdentities(a, b, c, d); }
    else if !swapLeft { JoinedIdentities(a, b, d, c); }
    else if !swapRight { JoinedIdentities(b, a, c, d); }
    else { JoinedIdentities(b, a, d, c); }
  }
}
