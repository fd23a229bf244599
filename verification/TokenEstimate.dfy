/** Token estimates of prompt text, the budgeted truncation, and the transcript that is sent for
    summarising. A script table says which characters count as East Asian. */
module TokenEstimate {

  /** Han, Hiragana, Katakana or Hangul. */
  type Scripts = char -> bool

  const ASCII_PER_TOKEN := 4

  predicate IsAscii(c: char) {
    c as int <= 0x7F
  }

  function Utf8Length(c: char): int {
    if c as int <= 0x7F then 1 else if c as int <= 0x7FF then 2 else if c as int <= 0xFFFF then 3 else 4
  }

  function Max(a: int, b: int): int {
    if a > b then a else b
  }

  /** The cost of one character outside ASCII. */
  function Weight(east: Scripts, c: char): (w: nat)
    ensures w >= 1
  {
    if east(c) then 1 else Max(1, Utf8Length(c) / 2)
  }

  /** How many characters the last, unfinished ASCII token of the text holds. */
  function OpenRun(s: string): (open: nat)
    ensures open < ASCII_PER_TOKEN
  {
    if s == "" || !IsAscii(s[|s| - 1]) then 0
    else
      var open := OpenRun(s[..|s| - 1]);
      if open == ASCII_PER_TOKEN - 1 then 0 else open + 1
  }

  /** A character that joins an unfinished ASCII token is free. */
  function Added(east: Scripts, open: nat, c: char): nat {
    if !IsAscii(c) then Weight(east, c) else if open == 0 then 1 else 0
  }

  function Estimate(east: Scripts, s: string): nat {
    if s == "" then 0
    else Estimate(east, s[..|s| - 1]) + Added(east, OpenRun(s[..|s| - 1]), s[|s| - 1])
  }

  lemma {:induction false} EstimateAppend(east: Scripts, s: string, c: char)
    ensures Estimate(east, s + [c]) == Estimate(east, s) + Added(east, OpenRun(s), c)
    ensures OpenRun(s + [c]) == if !IsAscii(c) || OpenRun(s) == 3 then 0 else OpenRun(s) + 1
  {
    assert (s + [c])[..|s|] == s;
  }

  lemma RunTokens(run: nat)
    ensures (run + 1 + 3) / 4 == (run + 3) / 4 + if run % 4 == 0 then 1 else 0
    ensures (run + 1) % 4 == if run % 4 == 3 then 0 else run % 4 + 1
  {
  }

  /** The counting loop: whole ASCII runs are rounded up when they end. */
  method EstimateTokens(east: Scripts, value: string) returns (tokens: nat)
    ensures tokens == Estimate(east, value)
  {
    tokens := 0;
    var ascii: nat := 0;
    for i := 0 to |value|
      invariant Estimate(east, value[..i]) == tokens + (ascii + 3) / 4
      invariant OpenRun(value[..i]) == ascii % 4
    {
      assert value[..i + 1] == value[..i] + [value[i]];
      EstimateAppend(east, value[..i], value[i]);
      RunTokens(ascii);
      if IsAscii(value[i]) {
        ascii := ascii + 1;
      } else {
        if ascii > 0 {
          tokens := tokens + (ascii + 3) / 4;
          ascii := 0;
        }
        tokens := tokens + Weight(east, value[i]);
      }
    }
    assert value[..|value|] == value;
    if ascii > 0 {
      tokens := tokens + (ascii + 3) / 4;
    }
  }

  /* What the estimate means: the cheapest way to cut a text into tokens. */

  /** A piece is up to four ASCII characters, or one other character. */
  predicate IsPiece(p: string) {
    || (1 <= |p| <= ASCII_PER_TOKEN && forall i :: 0 <= i < |p| ==> IsAscii(p[i]))
    || (|p| == 1 && !IsAscii(p[0]))
  }

  function PieceCost(east: Scripts, p: string): nat
    requires IsPiece(p)
  {
    if IsAscii(p[0]) then 1 else Weight(east, p[0])
  }

  /** A cutting, built from the left. */
  datatype Cutting = Uncut | Cut(before: Cutting, piece: string) {
    predicate Valid() {
      Cut? ==> IsPiece(piece) && before.Valid()
    }

    function Text(): string {
      if Uncut? then "" else before.Text() + piece
    }

    function Cost(east: Scripts): nat
      requires Valid()
    {
      if Uncut? then 0 else before.Cost(east) + PieceCost(east, piece)
    }
  }

  function Joined(left: Cutting, right: Cutting): Cutting {
    if right.Uncut? then left else Cut(Joined(left, right.before), right.piece)
  }

  lemma {:induction false} JoinedAdds(east: Scripts, left: Cutting, right: Cutting)
    requires left.Valid() && right.Valid()
    ensures Joined(left, right).Valid() && Joined(left, right).Text() == left.Text() + right.Text()
    ensures Joined(left, right).Cost(east) == left.Cost(east) + right.Cost(east)
  {
    if right.Cut? {
      JoinedAdds(east, left, right.before);
      assert left.Text() + right.before.Text() + right.piece == left.Text() + (right.before.Text() + right.piece);
    }
  }

  /** Up to four ASCII characters cost one token, or none if they all join the open one. */
  lemma {:induction false} AsciiPieceAdds(east: Scripts, s: string, p: string)
    requires |p| <= ASCII_PER_TOKEN && forall i :: 0 <= i < |p| ==> IsAscii(p[i])
    ensures Estimate(east, s + p) == Estimate(east, s) +
              if p == "" || (OpenRun(s) > 0 && OpenRun(s) + |p| <= ASCII_PER_TOKEN) then 0 else 1
    ensures OpenRun(s + p) == if OpenRun(s) + |p| < ASCII_PER_TOKEN then OpenRun(s) + |p| else OpenRun(s) + |p| - ASCII_PER_TOKEN
  {
    if p == "" {
      assert s + p == s;
    } else {
      var front, last := p[..|p| - 1], p[|p| - 1];
      AsciiPieceAdds(east, s, front);
      EstimateAppend(east, s + front, last);
      assert s + front + [last] == s + p;
    }
  }

  lemma {:induction false} PieceAddsItsCost(east: Scripts, s: string, p: string)
    requires IsPiece(p)
    ensures Estimate(east, s + p) <= Estimate(east, s) + PieceCost(east, p)
  {
    if IsAscii(p[0]) {
      AsciiPieceAdds(east, s, p);
    } else {
      EstimateAppend(east, s, p[0]);
      assert p == [p[0]];
    }
  }

  /** No cutting is cheaper than the estimate. */
  lemma {:induction false} NoCuttingIsCheaper(east: Scripts, c: Cutting)
    requires c.Valid()
    ensures Estimate(east, c.Text()) <= c.Cost(east)
  {
    if c.Cut? {
      NoCuttingIsCheaper(east, c.before);
      PieceAddsItsCost(east, c.before.Text(), c.piece);
    }
  }

  /** A cutting of the text at a cost, whose last piece holds the open ASCII run. */
  ghost predicate CutsAt(east: Scripts, c: Cutting, s: string, cost: nat, open: nat) {
    && c.Valid() && c.Text() == s && c.Cost(east) == cost
    && (open > 0 ==> c.Cut? && |c.piece| == open && IsAscii(c.piece[0]))
  }

  lemma {:induction false} LongerPiece(east: Scripts, c: Cutting, s: string, last: char, cost: nat, open: nat)
    requires CutsAt(east, c, s, cost, open) && IsAscii(last) && 0 < open < ASCII_PER_TOKEN
    ensures CutsAt(east, Cut(c.before, c.piece + [last]), s + [last], cost, if open == 3 then 0 else open + 1)
  {
    assert c.before.Text() + (c.piece + [last]) == c.before.Text() + c.piece + [last];
    assert forall i :: 0 <= i < |c.piece| ==> IsAscii(c.piece[i]);
  }

  lemma {:induction false} AnotherPiece(east: Scripts, c: Cutting, s: string, last: char, cost: nat, open: nat)
    requires CutsAt(east, c, s, cost, open)
    ensures CutsAt(east, Cut(c, [last]), s + [last], cost + PieceCost(east, [last]), if IsAscii(last) then 1 else 0)
  {
  }

  /** The greedy cutting after one more character. */
  ghost function Greedier(c: Cutting, open: nat, last: char): Cutting {
    if IsAscii(last) && open > 0 && c.Cut? then Cut(c.before, c.piece + [last]) else Cut(c, [last])
  }

  lemma {:induction false} GreedyStep(east: Scripts, c: Cutting, s: string, last: char, cost: nat, open: nat)
    requires CutsAt(east, c, s, cost, open) && open < ASCII_PER_TOKEN
    ensures CutsAt(east, Greedier(c, open, last), s + [last], cost + Added(east, open, last),
                   if !IsAscii(last) || open == 3 then 0 else open + 1)
  {
    if IsAscii(last) && open > 0 {
      LongerPiece(east, c, s, last, cost, open);
    } else {
      AnotherPiece(east, c, s, last, cost, open);
    }
  }

  /** Some cutting, the greedy one, costs exactly the estimate. */
  lemma {:induction false} CheapestCutting(east: Scripts, s: string) returns (c: Cutting)
    ensures CutsAt(east, c, s, Estimate(east, s), OpenRun(s))
  {
    if s == "" {
      c := Uncut;
    } else {
      var front, last := s[..|s| - 1], s[|s| - 1];
      var before := CheapestCutting(east, front);
      GreedyStep(east, before, front, last, Estimate(east, front), OpenRun(front));
      c := Greedier(before, OpenRun(front), last);
      Whole(east, c, s, Estimate(east, front) + Added(east, OpenRun(front), last), OpenRun(s));
    }
  }

  lemma {:induction false} Whole(east: Scripts, c: Cutting, s: string, cost: nat, open: nat)
    requires s != "" && CutsAt(east, c, s[..|s| - 1] + [s[|s| - 1]], cost, open)
    ensures CutsAt(east, c, s, cost, open)
  {
    assert s == s[..|s| - 1] + [s[|s| - 1]];
  }

  /** The estimate is the cost of the cheapest cutting of the text. */
  lemma EstimateIsCheapest(east: Scripts, s: string)
    ensures exists c: Cutting :: c.Valid() && c.Text() == s && c.Cost(east) == Estimate(east, s)
    ensures forall c: Cutting :: c.Valid() && c.Text() == s ==> Estimate(east, s) <= c.Cost(east)
  {
    var best := CheapestCutting(east, s);
    forall c: Cutting | c.Valid() && c.Text() == s ensures Estimate(east, s) <= c.Cost(east) {
      NoCuttingIsCheaper(east, c);
    }
  }

  /** Two texts together cost at most what they cost apart. */
  lemma EstimateSubadditive(east: Scripts, a: string, b: string)
    ensures Estimate(east, a + b) <= Estimate(east, a) + Estimate(east, b)
  {
    var left := CheapestCutting(east, a);
    var right := CheapestCutting(east, b);
    JoinedAdds(east, left, right);
    NoCuttingIsCheaper(east, Joined(left, right));
  }

  /** A prefix never costs more. */
  lemma {:induction false} EstimateMonotone(east: Scripts, s: string, k: nat)
    requires k <= |s|
    ensures Estimate(east, s[..k]) <= Estimate(east, s)
  {
    if k < |s| {
      var front := s[..|s| - 1];
      EstimateMonotone(east, front, k);
      assert front[..k] == s[..k];
    } else {
      assert s[..k] == s;
    }
  }

  type Estimator = string -> nat

  function EstimatorOf(east: Scripts): Estimator {
    (s: string) => Estimate(east, s)
  }

  /** The longest prefix of the text within the budget; the empty one when the budget is negative. */
  ghost predicate LongestWithin(est: Estimator, text: string, prefix: string, budget: int) {
    && prefix <= text && (prefix != "" || budget >= 0 ==> est(prefix) <= budget)
    && forall k :: |prefix| < k <= |text| ==> est(text[..k]) > budget
  }

  ghost predicate MonotoneOn(est: Estimator, text: string) {
    est("") == 0 && forall j, k :: 0 <= j <= k <= |text| ==> est(text[..j]) <= est(text[..k])
  }

  lemma {:induction false} EstimatorIsMonotone(east: Scripts, text: string)
    ensures MonotoneOn(EstimatorOf(east), text)
  {
    forall j, k | 0 <= j <= k <= |text| ensures Estimate(east, text[..j]) <= Estimate(east, text[..k]) {
      EstimateMonotone(east, text[..k], j);
      assert text[..k][..j] == text[..j];
    }
  }

  /** Binary search for the longest prefix within the budget. */
  method LongestPrefix(est: Estimator, value: string, budget: int) returns (r: string)
    requires MonotoneOn(est, value)
    ensures LongestWithin(est, value, r, budget)
  {
    assert value[..|value|] == value && value[..0] == "";
    if est(value) <= budget {
      return value;
    }
    var left, right := 0, |value|;
    while left < right
      invariant 0 <= left <= right <= |value|
      invariant left > 0 || budget >= 0 ==> est(value[..left]) <= budget
      invariant forall k :: right < k <= |value| ==> est(value[..k]) > budget
    {
      var middle := (left + right + 1) / 2;
      if est(value[..middle]) <= budget {
        left := middle;
      } else {
        right := middle - 1;
      }
    }
    return value[..left];
  }

  method TruncateToTokenBudget(east: Scripts, value: string, budget: int) returns (r: string)
    ensures LongestWithin(EstimatorOf(east), value, r, budget)
  {
    EstimatorIsMonotone(east, value);
    r := LongestPrefix(EstimatorOf(east), value, budget);
  }

  /* The transcript sent for summarising. */

  datatype Candidate = Candidate(id: nat, fromAssistant: bool, content: string)

  function TruncateRunes(value: string, limit: nat): string {
    if |value| <= limit then value else value[..limit]
  }

  function Header(summary: string): string {
    if summary == "" then ""
    else "已有摘要：\n" + TruncateRunes(summary, 2000) + "\n\n新增对话：\n"
  }

  function Line(c: Candidate): string {
    (if c.fromAssistant then "助手" else "用户") + "：" + TruncateRunes(c.content, 4000) + "\n"
  }

  function Lines(candidates: seq<Candidate>): string {
    if candidates == [] then "" else Lines(candidates[..|candidates| - 1]) + Line(candidates[|candidates| - 1])
  }

  function InputLimit(budget: int): int {
    Max(budget - 256, 1000)
  }

  /** Texts that fit when measured apart also fit when joined. */
  ghost predicate Subadditive(est: Estimator) {
    forall a, b :: est(a + b) <= est(a) + est(b)
  }

  lemma {:induction false} EstimatorIsSubadditive(east: Scripts)
    ensures Subadditive(EstimatorOf(east))
  {
    forall a, b ensures Estimate(east, a + b) <= Estimate(east, a) + Estimate(east, b) {
      EstimateSubadditive(east, a, b);
    }
  }

  lemma {:induction false} LinesStep(head: string, candidates: seq<Candidate>, n: nat)
    requires n < |candidates|
    ensures head + Lines(candidates[..n]) + Line(candidates[n]) == head + Lines(candidates[..n + 1])
  {
    assert candidates[..n + 1][..n] == candidates[..n];
    Associates(head, Lines(candidates[..n]), Line(candidates[n]));
  }

  lemma Associates(a: string, b: string, c: string)
    ensures a + b + c == a + (b + c)
  {
  }

  /** The header and as many whole lines as fit; when any line is included the joined text is within the
      limit although only its parts were measured. */
  ghost predicate IsTranscript(est: Estimator, head: string, candidates: seq<Candidate>, limit: int, transcript: string, included: nat) {
    && included <= |candidates|
    && transcript == head + Lines(candidates[..included])
    && (included > 0 ==> est(transcript) <= limit)
    && (included < |candidates| ==> est(transcript) + est(Line(candidates[included])) > limit)
  }

  method Transcribe(est: Estimator, head: string, candidates: seq<Candidate>, limit: int)
    returns (transcript: string, included: nat, throughId: nat)
    requires Subadditive(est)
    ensures IsTranscript(est, head, candidates, limit, transcript, included)
    ensures throughId == if included == 0 then 0 else candidates[included - 1].id
  {
    transcript, included, throughId := head, 0, 0;
    assert head + Lines(candidates[..0]) == head;
    while included < |candidates|
      invariant included <= |candidates|
      invariant transcript == head + Lines(candidates[..included])
      invariant included > 0 ==> est(transcript) <= limit
      invariant throughId == if included == 0 then 0 else candidates[included - 1].id
    {
      var line := Line(candidates[included]);
      if est(transcript) + est(line) > limit { break; }
      LinesStep(head, candidates, included);
      transcript, throughId := transcript + line, candidates[included].id;
      included := included + 1;
    }
  }

  method BuildTranscript(east: Scripts, summary: string, candidates: seq<Candidate>, budget: int)
    returns (transcript: string, included: nat, throughId: nat)
    ensures IsTranscript(EstimatorOf(east), Header(summary), candidates, InputLimit(budget), transcript, included)
    ensures throughId == if included == 0 then 0 else candidates[included - 1].id
  {
    EstimatorIsSubadditive(east);
    transcript, included, throughId := Transcribe(EstimatorOf(east), Header(summary), candidates, InputLimit(budget));
  }
}
