/** Assembling the messages of one chat request under a token budget: context, summary, the newest
    complete turns, and the prompt. Texts are already trimmed. */
module PromptAssembly {
  import opened TokenEstimate

  datatype Role = System | User | Assistant

  datatype Message = Message(role: Role, content: string)

  /** A stored message of the conversation, with its turn. */
  datatype Stored = Stored(turn: string, role: Role, content: string)

  datatype Pair = Pair(user: string, assistant: string)

  const MESSAGE_OVERHEAD := 6

  /** Tokens a prompt must leave free of the budget. */
  const PROMPT_RESERVE := 16

  function Tokens(est: Estimator, m: Message): nat {
    est(m.content) + MESSAGE_OVERHEAD
  }

  function TotalTokens(est: Estimator, messages: seq<Message>): nat {
    if messages == [] then 0 else Tokens(est, messages[0]) + TotalTokens(est, messages[1..])
  }

  lemma {:induction false} TotalOfConcat(est: Estimator, a: seq<Message>, b: seq<Message>)
    ensures TotalTokens(est, a + b) == TotalTokens(est, a) + TotalTokens(est, b)
  {
    if a == [] {
      assert a + b == b;
    } else {
      var whole := a + b;
      TotalOfConcat(est, a[1..], b);
      assert whole[0] == a[0] && whole[1..] == a[1..] + b;
      assert TotalTokens(est, whole) == Tokens(est, a[0]) + TotalTokens(est, whole[1..]);
    }
  }

  /** The check a prompt passes before a turn begins. */
  predicate PromptAccepted(est: Estimator, prompt: string, budget: int) {
    est(prompt) + PROMPT_RESERVE <= budget
  }

  /* The earlier turns, as a reader of the stored messages would define them. */

  /** The other turns of the conversation in order of first appearance. */
  function Order(stored: seq<Stored>, current: string): seq<string> {
    if stored == [] then []
    else
      var front, last := Order(stored[..|stored| - 1], current), stored[|stored| - 1].turn;
      if last == current || last in front then front else front + [last]
  }

  /** The last text a role has in a turn, or nothing. */
  function LastText(stored: seq<Stored>, turn: string, role: Role): string {
    if stored == [] then ""
    else
      var last := stored[|stored| - 1];
      if last.turn == turn && last.role == role then last.content
      else LastText(stored[..|stored| - 1], turn, role)
  }

  function PairOf(stored: seq<Stored>, turn: string): Pair {
    Pair(LastText(stored, turn, User), LastText(stored, turn, Assistant))
  }

  predicate Complete(p: Pair) {
    p.user != "" && p.assistant != ""
  }

  /** The complete ones among the turns, in order. */
  function CompletePairs(texts: seq<Pair>): seq<Pair> {
    if texts == [] then []
    else
      var rest := CompletePairs(texts[1..]);
      if Complete(texts[0]) then [texts[0]] + rest else rest
  }

  /** The last texts of each turn. */
  function TurnTexts(stored: seq<Stored>, turns: seq<string>): seq<Pair> {
    seq(|turns|, i requires 0 <= i < |turns| => PairOf(stored, turns[i]))
  }

  function History(stored: seq<Stored>, current: string): seq<Pair> {
    CompletePairs(TurnTexts(stored, Order(stored, current)))
  }

  function PairMessages(p: Pair): seq<Message> {
    [Message(User, p.user), Message(Assistant, p.assistant)]
  }

  function PairTokens(est: Estimator, p: Pair): nat {
    Tokens(est, Message(User, p.user)) + Tokens(est, Message(Assistant, p.assistant))
  }

  function Flatten(pairs: seq<Pair>): seq<Message> {
    if pairs == [] then [] else PairMessages(pairs[0]) + Flatten(pairs[1..])
  }

  function SumTokens(est: Estimator, pairs: seq<Pair>): nat {
    if pairs == [] then 0 else PairTokens(est, pairs[0]) + SumTokens(est, pairs[1..])
  }

  lemma {:induction false} FlattenTokens(est: Estimator, pairs: seq<Pair>)
    ensures TotalTokens(est, Flatten(pairs)) == SumTokens(est, pairs)
  {
    if pairs != [] {
      FlattenTokens(est, pairs[1..]);
      TotalOfConcat(est, PairMessages(pairs[0]), Flatten(pairs[1..]));
      assert PairMessages(pairs[0])[1..] == [Message(Assistant, pairs[0].assistant)];
    }
  }

  /** The complete turns after position i are a suffix of all complete turns. */
  lemma {:induction false} LaterTurnsAreSuffix(texts: seq<Pair>, i: nat)
    requires i <= |texts|
    ensures |CompletePairs(texts[i..])| <= |CompletePairs(texts)|
    ensures CompletePairs(texts[i..])
         == CompletePairs(texts)[|CompletePairs(texts)| - |CompletePairs(texts[i..])|..]
  {
    if i > 0 {
      LaterTurnsAreSuffix(texts[1..], i - 1);
      assert texts[1..][i - 1..] == texts[i..];
    } else {
      assert texts[0..] == texts;
    }
  }

  /** A longer suffix of the history costs at least as much. */
  lemma {:induction false} LongerSuffixCostsMore(est: Estimator, pairs: seq<Pair>, i: nat)
    requires i <= |pairs|
    ensures SumTokens(est, pairs[i..]) <= SumTokens(est, pairs)
  {
    if i > 0 {
      LongerSuffixCostsMore(est, pairs[1..], i - 1);
      assert pairs[1..][i - 1..] == pairs[i..];
    } else {
      assert pairs[0..] == pairs;
    }
  }

  function Newest(pairs: seq<Pair>, n: nat): seq<Pair>
    requires n <= |pairs|
  {
    pairs[|pairs| - n..]
  }

  /** The n newest complete turns are as many as fit: no longer admissible suffix does. */
  ghost predicate LongestFitting(est: Estimator, pairs: seq<Pair>, n: nat, recent: nat, room: int) {
    && n <= |pairs| && n <= recent
    && (n > 0 ==> SumTokens(est, Newest(pairs, n)) <= room)
    && forall m :: n < m <= |pairs| && m <= recent ==> SumTokens(est, Newest(pairs, m)) > room
  }

  /* The loops. */

  lemma {:induction false} UnseenTurnIsEmpty(stored: seq<Stored>, current: string, turn: string, role: Role)
    requires turn != current && turn !in Order(stored, current)
    ensures LastText(stored, turn, role) == ""
  {
    if stored != [] {
      UnseenTurnIsEmpty(stored[..|stored| - 1], current, turn, role);
    }
  }

  /** Group the stored messages by turn, keeping the order of first appearance. */
  method GroupTurns(stored: seq<Stored>, current: string) returns (pairs: map<string, Pair>, order: seq<string>)
    ensures order == Order(stored, current)
    ensures forall t :: t in order ==> t in pairs && pairs[t] == PairOf(stored, t)
  {
    pairs, order := map[], [];
    for i := 0 to |stored|
      invariant order == Order(stored[..i], current)
      invariant forall t :: t in pairs <==> t in order
      invariant forall t :: t in pairs ==> t != current && pairs[t] == PairOf(stored[..i], t)
    {
      var item := stored[i];
      assert stored[..i + 1][..i] == stored[..i];
      if item.turn != current {
        if item.turn !in pairs {
          UnseenTurnIsEmpty(stored[..i], current, item.turn, User);
          UnseenTurnIsEmpty(stored[..i], current, item.turn, Assistant);
          pairs, order := pairs[item.turn := Pair("", "")], order + [item.turn];
        }
        if item.role == User {
          pairs := pairs[item.turn := pairs[item.turn].(user := item.content)];
        } else if item.role == Assistant {
          pairs := pairs[item.turn := pairs[item.turn].(assistant := item.content)];
        }
      }
    }
    assert stored[..|stored|] == stored;
  }

  predicate Reverses(a: seq<Pair>, b: seq<Pair>) {
    |a| == |b| && forall i :: 0 <= i < |a| ==> a[i] == b[|b| - 1 - i]
  }

  /** The first turn that does not fit ends the selection, so no longer suffix fits either. */
  lemma SelectionIsLongest(est: Estimator, pairs: seq<Pair>, n: nat, recent: nat, room: int)
    requires n < |pairs| && n <= recent && (n > 0 ==> SumTokens(est, Newest(pairs, n)) <= room)
    requires PairTokens(est, pairs[|pairs| - n - 1]) + SumTokens(est, Newest(pairs, n)) > room
    ensures LongestFitting(est, pairs, n, recent, room)
  {
    var next := Newest(pairs, n + 1);
    assert next[1..] == Newest(pairs, n) && next[0] == pairs[|pairs| - n - 1];
    forall m | n < m <= |pairs| ensures SumTokens(est, Newest(pairs, m)) > room {
      LongerSuffixCostsMore(est, Newest(pairs, m), m - n - 1);
      assert Newest(pairs, m)[m - n - 1..] == next;
    }
  }

  lemma {:induction false} OneTurnBack(texts: seq<Pair>, i: nat)
    requires 0 < i <= |texts|
    ensures CompletePairs(texts[i - 1..]) ==
            if Complete(texts[i - 1]) then [texts[i - 1]] + CompletePairs(texts[i..])
            else CompletePairs(texts[i..])
  {
    assert texts[i - 1..][1..] == texts[i..];
  }

  lemma {:induction false} OneMorePair(est: Estimator, item: Pair, kept: seq<Pair>)
    ensures SumTokens(est, [item] + kept) == PairTokens(est, item) + SumTokens(est, kept)
  {
    assert ([item] + kept)[1..] == kept;
  }

  /** The turns kept so far are the newest ones, and the next one back comes right before them. */
  lemma {:induction false} KeptAreNewest(texts: seq<Pair>, i: nat)
    requires i <= |texts|
    ensures var all, kept := CompletePairs(texts), CompletePairs(texts[i..]);
            && |kept| <= |all| && kept == Newest(all, |kept|)
            && (i > 0 && Complete(texts[i - 1]) ==>
                  |kept| < |all| && all[|all| - |kept| - 1] == texts[i - 1])
  {
    LaterTurnsAreSuffix(texts, i);
    if i > 0 {
      OneTurnBack(texts, i);
      LaterTurnsAreSuffix(texts, i - 1);
    }
  }

  lemma {:induction false} OverfullIsLongest(est: Estimator, texts: seq<Pair>, i: nat, recent: nat, room: int)
    requires 0 < i <= |texts| && Complete(texts[i - 1])
    requires |CompletePairs(texts[i..])| <= recent
    requires CompletePairs(texts[i..]) != [] ==> SumTokens(est, CompletePairs(texts[i..])) <= room
    requires PairTokens(est, texts[i - 1]) + SumTokens(est, CompletePairs(texts[i..])) > room
    ensures LongestFitting(est, CompletePairs(texts), |CompletePairs(texts[i..])|, recent, room)
  {
    KeptAreNewest(texts, i);
    SelectionIsLongest(est, CompletePairs(texts), |CompletePairs(texts[i..])|, recent, room);
  }

  lemma {:induction false} ExhaustedIsLongest(est: Estimator, texts: seq<Pair>, i: nat, recent: nat, room: int)
    requires i <= |texts| && |CompletePairs(texts[i..])| <= recent
    requires i == 0 || |CompletePairs(texts[i..])| == recent
    requires CompletePairs(texts[i..]) != [] ==> SumTokens(est, CompletePairs(texts[i..])) <= room
    ensures LongestFitting(est, CompletePairs(texts), |CompletePairs(texts[i..])|, recent, room)
  {
    KeptAreNewest(texts, i);
    assert texts[0..] == texts;
  }

  /** The walk has come back to position i: the complete turns from there on are selected, and they fit. */
  ghost predicate Walked(est: Estimator, texts: seq<Pair>, i: nat, selected: seq<Pair>, spent: int, room: int)
    requires i <= |texts|
  {
    var kept := CompletePairs(texts[i..]);
    Reverses(selected, kept) && spent == SumTokens(est, kept) && (kept != [] ==> spent <= room)
  }

  lemma {:induction false} WalkOn(est: Estimator, texts: seq<Pair>, i: nat, selected: seq<Pair>, spent: int, room: int)
    requires 0 < i <= |texts| && Walked(est, texts, i, selected, spent, room)
    ensures var item := texts[i - 1];
            if Complete(item) then
              spent + PairTokens(est, item) <= room ==>
                Walked(est, texts, i - 1, selected + [item], spent + PairTokens(est, item), room)
            else Walked(est, texts, i - 1, selected, spent, room)
  {
    OneTurnBack(texts, i);
    OneMorePair(est, texts[i - 1], CompletePairs(texts[i..]));
  }

  /** The selection is the newest turns, as many as fit. */
  ghost predicate Selected(est: Estimator, texts: seq<Pair>, selected: seq<Pair>, recent: nat, room: int) {
    && LongestFitting(est, CompletePairs(texts), |selected|, recent, room)
    && Reverses(selected, Newest(CompletePairs(texts), |selected|))
  }

  /** The next turn back is complete and does not fit any more. */
  ghost predicate Overfull(est: Estimator, texts: seq<Pair>, i: nat, spent: int, room: int)
    requires 0 < i <= |texts|
  {
    Complete(texts[i - 1]) && spent + PairTokens(est, texts[i - 1]) > room
  }

  lemma {:induction false} WalkEnds(
    est: Estimator, texts: seq<Pair>, i: nat, selected: seq<Pair>, spent: int, recent: nat, room: int)
    requires i <= |texts| && Walked(est, texts, i, selected, spent, room) && |selected| <= recent
    requires i == 0 || |selected| == recent || Overfull(est, texts, i, spent, room)
    ensures Selected(est, texts, selected, recent, room)
  {
    KeptAreNewest(texts, i);
    if i == 0 || |selected| == recent {
      ExhaustedIsLongest(est, texts, i, recent, room);
    } else {
      OverfullIsLongest(est, texts, i, recent, room);
    }
  }

  /** Walk the turns from the newest back and keep the complete ones that fit. */
  method SelectPairs(est: Estimator, pairs: map<string, Pair>, order: seq<string>, ghost texts: seq<Pair>,
                     used0: nat, current: nat, budget: int, recent: nat)
    returns (selected: seq<Pair>)
    requires |texts| == |order| && forall i :: 0 <= i < |order| ==> order[i] in pairs && pairs[order[i]] == texts[i]
    ensures Selected(est, texts, selected, recent, budget - used0 - current)
  {
    ghost var room := budget - used0 - current;
    var index, used := |order|, used0;
    selected := [];
    while index > 0 && |selected| < recent
      invariant 0 <= index <= |order| && |selected| <= recent && used >= used0
      invariant Walked(est, texts, index, selected, used - used0, room)
    {
      var item := pairs[order[index - 1]];
      WalkOn(est, texts, index, selected, used - used0, room);
      if Complete(item) {
        var pairTokens := PairTokens(est, item);
        if used + pairTokens + current > budget {
          WalkEnds(est, texts, index, selected, used - used0, recent, room);
          return;
        }
        selected := selected + [item];
        used := used + pairTokens;
      }
      index := index - 1;
    }
    WalkEnds(est, texts, index, selected, used - used0, recent, room);
  }

  lemma {:induction false} FlattenAppend(pairs: seq<Pair>, p: Pair)
    ensures Flatten(pairs + [p]) == Flatten(pairs) + PairMessages(p)
  {
    if pairs == [] {
      assert pairs + [p] == [p] && [p][1..] == [];
    } else {
      FlattenAppend(pairs[1..], p);
      assert (pairs + [p])[1..] == pairs[1..] + [p];
    }
  }

  /** Put the selection back in chronological order. */
  method AppendHistory(base: seq<Message>, selected: seq<Pair>, ghost kept: seq<Pair>) returns (result: seq<Message>)
    requires Reverses(selected, kept)
    ensures result == base + Flatten(kept)
  {
    result := base;
    var index := |selected|;
    assert kept[..0] == [];
    while index > 0
      invariant 0 <= index <= |selected|
      invariant result == base + Flatten(kept[..|selected| - index])
    {
      index := index - 1;
      ghost var done := |selected| - index - 1;
      assert kept[..done + 1] == kept[..done] + [kept[done]];
      FlattenAppend(kept[..done], kept[done]);
      result := result + [Message(User, selected[index].user), Message(Assistant, selected[index].assistant)];
    }
    assert kept[..|selected|] == kept;
  }

  /* The whole request. */

  function SummaryMessage(summary: string): Message {
    Message(System, "较早对话摘要：\n" + summary)
  }

  function Opening(context: string, summary: string, summarised: bool): seq<Message> {
    if summarised then [Message(System, context), SummaryMessage(summary)] else [Message(System, context)]
  }

  function Request(context: string, summary: string, summarised: bool, history: seq<Pair>, prompt: string)
    : seq<Message>
  {
    Opening(context, summary, summarised) + Flatten(history) + [Message(User, prompt)]
  }

  lemma OpeningTokens(est: Estimator, context: string, summary: string, summarised: bool)
    ensures TotalTokens(est, Opening(context, summary, summarised))
         == Tokens(est, Message(System, context)) + if summarised then Tokens(est, SummaryMessage(summary)) else 0
  {
    TotalOfConcat(est, [Message(System, context)], [SummaryMessage(summary)]);
    assert [Message(System, context)] + [SummaryMessage(summary)] == Opening(context, summary, true);
  }

  lemma RequestTokens(est: Estimator, context: string, summary: string, summarised: bool, history: seq<Pair>, prompt: string)
    ensures TotalTokens(est, Request(context, summary, summarised, history, prompt))
         == TotalTokens(est, Opening(context, summary, summarised)) + SumTokens(est, history)
            + Tokens(est, Message(User, prompt))
  {
    var opening := Opening(context, summary, summarised);
    FlattenTokens(est, history);
    TotalOfConcat(est, opening, Flatten(history));
    TotalOfConcat(est, opening + Flatten(history), [Message(User, prompt)]);
  }

  /** An accepted prompt is over budget exactly when context and summary left it no room; then no
      history was kept, and the excess is less than the prompt's own tokens. */
  lemma OverBudgetExactlyWhenSummaryCrowdsPrompt(
      est: Estimator, context: string, summary: string, summarised: bool, pairs: seq<Pair>, n: nat,
      recent: nat, prompt: string, budget: int)
    requires PromptAccepted(est, prompt, budget)
    requires est(context) <= Max(budget - Tokens(est, Message(User, prompt)) - MESSAGE_OVERHEAD, 1)
    requires summarised ==> TotalTokens(est, Opening(context, summary, true)) < budget
    requires LongestFitting(est, pairs, n, recent,
               budget - TotalTokens(est, Opening(context, summary, summarised)) - Tokens(est, Message(User, prompt)))
    ensures var total := TotalTokens(est, Request(context, summary, summarised, Newest(pairs, n), prompt));
            var promptTokens := Tokens(est, Message(User, prompt));
            && (total > budget <==>
                  summarised && TotalTokens(est, Opening(context, summary, true)) + promptTokens > budget)
            && (total > budget ==> n == 0 && total < budget + promptTokens)
  {
    RequestTokens(est, context, summary, summarised, Newest(pairs, n), prompt);
    OpeningTokens(est, context, summary, summarised);
    if n == 0 {
      assert Newest(pairs, n) == [];
    }
  }

  /** The request is made of the longest fitting context, the summary exactly when it still fits, the
      longest fitting run of newest complete turns, and the prompt. */
  ghost predicate Assembled(
    east: Scripts, fundingContext: string, summary: string, history: seq<Pair>, prompt: string, budget: int, recentPairs: nat,
    result: seq<Message>, context: string, summarised: bool, n: nat)
  {
    var est := EstimatorOf(east);
    var promptTokens := Tokens(est, Message(User, prompt));
    && LongestWithin(EstimatorOf(east), fundingContext, context, Max(budget - promptTokens - MESSAGE_OVERHEAD, 1))
    && (summarised <==> summary != "" && TotalTokens(est, Opening(context, summary, true)) < budget)
    && LongestFitting(est, history, n, recentPairs,
                      budget - TotalTokens(est, Opening(context, summary, summarised)) - promptTokens)
    && result == Request(context, summary, summarised, Newest(history, n), prompt)
  }

  method MeasureMessage(east: Scripts, m: Message) returns (tokens: nat)
    ensures tokens == Tokens(EstimatorOf(east), m)
  {
    tokens := EstimateTokens(east, m.content);
    tokens := tokens + MESSAGE_OVERHEAD;
  }

  method AssembleParts(
      east: Scripts, fundingContext: string, summary: string, stored: seq<Stored>, currentTurn: string,
      prompt: string, budget: int, recentPairs: nat)
    returns (result: seq<Message>, context: string, summarised: bool, n: nat)
    ensures LongestWithin(EstimatorOf(east), fundingContext, context,
              Max(budget - Tokens(EstimatorOf(east), Message(User, prompt)) - MESSAGE_OVERHEAD, 1))
    ensures summarised <==> summary != "" && TotalTokens(EstimatorOf(east), Opening(context, summary, true)) < budget
    ensures LongestFitting(EstimatorOf(east), History(stored, currentTurn), n, recentPairs,
              budget - TotalTokens(EstimatorOf(east), Opening(context, summary, summarised))
                     - Tokens(EstimatorOf(east), Message(User, prompt)))
    ensures result == Request(context, summary, summarised, Newest(History(stored, currentTurn), n), prompt)
  {
    var promptTokens := MeasureMessage(east, Message(User, prompt));
    var opening, used;
    opening, used, context, summarised := Open(east, fundingContext, summary, promptTokens, budget);
    result, n := AddHistory(EstimatorOf(east), opening, used, stored, currentTurn, promptTokens, budget, recentPairs);
    result := result + [Message(User, prompt)];
  }

  /** The opening, followed by the newest complete turns that fit beside it and the prompt. */
  method AddHistory(
      est: Estimator, opening: seq<Message>, used: nat, stored: seq<Stored>, currentTurn: string,
      promptTokens: nat, budget: int, recentPairs: nat)
    returns (result: seq<Message>, n: nat)
    ensures LongestFitting(est, History(stored, currentTurn), n, recentPairs, budget - used - promptTokens)
    ensures result == opening + Flatten(Newest(History(stored, currentTurn), n))
  {
    var pairs, order := GroupTurns(stored, currentTurn);
    var selected := SelectPairs(est, pairs, order, TurnTexts(stored, order), used, promptTokens, budget, recentPairs);
    n := |selected|;
    result := AppendHistory(opening, selected, Newest(History(stored, currentTurn), n));
  }

  /** Assemble the messages of one request. */
  method AssembleProviderMessages(
      east: Scripts, fundingContext: string, summary: string, stored: seq<Stored>, currentTurn: string,
      prompt: string, budget: int, recentPairs: nat)
    returns (result: seq<Message>)
    ensures exists context, summarised, n :: Assembled(east, fundingContext, summary, History(stored, currentTurn), prompt,
                                                       budget, recentPairs, result, context, summarised, n)
  {
    var context, summarised, n;
    result, context, summarised, n :=
      AssembleParts(east, fundingContext, summary, stored, currentTurn, prompt, budget, recentPairs);
    assert Assembled(east, fundingContext, summary, History(stored, currentTurn), prompt, budget, recentPairs,
                     result, context, summarised, n);
  }

  /** The context that fits beside the prompt, then the summary if it still fits. */
  method Open(east: Scripts, fundingContext: string, summary: string, promptTokens: nat, budget: int)
    returns (opening: seq<Message>, used: nat, context: string, summarised: bool)
    ensures LongestWithin(EstimatorOf(east), fundingContext, context, Max(budget - promptTokens - MESSAGE_OVERHEAD, 1))
    ensures summarised <==> summary != "" && TotalTokens(EstimatorOf(east), Opening(context, summary, true)) < budget
    ensures opening == Opening(context, summary, summarised) && used == TotalTokens(EstimatorOf(east), opening)
  {
    ghost var est := EstimatorOf(east);
    var text := TruncateToTokenBudget(east, fundingContext, Max(budget - promptTokens - MESSAGE_OVERHEAD, 1));
    context, summarised := text, false;
    opening := [Message(System, text)];
    used := EstimateTokens(east, text);
    used := used + MESSAGE_OVERHEAD;
    OpeningTokens(est, text, summary, false);
    OpeningTokens(est, text, summary, true);
    if summary != "" {
      var message := SummaryMessage(summary);
      var tokens := EstimateTokens(east, message.content);
      if used + tokens + MESSAGE_OVERHEAD < budget {
        opening, used, summarised := opening + [message], used + tokens + MESSAGE_OVERHEAD, true;
      }
    }
  }

  /** What is assembled for an accepted prompt is within the budget, unless the included summary leaves the
      prompt no room; then no history is kept and the excess is below the prompt's own tokens. */
  lemma AssembledIsWithinBudgetUnlessCrowded(
    east: Scripts, fundingContext: string, summary: string, history: seq<Pair>, prompt: string, budget: int, recentPairs: nat,
    result: seq<Message>, context: string, summarised: bool, n: nat)
    requires Assembled(east, fundingContext, summary, history, prompt, budget, recentPairs, result, context, summarised, n)
    requires PromptAccepted(EstimatorOf(east), prompt, budget)
    ensures var est := EstimatorOf(east);
            var total, promptTokens := TotalTokens(est, result), Tokens(est, Message(User, prompt));
            && (total > budget <==> summarised && TotalTokens(est, Opening(context, summary, true)) + promptTokens > budget)
            && (total > budget ==> n == 0 && total < budget + promptTokens)
  {
    OverBudgetExactlyWhenSummaryCrowdsPrompt(EstimatorOf(east), context, summary, summarised, history, n, recentPairs, prompt, budget);
  }

  /** The crowded case is real for every context, every summary and every prompt: there is a budget that accepts
      the prompt, leaves the context whole, includes the summary, and is exceeded by what is assembled. */
  lemma SummaryCanCrowdPrompt(
    east: Scripts, context: string, summary: string, prompt: string, history: seq<Pair>, recentPairs: nat)
    returns (budget: int, result: seq<Message>)
    requires summary != ""
    ensures PromptAccepted(EstimatorOf(east), prompt, budget)
    ensures Assembled(east, context, summary, history, prompt, budget, recentPairs, result, context, true, 0)
    ensures TotalTokens(EstimatorOf(east), result) > budget
  {
    var est := EstimatorOf(east);
    result := Request(context, summary, true, [], prompt);
    OpeningTokens(est, context, summary, true);
    RequestTokens(est, context, summary, true, [], prompt);
    budget := TotalTokens(est, result) - 1;
    assert Newest(history, 0) == [];
  }
}
