/** The caps and counters of the conversation store over every run. */
module ConversationLimits {
  import opened Common
  import opened Conversations
  import opened ConversationInvariants
  import opened ConversationRuns
  import opened ConversationTheorems

  /* Unexpired conversations. */

  ghost predicate MakesConversation(cfg: Config, s: State, e: Event) {
    e.Create? && CreateConversation(s.store, cfg, e.owner).1.Made?
  }

  lemma BeginVisible(cfg: Config, s: Store, e: Event, owner: string, id: nat)
    requires e.Begin? && e.user < e.answer
    requires Visible(BeginTurn(s, cfg, e.owner, e.id, e.client, e.prompt, e.user, e.answer).0, owner, id)
    ensures Visible(s, owner, id)
  {
  }

  lemma VisibleStep(cfg: Config, s: State, e: Event, owner: string, id: nat)
    requires Visible(Next(cfg, s, e).store, owner, id)
    ensures Visible(s.store, owner, id) || (MakesConversation(cfg, s, e) && e.owner == owner && id == s.store.nextConversation)
  {
    if e.Begin? && SerialsFit(s.store, e.id, e.user, e.answer) {
      BeginVisible(cfg, s.store, e, owner, id);
    }
  }

  /** Only a creation adds an unexpired conversation; an expired one is never revived. */
  lemma UnexpiredStep(cfg: Config, s: State, e: Event, owner: string)
    ensures UnexpiredOf(Next(cfg, s, e).store, owner) <=
            UnexpiredOf(s.store, owner) + (if MakesConversation(cfg, s, e) && e.owner == owner then {s.store.nextConversation} else {})
  {
    forall id | id in UnexpiredOf(Next(cfg, s, e).store, owner)
      ensures id in UnexpiredOf(s.store, owner) || (MakesConversation(cfg, s, e) && e.owner == owner && id == s.store.nextConversation)
    {
      VisibleStep(cfg, s, e, owner, id);
    }
  }

  /** No owner ever has more than the maximum number of unexpired conversations. */
  lemma {:induction false} UnexpiredAreCapped(cfg: Config, run: Run, owner: string)
    ensures |UnexpiredOf(After(cfg, run).store, owner)| <= cfg.maxConversations
  {
    if run.Then? {
      var s, e := After(cfg, run.before), run.event;
      UnexpiredAreCapped(cfg, run.before, owner);
      Reachable(cfg, run.before);
      UnexpiredStep(cfg, s, e, owner);
      var made := if MakesConversation(cfg, s, e) && e.owner == owner then {s.store.nextConversation} else {};
      NoMore(UnexpiredOf(After(cfg, run).store, owner), UnexpiredOf(s.store, owner), made);
    }
  }

  lemma NoMore(after: set<nat>, before: set<nat>, made: set<nat>)
    requires after <= before + made
    ensures |after| <= |before| + |made|
  {
    var rest := (before + made) - after;
    assert |before + made| == |after| + |rest| by { assert after + rest == before + made; }
    assert |before + made| <= |before| + |made|;
  }

  predicate HasExpired(s: Store, id: nat) {
    id in s.conversations && s.conversations[id].expires <= s.now
  }

  lemma ExpiredStep(cfg: Config, s: State, e: Event, id: nat)
    requires StateOk(s) && HasExpired(s.store, id) && id in Next(cfg, s, e).store.conversations
    ensures HasExpired(Next(cfg, s, e).store, id)
    ensures Next(cfg, s, e).store.conversations[id].expires == s.store.conversations[id].expires
  {
  }

  /** Once expired, a conversation stays expired until it is deleted. */
  lemma {:induction false} ExpiredStaysExpired(cfg: Config, run: Run, later: Run, id: nat)
    requires Extends(later, run) && HasExpired(After(cfg, run).store, id) && id in After(cfg, later).store.conversations
    ensures HasExpired(After(cfg, later).store, id)
  {
    if later != run {
      Reachable(cfg, run);
      RunEvolves(cfg, run, later.before);
      Reachable(cfg, later.before);
      StepKeeps(cfg, After(cfg, later.before), later.event);
      ExpiredStaysExpired(cfg, run, later.before, id);
      ExpiredStep(cfg, After(cfg, later.before), later.event, id);
    }
  }

  /* Raw messages and the message counter. */

  function PrunableIds(messages: Messages, through: nat): set<nat> {
    set k | k in messages && Prunable(messages, through, k)
  }

  lemma PruningCounts(messages: Messages, through: nat)
    ensures |Pruned(messages, through)| + |PrunableIds(messages, through)| == |messages|
  {
    var kept, gone := Pruned(messages, through).Keys, PrunableIds(messages, through);
    assert kept + gone == messages.Keys;
    assert kept !! gone;
    assert |Pruned(messages, through)| == |kept|;
    assert |messages| == |messages.Keys|;
  }

  lemma StartingCounts(messages: Messages, user: nat, question: Message, answer: nat, reply: Message)
    requires user != answer && user !in messages && answer !in messages
    ensures |Extended(AllStopped(messages), user, question, answer, reply)| == |messages| + 2
  {
    var next := Extended(AllStopped(messages), user, question, answer, reply);
    assert next.Keys == messages.Keys + {user, answer};
    assert |messages.Keys + {user, answer}| == |messages.Keys| + 2;
    assert |next| == |next.Keys| && |messages| == |messages.Keys|;
  }

  lemma RewritingCounts(messages: Messages, k: nat, m: Message)
    requires k in messages
    ensures |messages[k := m]| == |messages|
  {
    assert messages[k := m].Keys == messages.Keys;
    assert |messages[k := m]| == |messages[k := m].Keys| && |messages| == |messages.Keys|;
  }

  /** How many messages one event prunes from a conversation. */
  ghost function PrunedBy(s: State, e: Event, id: nat): nat {
    if CommitsUpdate(s, e) && s.tickets[e.ticket].id == id && id in s.store.conversations
    then |PrunableIds(s.store.conversations[id].messages, s.tickets[e.ticket].upTo)|
    else 0
  }

  ghost function PrunedCount(cfg: Config, run: Run, id: nat): nat {
    match run
    case Boot(_) => 0
    case Then(before, e) => PrunedCount(cfg, before, id) + PrunedBy(After(cfg, before), e, id)
  }

  ghost predicate CountStep(cfg: Config, c: Conversation, d: Conversation, pruned: nat) {
    && |d.messages| + c.messageCount + pruned == |c.messages| + d.messageCount
    && (|c.messages| <= cfg.maxRaw ==> |d.messages| <= cfg.maxRaw)
  }

  lemma BeginCounts(cfg: Config, s: Store, e: Event)
    requires StoreOk(s) && e.Begin? && SerialsFit(s, e.id, e.user, e.answer) && e.id in s.conversations
    ensures var t := BeginTurn(s, cfg, e.owner, e.id, e.client, e.prompt, e.user, e.answer).0;
            e.id in t.conversations && CountStep(cfg, s.conversations[e.id], t.conversations[e.id], 0)
  {
    if Visible(s, e.owner, e.id) {
      var c := s.conversations[e.id];
      var known := ClientRow(c.messages, e.client);
      if known.Some? {
        var answer := Answer(c.messages, c.messages[known.value].turn);
        if answer.Some? {
          RewritingCounts(c.messages, answer.value, Reset(c.messages[answer.value]));
        }
      } else {
        var next := StartedConversation(c, s.nextTurn, e.client, e.prompt, e.user, e.answer, s.now, cfg);
        StartingCounts(c.messages, e.user, next.messages[e.user], e.answer, next.messages[e.answer]);
      }
    }
  }

  lemma FinishCounts(cfg: Config, s: Store, e: Event)
    requires e.Finish? && e.id in s.conversations
    ensures var t := FinishTurn(s, e.owner, e.id, e.turn, e.reply).0;
            e.id in t.conversations && CountStep(cfg, s.conversations[e.id], t.conversations[e.id], 0)
  {
    if FinishTurn(s, e.owner, e.id, e.turn, e.reply).1 {
      var c := s.conversations[e.id];
      var answer := Answer(c.messages, e.turn).value;
      RewritingCounts(c.messages, answer, Replied(c.messages[answer], e.reply));
    }
  }

  lemma UpdateCounts(cfg: Config, s: State, e: Event)
    requires CommitsUpdate(s, e)
    ensures var id := s.tickets[e.ticket].id;
            var t := NextStore(cfg, s, e);
            && id in s.store.conversations && id in t.conversations
            && CountStep(cfg, s.store.conversations[id], t.conversations[id], PrunedBy(s, e, id))
  {
    var t := s.tickets[e.ticket];
    PruningCounts(s.store.conversations[t.id].messages, t.upTo);
  }

  lemma CountsStep(cfg: Config, s: State, e: Event, id: nat)
    requires StateOk(s) && id in s.store.conversations && id in Next(cfg, s, e).store.conversations
    ensures CountStep(cfg, s.store.conversations[id], Next(cfg, s, e).store.conversations[id], PrunedBy(s, e, id))
  {
    if e.Begin? && e.id == id && SerialsFit(s.store, id, e.user, e.answer) {
      BeginCounts(cfg, s.store, e);
    } else if e.Finish? && e.id == id {
      FinishCounts(cfg, s.store, e);
    } else if CommitsUpdate(s, e) && s.tickets[e.ticket].id == id {
      UpdateCounts(cfg, s, e);
    } else {
      assert Next(cfg, s, e).store.conversations[id] == s.store.conversations[id];
    }
  }

  lemma {:induction false} NothingPrunedYet(cfg: Config, run: Run, id: nat)
    requires After(cfg, run).store.nextConversation <= id
    ensures PrunedCount(cfg, run, id) == 0
  {
    if run.Then? {
      Reachable(cfg, run.before);
      StepKeeps(cfg, After(cfg, run.before), run.event);
      NothingPrunedYet(cfg, run.before, id);
    }
  }

  lemma NewConversation(cfg: Config, s: State, e: Event, id: nat)
    requires StateOk(s) && id !in s.store.conversations && id in Next(cfg, s, e).store.conversations
    ensures id == s.store.nextConversation
    ensures Next(cfg, s, e).store.conversations[id].messages == map[]
    ensures Next(cfg, s, e).store.conversations[id].messageCount == 0
  {
  }

  /** A conversation never holds more raw messages than its cap, and its counter is the number of
      messages that survive plus the number pruned so far. */
  lemma {:induction false} MessagesAreCounted(cfg: Config, run: Run, id: nat)
    requires id in After(cfg, run).store.conversations
    ensures |After(cfg, run).store.conversations[id].messages| <= cfg.maxRaw
    ensures After(cfg, run).store.conversations[id].messageCount
         == |After(cfg, run).store.conversations[id].messages| + PrunedCount(cfg, run, id)
  {
    var s, e := After(cfg, run.before), run.event;
    Reachable(cfg, run.before);
    if id in s.store.conversations {
      MessagesAreCounted(cfg, run.before, id);
      CountsStep(cfg, s, e, id);
    } else {
      NewConversation(cfg, s, e, id);
      NothingPrunedYet(cfg, run.before, id);
    }
  }
}
