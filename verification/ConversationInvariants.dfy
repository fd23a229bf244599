/** What every transaction keeps true of a conversation and its messages. */
module ConversationInvariants {
  import opened Common
  import opened Conversations

  /** Serials are within range and turns have been handed out. */
  ghost predicate Numbered(c: Conversation, nextTurn: nat) {
    && (forall k :: k in c.messages ==> 0 < k <= c.lastId && c.messages[k].turn < nextTurn)
    && (c.lease.Some? ==> c.lease.value.turn < nextTurn)
  }

  /** User messages are complete and carry the client's id; answers carry none. */
  ghost predicate RolesFit(messages: Messages) {
    forall k :: k in messages ==>
      if messages[k].role.User? then messages[k].status.Completed? && messages[k].client.Some? else messages[k].client.None?
  }

  predicate SameTurn(m: Message, n: Message) {
    m.turn == n.turn && m.role == n.role
  }

  predicate SameClient(m: Message, n: Message) {
    m.client.Some? && m.client == n.client
  }

  /** One message per turn and role. */
  ghost predicate TurnsUnique(messages: Messages) {
    forall k, l :: k in messages && l in messages && SameTurn(messages[k], messages[l]) ==> k == l
  }

  /** One message per client id. */
  ghost predicate ClientsUnique(messages: Messages) {
    forall k, l :: k in messages && l in messages && SameClient(messages[k], messages[l]) ==> k == l
  }

  ghost predicate AnsweredAfter(messages: Messages, turn: nat, k: nat) {
    exists j :: j > k && IsAnswer(messages, turn, j)
  }

  /** Every user message still has its answer row, which was numbered after it. */
  ghost predicate Paired(messages: Messages) {
    forall k :: k in messages && messages[k].role.User? ==> AnsweredAfter(messages, messages[k].turn, k)
  }

  /** No user message that a summary covers survives. */
  ghost predicate PastSummary(c: Conversation) {
    && c.through <= c.lastId
    && (forall k :: k in c.messages && c.messages[k].role.User? ==> c.through < k)
  }

  ghost predicate PendingAnswer(messages: Messages, turn: nat) {
    exists k :: IsAnswer(messages, turn, k) && messages[k].status.Pending?
  }

  /** The active turn has its answer row, and it is pending. */
  ghost predicate Leased(c: Conversation) {
    c.lease.Some? ==> PendingAnswer(c.messages, c.lease.value.turn)
  }

  ghost predicate RowsOk(messages: Messages) {
    RolesFit(messages) && TurnsUnique(messages) && ClientsUnique(messages) && Paired(messages)
  }

  ghost predicate Sound(c: Conversation, nextTurn: nat) {
    Numbered(c, nextTurn) && RowsOk(c.messages) && PastSummary(c) && Leased(c)
  }

  /* Changes that leave identity columns alone. */

  /** The same rows with the same turn, client and role; user rows are untouched. */
  ghost predicate SameRows(a: Messages, b: Messages) {
    && (forall k :: k in a <==> k in b)
    && (forall k :: k in a ==> a[k].turn == b[k].turn && a[k].client == b[k].client && a[k].role == b[k].role)
    && (forall k :: k in a && a[k].role.User? ==> a[k] == b[k])
  }

  lemma SameRowsKeepUniqueness(a: Messages, b: Messages)
    requires SameRows(a, b) && RolesFit(a) && TurnsUnique(a) && ClientsUnique(a)
    ensures RolesFit(b) && TurnsUnique(b) && ClientsUnique(b)
  {
  }

  lemma SameRowsKeepPairs(a: Messages, b: Messages)
    requires SameRows(a, b) && Paired(a)
    ensures Paired(b)
  {
    forall k | k in b && b[k].role.User? ensures AnsweredAfter(b, b[k].turn, k) {
      assert AnsweredAfter(a, a[k].turn, k);
      var j :| j > k && IsAnswer(a, a[k].turn, j);
      assert IsAnswer(b, b[k].turn, j);
    }
  }

  lemma SameRowsKeepOk(a: Messages, b: Messages)
    requires SameRows(a, b) && RowsOk(a)
    ensures RowsOk(b)
  {
    SameRowsKeepUniqueness(a, b);
    SameRowsKeepPairs(a, b);
  }

  lemma StoppingKeepsRows(messages: Messages)
    requires RolesFit(messages)
    ensures SameRows(messages, AllStopped(messages))
  {
  }

  /* Resume and finish. */

  lemma ResumeKeepsOk(c: Conversation, nextTurn: nat, answer: nat, now: int, cfg: Config)
    requires Sound(c, nextTurn) && answer in c.messages && c.messages[answer].role.Assistant?
    ensures Sound(ResumedConversation(c, answer, now, cfg), nextTurn)
  {
    var next := ResumedConversation(c, answer, now, cfg);
    assert SameRows(c.messages, next.messages);
    SameRowsKeepOk(c.messages, next.messages);
    assert IsAnswer(next.messages, next.lease.value.turn, answer);
  }

  lemma FinishKeepsOk(c: Conversation, nextTurn: nat, answer: nat, r: Reply)
    requires Sound(c, nextTurn) && answer in c.messages && c.messages[answer].role.Assistant?
    ensures Sound(FinishedConversation(c, answer, r), nextTurn)
  {
    var next := FinishedConversation(c, answer, r);
    assert SameRows(c.messages, next.messages);
    SameRowsKeepOk(c.messages, next.messages);
  }

  /* A new turn. */

  function Extended(messages: Messages, user: nat, question: Message, answer: nat, reply: Message): Messages {
    messages[user := question][answer := reply]
  }

  /** A question and its pending answer that no row clashes with. */
  ghost predicate FreshPair(messages: Messages, user: nat, question: Message, answer: nat, reply: Message) {
    && user < answer && user !in messages && answer !in messages
    && question.role.User? && question.status.Completed? && question.client.Some?
    && reply.role.Assistant? && reply.client.None? && reply.turn == question.turn
    && (forall k :: k in messages ==> messages[k].turn != question.turn && messages[k].client != question.client)
  }

  lemma ExtensionKeepsUniqueness(messages: Messages, user: nat, question: Message, answer: nat, reply: Message)
    requires FreshPair(messages, user, question, answer, reply)
    requires RolesFit(messages) && TurnsUnique(messages) && ClientsUnique(messages)
    ensures RolesFit(Extended(messages, user, question, answer, reply))
    ensures TurnsUnique(Extended(messages, user, question, answer, reply))
    ensures ClientsUnique(Extended(messages, user, question, answer, reply))
  {
  }

  lemma ExtensionKeepsPairs(messages: Messages, user: nat, question: Message, answer: nat, reply: Message)
    requires FreshPair(messages, user, question, answer, reply) && Paired(messages)
    ensures Paired(Extended(messages, user, question, answer, reply))
  {
    var next := Extended(messages, user, question, answer, reply);
    assert IsAnswer(next, question.turn, answer);
    forall k | k in next && next[k].role.User? ensures AnsweredAfter(next, next[k].turn, k) {
      if k != user {
        assert AnsweredAfter(messages, messages[k].turn, k);
        var j :| j > k && IsAnswer(messages, messages[k].turn, j);
        assert IsAnswer(next, next[k].turn, j);
      }
    }
  }

  lemma StartKeepsOk(
    c: Conversation, nextTurn: nat, client: string, prompt: string, user: nat, answer: nat, now: int, cfg: Config)
    requires Sound(c, nextTurn) && ClientRow(c.messages, client).None?
    requires c.lastId < user < answer
    ensures Sound(StartedConversation(c, nextTurn, client, prompt, user, answer, now, cfg), nextTurn + 1)
  {
    var next := StartedConversation(c, nextTurn, client, prompt, user, answer, now, cfg);
    var stopped := AllStopped(c.messages);
    StoppingKeepsRows(c.messages);
    SameRowsKeepOk(c.messages, stopped);
    StartedRows(c, nextTurn, client, prompt, user, answer, now, cfg);
    var question, reply := next.messages[user], next.messages[answer];
    ExtensionKeepsUniqueness(stopped, user, question, answer, reply);
    ExtensionKeepsPairs(stopped, user, question, answer, reply);
    assert IsAnswer(next.messages, nextTurn, answer);
  }

  lemma StartedRows(
    c: Conversation, nextTurn: nat, client: string, prompt: string, user: nat, answer: nat, now: int, cfg: Config)
    requires Numbered(c, nextTurn) && ClientRow(c.messages, client).None? && c.lastId < user < answer
    ensures var next := StartedConversation(c, nextTurn, client, prompt, user, answer, now, cfg);
            var stopped := AllStopped(c.messages);
            && user in next.messages && answer in next.messages
            && next.messages == Extended(stopped, user, next.messages[user], answer, next.messages[answer])
            && FreshPair(stopped, user, next.messages[user], answer, next.messages[answer])
  {
    forall k | k in c.messages ensures c.messages[k].client != Some(client) {
      assert !IsClientRow(c.messages, client, k);
    }
  }

  /* A summary. */

  lemma PruningKeepsUniqueness(messages: Messages, through: nat)
    requires RolesFit(messages) && TurnsUnique(messages) && ClientsUnique(messages)
    ensures RolesFit(Pruned(messages, through)) && TurnsUnique(Pruned(messages, through)) && ClientsUnique(Pruned(messages, through))
  {
  }

  lemma PruningKeepsPairs(messages: Messages, through: nat)
    requires RolesFit(messages) && Paired(messages)
    ensures Paired(Pruned(messages, through))
  {
    var next := Pruned(messages, through);
    forall k | k in next && next[k].role.User? ensures AnsweredAfter(next, next[k].turn, k) {
      assert AnsweredAfter(messages, messages[k].turn, k);
      var j :| j > k && IsAnswer(messages, messages[k].turn, j);
      assert !Prunable(messages, through, k) && k > through;
      assert IsAnswer(next, next[k].turn, j);
    }
  }

  lemma SummaryKeepsOk(c: Conversation, nextTurn: nat, summary: string, through: nat)
    requires Sound(c, nextTurn) && c.through <= through <= c.lastId
    ensures Sound(SummarisedConversation(c, summary, through), nextTurn)
  {
    PruningKeepsUniqueness(c.messages, through);
    PruningKeepsPairs(c.messages, through);
    if c.lease.Some? {
      var k :| IsAnswer(c.messages, c.lease.value.turn, k) && c.messages[k].status.Pending?;
      assert IsAnswer(Pruned(c.messages, through), c.lease.value.turn, k);
    }
  }
}
