/** A run in which an answer is pruned that no summary ever saw: it was stopped when the candidates were
    read, then its turn was resumed and finished, and then the summary was stored. */
module LateAnswer {
  import opened Common
  import opened Conversations
  import opened ConversationInvariants
  import opened ConversationRuns
  import opened ConversationTheorems

  const SETTINGS := Config(100, 10, 5, 20)
  const ANSWERED := Reply(Completed, "late", "", 0, 0)

  function Question(turn: nat, client: string, prompt: string): Message {
    Message(turn, Some(client), User, Completed, prompt, "", 0, 0)
  }

  function Response(turn: nat, status: Status, content: string): Message {
    Message(turn, None, Assistant, status, content, "", 0, 0)
  }

  function Two(first: Message): Messages {
    map[1 := Question(0, "first", "p"), 2 := first]
  }

  function Four(first: Message, second: Message): Messages {
    map[1 := Question(0, "first", "p"), 2 := first, 3 := Question(1, "second", "q"), 4 := second]
  }

  function Row(count: nat, lease: Option<Lease>, expires: int, lastId: nat, messages: Messages): Conversation {
    Conversation("ann", count, "", 0, 0, lease, expires, lastId, messages)
  }

  function Alone(now: int, nextTurn: nat, c: Conversation): Store {
    Store(now, 1, nextTurn, map[0 := c])
  }

  lemma FirstTurn(s: State)
    requires s.store == Alone(0, 0, Row(0, None, 100, 0, map[]))
    ensures Next(SETTINGS, s, Begin("ann", 0, "first", "p", 1, 2))
         == State(Alone(0, 1, Row(2, Some(Lease(0, 10)), 100, 2, Two(Response(0, Pending, "")))), s.tickets)
  {
    assert AllStopped(map[]) == map[];
  }

  lemma SecondTurn(s: State)
    requires s.store == Alone(11, 1, Row(2, Some(Lease(0, 10)), 100, 2, Two(Response(0, Pending, ""))))
    ensures Next(SETTINGS, s, Begin("ann", 0, "second", "q", 3, 4))
         == State(Alone(11, 2, Row(4, Some(Lease(1, 21)), 111, 4, Four(Response(0, Stopped, ""), Response(1, Pending, "")))), s.tickets)
  {
    var messages := Two(Response(0, Pending, ""));
    assert ClientRow(messages, "second").None?;
    assert AllStopped(messages) == Two(Response(0, Stopped, ""));
  }

  lemma Finished(s: State, c: Conversation, turn: nat, until: int, answer: nat)
    requires s.store == Alone(11, 2, c) && c.owner == "ann" && c.lease == Some(Lease(turn, until))
    requires IsAnswer(c.messages, turn, answer) && TurnsUnique(c.messages)
    ensures Next(SETTINGS, s, Finish("ann", 0, turn, ANSWERED))
         == State(Alone(11, 2, FinishedConversation(c, answer, ANSWERED)), s.tickets)
  {
    var k := Answer(c.messages, turn).value;
    assert SameTurn(c.messages[k], c.messages[answer]);
  }

  const SEEN := Four(Response(0, Stopped, ""), Response(1, Completed, "late"))

  lemma ThirdIsCandidate()
    ensures IsCandidate(SEEN, 0, 1, 3) && |Between(SEEN, 0, 3)| <= 50
  {
    assert CompletedIds(SEEN) == {1, 3, 4};
    assert Newest({1, 3, 4}) == 4;
    assert AtOffset(CompletedIds(SEEN), 0) == Some(4);
    assert Between(SEEN, 0, 3) == {1, 3};
  }

  lemma Reading(s: State)
    requires s.store == Alone(11, 2, Row(4, None, 111, 4, SEEN)) && s.tickets == []
    ensures Next(SETTINGS, Next(SETTINGS, s, Load("ann", 0)), Select(0, 1, 50, 3))
         == State(s.store, [Chosen("ann", 0, 0, 0, 3, 1, SEEN)])
  {
    ThirdIsCandidate();
  }

  lemma Resuming(s: State)
    requires s.store == Alone(11, 2, Row(4, None, 111, 4, SEEN))
    ensures Next(SETTINGS, s, Begin("ann", 0, "first", "p", 5, 6))
         == State(Alone(11, 2, Row(4, Some(Lease(0, 21)), 111, 4,
                                   Four(Response(0, Pending, ""), Response(1, Completed, "late")))), s.tickets)
  {
    assert IsClientRow(SEEN, "first", 1);
    assert ClientRow(SEEN, "first") == Some(1);
    assert IsAnswer(SEEN, 0, 2);
    assert Answer(SEEN, 0) == Some(2);
    assert SEEN[2 := Reset(SEEN[2])] == Four(Response(0, Pending, ""), Response(1, Completed, "late"));
  }

  const COMPLETE := Four(Response(0, Completed, "late"), Response(1, Completed, "late"))

  lemma Losing(s: State)
    requires s.store == Alone(11, 2, Row(4, None, 111, 4, COMPLETE))
    requires s.tickets == [Chosen("ann", 0, 0, 0, 3, 1, SEEN)]
    ensures LosesAnswer(SETTINGS, s, Update(0, "s"), 0, 2)
  {
  }

  lemma Opened() returns (run: Run)
    ensures After(SETTINGS, run) == State(Alone(0, 0, Row(0, None, 100, 0, map[])), [])
  {
    var boot := Boot(0);
    run := Then(boot, Create("ann"));
    assert UnexpiredOf(After(SETTINGS, boot).store, "ann") == {};
  }

  lemma AskedTwice() returns (run: Run)
    ensures After(SETTINGS, run)
         == State(Alone(11, 2, Row(4, Some(Lease(1, 21)), 111, 4, Four(Response(0, Stopped, ""), Response(1, Pending, "")))), [])
  {
    var created := Opened();
    FirstTurn(After(SETTINGS, created));
    var asked := Then(created, Begin("ann", 0, "first", "p", 1, 2));
    var later := Then(asked, Tick(11));
    assert After(SETTINGS, later).store == Alone(11, 1, Row(2, Some(Lease(0, 10)), 100, 2, Two(Response(0, Pending, ""))));
    SecondTurn(After(SETTINGS, later));
    run := Then(later, Begin("ann", 0, "second", "q", 3, 4));
  }

  lemma ReadWhileStopped() returns (run: Run)
    ensures After(SETTINGS, run) == State(Alone(11, 2, Row(4, None, 111, 4, SEEN)), [Chosen("ann", 0, 0, 0, 3, 1, SEEN)])
  {
    var asked := AskedTwice();
    var c := After(SETTINGS, asked).store.conversations[0];
    Finished(After(SETTINGS, asked), c, 1, 21, 4);
    var answered := Then(asked, Finish("ann", 0, 1, ANSWERED));
    assert FinishedConversation(c, 4, ANSWERED) == Row(4, None, 111, 4, SEEN);
    Reading(After(SETTINGS, answered));
    run := Then(Then(answered, Load("ann", 0)), Select(0, 1, 50, 3));
  }

  lemma ResumedAfterwards() returns (run: Run)
    ensures After(SETTINGS, run) == State(
              Alone(11, 2, Row(4, Some(Lease(0, 21)), 111, 4, Four(Response(0, Pending, ""), Response(1, Completed, "late")))),
              [Chosen("ann", 0, 0, 0, 3, 1, SEEN)])
  {
    var read := ReadWhileStopped();
    Resuming(After(SETTINGS, read));
    run := Then(read, Begin("ann", 0, "first", "p", 5, 6));
  }

  lemma LateRow(c: Conversation)
    requires c == Row(4, Some(Lease(0, 21)), 111, 4, Four(Response(0, Pending, ""), Response(1, Completed, "late")))
    ensures FinishedConversation(c, 2, ANSWERED) == Row(4, None, 111, 4, COMPLETE)
    ensures IsAnswer(c.messages, 0, 2) && TurnsUnique(c.messages)
  {
  }

  lemma AnsweredLate() returns (run: Run)
    ensures After(SETTINGS, run) == State(Alone(11, 2, Row(4, None, 111, 4, COMPLETE)), [Chosen("ann", 0, 0, 0, 3, 1, SEEN)])
  {
    var resumed := ResumedAfterwards();
    var c := After(SETTINGS, resumed).store.conversations[0];
    LateRow(c);
    Finished(After(SETTINGS, resumed), c, 0, 21, 2);
    run := Then(resumed, Finish("ann", 0, 0, ANSWERED));
  }

  /** A completed answer can be lost: it is pruned by a summary whose transcript does not hold it. */
  lemma CompletedAnswerCanBeLost() returns (run: Run)
    ensures LosesAnswer(SETTINGS, After(SETTINGS, run), Update(0, "s"), 0, 2)
  {
    run := AnsweredLate();
    Losing(After(SETTINGS, run));
  }
}
