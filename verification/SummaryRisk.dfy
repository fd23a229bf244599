/** Which answers a summarising attempt may still lose, told from what its second read saw: an answer can be
    pruned without having been summarised exactly when it is at risk at that moment. */
module SummaryRisk {
  import opened Common
  import opened Conversations
  import opened ConversationInvariants
  import opened ConversationRuns
  import opened ConversationTheorems
  import opened ConversationLimits

  ghost predicate HasQuestion(messages: Messages, turn: nat) {
    exists u :: u in messages && messages[u].role.User? && messages[u].turn == turn
  }

  /** The turn can still be finished: it holds the lease, or its question survives and can be sent again. */
  ghost predicate Finishable(c: Conversation, turn: nat) {
    (c.lease.Some? && c.lease.value.turn == turn) || HasQuestion(c.messages, turn)
  }

  /** An answer within the transcript's reach that is complete but lies before the last summary, or that is
      not complete and can still be finished. */
  ghost predicate AtRisk(c: Conversation, through: nat, upTo: nat, k: nat) {
    && k in c.messages && c.messages[k].role.Assistant? && k <= upTo
    && if c.messages[k].status.Completed? then k <= through else Finishable(c, c.messages[k].turn)
  }

  /** The attempt's update would be committed now. */
  predicate StillOpen(s: Store, t: Ticket) {
    Visible(s, t.owner, t.id) && s.conversations[t.id].version == t.version
  }

  /* Tickets stay. */

  lemma {:induction false} ChosenStays(cfg: Config, run: Run, later: Run, i: nat)
    requires Extends(later, run) && i < |After(cfg, run).tickets| && After(cfg, run).tickets[i].Chosen?
    ensures i < |After(cfg, later).tickets| && After(cfg, later).tickets[i] == After(cfg, run).tickets[i]
  {
    if later != run {
      ChosenStays(cfg, run, later.before, i);
    }
  }

  /* An unfinished answer without question and lease is never completed. */

  ghost predicate Abandoned(c: Conversation, k: nat) {
    && k in c.messages && c.messages[k].role.Assistant? && !c.messages[k].status.Completed?
    && !Finishable(c, c.messages[k].turn)
  }

  lemma StartAsksNothingElse(
    c: Conversation, nextTurn: nat, client: string, prompt: string, user: nat, answer: nat, now: int, cfg: Config, turn: nat)
    requires Numbered(c, nextTurn) && c.lastId < user < answer && turn < nextTurn && !HasQuestion(c.messages, turn)
    ensures !HasQuestion(StartedConversation(c, nextTurn, client, prompt, user, answer, now, cfg).messages, turn)
  {
    var next := StartedConversation(c, nextTurn, client, prompt, user, answer, now, cfg).messages;
    forall u | u in next && next[u].role.User? ensures next[u].turn != turn {
      if u != user {
        assert u in c.messages && c.messages[u].role.User? && c.messages[u].turn == next[u].turn;
      }
    }
  }

  lemma StartKeepsAbandoned(
    c: Conversation, nextTurn: nat, client: string, prompt: string, user: nat, answer: nat, now: int, cfg: Config, k: nat)
    requires Numbered(c, nextTurn) && c.lastId < user < answer && Abandoned(c, k)
    ensures Abandoned(StartedConversation(c, nextTurn, client, prompt, user, answer, now, cfg), k)
  {
    StartAsksNothingElse(c, nextTurn, client, prompt, user, answer, now, cfg, c.messages[k].turn);
    assert k != user && k != answer;
  }

  lemma ResumeKeepsAbandoned(c: Conversation, user: nat, answer: nat, now: int, cfg: Config, k: nat)
    requires Abandoned(c, k) && user in c.messages && c.messages[user].role.User?
    requires answer in c.messages && c.messages[answer].role.Assistant? && c.messages[answer].turn == c.messages[user].turn
    ensures Abandoned(ResumedConversation(c, answer, now, cfg), k)
  {
    assert k != answer;
  }

  lemma BeginKeepsAbandoned(cfg: Config, s: Store, e: Event, k: nat)
    requires StoreOk(s) && e.Begin? && SerialsFit(s, e.id, e.user, e.answer) && e.id in s.conversations
    requires Abandoned(s.conversations[e.id], k)
    ensures var t := BeginTurn(s, cfg, e.owner, e.id, e.client, e.prompt, e.user, e.answer).0;
            e.id in t.conversations && Abandoned(t.conversations[e.id], k)
  {
    if Visible(s, e.owner, e.id) {
      var c := s.conversations[e.id];
      var known := ClientRow(c.messages, e.client);
      if known.None? {
        StartKeepsAbandoned(c, s.nextTurn, e.client, e.prompt, e.user, e.answer, s.now, cfg, k);
      } else {
        var answer := Answer(c.messages, c.messages[known.value].turn);
        if answer.Some? {
          ResumeKeepsAbandoned(c, known.value, answer.value, s.now, cfg, k);
        }
      }
    }
  }

  lemma FinishKeepsAbandoned(s: Store, e: Event, k: nat)
    requires e.Finish? && e.id in s.conversations && Abandoned(s.conversations[e.id], k)
    ensures var t := FinishTurn(s, e.owner, e.id, e.turn, e.reply).0;
            e.id in t.conversations && Abandoned(t.conversations[e.id], k)
  {
  }

  lemma AbandonedStep(cfg: Config, s: State, e: Event, id: nat, k: nat)
    requires StateOk(s) && id in s.store.conversations && Abandoned(s.store.conversations[id], k)
    requires HasRow(Next(cfg, s, e).store, id, k)
    ensures Abandoned(Next(cfg, s, e).store.conversations[id], k)
  {
    if e.Begin? && e.id == id && SerialsFit(s.store, id, e.user, e.answer) {
      BeginKeepsAbandoned(cfg, s.store, e, k);
    } else if e.Finish? && e.id == id {
      FinishKeepsAbandoned(s.store, e, k);
    } else if CommitsUpdate(s, e) && s.tickets[e.ticket].id == id {
      assert Next(cfg, s, e).store.conversations[id].lease == s.store.conversations[id].lease;
    } else {
      assert Next(cfg, s, e).store.conversations[id] == s.store.conversations[id];
    }
  }

  lemma {:induction false} AbandonedStays(cfg: Config, run: Run, later: Run, id: nat, k: nat)
    requires Extends(later, run) && id in After(cfg, run).store.conversations
    requires Abandoned(After(cfg, run).store.conversations[id], k) && HasRow(After(cfg, later).store, id, k)
    ensures Abandoned(After(cfg, later).store.conversations[id], k)
  {
    if later != run {
      Reachable(cfg, run);
      Reachable(cfg, later.before);
      RunEvolves(cfg, run, later.before);
      StepKeeps(cfg, After(cfg, later.before), later.event);
      AbandonedStays(cfg, run, later.before, id, k);
      AbandonedStep(cfg, After(cfg, later.before), later.event, id, k);
    }
  }

  /** What an attempt loses later was at risk when its candidates were read, and the attempt was open then. */
  lemma {:induction false} LostWasAtRisk(cfg: Config, run: Run, i: nat, later: Run, summary: string, k: nat)
    requires i < |After(cfg, run).tickets| && After(cfg, run).tickets[i].Chosen?
    requires var t := After(cfg, run).tickets[i];
             t.id in After(cfg, run).store.conversations && t.snapshot == After(cfg, run).store.conversations[t.id].messages
    requires Extends(later, run)
    requires LosesAnswer(cfg, After(cfg, later), Update(i, summary), After(cfg, run).tickets[i].id, k)
    ensures var t := After(cfg, run).tickets[i];
            StillOpen(After(cfg, run).store, t) && AtRisk(After(cfg, run).store.conversations[t.id], t.through, t.upTo, k)
  {
    var t := After(cfg, run).tickets[i];
    var c := After(cfg, run).store.conversations[t.id];
    ChosenStays(cfg, run, later, i);
    Reachable(cfg, run);
    RunEvolves(cfg, run, later);
    if HasExpired(After(cfg, run).store, t.id) {
      ExpiredStaysExpired(cfg, run, later, t.id);
    }
    if Abandoned(c, k) {
      AbandonedStays(cfg, run, later, t.id, k);
    }
  }

  /* From any answer at risk the loss can be brought about. */

  const DONE := Reply(Completed, "", "", 0, 0)
  const GIVEN_UP := Reply(Failed, "", "", 0, 0)

  /** The answer in the attempt's reach was unfinished at the read and is unfinished now. */
  ghost predicate Unfinished(c: Conversation, t: Ticket, k: nat) {
    && t.Chosen? && c.version == t.version && k <= t.upTo && k in t.snapshot && !t.snapshot[k].status.Completed?
    && k in c.messages && c.messages[k].role.Assistant? && !c.messages[k].status.Completed?
  }

  lemma AnswerIsUnique(messages: Messages, k: nat)
    requires TurnsUnique(messages) && k in messages && messages[k].role.Assistant?
    ensures Answer(messages, messages[k].turn) == Some(k)
  {
    assert IsAnswer(messages, messages[k].turn, k);
    var l := Answer(messages, messages[k].turn).value;
    assert SameTurn(messages[k], messages[l]);
  }

  lemma FinishOfHolder(cfg: Config, s: State, owner: string, id: nat, r: Reply)
    requires Owns(s.store, owner, id) && s.store.conversations[id].lease.Some?
    requires Answer(s.store.conversations[id].messages, s.store.conversations[id].lease.value.turn).Some?
    ensures var c := s.store.conversations[id];
            Next(cfg, s, Finish(owner, id, c.lease.value.turn, r))
              == State(Put(s.store, id, FinishedConversation(c, Answer(c.messages, c.lease.value.turn).value, r)), s.tickets)
  {
  }

  /** Another turn gives its lease up. */
  lemma GivingUpKeeps(c: Conversation, nextTurn: nat, t: Ticket, k: nat)
    requires Sound(c, nextTurn) && Unfinished(c, t, k) && c.lease.Some? && c.lease.value.turn != c.messages[k].turn
    requires HasQuestion(c.messages, c.messages[k].turn)
    ensures var answer := Answer(c.messages, c.lease.value.turn);
            && answer.Some?
            && var next := FinishedConversation(c, answer.value, GIVEN_UP);
               Unfinished(next, t, k) && next.lease.None? && HasQuestion(next.messages, next.messages[k].turn)
  {
    LeasedAnswerIsPending(c, nextTurn);
    var next := FinishedConversation(c, Answer(c.messages, c.lease.value.turn).value, GIVEN_UP);
    var u :| u in c.messages && c.messages[u].role.User? && c.messages[u].turn == c.messages[k].turn;
    assert next.messages[u] == c.messages[u];
  }

  lemma QuestionIsFound(messages: Messages, turn: nat) returns (client: string)
    requires RolesFit(messages) && ClientsUnique(messages) && HasQuestion(messages, turn)
    ensures ClientRow(messages, client).Some? && messages[ClientRow(messages, client).value].turn == turn
  {
    var u :| u in messages && messages[u].role.User? && messages[u].turn == turn;
    client := messages[u].client.value;
    assert IsClientRow(messages, client, u);
    assert SameClient(messages[u], messages[ClientRow(messages, client).value]);
  }

  /** The surviving question is sent again, which gives the turn the lease. */
  lemma ResendOf(cfg: Config, s: State, owner: string, id: nat, client: string, k: nat)
    requires Visible(s.store, owner, id) && s.store.conversations[id].lease.None?
    requires var messages := s.store.conversations[id].messages;
             && k in messages && !messages[k].status.Completed? && Answer(messages, messages[k].turn) == Some(k)
             && ClientRow(messages, client).Some? && messages[ClientRow(messages, client).value].turn == messages[k].turn
    ensures var c := s.store.conversations[id];
            Next(cfg, s, Begin(owner, id, client, "", c.lastId + 1, c.lastId + 2))
              == State(Put(s.store, id, ResumedConversation(c, k, s.store.now, cfg)), s.tickets)
  {
  }

  /** The update prunes an answer that was finished after the read. */
  lemma UpdateLoses(cfg: Config, s: State, i: nat, k: nat, c: Conversation, summary: string)
    requires i < |s.tickets| && Visible(s.store, s.tickets[i].owner, s.tickets[i].id) && Unfinished(c, s.tickets[i], k)
    requires s.store.conversations[s.tickets[i].id] == FinishedConversation(c, k, DONE)
    ensures LosesAnswer(cfg, s, Update(i, summary), s.tickets[i].id, k)
  {
  }

  /** The attempt's conversation is visible, and its answer unfinished. */
  ghost predicate Pends(s: State, t: Ticket, k: nat) {
    Visible(s.store, t.owner, t.id) && Unfinished(s.store.conversations[t.id], t, k)
  }

  lemma {:induction false} FreeTheLease(cfg: Config, run: Run, t: Ticket, k: nat) returns (later: Run)
    requires Pends(After(cfg, run), t, k)
    requires var c := After(cfg, run).store.conversations[t.id];
             HasQuestion(c.messages, c.messages[k].turn) && (c.lease.Some? ==> c.lease.value.turn != c.messages[k].turn)
    ensures Extends(later, run) && Pends(After(cfg, later), t, k) && After(cfg, later).tickets == After(cfg, run).tickets
    ensures var c := After(cfg, later).store.conversations[t.id];
            c.lease.None? && HasQuestion(c.messages, c.messages[k].turn)
  {
    var s := After(cfg, run);
    var c := s.store.conversations[t.id];
    later := run;
    if c.lease.Some? {
      Reachable(cfg, run);
      GivingUpKeeps(c, s.store.nextTurn, t, k);
      FinishOfHolder(cfg, s, t.owner, t.id, GIVEN_UP);
      later := Then(run, Finish(t.owner, t.id, c.lease.value.turn, GIVEN_UP));
    }
  }

  lemma {:induction false} TakeTheLease(cfg: Config, run: Run, t: Ticket, k: nat) returns (later: Run)
    requires Pends(After(cfg, run), t, k)
    requires var c := After(cfg, run).store.conversations[t.id];
             c.lease.None? && HasQuestion(c.messages, c.messages[k].turn)
    ensures Extends(later, run) && Pends(After(cfg, later), t, k) && After(cfg, later).tickets == After(cfg, run).tickets
    ensures Active(After(cfg, later).store, t.id, After(cfg, later).store.conversations[t.id].messages[k].turn)
  {
    Reachable(cfg, run);
    var s := After(cfg, run);
    var c := s.store.conversations[t.id];
    AnswerIsUnique(c.messages, k);
    var client := QuestionIsFound(c.messages, c.messages[k].turn);
    ResendOf(cfg, s, t.owner, t.id, client, k);
    later := Then(run, Begin(t.owner, t.id, client, "", c.lastId + 1, c.lastId + 2));
  }

  lemma {:induction false} HolderCanBeLost(cfg: Config, run: Run, i: nat, k: nat, summary: string) returns (later: Run)
    requires i < |After(cfg, run).tickets| && Pends(After(cfg, run), After(cfg, run).tickets[i], k)
    requires var t := After(cfg, run).tickets[i];
             Active(After(cfg, run).store, t.id, After(cfg, run).store.conversations[t.id].messages[k].turn)
    ensures Extends(later, run) && LosesAnswer(cfg, After(cfg, later), Update(i, summary), After(cfg, run).tickets[i].id, k)
  {
    Reachable(cfg, run);
    var s := After(cfg, run);
    var t := s.tickets[i];
    var c := s.store.conversations[t.id];
    AnswerIsUnique(c.messages, k);
    FinishOfHolder(cfg, s, t.owner, t.id, DONE);
    later := Then(run, Finish(t.owner, t.id, c.lease.value.turn, DONE));
    UpdateLoses(cfg, After(cfg, later), i, k, c, summary);
  }

  lemma {:induction false} ExtendsTransitive(a: Run, b: Run, c: Run)
    requires Extends(b, a) && Extends(c, b)
    ensures Extends(c, a)
  {
    if c != b {
      ExtendsTransitive(a, b, c.before);
    }
  }

  /** The attempt's candidates have just been read. */
  ghost predicate JustRead(s: State, i: nat) {
    && i < |s.tickets| && s.tickets[i].Chosen? && s.tickets[i].id in s.store.conversations
    && s.tickets[i].snapshot == s.store.conversations[s.tickets[i].id].messages
  }

  lemma {:induction false} UnfinishedCanBeLost(cfg: Config, run: Run, i: nat, k: nat, summary: string) returns (later: Run)
    requires i < |After(cfg, run).tickets| && Pends(After(cfg, run), After(cfg, run).tickets[i], k)
    requires var c := After(cfg, run).store.conversations[After(cfg, run).tickets[i].id];
             Finishable(c, c.messages[k].turn)
    ensures Extends(later, run) && LosesAnswer(cfg, After(cfg, later), Update(i, summary), After(cfg, run).tickets[i].id, k)
  {
    var t := After(cfg, run).tickets[i];
    var c := After(cfg, run).store.conversations[t.id];
    if c.lease.Some? && c.lease.value.turn == c.messages[k].turn {
      later := HolderCanBeLost(cfg, run, i, k, summary);
    } else {
      var freed := FreeTheLease(cfg, run, t, k);
      var taken := TakeTheLease(cfg, freed, t, k);
      later := HolderCanBeLost(cfg, taken, i, k, summary);
      ExtendsTransitive(run, freed, taken);
      ExtendsTransitive(run, taken, later);
    }
  }

  lemma {:induction false} AtRiskCanBeLost(cfg: Config, run: Run, i: nat, k: nat, summary: string) returns (later: Run)
    requires JustRead(After(cfg, run), i) && StillOpen(After(cfg, run).store, After(cfg, run).tickets[i])
    requires var t := After(cfg, run).tickets[i];
             AtRisk(After(cfg, run).store.conversations[t.id], t.through, t.upTo, k)
    ensures Extends(later, run) && LosesAnswer(cfg, After(cfg, later), Update(i, summary), After(cfg, run).tickets[i].id, k)
  {
    Reachable(cfg, run);
    if After(cfg, run).tickets[i].snapshot[k].status.Completed? {
      later := run;
    } else {
      later := UnfinishedCanBeLost(cfg, run, i, k, summary);
    }
  }

  /** Some continuation of the run lets the attempt's update lose the answer. */
  ghost predicate Losable(cfg: Config, run: Run, i: nat, id: nat, k: nat, summary: string) {
    exists later :: Extends(later, run) && LosesAnswer(cfg, After(cfg, later), Update(i, summary), id, k)
  }

  /** After the candidates are read, the attempt's update can still lose an answer if and only if the attempt is
      open and the answer is at risk at that moment. */
  lemma {:induction false} LosableExactlyWhenAtRisk(cfg: Config, run: Run, i: nat, k: nat, summary: string)
    requires JustRead(After(cfg, run), i)
    ensures var t := After(cfg, run).tickets[i];
            Losable(cfg, run, i, t.id, k, summary) <==>
            StillOpen(After(cfg, run).store, t) && AtRisk(After(cfg, run).store.conversations[t.id], t.through, t.upTo, k)
  {
    var t := After(cfg, run).tickets[i];
    if Losable(cfg, run, i, t.id, k, summary) {
      var later :| Extends(later, run) && LosesAnswer(cfg, After(cfg, later), Update(i, summary), t.id, k);
      LostWasAtRisk(cfg, run, i, later, summary, k);
    }
    if StillOpen(After(cfg, run).store, t) && AtRisk(After(cfg, run).store.conversations[t.id], t.through, t.upTo, k) {
      var later := AtRiskCanBeLost(cfg, run, i, k, summary);
    }
  }

  lemma SelectJustReads(cfg: Config, run: Run, i: nat, recent: nat, limit: nat, upTo: nat)
    requires CanSelect(After(cfg, run), i, recent, limit, upTo)
    ensures JustRead(After(cfg, Then(run, Select(i, recent, limit, upTo))), i)
  {
  }

  /** Right after every second read of the candidates, the attempt's update can still lose an answer if and
      only if the attempt is open and the answer is at risk. */
  lemma {:induction false} SelectedLosableExactlyWhenAtRisk(
    cfg: Config, run: Run, i: nat, recent: nat, limit: nat, upTo: nat, k: nat, summary: string)
    requires CanSelect(After(cfg, run), i, recent, limit, upTo)
    ensures var read := Then(run, Select(i, recent, limit, upTo));
            var s := After(cfg, read);
            && JustRead(s, i)
            && (Losable(cfg, read, i, s.tickets[i].id, k, summary) <==>
                StillOpen(s.store, s.tickets[i])
                && AtRisk(s.store.conversations[s.tickets[i].id], s.tickets[i].through, s.tickets[i].upTo, k))
  {
    SelectJustReads(cfg, run, i, recent, limit, upTo);
    LosableExactlyWhenAtRisk(cfg, Then(run, Select(i, recent, limit, upTo)), i, k, summary);
  }
}
