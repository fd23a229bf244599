/** Every interleaving of the conversation store's transactions with the summariser's two reads and
    its update, and what holds after each of them. */
module ConversationRuns {
  import opened Common
  import opened Conversations
  import opened ConversationInvariants

  /** One summarising attempt: first the conversation is read, then the candidates. `upTo` is the last
      message of the transcript; `snapshot` is what the second read saw. */
  datatype Ticket =
    | Loaded(owner: string, id: nat, version: nat, through: nat)
    | Chosen(owner: string, id: nat, version: nat, through: nat, upTo: nat, recent: nat, snapshot: Messages)

  datatype State = State(store: Store, tickets: seq<Ticket>)

  datatype Event =
    | Tick(elapsed: nat)
    | Create(owner: string)
    | Begin(owner: string, id: nat, client: string, prompt: string, user: nat, answer: nat)
    | Finish(owner: string, id: nat, turn: nat, reply: Reply)
    | Load(owner: string, id: nat)
    | Select(ticket: nat, recent: nat, limit: nat, upTo: nat)
    | Update(ticket: nat, summary: string)
    | Delete(owner: string, id: nat)
    | Purge(ids: set<nat>)

  /** The messages of a transcript: the completed ones past the last summary, up to its last message. */
  function Between(messages: Messages, through: nat, upTo: nat): set<nat> {
    set k | k in messages && messages[k].status.Completed? && through < k <= upTo
  }

  /** The sequence hands out serials above all earlier ones of the conversation. */
  predicate SerialsFit(s: Store, id: nat, user: nat, answer: nat) {
    user < answer && (id in s.conversations ==> s.conversations[id].lastId < user)
  }

  predicate CanLoad(s: State, owner: string, id: nat) {
    Visible(s.store, owner, id)
  }

  ghost predicate CanSelect(s: State, i: nat, recent: nat, limit: nat, upTo: nat) {
    && i < |s.tickets| && s.tickets[i].Loaded? && s.tickets[i].id in s.store.conversations
    && var messages := s.store.conversations[s.tickets[i].id].messages;
       && IsCandidate(messages, s.tickets[i].through, recent, upTo)
       && |Between(messages, s.tickets[i].through, upTo)| <= limit
  }

  function SelectedTicket(s: State, i: nat, recent: nat, upTo: nat): Ticket
    requires i < |s.tickets| && s.tickets[i].id in s.store.conversations
  {
    var t := s.tickets[i];
    Chosen(t.owner, t.id, t.version, t.through, upTo, recent, s.store.conversations[t.id].messages)
  }

  ghost function NextStore(cfg: Config, s: State, e: Event): Store {
    match e
    case Tick(elapsed) => s.store.(now := s.store.now + elapsed)
    case Create(owner) => CreateConversation(s.store, cfg, owner).0
    case Begin(owner, id, client, prompt, user, answer) =>
      if SerialsFit(s.store, id, user, answer) then BeginTurn(s.store, cfg, owner, id, client, prompt, user, answer).0 else s.store
    case Finish(owner, id, turn, reply) => FinishTurn(s.store, owner, id, turn, reply).0
    case Load(_, _) => s.store
    case Select(_, _, _, _) => s.store
    case Update(i, summary) =>
      if i < |s.tickets| && s.tickets[i].Chosen? then Summarised(s.store, s.tickets[i], summary).0 else s.store
    case Delete(owner, id) => DeleteConversation(s.store, owner, id).0
    case Purge(ids) => DeleteExpired(s.store, ids)
  }

  function Summarised(s: Store, t: Ticket, summary: string): (Store, bool)
    requires t.Chosen?
  {
    UpdateSummary(s, t.owner, t.id, t.version, summary, t.upTo)
  }

  ghost function NextTickets(s: State, e: Event): seq<Ticket> {
    match e
    case Load(owner, id) =>
      if CanLoad(s, owner, id)
      then s.tickets + [Loaded(owner, id, s.store.conversations[id].version, s.store.conversations[id].through)]
      else s.tickets
    case Select(i, recent, limit, upTo) =>
      if CanSelect(s, i, recent, limit, upTo) then s.tickets[i := SelectedTicket(s, i, recent, upTo)] else s.tickets
    case _ => s.tickets
  }

  ghost function Next(cfg: Config, s: State, e: Event): State {
    State(NextStore(cfg, s, e), NextTickets(s, e))
  }

  datatype Run = Boot(now: int) | Then(before: Run, event: Event)

  ghost function After(cfg: Config, run: Run): State {
    match run
    case Boot(now) => State(Store(now, 0, 0, map[]), [])
    case Then(before, event) => Next(cfg, After(cfg, before), event)
  }

  /* How a conversation may change. */

  predicate SameIdentity(m: Message, n: Message) {
    m.turn == n.turn && m.client == n.client && m.role == n.role
  }

  /** Rows seen before keep their identity, and completed ones do not change at all. */
  ghost predicate RowsEvolve(before: Messages, lastId: nat, after: Messages) {
    forall k :: k in after && k <= lastId ==>
      k in before && SameIdentity(before[k], after[k]) && (before[k].status.Completed? ==> after[k] == before[k])
  }

  ghost predicate Evolves(c: Conversation, d: Conversation) {
    && c.owner == d.owner && c.lastId <= d.lastId && c.version <= d.version && c.through <= d.through
    && (c.version == d.version ==> c.through == d.through)
    && RowsEvolve(c.messages, c.lastId, d.messages)
  }

  ghost predicate StoreEvolves(s: Store, t: Store) {
    && s.nextConversation <= t.nextConversation && s.nextTurn <= t.nextTurn && s.now <= t.now
    && (forall id :: id in t.conversations ==>
          if id in s.conversations then Evolves(s.conversations[id], t.conversations[id]) else s.nextConversation <= id)
  }

  ghost predicate StoreOk(s: Store) {
    forall id :: id in s.conversations ==> id < s.nextConversation && Sound(s.conversations[id], s.nextTurn)
  }

  lemma OkWithMoreTurns(c: Conversation, nextTurn: nat, later: nat)
    requires Sound(c, nextTurn) && nextTurn <= later
    ensures Sound(c, later)
  {
  }

  /** One conversation is replaced. */
  lemma PutKeeps(s: Store, id: nat, c: Conversation, nextTurn: nat)
    requires StoreOk(s) && id in s.conversations && s.nextTurn <= nextTurn
    requires Sound(c, nextTurn) && Evolves(s.conversations[id], c)
    ensures StoreOk(Put(s, id, c).(nextTurn := nextTurn)) && StoreEvolves(s, Put(s, id, c).(nextTurn := nextTurn))
  {
    var t := Put(s, id, c).(nextTurn := nextTurn);
    forall i | i in t.conversations ensures i < t.nextConversation && Sound(t.conversations[i], nextTurn) {
      if i != id {
        OkWithMoreTurns(s.conversations[i], s.nextTurn, nextTurn);
      }
    }
  }

  ghost predicate Kept(s: Store, t: Store) {
    StoreOk(t) && StoreEvolves(s, t)
  }

  lemma NewIsSound(owner: string, expires: int, nextTurn: nat)
    ensures Sound(Conversation(owner, 0, "", 0, 0, None, expires, 0, map[]), nextTurn)
  {
  }

  lemma CreateKeeps(s: Store, cfg: Config, owner: string)
    requires StoreOk(s)
    ensures Kept(s, CreateConversation(s, cfg, owner).0)
  {
    NewIsSound(owner, s.now + cfg.retention, s.nextTurn);
  }

  lemma StartEvolves(c: Conversation, nextTurn: nat, client: string, prompt: string, user: nat, answer: nat, now: int, cfg: Config)
    requires Sound(c, nextTurn) && c.lastId < user < answer
    ensures Evolves(c, StartedConversation(c, nextTurn, client, prompt, user, answer, now, cfg))
  {
  }

  lemma UnchangedIsKept(s: Store)
    requires StoreOk(s)
    ensures Kept(s, s)
  {
  }

  lemma StartOutcome(s: Store, cfg: Config, id: nat, client: string, prompt: string, user: nat, answer: nat)
    requires id in s.conversations && user < answer
    ensures var t := StartTurn(s, cfg, id, client, prompt, user, answer).0;
            t == s || t == Put(s, id, StartedConversation(s.conversations[id], s.nextTurn, client, prompt, user, answer, s.now, cfg))
                             .(nextTurn := s.nextTurn + 1)
  {
  }

  lemma StartedIsSound(s: Store, cfg: Config, id: nat, client: string, prompt: string, user: nat, answer: nat)
    requires StoreOk(s) && id in s.conversations && s.conversations[id].lastId < user < answer
    requires ClientRow(s.conversations[id].messages, client).None?
    ensures var c := s.conversations[id];
            var next := StartedConversation(c, s.nextTurn, client, prompt, user, answer, s.now, cfg);
            Sound(next, s.nextTurn + 1) && Evolves(c, next)
  {
    var c := s.conversations[id];
    StartKeepsOk(c, s.nextTurn, client, prompt, user, answer, s.now, cfg);
    StartEvolves(c, s.nextTurn, client, prompt, user, answer, s.now, cfg);
  }

  lemma StartKeeps(s: Store, cfg: Config, id: nat, client: string, prompt: string, user: nat, answer: nat)
    requires StoreOk(s) && id in s.conversations && SerialsFit(s, id, user, answer)
    requires ClientRow(s.conversations[id].messages, client).None?
    ensures Kept(s, StartTurn(s, cfg, id, client, prompt, user, answer).0)
  {
    UnchangedIsKept(s);
    StartOutcome(s, cfg, id, client, prompt, user, answer);
    StartedIsSound(s, cfg, id, client, prompt, user, answer);
    PutKeeps(s, id, StartedConversation(s.conversations[id], s.nextTurn, client, prompt, user, answer, s.now, cfg), s.nextTurn + 1);
  }

  lemma ResumeKeeps(s: Store, cfg: Config, id: nat, user: nat)
    requires StoreOk(s) && id in s.conversations && user in s.conversations[id].messages
    ensures Kept(s, ResumeTurn(s, cfg, id, user).0)
  {
    var c := s.conversations[id];
    var answer := Answer(c.messages, c.messages[user].turn);
    if answer.Some? && !c.messages[answer.value].status.Completed? {
      ResumeKeepsOk(c, s.nextTurn, answer.value, s.now, cfg);
      PutKeeps(s, id, ResumedConversation(c, answer.value, s.now, cfg), s.nextTurn);
    }
  }

  lemma BeginKeeps(s: Store, cfg: Config, owner: string, id: nat, client: string, prompt: string, user: nat, answer: nat)
    requires StoreOk(s) && SerialsFit(s, id, user, answer)
    ensures Kept(s, BeginTurn(s, cfg, owner, id, client, prompt, user, answer).0)
  {
    if Visible(s, owner, id) {
      var known := ClientRow(s.conversations[id].messages, client);
      if known.Some? {
        ResumeKeeps(s, cfg, id, known.value);
      } else {
        StartKeeps(s, cfg, id, client, prompt, user, answer);
      }
    }
  }

  /** The row that a committed finish writes is the pending answer of the active turn. */
  lemma LeasedAnswerIsPending(c: Conversation, nextTurn: nat)
    requires Sound(c, nextTurn) && c.lease.Some?
    ensures var answer := Answer(c.messages, c.lease.value.turn);
            answer.Some? && c.messages[answer.value].status.Pending?
  {
    var k :| IsAnswer(c.messages, c.lease.value.turn, k) && c.messages[k].status.Pending?;
    var answer := Answer(c.messages, c.lease.value.turn);
    assert SameTurn(c.messages[k], c.messages[answer.value]);
  }

  lemma FinishKeeps(s: Store, owner: string, id: nat, turn: nat, r: Reply)
    requires StoreOk(s)
    ensures Kept(s, FinishTurn(s, owner, id, turn, r).0)
  {
    if FinishTurn(s, owner, id, turn, r).1 {
      var c := s.conversations[id];
      LeasedAnswerIsPending(c, s.nextTurn);
      var answer := Answer(c.messages, turn);
      FinishKeepsOk(c, s.nextTurn, answer.value, r);
      PutKeeps(s, id, FinishedConversation(c, answer.value, r), s.nextTurn);
    }
  }

  lemma DeleteKeeps(s: Store, ids: set<nat>)
    requires StoreOk(s)
    ensures Kept(s, s.(conversations := s.conversations - ids))
  {
  }

  /* Tickets. */

  /** What survives up to the transcript's end was already there at the second read, and if it was
      complete then, it is unchanged. */
  ghost predicate SnapshotCovers(messages: Messages, t: Ticket)
    requires t.Chosen?
  {
    RowsEvolve(t.snapshot, t.upTo, messages)
  }

  ghost predicate TicketFits(c: Conversation, t: Ticket) {
    && c.owner == t.owner && t.version <= c.version && (t.version == c.version ==> t.through == c.through)
    && (t.Chosen? ==> t.through < t.upTo <= c.lastId && SnapshotCovers(c.messages, t))
    && (t.Chosen? ==> RolesFit(t.snapshot) && IsCandidate(t.snapshot, t.through, t.recent, t.upTo))
  }

  ghost predicate TicketOk(s: Store, t: Ticket) {
    t.id < s.nextConversation && (t.id in s.conversations ==> TicketFits(s.conversations[t.id], t))
  }

  lemma TicketKeeps(s: Store, s': Store, t: Ticket)
    requires TicketOk(s, t) && StoreEvolves(s, s')
    ensures TicketOk(s', t)
  {
  }

  lemma SelectedFits(c: Conversation, nextTurn: nat, t: Ticket, recent: nat, upTo: nat)
    requires Sound(c, nextTurn) && t.Loaded? && TicketFits(c, t) && IsCandidate(c.messages, t.through, recent, upTo)
    ensures TicketFits(c, Chosen(t.owner, t.id, t.version, t.through, upTo, recent, c.messages))
  {
  }

  ghost predicate StateOk(s: State) {
    StoreOk(s.store) && forall i :: 0 <= i < |s.tickets| ==> TicketOk(s.store, s.tickets[i])
  }

  lemma UpdateKeeps(s: Store, t: Ticket, summary: string)
    requires StoreOk(s) && t.Chosen? && TicketOk(s, t)
    ensures Kept(s, Summarised(s, t, summary).0)
  {
    if Summarised(s, t, summary).1 {
      var c := s.conversations[t.id];
      SummaryKeepsOk(c, s.nextTurn, summary, t.upTo);
      PutKeeps(s, t.id, SummarisedConversation(c, summary, t.upTo), s.nextTurn);
    }
  }

  lemma StoreKeeps(cfg: Config, s: State, e: Event)
    requires StateOk(s)
    ensures Kept(s.store, NextStore(cfg, s, e))
  {
    match e
    case Create(owner) => CreateKeeps(s.store, cfg, owner);
    case Begin(owner, id, client, prompt, user, answer) =>
      if SerialsFit(s.store, id, user, answer) {
        BeginKeeps(s.store, cfg, owner, id, client, prompt, user, answer);
      }
    case Finish(owner, id, turn, reply) => FinishKeeps(s.store, owner, id, turn, reply);
    case Update(i, summary) =>
      if i < |s.tickets| && s.tickets[i].Chosen? {
        UpdateKeeps(s.store, s.tickets[i], summary);
      }
    case Delete(owner, id) => DeleteKeeps(s.store, {id});
    case Purge(ids) => DeleteKeeps(s.store, ids);
    case _ =>
  }

  lemma TicketsKeep(cfg: Config, s: State, e: Event)
    requires StateOk(s)
    ensures forall i :: 0 <= i < |NextTickets(s, e)| ==> TicketOk(s.store, NextTickets(s, e)[i])
  {
    if e.Select? && CanSelect(s, e.ticket, e.recent, e.limit, e.upTo) {
      var t := s.tickets[e.ticket];
      SelectedFits(s.store.conversations[t.id], s.store.nextTurn, t, e.recent, e.upTo);
    }
  }

  lemma StepKeeps(cfg: Config, s: State, e: Event)
    requires StateOk(s)
    ensures StateOk(Next(cfg, s, e)) && StoreEvolves(s.store, Next(cfg, s, e).store)
  {
    StoreKeeps(cfg, s, e);
    TicketsKeep(cfg, s, e);
    var next := Next(cfg, s, e);
    forall i | 0 <= i < |next.tickets| ensures TicketOk(next.store, next.tickets[i]) {
      TicketKeeps(s.store, next.store, next.tickets[i]);
    }
  }

  lemma {:induction false} Reachable(cfg: Config, run: Run)
    ensures StateOk(After(cfg, run))
  {
    if run.Then? {
      Reachable(cfg, run.before);
      StepKeeps(cfg, After(cfg, run.before), run.event);
    }
  }
}
