/** The promises of the conversation store over every run. */
module ConversationTheorems {
  import opened Common
  import opened Conversations
  import opened ConversationInvariants
  import opened ConversationRuns

  /* Leases. */

  ghost predicate Grants(cfg: Config, s: State, e: Event, id: nat, turn: nat) {
    && e.Begin? && e.id == id && SerialsFit(s.store, id, e.user, e.answer)
    && var r := BeginTurn(s.store, cfg, e.owner, id, e.client, e.prompt, e.user, e.answer).1;
       r == Started(turn) || r == Resumed(turn)
  }

  ghost predicate CommitsFinish(s: State, e: Event, id: nat, turn: nat) {
    e.Finish? && e.id == id && e.turn == turn && FinishTurn(s.store, e.owner, id, turn, e.reply).1
  }

  ghost function GrantCount(cfg: Config, run: Run, id: nat, turn: nat): nat {
    match run
    case Boot(_) => 0
    case Then(before, e) =>
      GrantCount(cfg, before, id, turn) + if Grants(cfg, After(cfg, before), e, id, turn) then 1 else 0
  }

  ghost function FinishCount(cfg: Config, run: Run, id: nat, turn: nat): nat {
    match run
    case Boot(_) => 0
    case Then(before, e) =>
      FinishCount(cfg, before, id, turn) + if CommitsFinish(After(cfg, before), e, id, turn) then 1 else 0
  }

  predicate Active(s: Store, id: nat, turn: nat) {
    id in s.conversations && s.conversations[id].lease.Some? && s.conversations[id].lease.value.turn == turn
  }

  /** A turn becomes active only by a grant, and a committed finish ends an active one. */
  lemma LeaseStep(cfg: Config, s: State, e: Event, id: nat, turn: nat)
    requires StateOk(s)
    ensures Active(Next(cfg, s, e).store, id, turn) ==> Active(s.store, id, turn) || Grants(cfg, s, e, id, turn)
    ensures CommitsFinish(s, e, id, turn) ==> Active(s.store, id, turn) && !Active(Next(cfg, s, e).store, id, turn)
  {
  }

  /** Each grant of a turn's lease is consumed by at most one committed finish. */
  lemma {:induction false} FinishesConsumeGrants(cfg: Config, run: Run, id: nat, turn: nat)
    ensures FinishCount(cfg, run, id, turn) + (if Active(After(cfg, run).store, id, turn) then 1 else 0)
         <= GrantCount(cfg, run, id, turn)
  {
    if run.Then? {
      FinishesConsumeGrants(cfg, run.before, id, turn);
      Reachable(cfg, run.before);
      LeaseStep(cfg, After(cfg, run.before), run.event, id, turn);
    }
  }

  /** The active turn of a conversation always has its answer row, and it is pending. */
  lemma {:induction false} ActiveTurnIsPending(cfg: Config, run: Run, id: nat, turn: nat)
    requires Active(After(cfg, run).store, id, turn)
    ensures PendingAnswer(After(cfg, run).store.conversations[id].messages, turn)
  {
    Reachable(cfg, run);
  }

  /* Along a run. */

  predicate Extends(later: Run, run: Run) {
    later == run || (later.Then? && Extends(later.before, run))
  }

  lemma EvolvesTransitive(a: Conversation, b: Conversation, c: Conversation)
    requires Evolves(a, b) && Evolves(b, c)
    ensures Evolves(a, c)
  {
  }

  lemma StoreEvolvesTransitive(a: Store, b: Store, c: Store)
    requires StoreOk(a) && StoreEvolves(a, b) && StoreEvolves(b, c)
    ensures StoreEvolves(a, c)
  {
    forall id | id in c.conversations
      ensures if id in a.conversations then Evolves(a.conversations[id], c.conversations[id]) else a.nextConversation <= id
    {
      if id in a.conversations && id in b.conversations {
        EvolvesTransitive(a.conversations[id], b.conversations[id], c.conversations[id]);
      }
    }
  }

  lemma {:induction false} RunEvolves(cfg: Config, run: Run, later: Run)
    requires Extends(later, run)
    ensures StoreEvolves(After(cfg, run).store, After(cfg, later).store)
  {
    Reachable(cfg, run);
    if later != run {
      RunEvolves(cfg, run, later.before);
      Reachable(cfg, later.before);
      StepKeeps(cfg, After(cfg, later.before), later.event);
      StoreEvolvesTransitive(After(cfg, run).store, After(cfg, later.before).store, After(cfg, later).store);
    }
  }

  ghost predicate HasRow(s: Store, id: nat, k: nat) {
    id in s.conversations && k in s.conversations[id].messages
  }

  /** A completed message is never changed by anything that happens later, for as long as it exists. */
  lemma {:induction false} CompletedIsFinal(cfg: Config, run: Run, later: Run, id: nat, k: nat)
    requires Extends(later, run)
    requires HasRow(After(cfg, run).store, id, k) && HasRow(After(cfg, later).store, id, k)
    requires After(cfg, run).store.conversations[id].messages[k].status.Completed?
    ensures After(cfg, later).store.conversations[id].messages[k] == After(cfg, run).store.conversations[id].messages[k]
  {
    Reachable(cfg, run);
    RunEvolves(cfg, run, later);
  }

  /** A message that is gone from a conversation never comes back. */
  lemma {:induction false} GoneStaysGone(cfg: Config, run: Run, later: Run, id: nat, k: nat)
    requires Extends(later, run) && id in After(cfg, run).store.conversations
    requires k <= After(cfg, run).store.conversations[id].lastId && !HasRow(After(cfg, run).store, id, k)
    ensures !HasRow(After(cfg, later).store, id, k)
  {
    RunEvolves(cfg, run, later);
  }

  ghost predicate CommitsUpdate(s: State, e: Event) {
    e.Update? && e.ticket < |s.tickets| && s.tickets[e.ticket].Chosen? && Summarised(s.store, s.tickets[e.ticket], e.summary).1
  }

  lemma PruneStep(cfg: Config, s: State, e: Event, id: nat, k: nat)
    requires StateOk(s) && HasRow(s.store, id, k) && id in Next(cfg, s, e).store.conversations
    requires !HasRow(Next(cfg, s, e).store, id, k)
    ensures CommitsUpdate(s, e) && s.tickets[e.ticket].id == id
    ensures Prunable(s.store.conversations[id].messages, s.tickets[e.ticket].upTo, k)
  {
  }

  /** A message leaves a surviving conversation only by a committed summary update that covers it,
      and only when it is complete. */
  lemma {:induction false} OnlySummariesPrune(cfg: Config, run: Run, e: Event, id: nat, k: nat)
    requires HasRow(After(cfg, run).store, id, k) && id in After(cfg, Then(run, e)).store.conversations
    requires !HasRow(After(cfg, Then(run, e)).store, id, k)
    ensures CommitsUpdate(After(cfg, run), e) && After(cfg, run).tickets[e.ticket].id == id
    ensures Prunable(After(cfg, run).store.conversations[id].messages, After(cfg, run).tickets[e.ticket].upTo, k)
  {
    Reachable(cfg, run);
    PruneStep(cfg, After(cfg, run), e, id, k);
  }

  /* Summaries. */

  /** A committed update strictly increases both the version and the covered id. */
  lemma {:induction false} UpdateAdvances(cfg: Config, run: Run, e: Event)
    requires CommitsUpdate(After(cfg, run), e)
    ensures var id := After(cfg, run).tickets[e.ticket].id;
            var before, after := After(cfg, run).store.conversations, After(cfg, Then(run, e)).store.conversations;
            && id in before && id in after
            && before[id].version < after[id].version && before[id].through < after[id].through
  {
    Reachable(cfg, run);
  }

  /** Every surviving user message lies past the summary and still has its answer row. */
  lemma {:induction false} SurvivorsArePastSummary(cfg: Config, run: Run, id: nat, k: nat)
    requires HasRow(After(cfg, run).store, id, k)
    requires After(cfg, run).store.conversations[id].messages[k].role.User?
    ensures var c := After(cfg, run).store.conversations[id];
            c.through < k && AnsweredAfter(c.messages, c.messages[k].turn, k)
  {
    Reachable(cfg, run);
  }

  /** A turn is resumed only when its user message lies past the summary. */
  lemma {:induction false} SummarisedTurnsAreNotResumed(cfg: Config, run: Run, e: Event, id: nat, turn: nat)
    requires e.Begin? && e.id == id && SerialsFit(After(cfg, run).store, id, e.user, e.answer)
    requires BeginTurn(After(cfg, run).store, cfg, e.owner, id, e.client, e.prompt, e.user, e.answer).1 == Resumed(turn)
    ensures var c := After(cfg, run).store.conversations[id];
            exists k :: IsClientRow(c.messages, e.client, k) && c.messages[k].turn == turn && c.through < k
  {
    Reachable(cfg, run);
    var c := After(cfg, run).store.conversations[id];
    var k := ClientRow(c.messages, e.client).value;
    assert IsClientRow(c.messages, e.client, k);
  }

  function AtLeastOne(n: nat): nat {
    if n == 0 then 1 else n
  }

  lemma CandidateIsOlder(messages: Messages, through: nat, recent: nat, upTo: nat, k: nat)
    requires IsCandidate(messages, through, recent, upTo)
    requires |CompletedIds(messages)| >= AtLeastOne(recent)
    requires k in CompletedIds(messages) && |From(CompletedIds(messages), k)| <= AtLeastOne(recent)
    ensures upTo < k
  {
    var ids := CompletedIds(messages);
    var offset := AtLeastOne(recent) - 1;
    AtOffsetCounts(ids, offset);
    var bound := AtOffset(ids, offset).value;
    if k < bound {
      FromGrows(ids, k, bound);
    }
  }

  lemma FromGrows(ids: set<nat>, k: nat, bound: nat)
    requires k in ids && k < bound
    ensures |From(ids, bound)| < |From(ids, k)|
  {
    Smaller(From(ids, bound), From(ids, k), k);
  }

  lemma Smaller(a: set<nat>, b: set<nat>, k: nat)
    requires a <= b && k in b && k !in a
    ensures |a| < |b|
  {
    assert a + (b - a) == b;
    assert k in b - a;
  }

  /** When at least `recent` messages were complete at the second read, the newest `recent` of them
      are not pruned by that attempt's update. */
  lemma {:induction false} NewestSurvive(cfg: Config, run: Run, e: Event, k: nat)
    requires CommitsUpdate(After(cfg, run), e)
    requires var t := After(cfg, run).tickets[e.ticket];
             var ids := CompletedIds(t.snapshot);
             |ids| >= AtLeastOne(t.recent) && k in ids && |From(ids, k)| <= AtLeastOne(t.recent)
    requires HasRow(After(cfg, run).store, After(cfg, run).tickets[e.ticket].id, k)
    ensures HasRow(After(cfg, Then(run, e)).store, After(cfg, run).tickets[e.ticket].id, k)
  {
    Reachable(cfg, run);
    var t := After(cfg, run).tickets[e.ticket];
    CandidateIsOlder(t.snapshot, t.through, t.recent, t.upTo, k);
  }

  /** What an update prunes: every pruned user message is in the transcript as it was; a pruned answer is
      missing from it exactly when it was not complete at the second read, or lies before the last summary. */
  lemma {:induction false} PrunedExceptLateAnswers(cfg: Config, run: Run, e: Event, k: nat)
    requires CommitsUpdate(After(cfg, run), e)
    requires HasRow(After(cfg, run).store, After(cfg, run).tickets[e.ticket].id, k)
    requires !HasRow(After(cfg, Then(run, e)).store, After(cfg, run).tickets[e.ticket].id, k)
    ensures var t := After(cfg, run).tickets[e.ticket];
            var m := After(cfg, run).store.conversations[t.id].messages[k];
            var transcript := Between(t.snapshot, t.through, t.upTo);
            && k in t.snapshot
            && (k in transcript ==> t.snapshot[k] == m)
            && (m.role.User? ==> k in transcript)
            && (k !in transcript <==> !t.snapshot[k].status.Completed? || k <= t.through)
  {
    Reachable(cfg, run);
  }

  /** The update commits and prunes a completed answer that its transcript does not hold. */
  ghost predicate LosesAnswer(cfg: Config, s: State, e: Event, id: nat, k: nat) {
    && CommitsUpdate(s, e) && s.tickets[e.ticket].id == id && HasRow(s.store, id, k)
    && s.store.conversations[id].messages[k].role.Assistant? && s.store.conversations[id].messages[k].status.Completed?
    && !HasRow(Next(cfg, s, e).store, id, k)
    && k !in Between(s.tickets[e.ticket].snapshot, s.tickets[e.ticket].through, s.tickets[e.ticket].upTo)
  }
}
