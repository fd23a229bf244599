/** The transactions of the assistant's conversation store, as steps on rows. A conversation row is
    held together with its message rows, which share its lifetime through the cascading key. Every
    transaction is one step at the time its clock reads; a rolled-back one changes nothing. */
module Conversations {
  import opened Common

  datatype Role = User | Assistant

  datatype Status = Pending | Completed | Stopped | Failed

  datatype Message = Message(
    turn: nat, client: Option<string>, role: Role, status: Status,
    content: string, tool: string, inputTokens: nat, outputTokens: nat)

  type Messages = map<nat, Message>

  datatype Lease = Lease(turn: nat, until: int)

  /** `lastId` is the highest serial given to one of the conversation's messages. */
  datatype Conversation = Conversation(
    owner: string, messageCount: nat, summary: string, through: nat, version: nat,
    lease: Option<Lease>, expires: int, lastId: nat, messages: Messages)

  datatype Store = Store(now: int, nextConversation: nat, nextTurn: nat, conversations: map<nat, Conversation>)

  datatype Config = Config(retention: nat, lease: nat, maxConversations: nat, maxRaw: nat)

  /* Lookups. */

  predicate Owns(s: Store, owner: string, id: nat) {
    id in s.conversations && s.conversations[id].owner == owner
  }

  /** The owner's conversation, unless it has expired. */
  predicate Visible(s: Store, owner: string, id: nat) {
    Owns(s, owner, id) && s.conversations[id].expires > s.now
  }

  predicate LeaseFree(c: Conversation, now: int) {
    c.lease.None? || c.lease.value.until < now
  }

  predicate IsClientRow(messages: Messages, client: string, k: nat) {
    k in messages && messages[k].client == Some(client)
  }

  predicate IsAnswer(messages: Messages, turn: nat, k: nat) {
    k in messages && messages[k].role.Assistant? && messages[k].turn == turn
  }

  ghost function ClientRow(messages: Messages, client: string): Option<nat> {
    if exists k :: IsClientRow(messages, client, k) then
      var k :| IsClientRow(messages, client, k);
      Some(k)
    else None
  }

  ghost function Answer(messages: Messages, turn: nat): Option<nat> {
    if exists k :: IsAnswer(messages, turn, k) then
      var k :| IsAnswer(messages, turn, k);
      Some(k)
    else None
  }

  /* What a transaction makes of a conversation row. */

  function Granted(c: Conversation, turn: nat, now: int, cfg: Config): Conversation {
    c.(lease := Some(Lease(turn, now + cfg.lease)))
  }

  function Reset(m: Message): Message {
    m.(status := Pending, content := "", tool := "", inputTokens := 0, outputTokens := 0)
  }

  function ResumedConversation(c: Conversation, answer: nat, now: int, cfg: Config): Conversation
    requires answer in c.messages
  {
    var granted := Granted(c, c.messages[answer].turn, now, cfg);
    granted.(messages := c.messages[answer := Reset(c.messages[answer])])
  }

  function StoppedIfPending(m: Message): Message {
    if m.role.Assistant? && m.status.Pending? then m.(status := Stopped) else m
  }

  function AllStopped(messages: Messages): Messages {
    map k | k in messages :: StoppedIfPending(messages[k])
  }

  function StartedConversation(
    c: Conversation, turn: nat, client: string, prompt: string, user: nat, answer: nat, now: int, cfg: Config): Conversation
    requires user < answer
  {
    var stopped := AllStopped(c.messages);
    Granted(c, turn, now, cfg).(
      messageCount := c.messageCount + 2, expires := now + cfg.retention, lastId := answer,
      messages := stopped[user := Message(turn, Some(client), User, Completed, prompt, "", 0, 0)]
                         [answer := Message(turn, None, Assistant, Pending, "", "", 0, 0)])
  }

  datatype Reply = Reply(status: Status, content: string, tool: string, inputTokens: nat, outputTokens: nat)

  function Replied(m: Message, r: Reply): Message {
    m.(status := r.status, content := r.content, tool := r.tool, inputTokens := r.inputTokens, outputTokens := r.outputTokens)
  }

  function FinishedConversation(c: Conversation, answer: nat, r: Reply): Conversation
    requires answer in c.messages
  {
    c.(lease := None, messages := c.messages[answer := Replied(c.messages[answer], r)])
  }

  predicate Prunable(messages: Messages, through: nat, k: nat) {
    k in messages && k <= through && messages[k].status.Completed?
  }

  function Pruned(messages: Messages, through: nat): Messages {
    map k | k in messages && !Prunable(messages, through, k) :: messages[k]
  }

  function SummarisedConversation(c: Conversation, summary: string, through: nat): Conversation {
    c.(summary := summary, through := through, version := c.version + 1, messages := Pruned(c.messages, through))
  }

  /* The transactions. */

  function Put(s: Store, id: nat, c: Conversation): Store {
    s.(conversations := s.conversations[id := c])
  }

  function UnexpiredOf(s: Store, owner: string): set<nat> {
    set id | id in s.conversations && Visible(s, owner, id)
  }

  datatype Created = Made(id: nat) | TooMany

  function CreateConversation(s: Store, cfg: Config, owner: string): (Store, Created) {
    if |UnexpiredOf(s, owner)| >= cfg.maxConversations then (s, TooMany)
    else
      var c := Conversation(owner, 0, "", 0, 0, None, s.now + cfg.retention, 0, map[]);
      (Put(s, s.nextConversation, c).(nextConversation := s.nextConversation + 1), Made(s.nextConversation))
  }

  datatype Begun = Started(turn: nat) | Resumed(turn: nat) | Duplicate(turn: nat) | Busy | Missing | RawLimit

  /** A new turn takes the serials `user` and `answer`, which the sequence hands out in this order. */
  ghost function BeginTurn(
    s: Store, cfg: Config, owner: string, id: nat, client: string, prompt: string, user: nat, answer: nat): (Store, Begun)
    requires user < answer
  {
    if !Visible(s, owner, id) then (s, Missing)
    else
      var c := s.conversations[id];
      var known := ClientRow(c.messages, client);
      if known.Some? then ResumeTurn(s, cfg, id, known.value)
      else StartTurn(s, cfg, id, client, prompt, user, answer)
  }

  ghost function ResumeTurn(s: Store, cfg: Config, id: nat, user: nat): (Store, Begun)
    requires id in s.conversations && user in s.conversations[id].messages
  {
    var c := s.conversations[id];
    var turn := c.messages[user].turn;
    var answer := Answer(c.messages, turn);
    if answer.None? then (s, Missing)
    else if c.messages[answer.value].status.Completed? then (s, Duplicate(turn))
    else if !LeaseFree(c, s.now) then (s, Busy)
    else (Put(s, id, ResumedConversation(c, answer.value, s.now, cfg)), Resumed(turn))
  }

  function StartTurn(
    s: Store, cfg: Config, id: nat, client: string, prompt: string, user: nat, answer: nat): (Store, Begun)
    requires id in s.conversations && user < answer
  {
    var c := s.conversations[id];
    if !LeaseFree(c, s.now) then (s, Busy)
    else if |c.messages| + 2 > cfg.maxRaw then (s, RawLimit)
    else
      var started := StartedConversation(c, s.nextTurn, client, prompt, user, answer, s.now, cfg);
      (Put(s, id, started).(nextTurn := s.nextTurn + 1), Started(s.nextTurn))
  }

  /** Whether the finish is committed; expiry is not looked at. */
  ghost function FinishTurn(s: Store, owner: string, id: nat, turn: nat, r: Reply): (Store, bool) {
    if !Owns(s, owner, id) then (s, false)
    else
      var c := s.conversations[id];
      var answer := Answer(c.messages, turn);
      if answer.None? || c.lease.None? || c.lease.value.turn != turn then (s, false)
      else (Put(s, id, FinishedConversation(c, answer.value, r)), true)
  }

  function UpdateSummary(s: Store, owner: string, id: nat, version: nat, summary: string, through: nat): (Store, bool) {
    if !Visible(s, owner, id) || s.conversations[id].version != version then (s, false)
    else (Put(s, id, SummarisedConversation(s.conversations[id], summary, through)), true)
  }

  function DeleteConversation(s: Store, owner: string, id: nat): (Store, bool) {
    if Visible(s, owner, id) then (s.(conversations := s.conversations - {id}), true) else (s, false)
  }

  predicate Expired(s: Store, ids: set<nat>) {
    forall id :: id in ids ==> id in s.conversations && s.conversations[id].expires < s.now
  }

  /** One purge removes some of the expired conversations. */
  function DeleteExpired(s: Store, ids: set<nat>): Store {
    if Expired(s, ids) then s.(conversations := s.conversations - ids) else s
  }

  /* Candidates for a summary. */

  function CompletedIds(messages: Messages): set<nat> {
    set k | k in messages && messages[k].status.Completed?
  }

  lemma {:induction false} NewestExists(ids: set<nat>)
    requires ids != {}
    ensures exists m :: m in ids && AllUpTo(ids, m)
  {
    var k :| k in ids;
    if ids == {k} {
      assert AllUpTo(ids, k);
    } else {
      NewestExists(ids - {k});
      var m :| m in ids - {k} && AllUpTo(ids - {k}, m);
      var best := if m > k then m else k;
      forall i | i in ids ensures i <= best {
        assert i == k || i in ids - {k};
      }
      assert AllUpTo(ids, best);
    }
  }

  ghost predicate AllUpTo(ids: set<nat>, m: nat) {
    forall k :: k in ids ==> k <= m
  }

  ghost function Newest(ids: set<nat>): (m: nat)
    requires ids != {}
    ensures m in ids && AllUpTo(ids, m)
  {
    NewestExists(ids);
    var m :| m in ids && AllUpTo(ids, m);
    m
  }

  /** The id at an offset in the order from newest to oldest. */
  ghost function AtOffset(ids: set<nat>, offset: nat): Option<nat> {
    if ids == {} then None
    else if offset == 0 then Some(Newest(ids))
    else AtOffset(ids - {Newest(ids)}, offset - 1)
  }

  function From(ids: set<nat>, k: nat): set<nat> {
    set i | i in ids && i >= k
  }

  /** The id at offset n is the one with exactly n newer ones; there is none exactly when there are at most n ids. */
  lemma {:induction false} AtOffsetCounts(ids: set<nat>, offset: nat)
    ensures AtOffset(ids, offset).None? <==> |ids| <= offset
    ensures AtOffset(ids, offset).Some? ==>
              AtOffset(ids, offset).value in ids && |From(ids, AtOffset(ids, offset).value)| == offset + 1
  {
    if ids != {} {
      var m := Newest(ids);
      if offset == 0 {
        assert From(ids, m) == {m};
      } else {
        AtOffsetCounts(ids - {m}, offset - 1);
        var r := AtOffset(ids - {m}, offset - 1);
        if r.Some? {
          assert From(ids, r.value) == From(ids - {m}, r.value) + {m};
        }
      }
    }
  }

  /** Completed, past the last summary, and older than the `recent` newest completed messages when
      there are that many; all completed ones otherwise. */
  ghost predicate IsCandidate(messages: Messages, through: nat, recent: nat, k: nat) {
    var bound := AtOffset(CompletedIds(messages), if recent == 0 then 0 else recent - 1);
    k in CompletedIds(messages) && through < k && (bound.Some? ==> k < bound.value)
  }
}
