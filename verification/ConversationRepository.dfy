/** The repository as an object: each transaction works on its own copy of the row and is either
    committed or rolled back. */
module ConversationRepository {
  import opened Common
  import opened Conversations
  import opened ConversationInvariants
  import opened ConversationRuns

  class Repository {
    const cfg: Config
    var now: int
    var nextConversation: nat
    var nextTurn: nat
    var conversations: map<nat, Conversation>

    constructor (cfg: Config, now: int)
      ensures this.cfg == cfg && Valid()
      ensures View() == Store(now, 0, 0, map[])
    {
      this.cfg, this.now, nextConversation, nextTurn, conversations := cfg, now, 0, 0, map[];
    }

    function View(): Store
      reads this
    {
      Store(now, nextConversation, nextTurn, conversations)
    }

    ghost predicate Valid()
      reads this
    {
      StoreOk(View())
    }

    method CountUnexpired(owner: string) returns (count: nat)
      ensures count == |UnexpiredOf(View(), owner)|
    {
      ghost var all := UnexpiredOf(View(), owner);
      count := 0;
      var left := conversations.Keys;
      assert all - left == {};
      while left != {}
        invariant left <= conversations.Keys
        invariant count == |all - left|
        decreases left
      {
        var id :| id in left;
        CountsOneMore(all, left, id);
        left := left - {id};
        if conversations[id].owner == owner && conversations[id].expires > now {
          count := count + 1;
        }
      }
      assert all - left == all;
    }

    method CreateConversation(owner: string) returns (r: Created)
      requires Valid()
      modifies this
      ensures Valid() && (View(), r) == Conversations.CreateConversation(old(View()), cfg, owner)
    {
      CreateKeeps(View(), cfg, owner);
      r := InsertConversation(owner);
    }

    /** The owner's unexpired conversations are counted; a row is inserted while they are below the maximum. */
    method InsertConversation(owner: string) returns (r: Created)
      modifies this
      ensures (View(), r) == Conversations.CreateConversation(old(View()), cfg, owner)
    {
      var active := CountUnexpired(owner);
      if active >= cfg.maxConversations {
        return TooMany;
      }
      r := Made(nextConversation);
      conversations := conversations[nextConversation :=
        Conversation(owner, 0, "", 0, 0, None, now + cfg.retention, 0, map[])];
      nextConversation := nextConversation + 1;
    }

    method BeginTurn(owner: string, id: nat, client: string, prompt: string, user: nat, answer: nat) returns (r: Begun)
      requires Valid() && SerialsFit(View(), id, user, answer)
      modifies this
      ensures Valid() && (View(), r) == Conversations.BeginTurn(old(View()), cfg, owner, id, client, prompt, user, answer)
    {
      BeginKeeps(View(), cfg, owner, id, client, prompt, user, answer);
      if !(id in conversations && conversations[id].owner == owner && conversations[id].expires > now) {
        return Missing;
      }
      var known := FindClient(conversations[id].messages, client);
      if known.Some? {
        r := ResumeTurn(id, known.value);
      } else {
        r := StartTurn(id, client, prompt, user, answer);
      }
    }

    /** The lease columns are written first; a full conversation rolls that back. */
    method StartTurn(id: nat, client: string, prompt: string, user: nat, answer: nat) returns (r: Begun)
      requires id in conversations && user < answer
      modifies this
      ensures (View(), r) == Conversations.StartTurn(old(View()), cfg, id, client, prompt, user, answer)
    {
      var c := conversations[id];
      if !(c.lease.None? || c.lease.value.until < now) {
        return Busy;
      }
      c := c.(lease := Some(Lease(nextTurn, now + cfg.lease)));
      if |c.messages| + 2 > cfg.maxRaw {
        return RawLimit;
      }
      var messages := AllStopped(c.messages);
      messages := messages[user := Message(nextTurn, Some(client), User, Completed, prompt, "", 0, 0)];
      messages := messages[answer := Message(nextTurn, None, Assistant, Pending, "", "", 0, 0)];
      c := c.(messageCount := c.messageCount + 2, expires := now + cfg.retention, lastId := answer, messages := messages);
      r := Started(nextTurn);
      conversations := conversations[id := c];
      nextTurn := nextTurn + 1;
    }

    method ResumeTurn(id: nat, user: nat) returns (r: Begun)
      requires id in conversations && user in conversations[id].messages
      requires TurnsUnique(conversations[id].messages)
      modifies this
      ensures (View(), r) == Conversations.ResumeTurn(old(View()), cfg, id, user)
    {
      var c := conversations[id];
      var turn := c.messages[user].turn;
      var found := FindAnswer(c.messages, turn);
      if found.None? {
        return Missing;
      }
      var k := found.value;
      if c.messages[k].status.Completed? {
        return Duplicate(turn);
      }
      if !(c.lease.None? || c.lease.value.until < now) {
        return Busy;
      }
      c := c.(lease := Some(Lease(turn, now + cfg.lease)));
      c := c.(messages := c.messages[k := Reset(c.messages[k])]);
      conversations := conversations[id := c];
      return Resumed(turn);
    }

    /** The answer is written first; it is rolled back unless the lease was still held by the turn. */
    method FinishTurn(owner: string, id: nat, turn: nat, reply: Reply) returns (committed: bool)
      requires Valid()
      modifies this
      ensures Valid() && (View(), committed) == Conversations.FinishTurn(old(View()), owner, id, turn, reply)
    {
      FinishKeeps(View(), owner, id, turn, reply);
      if id !in conversations || conversations[id].owner != owner {
        return false;
      }
      var c := conversations[id];
      var found := FindAnswer(c.messages, turn);
      if found.None? {
        return false;
      }
      var k := found.value;
      c := c.(messages := c.messages[k := Replied(c.messages[k], reply)]);
      if c.lease.None? || c.lease.value.turn != turn {
        return false;
      }
      c := c.(lease := None);
      conversations := conversations[id := c];
      return true;
    }

    /** The rows stay sound when the covered id is one that the conversation has reached and its summary
        has not passed, as it is for every id taken from the candidates. */
    method UpdateSummary(owner: string, id: nat, version: nat, summary: string, through: nat) returns (committed: bool)
      requires Valid()
      modifies this
      ensures (View(), committed) == Conversations.UpdateSummary(old(View()), owner, id, version, summary, through)
      ensures (id in old(conversations) ==> InReach(old(conversations[id]), through)) ==> Valid()
    {
      if Visible(View(), owner, id) && InReach(conversations[id], through) {
        SummaryKeepsOk(conversations[id], nextTurn, summary, through);
        PutKeeps(View(), id, SummarisedConversation(conversations[id], summary, through), nextTurn);
      }
      if !(id in conversations && conversations[id].owner == owner && conversations[id].expires > now) {
        return false;
      }
      if conversations[id].version != version {
        return false;
      }
      var c := conversations[id].(summary := summary, through := through, version := version + 1);
      c := c.(messages := Pruned(c.messages, through));
      conversations := conversations[id := c];
      return true;
    }

    method DeleteConversation(owner: string, id: nat) returns (found: bool)
      requires Valid()
      modifies this
      ensures Valid() && (View(), found) == Conversations.DeleteConversation(old(View()), owner, id)
    {
      if id in conversations && conversations[id].owner == owner && conversations[id].expires > now {
        DeleteKeeps(View(), {id});
        conversations := conversations - {id};
        return true;
      }
      return false;
    }

    /** At most `limit` expired conversations go, those that expired first before any other. */
    method DeleteExpired(limit: nat) returns (removed: set<nat>)
      requires Valid()
      modifies this
      ensures Valid() && View() == Conversations.DeleteExpired(old(View()), removed)
      ensures Expired(old(View()), removed) && |removed| <= limit
      ensures |removed| == limit || ExpiredIds(View()) == {}
      ensures forall i, j :: i in removed && j in ExpiredIds(View()) ==>
                i in old(conversations) && j in old(conversations) && old(conversations)[i].expires <= old(conversations)[j].expires
    {
      removed := FirstExpired(View(), limit);
      DeleteKeeps(View(), removed);
      conversations := conversations - removed;
    }
  }

  function ExpiredIds(s: Store): set<nat> {
    set id | id in s.conversations && s.conversations[id].expires < s.now
  }

  /** Nothing in `first` expired later than anything in `rest`. */
  ghost predicate Earlier(s: Store, first: set<nat>, rest: set<nat>) {
    forall i, j :: i in first && j in rest ==>
      i in s.conversations && j in s.conversations && s.conversations[i].expires <= s.conversations[j].expires
  }

  method Soonest(s: Store, ids: set<nat>) returns (id: nat)
    requires ids != {} && ids <= s.conversations.Keys
    ensures id in ids && Earlier(s, {id}, ids)
  {
    id :| id in ids;
    var left := ids - {id};
    while left != {}
      invariant left <= ids && id in ids
      invariant Earlier(s, {id}, ids - left)
      decreases left
    {
      var next :| next in left;
      if s.conversations[next].expires < s.conversations[id].expires {
        id := next;
      }
      left := left - {next};
    }
    assert ids - left == ids;
  }

  method FirstExpired(s: Store, limit: nat) returns (first: set<nat>)
    ensures first <= ExpiredIds(s) && |first| <= limit
    ensures |first| == limit || first == ExpiredIds(s)
    ensures Earlier(s, first, ExpiredIds(s) - first)
  {
    first := {};
    var rest := ExpiredIds(s);
    while rest != {} && |first| < limit
      invariant rest == ExpiredIds(s) - first && first <= ExpiredIds(s) && |first| <= limit
      invariant Earlier(s, first, rest)
      decreases rest
    {
      var id := Soonest(s, rest);
      first := first + {id};
      rest := rest - {id};
    }
  }

  lemma CountsOneMore(all: set<nat>, left: set<nat>, id: nat)
    requires id in left
    ensures |all - (left - {id})| == |all - left| + if id in all then 1 else 0
  {
    if id in all {
      assert all - (left - {id}) == (all - left) + {id};
    } else {
      assert all - (left - {id}) == all - left;
    }
  }

  predicate InReach(c: Conversation, through: nat) {
    c.through <= through <= c.lastId
  }

  method FindClient(messages: Messages, client: string) returns (r: Option<nat>)
    requires ClientsUnique(messages)
    ensures r == ClientRow(messages, client)
  {
    if k :| k in messages && messages[k].client == Some(client) {
      var found := k;
      assert IsClientRow(messages, client, found);
      assert SameClient(messages[found], messages[ClientRow(messages, client).value]);
      return Some(found);
    }
    assert forall k :: !IsClientRow(messages, client, k);
    return None;
  }

  method FindAnswer(messages: Messages, turn: nat) returns (r: Option<nat>)
    requires TurnsUnique(messages)
    ensures r == Answer(messages, turn)
  {
    if k :| k in messages && messages[k].role.Assistant? && messages[k].turn == turn {
      var found := k;
      assert IsAnswer(messages, turn, found);
      assert SameTurn(messages[found], messages[Answer(messages, turn).value]);
      return Some(found);
    }
    assert forall k :: !IsAnswer(messages, turn, k);
    return None;
  }
}
