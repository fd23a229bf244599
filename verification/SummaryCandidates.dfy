/** Reading the candidates of a summary: the ascending list that the transcript is a prefix of. */
module SummaryCandidates {
  import opened Common
  import opened Conversations
  import opened ConversationRuns

  method FindNewest(ids: set<nat>) returns (m: nat)
    requires ids != {}
    ensures m == Newest(ids)
  {
    m :| m in ids;
    var left := ids - {m};
    while left != {}
      invariant left <= ids && m in ids
      invariant forall k :: k in ids ==> k in left || k <= m
      decreases left
    {
      var next :| next in left;
      if next > m {
        m := next;
      }
      left := left - {next};
    }
  }

  method FindAtOffset(ids: set<nat>, offset: nat) returns (r: Option<nat>)
    ensures r == AtOffset(ids, offset)
  {
    var rest, skip := ids, offset;
    while rest != {} && skip > 0
      invariant AtOffset(ids, offset) == AtOffset(rest, skip)
      decreases skip
    {
      var newest := FindNewest(rest);
      rest, skip := rest - {newest}, skip - 1;
    }
    if rest == {} {
      return None;
    }
    var newest := FindNewest(rest);
    return Some(newest);
  }

  predicate Ascending(ids: seq<nat>) {
    forall i, j :: 0 <= i < j < |ids| ==> ids[i] < ids[j]
  }

  function Elements(ids: seq<nat>): set<nat> {
    set k | k in ids
  }

  ghost predicate Below(ids: seq<nat>, rest: set<nat>) {
    forall i, k :: 0 <= i < |ids| && k in rest ==> ids[i] < k
  }

  method Oldest(ids: set<nat>) returns (m: nat)
    requires ids != {}
    ensures m in ids && forall k :: k in ids ==> m <= k
  {
    m :| m in ids;
    var left := ids - {m};
    while left != {}
      invariant left <= ids && m in ids
      invariant forall k :: k in ids ==> k in left || m <= k
      decreases left
    {
      var next :| next in left;
      if next < m {
        m := next;
      }
      left := left - {next};
    }
  }

  /** The `limit` oldest of some ids, in ascending order. */
  method FirstInOrder(all: set<nat>, limit: nat) returns (ids: seq<nat>)
    ensures Ascending(ids) && |ids| <= limit
    ensures Elements(ids) <= all
    ensures Below(ids, all - Elements(ids))
    ensures |ids| == limit || Elements(ids) == all
  {
    ids := [];
    var rest := all;
    while rest != {} && |ids| < limit
      invariant Ascending(ids) && |ids| <= limit && Below(ids, rest)
      invariant Elements(ids) <= all && rest == all - Elements(ids)
      invariant rest + Elements(ids) == all
      decreases rest
    {
      var oldest := Oldest(rest);
      rest := rest - {oldest};
      ids := ids + [oldest];
    }
  }

  ghost function CandidateIds(messages: Messages, through: nat, recent: nat): set<nat> {
    set k | k in messages && IsCandidate(messages, through, recent, k)
  }

  method LoadCandidates(messages: Messages, through: nat, recent: nat, limit: nat) returns (ids: seq<nat>)
    ensures Ascending(ids) && |ids| <= limit
    ensures Elements(ids) <= CandidateIds(messages, through, recent)
    ensures Below(ids, CandidateIds(messages, through, recent) - Elements(ids))
    ensures |ids| == limit || Elements(ids) == CandidateIds(messages, through, recent)
  {
    var completed := CompletedIds(messages);
    var bound := FindAtOffset(completed, if recent == 0 then 0 else recent - 1);
    var all := set k | k in messages && k in completed && through < k && (bound.Some? ==> k < bound.value);
    assert all == CandidateIds(messages, through, recent);
    ids := FirstInOrder(all, limit);
  }

  /** Every prefix of the list is exactly the completed messages past the last summary up to its last one. */
  lemma PrefixIsTranscript(messages: Messages, through: nat, recent: nat, ids: seq<nat>, n: nat)
    requires Ascending(ids) && 0 < n <= |ids|
    requires Elements(ids) <= CandidateIds(messages, through, recent)
    requires Below(ids, CandidateIds(messages, through, recent) - Elements(ids))
    ensures IsCandidate(messages, through, recent, ids[n - 1])
    ensures Elements(ids[..n]) == Between(messages, through, ids[n - 1])
  {
    var last := ids[n - 1];
    assert last in Elements(ids);
    forall k | k in ids[..n] ensures k in Between(messages, through, last) {
      var i :| 0 <= i < n && ids[i] == k;
      assert k in Elements(ids);
    }
    forall k | k in Between(messages, through, last) ensures k in ids[..n] {
      assert IsCandidate(messages, through, recent, k);
      assert k in Elements(ids) || k in CandidateIds(messages, through, recent) - Elements(ids);
      assert k in ids;
      var i :| 0 <= i < |ids| && ids[i] == k;
      assert i < n;
      assert ids[..n][i] == k;
    }
  }
}
