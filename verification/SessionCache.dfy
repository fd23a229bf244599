/** Session validation through a status cache that other requests fill, read and invalidate
    concurrently, while administrators change the account row. One account's lifetime. */
module SessionCache {
  import opened Common

  datatype Status = Blank | Active | Disabled | Archived

  datatype Row = Row(version: int, status: Status, deleted: bool)

  /** What a lookup returns: usability and the normalised auth version. */
  datatype Account = Account(usable: bool, version: int)

  function NormalizedAuthVersion(version: int): int {
    if version <= 0 then 1 else version
  }

  function Scan(row: Row): Account {
    Account((row.status.Blank? || row.status.Active?) && !row.deleted, NormalizedAuthVersion(row.version))
  }

  /** Whether a session whose token carries `claim` is accepted against an account. */
  predicate Accepts(account: Account, claim: int) {
    account.usable && NormalizedAuthVersion(claim) == account.version
  }

  datatype Mutation =
    | SetStatus(status: Status, bumpAuth: bool)
    | ResetPassword
    | UpdateBroker
    | Archive

  function Mutated(row: Row, m: Mutation): Row {
    match m
    case SetStatus(status, bump) =>
      Row(if bump then row.version + 1 else row.version, status, if status.Active? then false else row.deleted)
    case ResetPassword => row.(version := row.version + 1)
    case UpdateBroker => row.(version := row.version + 1)
    case Archive => Row(row.version + 1, Archived, true)
  }

  /** A row value and the moment it was written. */
  datatype Written = Written(at: int, row: Row)

  /** `readAt` records when the row was read; the program keeps only the account and the expiry. */
  datatype Cached = Cached(account: Account, expires: int, readAt: int)

  /** A call has read the clock, missed the cache, or also read the row. */
  datatype Call = Entered(start: int) | Reading(start: int) | Holding(start: int, account: Account, readAt: int)

  /** A finished lookup. */
  datatype Answer = Answer(start: int, end: int, account: Account, readAt: int)

  datatype State = State(
    now: int, log: seq<Written>, cache: Option<Cached>, calls: map<nat, Call>, answers: seq<Answer>)

  datatype Event =
    | Tick(delta: nat)
    | Mutate(m: Mutation)
    | Invalidate
    | Begin(c: nat)
    | LookUp(c: nat)
    | Read(c: nat)
    | ReadFails(c: nat)
    | Store(c: nat)

  function Next(s: State, ttl: int, e: Event): State
    requires s.log != []
  {
    match e
    case Tick(delta) => s.(now := s.now + delta)
    case Mutate(m) => s.(log := s.log + [Written(s.now, Mutated(s.log[|s.log| - 1].row, m))])
    case Invalidate => s.(cache := None)
    case Begin(c) => if c in s.calls then s else s.(calls := s.calls[c := Entered(s.now)])
    case LookUp(c) =>
      if c !in s.calls || !s.calls[c].Entered? then s
      else if s.cache.Some? && s.calls[c].start < s.cache.value.expires then
        s.(calls := s.calls - {c},
           answers := s.answers + [Answer(s.calls[c].start, s.now, s.cache.value.account, s.cache.value.readAt)])
      else s.(calls := s.calls[c := Reading(s.calls[c].start)])
    case Read(c) =>
      if c in s.calls && s.calls[c].Reading? then
        s.(calls := s.calls[c := Holding(s.calls[c].start, Scan(s.log[|s.log| - 1].row), s.now)])
      else s
    case ReadFails(c) => s.(calls := s.calls - {c})
    case Store(c) =>
      if c in s.calls && s.calls[c].Holding? then
        var call := s.calls[c];
        s.(cache := Some(Cached(call.account, call.start + ttl, call.readAt)),
           calls := s.calls - {c},
           answers := s.answers + [Answer(call.start, s.now, call.account, call.readAt)])
      else s
  }

  datatype Run = Boot(now: int, row: Row) | Then(before: Run, event: Event)

  function After(run: Run, ttl: int): (s: State)
    ensures s.log != []
  {
    match run
    case Boot(now, row) => State(now, [Written(now, row)], None, map[], [])
    case Then(before, e) => Next(After(before, ttl), ttl, e)
  }

  /** The i-th row value was current at moment `at`. */
  predicate Current(log: seq<Written>, i: int, at: int) {
    0 <= i < |log| && log[i].at <= at && (i + 1 < |log| ==> at <= log[i + 1].at)
  }

  /** At moment `at` the row scanned as `account`. */
  ghost predicate Had(log: seq<Written>, account: Account, at: int) {
    exists i :: Current(log, i, at) && Scan(log[i].row) == account
  }

  predicate LogOk(log: seq<Written>, now: int) {
    && log != []
    && (forall i, j :: 0 <= i < j < |log| ==> log[i].at <= log[j].at)
    && log[|log| - 1].at <= now
    && (forall i, j :: 0 <= i < j < |log| ==> Scan(log[i].row).version <= Scan(log[j].row).version)
  }

  ghost predicate CallOk(log: seq<Written>, call: Call, now: int) {
    && call.start <= now
    && (call.Holding? ==> call.start <= call.readAt <= now && Had(log, call.account, call.readAt))
  }

  ghost predicate CachedOk(log: seq<Written>, entry: Cached, ttl: int, now: int) {
    entry.expires - ttl <= entry.readAt <= now && Had(log, entry.account, entry.readAt)
  }

  ghost predicate AnswerOk(log: seq<Written>, a: Answer, ttl: int, now: int) {
    a.start - ttl < a.readAt <= a.end <= now && Had(log, a.account, a.readAt)
  }

  ghost predicate Invariant(s: State, ttl: int) {
    && LogOk(s.log, s.now)
    && CallsOk(s.log, s.calls, s.now)
    && (s.cache.Some? ==> CachedOk(s.log, s.cache.value, ttl, s.now))
    && AnswersOk(s.log, s.answers, ttl, s.now)
  }

  ghost predicate CallsOk(log: seq<Written>, calls: map<nat, Call>, now: int) {
    forall c :: c in calls ==> CallOk(log, calls[c], now)
  }

  ghost predicate AnswersOk(log: seq<Written>, answers: seq<Answer>, ttl: int, now: int) {
    forall a :: a in answers ==> AnswerOk(log, a, ttl, now)
  }

  lemma HadGrows(log: seq<Written>, entry: Written, account: Account, at: int)
    requires Had(log, account, at) && at <= entry.at
    ensures Had(log + [entry], account, at)
  {
    var i :| Current(log, i, at) && Scan(log[i].row) == account;
    assert Current(log + [entry], i, at);
  }

  lemma MutationNeverLowersVersion(row: Row, m: Mutation)
    ensures Scan(row).version <= Scan(Mutated(row, m)).version
  {
  }

  predicate Bumps(m: Mutation) {
    m.SetStatus? ==> m.bumpAuth
  }

  /** A bump retires the tokens of the version before it exactly when that version was a real one; a
      stored version of zero or less reads as one before and after. */
  lemma BumpSupersedesExactlyWhenPositive(row: Row, m: Mutation)
    requires Bumps(m)
    ensures Scan(row).version < Scan(Mutated(row, m)).version <==> row.version >= 1
  {
  }

  lemma LogGrows(log: seq<Written>, now: int, m: Mutation)
    requires LogOk(log, now)
    ensures LogOk(log + [Written(now, Mutated(log[|log| - 1].row, m))], now)
  {
    var last := log[|log| - 1];
    MutationNeverLowersVersion(last.row, m);
    var next := log + [Written(now, Mutated(last.row, m))];
    forall i, j | 0 <= i < j < |next|
      ensures next[i].at <= next[j].at && Scan(next[i].row).version <= Scan(next[j].row).version
    {
      assert next[i] == log[i];
      assert i < |log| - 1 ==> Scan(log[i].row).version <= Scan(last.row).version;
      assert j < |log| ==> next[j] == log[j];
    }
  }

  lemma CallsGrow(log: seq<Written>, entry: Written, calls: map<nat, Call>, now: int)
    requires CallsOk(log, calls, now) && now <= entry.at
    ensures CallsOk(log + [entry], calls, now)
  {
    forall c | c in calls ensures CallOk(log + [entry], calls[c], now) {
      if calls[c].Holding? {
        HadGrows(log, entry, calls[c].account, calls[c].readAt);
      }
    }
  }

  lemma AnswersGrow(log: seq<Written>, entry: Written, answers: seq<Answer>, ttl: int, now: int)
    requires AnswersOk(log, answers, ttl, now) && now <= entry.at
    ensures AnswersOk(log + [entry], answers, ttl, now)
  {
    forall a | a in answers ensures AnswerOk(log + [entry], a, ttl, now) {
      HadGrows(log, entry, a.account, a.readAt);
    }
  }

  lemma CachedGrows(log: seq<Written>, entry: Written, cached: Cached, ttl: int, now: int)
    requires CachedOk(log, cached, ttl, now) && now <= entry.at
    ensures CachedOk(log + [entry], cached, ttl, now)
  {
    HadGrows(log, entry, cached.account, cached.readAt);
  }

  lemma MutateKeepsInvariant(s: State, ttl: int, m: Mutation)
    requires Invariant(s, ttl)
    ensures Invariant(Next(s, ttl, Mutate(m)), ttl)
  {
    var entry := Written(s.now, Mutated(s.log[|s.log| - 1].row, m));
    var log := s.log + [entry];
    assert LogOk(log, s.now) by { LogGrows(s.log, s.now, m); }
    assert CallsOk(log, s.calls, s.now) by { CallsGrow(s.log, entry, s.calls, s.now); }
    assert AnswersOk(log, s.answers, ttl, s.now) by { AnswersGrow(s.log, entry, s.answers, ttl, s.now); }
    assert s.cache.Some? ==> CachedOk(log, s.cache.value, ttl, s.now) by {
      if s.cache.Some? {
        CachedGrows(s.log, entry, s.cache.value, ttl, s.now);
      }
    }
    assert Next(s, ttl, Mutate(m)) == s.(log := log);
  }

  lemma ReadKeepsInvariant(s: State, ttl: int, c: nat)
    requires Invariant(s, ttl)
    ensures Invariant(Next(s, ttl, Read(c)), ttl)
  {
    assert Current(s.log, |s.log| - 1, s.now);
  }

  lemma AnswerKeepsInvariant(s: State, ttl: int, e: Event)
    requires Invariant(s, ttl) && ttl > 0 && (e.Begin? || e.LookUp? || e.Store?)
    ensures Invariant(Next(s, ttl, e), ttl)
  {
  }

  lemma {:induction false} Reachable(run: Run, ttl: int)
    requires ttl > 0
    ensures Invariant(After(run, ttl), ttl)
  {
    if run.Then? {
      var s := After(run.before, ttl);
      Reachable(run.before, ttl);
      match run.event
      case Mutate(m) => MutateKeepsInvariant(s, ttl, m);
      case Read(c) => ReadKeepsInvariant(s, ttl, c);
      case Begin(_) => AnswerKeepsInvariant(s, ttl, run.event);
      case LookUp(_) => AnswerKeepsInvariant(s, ttl, run.event);
      case Store(_) => AnswerKeepsInvariant(s, ttl, run.event);
      case _ =>
    }
  }

  /** Every answer is a value the row had less than one TTL before the call started, or later. */
  lemma AnswersAreRecent(run: Run, ttl: int, a: Answer)
    requires ttl > 0 && a in After(run, ttl).answers
    ensures exists at :: a.start - ttl < at <= a.end && Had(After(run, ttl).log, a.account, at)
  {
    Reachable(run, ttl);
    assert AnswerOk(After(run, ttl).log, a, ttl, After(run, ttl).now);
  }

  /** When no row value from the j-th on accepts a token, every call that starts a TTL after that
      write rejects it, however stale the reads and stores in between were. */
  lemma RejectedAfterTtl(run: Run, ttl: int, a: Answer, j: nat, claim: int)
    requires ttl > 0 && a in After(run, ttl).answers && j < |After(run, ttl).log|
    requires forall i :: j <= i < |After(run, ttl).log| ==> !Accepts(Scan(After(run, ttl).log[i].row), claim)
    requires a.start >= After(run, ttl).log[j].at + ttl
    ensures !Accepts(a.account, claim)
  {
    Reachable(run, ttl);
    AnswersAreRecent(run, ttl, a);
    var at :| a.start - ttl < at <= a.end && Had(After(run, ttl).log, a.account, at);
    HadSince(After(run, ttl).log, After(run, ttl).now, a.account, at, j);
  }

  /** What the row was at a moment after its j-th write is its j-th value or a later one. */
  lemma HadSince(log: seq<Written>, now: int, account: Account, at: int, j: nat)
    requires LogOk(log, now) && Had(log, account, at) && j < |log| && log[j].at < at
    ensures exists i :: j <= i < |log| && Scan(log[i].row) == account
  {
    var i :| Current(log, i, at) && Scan(log[i].row) == account;
    assert j <= i;
  }

  /** A token superseded by a version bump is dead a TTL later, for every call and for good. */
  lemma SupersededTokenDies(run: Run, ttl: int, a: Answer, j: nat, claim: int)
    requires ttl > 0 && a in After(run, ttl).answers && j < |After(run, ttl).log|
    requires NormalizedAuthVersion(claim) < Scan(After(run, ttl).log[j].row).version
    requires a.start >= After(run, ttl).log[j].at + ttl
    ensures !Accepts(a.account, claim)
  {
    Reachable(run, ttl);
    RejectedAfterTtl(run, ttl, a, j, claim);
  }

  /** The account starts with a version of at least one, as every stored account does. */
  predicate StartsReal(run: Run) {
    match run
    case Boot(_, row) => row.version >= 1
    case Then(before, _) => StartsReal(before)
  }

  lemma {:induction false} VersionsStayReal(run: Run, ttl: int, i: nat)
    requires StartsReal(run) && i < |After(run, ttl).log|
    ensures After(run, ttl).log[i].row.version >= 1
  {
    if run.Then? {
      var log := After(run.before, ttl).log;
      VersionsStayReal(run.before, ttl, if i < |log| then i else |log| - 1);
    }
  }

  /** Every bump retires every token issued before it, for every call that starts a TTL later. */
  lemma BumpRetiresEarlierTokens(run: Run, ttl: int, a: Answer, j: nat, m: Mutation, i: nat, claim: int)
    requires ttl > 0 && StartsReal(run) && a in After(run, ttl).answers
    requires i < j < |After(run, ttl).log| && Accepts(Scan(After(run, ttl).log[i].row), claim)
    requires Bumps(m) && After(run, ttl).log[j].row == Mutated(After(run, ttl).log[j - 1].row, m)
    requires a.start >= After(run, ttl).log[j].at + ttl
    ensures !Accepts(a.account, claim)
  {
    Reachable(run, ttl);
    VersionsStayReal(run, ttl, j - 1);
    BumpSupersedesExactlyWhenPositive(After(run, ttl).log[j - 1].row, m);
    SupersededTokenDies(run, ttl, a, j, claim);
  }

  /** The account service's cache of all usernames; each method is one section under its lock. */
  class StatusCache {
    var entries: map<string, Cached>
    const ttl: int

    constructor (ttl: int)
      ensures entries == map[]
      ensures this.ttl == if ttl > 0 then ttl else 30
    {
      this.ttl := if ttl > 0 then ttl else 30;
      entries := map[];
    }

    ghost function Entry(username: string): Option<Cached>
      reads this
    {
      if username in entries then Some(entries[username]) else None
    }

    method Hit(username: string, now: int) returns (account: Option<Account>)
      ensures account.Some? <==> Entry(username).Some? && now < Entry(username).value.expires
      ensures account.Some? ==> account.value == Entry(username).value.account
    {
      if username in entries && now < entries[username].expires {
        return Some(entries[username].account);
      }
      return None;
    }

    method Remember(username: string, account: Account, start: int, readAt: int)
      modifies this`entries
      ensures Entry(username) == Some(Cached(account, start + ttl, readAt))
      ensures forall other :: other != username ==> Entry(other) == old(Entry(other))
    {
      entries := entries[username := Cached(account, start + ttl, readAt)];
    }

    method Invalidate(username: string)
      modifies this`entries
      ensures username != "" ==> Entry(username) == None
      ensures forall other :: other != username || username == "" ==> Entry(other) == old(Entry(other))
    {
      if username != "" {
        entries := entries - {username};
      }
    }

    /** One undisturbed validation: a live cache entry decides alone, otherwise the row does and
        is remembered from the start of the call. */
    method Validate(username: string, claim: int, now: int, row: Option<Row>) returns (ok: bool)
      modifies this`entries
      ensures var live := old(Entry(username)).Some? && now < old(Entry(username)).value.expires;
              ok <==> username != "" &&
                      if live then Accepts(old(Entry(username)).value.account, claim)
                      else row.Some? && Accepts(Scan(row.value), claim)
      ensures var live := old(Entry(username)).Some? && now < old(Entry(username)).value.expires;
              Entry(username) == if username == "" || live || row.None? then old(Entry(username))
                                 else Some(Cached(Scan(row.value), now + ttl, now))
      ensures forall other :: other != username ==> Entry(other) == old(Entry(other))
    {
      if username == "" { return false; }
      var hit := Hit(username, now);
      if hit.Some? { return Accepts(hit.value, claim); }
      if row.None? { return false; }
      Remember(username, Scan(row.value), now, now);
      return Accepts(Scan(row.value), claim);
    }
  }
}
