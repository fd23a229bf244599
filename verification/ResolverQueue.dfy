/** The job queue of the contract resolver: producers, one asynchronous worker with a one-slot wake
    channel, and any number of synchronous drains, interleaved at the mutex. */
module ResolverQueue {

  datatype Instrument = Instrument(exchange: string, symbol: string)

  datatype Job = Job(key: string, instruments: seq<Instrument>, refs: map<string, string>)

  /** The zero job, which a missing follow-up reads as. */
  const NO_JOB := Job("", [], map[])

  function MergeJob(current: Job, extra: Job): Job {
    if current.key == "" then extra
    else current.(instruments := current.instruments + extra.instruments, refs := current.refs + extra.refs)
  }

  /** Merging keeps every instrument unless it drops a keyless job that had some. */
  lemma MergeConservesExactlyWhenKeyed(current: Job, extra: Job)
    ensures MergeJob(current, extra).instruments == current.instruments + extra.instruments
            <==> current.key != "" || current.instruments == []
  {
    if current.key == "" && current.instruments == [] {
      assert current.instruments + extra.instruments == extra.instruments;
    } else if current.key == "" {
      assert |current.instruments + extra.instruments| > |extra.instruments|;
    }
  }

  /** The fields the mutex guards, and the wake slot. */
  datatype Queue = Queue(queue: seq<Job>, inflight: set<string>, follow: map<string, Job>, wake: bool)

  /** The position of a key in the queue, or the queue's length. */
  function Find(queue: seq<Job>, key: string): (i: nat)
    ensures i <= |queue|
    ensures i < |queue| ==> queue[i].key == key
    ensures forall j :: 0 <= j < i ==> queue[j].key != key
  {
    if queue == [] || queue[0].key == key then 0 else 1 + Find(queue[1..], key)
  }

  function FollowOf(q: Queue, key: string): Job {
    if key in q.follow then q.follow[key] else NO_JOB
  }

  function Enqueued(q: Queue, job: Job): Queue {
    if job.key in q.inflight then q.(follow := q.follow[job.key := MergeJob(FollowOf(q, job.key), job)])
    else
      var i := Find(q.queue, job.key);
      if i < |q.queue| then q.(queue := q.queue[i := MergeJob(q.queue[i], job)])
      else q.(queue := q.queue + [job], wake := true)
  }

  function Popped(q: Queue): Queue
    requires q.queue != []
  {
    q.(queue := q.queue[1..], inflight := q.inflight + {q.queue[0].key})
  }

  function Finished(q: Queue, key: string): Queue {
    Queue(if key in q.follow then q.queue + [q.follow[key]] else q.queue,
          q.inflight - {key}, q.follow - {key}, q.wake)
  }

  class TradefiService {
    var queue: seq<Job>
    var inflight: set<string>
    var follow: map<string, Job>
    var wake: bool

    constructor ()
      ensures View() == Queue([], {}, map[], false)
    {
      queue, inflight, follow, wake := [], {}, map[], false;
    }

    ghost function View(): Queue
      reads this
    {
      Queue(queue, inflight, follow, wake)
    }

    method Enqueue(job: Job)
      modifies this
      ensures View() == Enqueued(old(View()), job)
    {
      if job.key in inflight {
        follow := follow[job.key := MergeJob(if job.key in follow then follow[job.key] else NO_JOB, job)];
        return;
      }
      var index := 0;
      while index < |queue|
        invariant 0 <= index <= |queue| && View() == old(View())
        invariant forall j :: 0 <= j < index ==> queue[j].key != job.key
      {
        if queue[index].key == job.key {
          queue := queue[index := MergeJob(queue[index], job)];
          return;
        }
        index := index + 1;
      }
      queue, wake := queue + [job], true;
    }

    method Pop() returns (job: Job, ok: bool)
      modifies this
      ensures ok == (old(queue) != [])
      ensures ok ==> job == old(queue)[0] && View() == Popped(old(View()))
      ensures !ok ==> View() == old(View())
    {
      if |queue| == 0 {
        return NO_JOB, false;
      }
      job, ok := queue[0], true;
      queue, inflight := queue[1..], inflight + {job.key};
    }

    method Finish(key: string)
      modifies this
      ensures View() == Finished(old(View()), key)
    {
      inflight := inflight - {key};
      if key in follow {
        var job := follow[key];
        follow, queue := follow - {key}, queue + [job];
      }
    }
  }

  /* The interleavings. */

  /** Where a worker is inside drain; a worker that is not listed is outside. */
  datatype Phase = Draining | Holding(job: Job) | Resolving(done: string) {
    function Key(): string {
      match this
      case Draining => ""
      case Holding(job) => job.key
      case Resolving(key) => key
    }
  }

  /** `owner` records which worker took each in-flight key. `submitted` and `handed` log, per key,
      the instruments given to enqueue and to resolve. */
  datatype State = State(
    q: Queue, workers: map<nat, Phase>, owner: map<string, nat>,
    submitted: map<string, seq<Instrument>>, handed: map<string, seq<Instrument>>)

  /** The asynchronous loop. */
  const LOOP := 0

  datatype Event =
    | Submit(job: Job)
    | Wake
    | StartDrain(w: nat)
    | Pop(w: nat)
    | Resolve(w: nat)
    | Finish(w: nat)

  function Log(log: map<string, seq<Instrument>>, key: string): seq<Instrument> {
    if key in log then log[key] else []
  }

  function Next(s: State, e: Event): State {
    match e
    case Submit(job) =>
      s.(q := Enqueued(s.q, job),
         submitted := s.submitted[job.key := Log(s.submitted, job.key) + job.instruments])
    case Wake =>
      if s.q.wake && LOOP !in s.workers then
        s.(q := s.q.(wake := false), workers := s.workers[LOOP := Draining])
      else s
    case StartDrain(w) =>
      if w != LOOP && w !in s.workers then s.(workers := s.workers[w := Draining]) else s
    case Pop(w) =>
      if w in s.workers && s.workers[w].Draining? then
        if s.q.queue == [] then s.(workers := s.workers - {w})
        else
          var job := s.q.queue[0];
          s.(q := Popped(s.q), workers := s.workers[w := Holding(job)], owner := s.owner[job.key := w])
      else s
    case Resolve(w) =>
      if w in s.workers && s.workers[w].Holding? then
        var job := s.workers[w].job;
        s.(workers := s.workers[w := Resolving(job.key)],
           handed := s.handed[job.key := Log(s.handed, job.key) + job.instruments])
      else s
    case Finish(w) =>
      if w in s.workers && s.workers[w].Resolving? then
        s.(q := Finished(s.q, s.workers[w].done), workers := s.workers[w := Draining],
           owner := s.owner - {s.workers[w].done})
      else s
  }

  datatype Run = Boot | Then(before: Run, event: Event)

  function After(run: Run): State {
    match run
    case Boot => State(Queue([], {}, map[], false), map[], map[], map[], map[])
    case Then(before, e) => Next(After(before), e)
  }

  /** A cache key: its four parts joined by bars. */
  function CacheKey(assetClass: string, symbol: string, currency: string, region: string): (key: string)
    ensures key != ""
  {
    assetClass + "|" + symbol + "|" + currency + "|" + region
  }

  /** Every submitted job has a key. */
  predicate Keyed(run: Run) {
    run.Then? ==> Keyed(run.before) && (run.event.Submit? ==> run.event.job.key != "")
  }

  ghost predicate IsCacheKey(key: string) {
    exists assetClass, symbol, currency, region :: key == CacheKey(assetClass, symbol, currency, region)
  }

  /** Every job is submitted under the cache key of a reference. */
  ghost predicate SubmittedByReference(run: Run) {
    run.Then? ==> SubmittedByReference(run.before) && (run.event.Submit? ==> IsCacheKey(run.event.job.key))
  }

  lemma {:induction false} ReferencesAreKeyed(run: Run)
    requires SubmittedByReference(run)
    ensures Keyed(run)
  {
    if run.Then? {
      ReferencesAreKeyed(run.before);
    }
  }

  predicate DistinctKeys(queue: seq<Job>) {
    forall i, j :: 0 <= i < j < |queue| ==> queue[i].key != queue[j].key
  }

  predicate QueueOk(q: Queue) {
    && DistinctKeys(q.queue)
    && (forall i :: 0 <= i < |q.queue| ==> q.queue[i].key != "" && q.queue[i].key !in q.inflight)
    && (forall k :: k in q.follow ==> k in q.inflight && q.follow[k].key == k && k != "")
  }

  /** In-flight keys are exactly the keys of busy workers, one worker each. */
  predicate WorkersOk(s: State) {
    && s.owner.Keys == s.q.inflight
    && (forall k :: k in s.owner ==> s.owner[k] in s.workers && !s.workers[s.owner[k]].Draining?
                                     && s.workers[s.owner[k]].Key() == k)
    && (forall w :: w in s.workers && !s.workers[w].Draining? ==>
          s.workers[w].Key() in s.owner && s.owner[s.workers[w].Key()] == w)
  }

  /** With jobs queued, the wake slot is full or some worker is inside drain and will look again. */
  predicate WillBeSeen(s: State) {
    s.q.queue != [] ==> s.q.wake || s.workers != map[]
  }

  function QueuedFor(queue: seq<Job>, key: string): seq<Instrument> {
    if queue == [] then []
    else if queue[0].key == key then queue[0].instruments
    else QueuedFor(queue[1..], key)
  }

  /** The instruments of a key that wait in the queue or as a follow-up. */
  function Waiting(q: Queue, key: string): seq<Instrument> {
    if key in q.inflight then FollowOf(q, key).instruments else QueuedFor(q.queue, key)
  }

  /** The instruments of a key in the hands of a worker that has not reached resolve. */
  function Held(s: State, key: string): seq<Instrument> {
    if key in s.owner && s.owner[key] in s.workers && s.workers[s.owner[key]].Holding?
    then s.workers[s.owner[key]].job.instruments
    else []
  }

  /** Per key, the submitted instruments are those handed to resolve, then those held, then those
      waiting, in submission order. */
  ghost predicate Conserved(s: State) {
    forall key :: Log(s.submitted, key) == Log(s.handed, key) + Held(s, key) + Waiting(s.q, key)
  }

  ghost predicate Invariant(s: State) {
    QueueOk(s.q) && WorkersOk(s) && WillBeSeen(s) && Conserved(s)
  }

  /* Queue lemmas. */

  lemma {:induction false} QueuedForAbsent(queue: seq<Job>, key: string)
    requires forall i :: 0 <= i < |queue| ==> queue[i].key != key
    ensures QueuedFor(queue, key) == []
  {
    if queue != [] { QueuedForAbsent(queue[1..], key); }
  }

  lemma {:induction false} QueuedForAppend(queue: seq<Job>, job: Job, key: string)
    ensures QueuedFor(queue + [job], key) ==
            if job.key == key && Find(queue, key) == |queue| then job.instruments else QueuedFor(queue, key)
  {
    if queue != [] {
      QueuedForAppend(queue[1..], job, key);
      assert (queue + [job])[1..] == queue[1..] + [job];
    } else {
      assert queue + [job] == [job] && [job][1..] == [];
    }
  }

  lemma {:induction false} QueuedForAt(queue: seq<Job>, i: nat)
    requires DistinctKeys(queue) && i < |queue|
    ensures QueuedFor(queue, queue[i].key) == queue[i].instruments
  {
    if i > 0 {
      assert queue[0].key != queue[i].key;
      QueuedForAt(queue[1..], i - 1);
    }
  }

  lemma {:induction false} QueuedForUpdate(queue: seq<Job>, i: nat, job: Job, key: string)
    requires DistinctKeys(queue) && i < |queue| && job.key == queue[i].key
    ensures QueuedFor(queue[i := job], key) == if key == job.key then job.instruments else QueuedFor(queue, key)
  {
    var updated := queue[i := job];
    if i == 0 {
      assert updated[1..] == queue[1..];
    } else {
      assert queue[0].key != queue[i].key;
      assert updated[1..] == queue[1..][i - 1 := job];
      QueuedForUpdate(queue[1..], i - 1, job, key);
    }
  }

  lemma EnqueuedOk(q: Queue, job: Job)
    requires QueueOk(q) && job.key != ""
    ensures QueueOk(Enqueued(q, job)) && Enqueued(q, job).inflight == q.inflight
  {
  }

  lemma EnqueuedWaits(q: Queue, job: Job, key: string)
    requires QueueOk(q) && job.key != ""
    ensures Waiting(Enqueued(q, job), key) ==
            if key == job.key then Waiting(q, key) + job.instruments else Waiting(q, key)
  {
    if job.key in q.inflight {
      assert NO_JOB.instruments + job.instruments == job.instruments;
    } else {
      var i := Find(q.queue, job.key);
      if i < |q.queue| {
        QueuedForAt(q.queue, i);
        QueuedForUpdate(q.queue, i, MergeJob(q.queue[i], job), key);
      } else {
        QueuedForAbsent(q.queue, job.key);
        QueuedForAppend(q.queue, job, key);
        assert [] + job.instruments == job.instruments;
      }
    }
  }

  lemma PoppedOk(q: Queue, key: string)
    requires QueueOk(q) && q.queue != []
    ensures QueueOk(Popped(q)) && q.queue[0].key !in q.inflight
    ensures Waiting(q, q.queue[0].key) == q.queue[0].instruments
    ensures Waiting(Popped(q), key) == if key == q.queue[0].key then [] else Waiting(q, key)
  {
    assert forall i :: 0 < i < |q.queue| ==> q.queue[i].key != q.queue[0].key;
  }

  lemma FinishedOk(q: Queue, key: string)
    requires QueueOk(q) && key in q.inflight
    ensures QueueOk(Finished(q, key))
  {
  }

  lemma FinishedWaits(q: Queue, done: string, key: string)
    requires QueueOk(q) && done in q.inflight
    ensures Waiting(Finished(q, done), key) == Waiting(q, key)
  {
    QueuedForAbsent(q.queue, done);
    if done in q.follow {
      QueuedForAppend(q.queue, q.follow[done], key);
      if key == done {
        assert Find(q.queue, key) == |q.queue|;
      }
    }
  }

  /* The steps. */

  /** What a submission does to the log of its key. */
  lemma SubmitConserves(s: State, job: Job, key: string)
    requires QueueOk(s.q) && job.key != ""
    requires Log(s.submitted, key) == Log(s.handed, key) + Held(s, key) + Waiting(s.q, key)
    ensures var t := Next(s, Submit(job));
            Log(t.submitted, key) == Log(t.handed, key) + Held(t, key) + Waiting(t.q, key)
  {
    EnqueuedWaits(s.q, job, key);
    SubmitLeavesWorkers(s, job, key);
    Regroups(Log(s.handed, key), Held(s, key), Waiting(s.q, key), job.instruments);
  }

  lemma SubmitLeavesWorkers(s: State, job: Job, key: string)
    ensures var t := Next(s, Submit(job));
            && Held(t, key) == Held(s, key) && t.handed == s.handed && t.q == Enqueued(s.q, job)
            && Log(t.submitted, key) == if key == job.key then Log(s.submitted, key) + job.instruments else Log(s.submitted, key)
  {
  }

  lemma Regroups(a: seq<Instrument>, b: seq<Instrument>, c: seq<Instrument>, d: seq<Instrument>)
    ensures a + b + (c + d) == a + b + c + d
  {
  }

  lemma SubmitKeepsWorkers(s: State, job: Job)
    requires QueueOk(s.q) && WorkersOk(s) && WillBeSeen(s) && job.key != ""
    ensures WorkersOk(Next(s, Submit(job))) && WillBeSeen(Next(s, Submit(job)))
  {
    EnqueuedOk(s.q, job);
  }

  lemma SubmitKeeps(s: State, job: Job)
    requires Invariant(s) && job.key != ""
    ensures Invariant(Next(s, Submit(job)))
  {
    var t := Next(s, Submit(job));
    EnqueuedOk(s.q, job);
    SubmitKeepsWorkers(s, job);
    forall key ensures Log(t.submitted, key) == Log(t.handed, key) + Held(t, key) + Waiting(t.q, key) {
      SubmitConserves(s, job, key);
    }
  }

  lemma PopConserves(s: State, w: nat, key: string)
    requires QueueOk(s.q) && WorkersOk(s) && w in s.workers && s.workers[w].Draining? && s.q.queue != []
    requires Log(s.submitted, key) == Log(s.handed, key) + Held(s, key) + Waiting(s.q, key)
    ensures var t := Next(s, Pop(w));
            Log(t.submitted, key) == Log(t.handed, key) + Held(t, key) + Waiting(t.q, key)
  {
    var t, job := Next(s, Pop(w)), s.q.queue[0];
    PoppedOk(s.q, key);
    if key == job.key {
      assert Held(s, key) == [] && Held(t, key) == job.instruments;
    } else {
      assert Held(t, key) == Held(s, key);
    }
  }

  lemma PopKeepsWorkers(s: State, w: nat)
    requires QueueOk(s.q) && WorkersOk(s) && w in s.workers && s.workers[w].Draining? && s.q.queue != []
    ensures WorkersOk(Next(s, Pop(w))) && WillBeSeen(Next(s, Pop(w)))
  {
    PoppedOk(s.q, s.q.queue[0].key);
    assert w in Next(s, Pop(w)).workers;
  }

  lemma PopKeeps(s: State, w: nat)
    requires Invariant(s) && w in s.workers && s.workers[w].Draining? && s.q.queue != []
    ensures Invariant(Next(s, Pop(w)))
  {
    var t := Next(s, Pop(w));
    PoppedOk(s.q, s.q.queue[0].key);
    PopKeepsWorkers(s, w);
    forall key ensures Log(t.submitted, key) == Log(t.handed, key) + Held(t, key) + Waiting(t.q, key) {
      PopConserves(s, w, key);
    }
  }

  lemma ResolveKeeps(s: State, w: nat)
    requires Invariant(s) && w in s.workers && s.workers[w].Holding?
    ensures Invariant(Next(s, Resolve(w)))
  {
    var t, job := Next(s, Resolve(w)), s.workers[w].job;
    assert s.workers[w].Key() == job.key;
    assert WorkersOk(t);
    forall key ensures Log(t.submitted, key) == Log(t.handed, key) + Held(t, key) + Waiting(t.q, key) {
      if key == job.key {
        assert Held(s, key) == job.instruments && Held(t, key) == [];
      } else {
        assert Held(t, key) == Held(s, key);
      }
    }
  }

  lemma FinishKeeps(s: State, w: nat)
    requires Invariant(s) && w in s.workers && s.workers[w].Resolving?
    ensures Invariant(Next(s, Finish(w)))
  {
    var t, done := Next(s, Finish(w)), s.workers[w].done;
    assert s.workers[w].Key() == done;
    FinishedOk(s.q, done);
    assert WorkersOk(t);
    assert w in t.workers;
    forall key ensures Log(t.submitted, key) == Log(t.handed, key) + Held(t, key) + Waiting(t.q, key) {
      FinishedWaits(s.q, done, key);
      assert Held(t, key) == Held(s, key);
    }
  }

  lemma OtherKeeps(s: State, e: Event)
    requires Invariant(s)
    requires e.Wake? || e.StartDrain? || (e.Pop? && s.q.queue == [])
    ensures Invariant(Next(s, e))
  {
    var t := Next(s, e);
    assert WorkersOk(t);
    assert e.Wake? && t != s ==> LOOP in t.workers;
    assert e.StartDrain? && t != s ==> e.w in t.workers;
    assert forall key :: Held(t, key) == Held(s, key) && Waiting(t.q, key) == Waiting(s.q, key);
  }

  /** Every reachable state: queued keys are distinct and not in flight, follow-ups are in flight,
      each in-flight key has one worker, nothing submitted is lost or reordered, and no wake-up
      is lost. */
  lemma {:induction false} Reachable(run: Run)
    requires Keyed(run)
    ensures Invariant(After(run))
  {
    if run.Then? {
      var s := After(run.before);
      Reachable(run.before);
      match run.event
      case Submit(job) => SubmitKeeps(s, job);
      case Pop(w) =>
        if w in s.workers && s.workers[w].Draining? && s.q.queue != [] { PopKeeps(s, w); } else { OtherPop(s, w); }
      case Resolve(w) => if w in s.workers && s.workers[w].Holding? { ResolveKeeps(s, w); }
      case Finish(w) => if w in s.workers && s.workers[w].Resolving? { FinishKeeps(s, w); }
      case _ => OtherKeeps(s, run.event);
    }
  }

  lemma OtherPop(s: State, w: nat)
    requires Invariant(s) && (w !in s.workers || !s.workers[w].Draining? || s.q.queue == [])
    ensures Invariant(Next(s, Pop(w)))
  {
    if s.q.queue == [] { OtherKeeps(s, Pop(w)); }
  }

  /** At most one worker resolves a key at a time. */
  lemma OneResolvePerKey(run: Run, w: nat, v: nat)
    requires Keyed(run) && w in After(run).workers && v in After(run).workers
    requires After(run).workers[w].Resolving? && After(run).workers[v].Resolving?
    requires After(run).workers[w].done == After(run).workers[v].done
    ensures w == v
  {
    Reachable(run);
    assert After(run).workers[w].Key() == After(run).workers[v].Key();
  }

  /** When the wake slot is empty and every worker has left drain, every submitted instrument has
      been handed to resolve, once and in order. */
  lemma QuiescentMeansAllHanded(run: Run, key: string)
    requires Keyed(run) && !After(run).q.wake && After(run).workers == map[]
    ensures Log(After(run).handed, key) == Log(After(run).submitted, key)
    ensures After(run).q == Queue([], {}, map[], false)
  {
    var s := After(run);
    Reachable(run);
    assert s.owner == map[];
    assert Held(s, key) == [] && Waiting(s.q, key) == [];
  }

  /* Reaching quiescence. */

  /** An event of the workers themselves: no submission, and no new synchronous drain. */
  predicate Internal(e: Event) {
    !e.Submit? && !e.StartDrain?
  }

  function Busy(workers: map<nat, Phase>): set<nat> {
    set w | w in workers && !workers[w].Draining?
  }

  function Loaded(workers: map<nat, Phase>): set<nat> {
    set w | w in workers && workers[w].Holding?
  }

  /** The work left: a waiting job is worth three steps, a worker one step for each phase left to it. */
  function WorkLeft(s: State): nat {
    (if s.q.wake then 2 else 0) + 3 * |s.q.queue| + 3 * |s.q.follow| + |s.workers| + |Busy(s.workers)| + |Loaded(s.workers)|
  }

  lemma RemovedOne(workers: map<nat, Phase>, w: nat)
    requires w in workers
    ensures |workers - {w}| == |workers| - 1
  {
    assert (workers - {w}).Keys == workers.Keys - {w};
    assert |workers| == |workers.Keys| && |workers - {w}| == |(workers - {w}).Keys|;
  }

  lemma UpdatedCount(workers: map<nat, Phase>, w: nat, p: Phase)
    ensures |workers[w := p]| == if w in workers then |workers| else |workers| + 1
  {
    assert workers[w := p].Keys == workers.Keys + {w};
    assert |workers| == |workers.Keys| && |workers[w := p]| == |workers[w := p].Keys|;
  }

  lemma UpdatedBusy(workers: map<nat, Phase>, w: nat, p: Phase)
    ensures Busy(workers[w := p]) == if p.Draining? then Busy(workers) - {w} else Busy(workers) + {w}
  {
  }

  lemma UpdatedLoaded(workers: map<nat, Phase>, w: nat, p: Phase)
    ensures Loaded(workers[w := p]) == if p.Holding? then Loaded(workers) + {w} else Loaded(workers) - {w}
  {
  }

  lemma UpdatedWorkers(workers: map<nat, Phase>, w: nat, p: Phase)
    ensures |workers[w := p]| == if w in workers then |workers| else |workers| + 1
    ensures Busy(workers[w := p]) == if p.Draining? then Busy(workers) - {w} else Busy(workers) + {w}
    ensures Loaded(workers[w := p]) == if p.Holding? then Loaded(workers) + {w} else Loaded(workers) - {w}
  {
    UpdatedCount(workers, w, p);
    UpdatedBusy(workers, w, p);
    UpdatedLoaded(workers, w, p);
  }

  lemma LeavingDrain(s: State, w: nat)
    requires w in s.workers && s.workers[w].Draining? && s.q.queue == []
    ensures WorkLeft(Next(s, Pop(w))) < WorkLeft(s)
  {
    RemovedOne(s.workers, w);
    assert Busy(s.workers - {w}) == Busy(s.workers) && Loaded(s.workers - {w}) == Loaded(s.workers);
  }

  lemma TakingAJob(s: State, w: nat)
    requires w in s.workers && s.workers[w].Draining? && s.q.queue != []
    ensures WorkLeft(Next(s, Pop(w))) < WorkLeft(s)
  {
    UpdatedWorkers(s.workers, w, Holding(s.q.queue[0]));
  }

  lemma ResolvingAJob(s: State, w: nat)
    requires w in s.workers && s.workers[w].Holding?
    ensures WorkLeft(Next(s, Resolve(w))) < WorkLeft(s)
  {
    UpdatedWorkers(s.workers, w, Resolving(s.workers[w].job.key));
    assert w in Busy(s.workers) && w in Loaded(s.workers);
    assert Busy(s.workers) + {w} == Busy(s.workers);
  }

  /** A follow-up moves to the queue and is not lost. */
  lemma FollowMoves(q: Queue, done: string)
    ensures |Finished(q, done).queue| + |Finished(q, done).follow| == |q.queue| + |q.follow|
    ensures Finished(q, done).wake == q.wake
  {
    if done in q.follow {
      assert (q.follow - {done}).Keys == q.follow.Keys - {done};
      assert |q.follow| == |q.follow.Keys| && |q.follow - {done}| == |(q.follow - {done}).Keys|;
    } else {
      assert q.follow - {done} == q.follow;
    }
  }

  lemma FinishingWorker(workers: map<nat, Phase>, w: nat)
    requires w in workers && workers[w].Resolving?
    ensures var next := workers[w := Draining];
            |next| == |workers| && |Busy(next)| == |Busy(workers)| - 1 && |Loaded(next)| == |Loaded(workers)|
  {
    UpdatedWorkers(workers, w, Draining);
    assert w in Busy(workers) && Loaded(workers) - {w} == Loaded(workers);
  }

  lemma FinishingAJob(s: State, w: nat)
    requires w in s.workers && s.workers[w].Resolving?
    ensures WorkLeft(Next(s, Finish(w))) < WorkLeft(s)
  {
    FollowMoves(s.q, s.workers[w].done);
    FinishingWorker(s.workers, w);
  }

  lemma WakingUp(s: State)
    requires s.q.wake && LOOP !in s.workers
    ensures WorkLeft(Next(s, Wake)) < WorkLeft(s)
  {
    UpdatedWorkers(s.workers, LOOP, Draining);
    assert Busy(s.workers) - {LOOP} == Busy(s.workers) && Loaded(s.workers) - {LOOP} == Loaded(s.workers);
  }

  /** Without further submissions every step of a worker reduces the work left, so the workers come to rest. */
  lemma EveryStepReducesWork(s: State, e: Event)
    requires Internal(e) && Next(s, e) != s
    ensures WorkLeft(Next(s, e)) < WorkLeft(s)
  {
    match e
    case Wake => WakingUp(s);
    case Pop(w) => if s.q.queue == [] { LeavingDrain(s, w); } else { TakingAJob(s, w); }
    case Resolve(w) => ResolvingAJob(s, w);
    case Finish(w) => FinishingAJob(s, w);
  }

  predicate Quiescent(s: State) {
    !s.q.wake && s.workers == map[]
  }

  /** Until then some worker can take a step. */
  lemma NotStuck(s: State) returns (e: Event)
    requires !Quiescent(s)
    ensures Internal(e) && Next(s, e) != s
  {
    if w :| w in s.workers {
      match s.workers[w]
      case Draining => e := Pop(w);
      case Holding(job) => e := Resolve(w);
      case Resolving(key) => e := Finish(w);
      assert w in Next(s, e).workers ==> Next(s, e).workers[w] != s.workers[w];
    } else {
      e := Wake;
    }
  }

  predicate ExtendsInternally(later: Run, run: Run) {
    later == run || (later.Then? && Internal(later.event) && ExtendsInternally(later.before, run))
  }

  lemma {:induction false} InternalTransitive(a: Run, b: Run, c: Run)
    requires ExtendsInternally(b, a) && ExtendsInternally(c, b)
    ensures ExtendsInternally(c, a)
  {
    if c != b {
      InternalTransitive(a, b, c.before);
    }
  }

  lemma InternalSubmitsNothing(s: State, e: Event)
    requires Internal(e)
    ensures Next(s, e).submitted == s.submitted
  {
  }

  /** The workers alone come to rest. */
  lemma {:induction false} WorkersComeToRest(run: Run) returns (later: Run)
    requires Keyed(run)
    ensures ExtendsInternally(later, run) && Keyed(later) && Quiescent(After(later))
    ensures After(later).submitted == After(run).submitted
    decreases WorkLeft(After(run))
  {
    if Quiescent(After(run)) {
      later := run;
    } else {
      var e := NotStuck(After(run));
      EveryStepReducesWork(After(run), e);
      InternalSubmitsNothing(After(run), e);
      later := WorkersComeToRest(Then(run, e));
      InternalTransitive(run, Then(run, e), later);
    }
  }

  /** From every reachable state the workers alone reach quiescence, with everything submitted handed over. */
  lemma {:induction false} WorkersDrainEverything(run: Run) returns (later: Run)
    requires Keyed(run)
    ensures ExtendsInternally(later, run) && Quiescent(After(later))
    ensures forall key :: Log(After(later).handed, key) == Log(After(run).submitted, key)
  {
    later := WorkersComeToRest(run);
    forall key ensures Log(After(later).handed, key) == Log(After(run).submitted, key) {
      QuiescentMeansAllHanded(later, key);
    }
  }

  /* The asynchronous service. */

  /** No synchronous drain is ever started. */
  predicate LoopOnly(run: Run) {
    run.Then? ==> LoopOnly(run.before) && !run.event.StartDrain?
  }

  lemma {:induction false} OnlyTheLoopWorks(run: Run)
    requires LoopOnly(run)
    ensures After(run).workers.Keys <= {LOOP}
  {
    if run.Then? {
      OnlyTheLoopWorks(run.before);
    }
  }

  /** Then, with jobs queued, the wake slot is full or the loop itself is inside drain. */
  lemma {:induction false} LoopWillSee(run: Run)
    requires Keyed(run) && LoopOnly(run)
    ensures After(run).q.queue != [] ==> After(run).q.wake || LOOP in After(run).workers
  {
    Reachable(run);
    OnlyTheLoopWorks(run);
    if After(run).workers != map[] {
      var w :| w in After(run).workers;
      assert w in After(run).workers.Keys;
    }
  }
}
