/**
 * The leased job queue: a claim pushes a job five minutes out and its attempt count fences the
 * worker that holds it. Every method is one transaction; a run is any interleaving of them.
 */
module JobQueue {
  import opened Bytes

  /** Microseconds, the resolution of a stored timestamp. */
  type Time = int

  const SECOND: Time := 1_000_000
  const LEASE: Time := 300 * SECOND
  const MAX_BACKOFF: Time := 3600 * SECOND
  const RETENTION: Time := 30 * 86_400 * SECOND
  const MAX_ATTEMPTS := 5

  type Id = nat

  datatype Job = Job(kind: string, payload: string, runAfter: Time, attempts: nat, dead: bool)

  /** What fences a worker: the job and the attempt count it was claimed with. */
  datatype Claim = Claim(id: Id, attempts: nat)

  /** What a worker receives. */
  datatype Work = Work(claim: Claim, kind: string, payload: string)

  /** The job table and the next value of its id sequence. */
  datatype Queue = Queue(jobs: map<Id, Job>, nextId: Id)

  const EMPTY := Queue(map[], 0)

  function Pow2(n: nat): nat {
    if n == 0 then 1 else 2 * Pow2(n - 1)
  }

  function Backoff(attempts: nat): (d: Time)
    ensures SECOND <= d <= MAX_BACKOFF
  {
    PowPositive(attempts);
    if Pow2(attempts) * SECOND < MAX_BACKOFF then Pow2(attempts) * SECOND else MAX_BACKOFF
  }

  lemma PowPositive(n: nat)
    ensures Pow2(n) >= 1
  {
  }

  predicate Ready(q: Queue, id: Id, now: Time) {
    id in q.jobs && !q.jobs[id].dead && q.jobs[id].runAfter <= now
  }

  /** One of the ready jobs that have waited longest. */
  predicate Claimable(q: Queue, id: Id, now: Time) {
    Ready(q, id, now) && forall i <- q.jobs :: Ready(q, i, now) ==> q.jobs[id].runAfter <= q.jobs[i].runAfter
  }

  /** The claim is the job's current one. */
  predicate Current(q: Queue, c: Claim) {
    c.id in q.jobs && q.jobs[c.id].attempts == c.attempts && !q.jobs[c.id].dead
  }

  function Enqueued(q: Queue, kind: string, payload: string, now: Time): Queue {
    Queue(q.jobs[q.nextId := Job(kind, payload, now, 0, false)], q.nextId + 1)
  }

  function Claimed(q: Queue, id: Id, now: Time): Queue
    requires id in q.jobs
  {
    q.(jobs := q.jobs[id := q.jobs[id].(runAfter := now + LEASE, attempts := q.jobs[id].attempts + 1)])
  }

  function Completed(q: Queue, c: Claim): Queue {
    if Current(q, c) then q.(jobs := q.jobs - {c.id}) else q
  }

  function Failed(q: Queue, c: Claim, now: Time): Queue {
    if Current(q, c) then
      q.(jobs := q.jobs[c.id :=
                        q.jobs[c.id].(runAfter := now + Backoff(c.attempts), dead := c.attempts >= MAX_ATTEMPTS)])
    else q
  }

  /** Dead jobs may be dropped thirty days after their last failure. */
  predicate Purgeable(q: Queue, id: Id, now: Time) {
    id in q.jobs && q.jobs[id].dead && q.jobs[id].runAfter <= now - RETENTION
  }

  // ----- The store -----

  class Store {
    var jobs: map<Id, Job>
    var nextId: Id

    function Table(): Queue
      reads this
    {
      Queue(jobs, nextId)
    }

    constructor ()
      ensures Table() == EMPTY
    {
      jobs, nextId := map[], 0;
    }

    method EnqueueJob(kind: string, payload: string, now: Time)
      modifies this
      ensures Table() == Enqueued(old(Table()), kind, payload, now)
    {
      jobs := jobs[nextId := Job(kind, payload, now, 0, false)];
      nextId := nextId + 1;
    }

    /** The longest waiting ready job, or nothing exactly when no job is ready. */
    method ClaimJob(now: Time) returns (r: Option<Work>)
      modifies this
      ensures r.None? ==> Table() == old(Table()) && forall id <- jobs :: !Ready(Table(), id, now)
      ensures r.Some? ==>
                var c := r.value.claim;
                && Claimable(old(Table()), c.id, now)
                && Table() == Claimed(old(Table()), c.id, now)
                && Current(Table(), c)
                && (r.value.kind, r.value.payload) == (old(jobs)[c.id].kind, old(jobs)[c.id].payload)
    {
      var ready := set i | i in jobs && Ready(Table(), i, now);
      if ready == {} {
        assert forall i <- jobs :: i in ready || !Ready(Table(), i, now);
        return None;
      }
      OldestReady(Table(), ready, now);
      var id :| id in ready && Claimable(Table(), id, now);
      var job := jobs[id];
      jobs := jobs[id := job.(runAfter := now + LEASE, attempts := job.attempts + 1)];
      return Some(Work(Claim(id, job.attempts + 1), job.kind, job.payload));
    }

    /** Whether the claim was still current; a stale claim changes nothing. */
    method CompleteJob(c: Claim) returns (current: bool)
      modifies this
      ensures Table() == Completed(old(Table()), c)
      ensures current == Current(old(Table()), c)
    {
      if c.id !in jobs || jobs[c.id].attempts != c.attempts || jobs[c.id].dead {
        return false;
      }
      jobs := jobs - {c.id};
      return true;
    }

    method FailJob(c: Claim, now: Time) returns (current: bool)
      modifies this
      ensures Table() == Failed(old(Table()), c, now)
      ensures current == Current(old(Table()), c)
    {
      if c.id !in jobs || jobs[c.id].attempts != c.attempts || jobs[c.id].dead {
        return false;
      }
      var job := jobs[c.id];
      jobs := jobs[c.id := job.(runAfter := now + Backoff(job.attempts), dead := job.attempts >= MAX_ATTEMPTS)];
      return true;
    }
  }

  /** Among ready jobs there is one that has waited longest. */
  lemma {:induction false} OldestReady(q: Queue, ready: set<Id>, now: Time)
    requires ready != {} && forall i :: i in ready <==> i in q.jobs && Ready(q, i, now)
    ensures exists id <- ready :: Claimable(q, id, now)
  {
    var id := OldestOf(q, ready);
    assert forall i <- q.jobs :: Ready(q, i, now) ==> i in ready;
    assert id in ready && Claimable(q, id, now);
  }

  lemma {:induction false} OldestOf(q: Queue, ids: set<Id>) returns (id: Id)
    requires ids != {} && ids <= q.jobs.Keys
    ensures id in ids && forall i <- ids :: q.jobs[id].runAfter <= q.jobs[i].runAfter
    decreases ids
  {
    id :| id in ids;
    var rest := ids - {id};
    if rest == {} {
      assert ids == {id};
    } else {
      var first := id;
      var other := OldestOf(q, rest);
      if q.jobs[other].runAfter < q.jobs[first].runAfter {
        id := other;
      }
      forall i <- ids ensures q.jobs[id].runAfter <= q.jobs[i].runAfter {
        assert i == first || i in rest;
      }
    }
  }

  // ----- Runs -----

  /** One committed transaction and the time it read. A claim that finds nothing needs no event. */
  datatype Event =
    | Enqueue(kind: string, payload: string, at: Time)
    | Take(id: Id, at: Time)
    | Complete(claim: Claim, at: Time)
    | Fail(claim: Claim, at: Time)
    | Purge(id: Id, at: Time)

  /** When a transaction may commit; workers report whatever they like, whenever they like. */
  predicate Enabled(q: Queue, e: Event) {
    match e
    case Take(id, at) => Claimable(q, id, at)
    case Purge(id, at) => Purgeable(q, id, at)
    case _ => true
  }

  function Next(q: Queue, e: Event): Queue
    requires Enabled(q, e)
  {
    match e
    case Enqueue(kind, payload, at) => Enqueued(q, kind, payload, at)
    case Take(id, at) => Claimed(q, id, at)
    case Complete(c, _) => Completed(q, c)
    case Fail(c, at) => Failed(q, c, at)
    case Purge(id, _) => q.(jobs := q.jobs - {id})
  }

  /** Every event of the run was enabled when it happened. */
  predicate Legal(es: seq<Event>)
    decreases es, 0
  {
    es == [] || (Legal(es[..|es| - 1]) && Enabled(After(es[..|es| - 1]), es[|es| - 1]))
  }

  /** The queue after a run that started empty. */
  function After(es: seq<Event>): Queue
    requires Legal(es)
    decreases es, 1
  {
    if es == [] then EMPTY else Next(After(es[..|es| - 1]), es[|es| - 1])
  }

  /** The clock never goes back. */
  predicate Monotone(es: seq<Event>) {
    forall i, j :: 0 <= i <= j < |es| ==> es[i].at <= es[j].at
  }

  /** How often a job was claimed. */
  function Claims(es: seq<Event>, id: Id): nat {
    if es == [] then 0
    else Claims(es[..|es| - 1], id) + if es[|es| - 1].Take? && es[|es| - 1].id == id then 1 else 0
  }

  lemma {:induction false} LegalPrefix(es: seq<Event>, k: nat)
    requires Legal(es) && k <= |es|
    ensures Legal(es[..k])
  {
    hide Enabled, After;
    if k < |es| {
      LegalPrefix(es[..|es| - 1], k);
      assert es[..|es| - 1][..k] == es[..k];
    } else {
      assert es[..k] == es;
    }
  }

  /** One step of a run. */
  lemma StepOf(es: seq<Event>, k: nat)
    requires Legal(es) && k < |es|
    ensures Legal(es[..k]) && Enabled(After(es[..k]), es[k])
    ensures Legal(es[..k + 1]) && After(es[..k + 1]) == Next(After(es[..k]), es[k])
    ensures forall id :: Claims(es[..k + 1], id) == Claims(es[..k], id) + if es[k].Take? && es[k].id == id then 1 else 0
  {
    hide Enabled, Next;
    LegalPrefix(es, k);
    LegalPrefix(es, k + 1);
    assert es[..k + 1][..k] == es[..k];
  }

  /** Attempts count claims, ids are never reused, and only a fifth attempt can die. */
  ghost predicate Sound(q: Queue, claims: Id -> nat) {
    && (forall id <- q.jobs :: id < q.nextId && q.jobs[id].attempts == claims(id))
    && (forall id <- q.jobs :: q.jobs[id].dead ==> q.jobs[id].attempts >= MAX_ATTEMPTS)
    && (forall id | id >= q.nextId :: claims(id) == 0)
  }

  lemma SoundStep(q: Queue, e: Event, before: Id -> nat, after: Id -> nat)
    requires Sound(q, before) && Enabled(q, e)
    requires forall id :: after(id) == before(id) + if e.Take? && e.id == id then 1 else 0
    ensures Sound(Next(q, e), after) && Next(q, e).nextId >= q.nextId
  {
  }

  lemma {:induction false} AttemptsAreClaims(es: seq<Event>)
    requires Legal(es)
    ensures Sound(After(es), id => Claims(es, id))
  {
    hide Enabled, Next;
    if es != [] {
      var prior := es[..|es| - 1];
      AttemptsAreClaims(prior);
      SoundStep(After(prior), es[|es| - 1], id => Claims(prior, id), id => Claims(es, id));
    }
  }

  // ----- Conservation -----

  /** The event ends the job: its latest claim completes it, or it is dead and purged. */
  predicate Removes(q: Queue, e: Event, id: Id, latest: nat) {
    id in q.jobs &&
    match e
    case Complete(c, _) => c == Claim(id, latest) && !q.jobs[id].dead
    case Purge(i, at) => i == id && q.jobs[id].dead && q.jobs[id].runAfter <= at - RETENTION
    case _ => false
  }

  /** The k-th event of the run ends the job, of which it was the latest claim that counted. */
  predicate Ends(es: seq<Event>, k: nat, id: Id)
    requires Legal(es) && k < |es|
  {
    LegalPrefix(es, k);
    Removes(After(es[..k]), es[k], id, Claims(es[..k], id))
  }

  /** A step changes which jobs exist only by adding the next id or by ending one. */
  lemma KeysOfNext(q: Queue, e: Event, id: Id, latest: nat)
    requires Enabled(q, e) && q.nextId !in q.jobs && (id in q.jobs ==> q.jobs[id].attempts == latest)
    ensures var r := Next(q, e);
            && (id < r.nextId <==> id < q.nextId || (id == q.nextId && e.Enqueue?))
            && (id in r.jobs <==> (id in q.jobs && !Removes(q, e, id, latest)) || (id == q.nextId && e.Enqueue?))
  {
  }

  lemma KeysStep(es: seq<Event>, k: nat, id: Id)
    requires Legal(es) && k < |es|
    ensures Legal(es[..k]) && Legal(es[..k + 1])
    ensures var q, r := After(es[..k]), After(es[..k + 1]);
            && (id < r.nextId <==> id < q.nextId || (id == q.nextId && es[k].Enqueue?))
            && (id in r.jobs <==> (id in q.jobs && !Ends(es, k, id)) || (id == q.nextId && es[k].Enqueue?))
            && (id in q.jobs ==> id < q.nextId)
            && (Ends(es, k, id) ==> id in q.jobs)
  {
    hide Enabled, Next, Legal, After;
    StepOf(es, k);
    AttemptsAreClaims(es[..k]);
    KeysOfNext(After(es[..k]), es[k], id, Claims(es[..k], id));
  }

  /** An id on the table was enqueued, and an id that left never comes back. */
  lemma {:induction false} EndedIsGone(es: seq<Event>, i: nat, k: nat, id: Id)
    requires Legal(es) && i <= k <= |es| && Legal(es[..i]) && Legal(es[..k])
    requires id < After(es[..i]).nextId && id !in After(es[..i]).jobs
    ensures id < After(es[..k]).nextId && id !in After(es[..k]).jobs
    decreases k - i
  {
    hide After, Ends;
    if i < k {
      KeysStep(es, i, id);
      EndedIsGone(es, i + 1, k, id);
    }
  }

  /**
   * Every job ever enqueued is still on the table, live or dead, or exactly one event ended it: the
   * completion of its current claim, or the purge of a dead job.
   */
  lemma {:induction false} Conservation(es: seq<Event>, id: Id)
    requires Legal(es) && id < After(es).nextId
    ensures id in After(es).jobs <==> forall k | 0 <= k < |es| :: !Ends(es, k, id)
    ensures forall i, j | 0 <= i < j < |es| :: !(Ends(es, i, id) && Ends(es, j, id))
  {
    assert es[..|es|] == es;
    ConservationUpTo(es, |es|, id);
  }

  lemma {:induction false} ConservationUpTo(es: seq<Event>, k: nat, id: Id)
    requires Legal(es) && k <= |es| && Legal(es[..k])
    ensures id in After(es[..k]).jobs ==> id < After(es[..k]).nextId
    ensures id < After(es[..k]).nextId ==> (id in After(es[..k]).jobs <==> forall i | 0 <= i < k :: !Ends(es, i, id))
    ensures id >= After(es[..k]).nextId ==> forall i | 0 <= i < k :: !Ends(es, i, id)
    ensures forall i, j | 0 <= i < j < k :: !(Ends(es, i, id) && Ends(es, j, id))
    decreases k
  {
    hide Ends, Enabled, Next;
    if k > 0 {
      StepOf(es, k - 1);
      ConservationUpTo(es, k - 1, id);
      KeysStep(es, k - 1, id);
    }
  }

  // ----- Fencing and leases -----

  /** The claim handed out by the k-th event, which takes a job. */
  function HandedOut(es: seq<Event>, k: nat): Claim
    requires k < |es| && es[k].Take?
  {
    Claim(es[k].id, Claims(es[..k + 1], es[k].id))
  }

  lemma {:induction false} ClaimsGrow(es: seq<Event>, i: nat, k: nat, id: Id)
    requires Legal(es) && i <= k <= |es|
    ensures Claims(es[..i], id) <= Claims(es[..k], id)
    decreases k - i
  {
    hide Legal, Claims;
    if i < k {
      StepOf(es, i);
      ClaimsGrow(es, i + 1, k, id);
    }
  }

  /** No two claims handed out are the same. */
  lemma ClaimsAreDistinct(es: seq<Event>, i: nat, k: nat)
    requires Legal(es) && i < k < |es| && es[i].Take? && es[k].Take? && es[i].id == es[k].id
    ensures HandedOut(es, i).attempts < HandedOut(es, k).attempts
  {
    hide Legal, Claims;
    ClaimsGrow(es, i + 1, k, es[i].id);
    StepOf(es, k);
  }

  /** Once a job is claimed again, what the earlier claim reports changes nothing, whenever it arrives. */
  lemma SupersededIsInert(es: seq<Event>, j: nat, k: nat)
    requires Legal(es) && j < k < |es| && es[j].Take?
    requires (es[k].Complete? || es[k].Fail?) && es[k].claim.id == es[j].id
    requires es[k].claim.attempts < HandedOut(es, j).attempts
    ensures Legal(es[..k]) && Legal(es[..k + 1])
    ensures After(es[..k + 1]) == After(es[..k])
  {
    hide Legal, Claims, After;
    ClaimsGrow(es, j + 1, k, es[j].id);
    StepOf(es, k);
    AttemptsAreClaims(es[..k]);
  }

  /** The k-th event fails the job with its current claim, so that it may be retried before its lease is up. */
  predicate Fails(es: seq<Event>, k: nat, id: Id)
    requires Legal(es) && k < |es|
  {
    LegalPrefix(es, k);
    es[k].Fail? && es[k].claim.id == id && Current(After(es[..k]), es[k].claim)
  }

  /** Two claims of one job without a failure between them are at least a lease apart. */
  lemma LeaseIsExclusive(es: seq<Event>, i: nat, k: nat)
    requires Legal(es) && Monotone(es) && i < k < |es|
    requires es[i].Take? && es[k].Take? && es[i].id == es[k].id
    requires forall j | i < j < k :: !Fails(es, j, es[i].id)
    ensures es[k].at >= es[i].at + LEASE
  {
    hide Legal, After, Claims, Fails;
    StepOf(es, i);
    LeaseHolds(es, i, k);
    StepOf(es, k);
  }

  lemma {:induction false} LeaseHolds(es: seq<Event>, i: nat, k: nat)
    requires Legal(es) && Monotone(es) && i < k <= |es| && es[i].Take?
    requires forall j | i < j < k :: !Fails(es, j, es[i].id)
    ensures Legal(es[..k]) && es[i].id < After(es[..k]).nextId
    ensures es[i].id in After(es[..k]).jobs ==> After(es[..k]).jobs[es[i].id].runAfter >= es[i].at + LEASE
    decreases k
  {
    hide Legal, After, Claims, Enabled, Next;
    StepOf(es, k - 1);
    if k == i + 1 {
      AttemptsAreClaims(es[..i]);
      TakeLeases(After(es[..i]), es[i]);
    } else {
      LeaseHolds(es, i, k - 1);
      assert !Fails(es, k - 1, es[i].id);
      assert es[k - 1].at >= es[i].at;
      LeaseStep(After(es[..k - 1]), es[k - 1], es[i].id, es[i].at);
    }
  }

  lemma TakeLeases(q: Queue, e: Event)
    requires e.Take? && Enabled(q, e) && forall id <- q.jobs :: id < q.nextId
    ensures var r := Next(q, e);
            e.id < r.nextId && e.id in r.jobs && r.jobs[e.id].runAfter == e.at + LEASE
  {
  }

  lemma LeaseStep(q: Queue, e: Event, id: Id, at: Time)
    requires Enabled(q, e) && e.at >= at && id < q.nextId
    requires id in q.jobs ==> q.jobs[id].runAfter >= at + LEASE
    requires !(e.Fail? && e.claim.id == id && Current(q, e.claim))
    ensures var r := Next(q, e);
            id < r.nextId && (id in r.jobs ==> r.jobs[id].runAfter >= at + LEASE)
  {
  }

  // ----- What the log says about a job -----

  /** The delay after a failure doubles with every claim, from two seconds after the first up to an hour. */
  lemma BackoffDoubles(n: nat)
    ensures Backoff(1) == 2_000_000
    ensures Backoff(n + 1) == if 2 * Backoff(n) < 3_600_000_000 then 2 * Backoff(n) else 3_600_000_000
  {
    assert Pow2(1) == 2 * Pow2(0);
  }

  /** How many jobs were enqueued. */
  function Enqueues(es: seq<Event>): nat {
    if es == [] then 0 else Enqueues(es[..|es| - 1]) + if es[|es| - 1].Enqueue? then 1 else 0
  }

  /** The k-th event enqueues the job: ids are handed out in order. */
  predicate Born(es: seq<Event>, k: nat, id: Id)
    requires k < |es|
  {
    es[k].Enqueue? && Enqueues(es[..k]) == id
  }

  /** The k-th event reports a failure of what was then the job's latest claim. */
  predicate Reports(es: seq<Event>, k: nat, id: Id)
    requires k < |es|
  {
    es[k].Fail? && es[k].claim == Claim(id, Claims(es[..k], id))
  }

  /** The latest claim is at least the fifth, and its failure was reported. */
  predicate Died(es: seq<Event>, id: Id) {
    Claims(es, id) >= 5 && exists k | 0 <= k < |es| :: Reports(es, k, id) && es[k].claim.attempts == Claims(es, id)
  }

  /** The k-th event decides when the job is due, and how it stands: its birth, a claim, or a failure before it died. */
  predicate Decides(es: seq<Event>, k: nat, id: Id)
    requires k < |es|
  {
    || Born(es, k, id)
    || (es[k].Take? && es[k].id == id)
    || (Reports(es, k, id) && !Died(es[..k], id))
  }

  /** The last event to decide was the k-th, and the job is due accordingly. */
  predicate DueBy(es: seq<Event>, k: nat, id: Id, due: Time)
    requires k < |es|
  {
    && Decides(es, k, id) && (forall j | k < j < |es| :: !Decides(es, j, id))
    && due == es[k].at + match es[k]
                         case Take(_, _) => 300_000_000
                         case Fail(_, _) => Backoff(Claims(es[..k], id))
                         case _ => 0
  }

  /**
   * The log alone says what the table holds of a job: what it was enqueued with, how often it was claimed, whether
   * it died, and when it is due.
   */
  ghost predicate Explained(es: seq<Event>, id: Id, job: Job) {
    && (exists b | 0 <= b < |es| :: Born(es, b, id) && job.kind == es[b].kind && job.payload == es[b].payload)
    && job.attempts == Claims(es, id) && (job.dead <==> Died(es, id))
    && (exists k | 0 <= k < |es| :: DueBy(es, k, id, job.runAfter))
  }

  /** What earlier events were does not depend on later ones. */
  lemma PriorEvents(es: seq<Event>, k: nat, id: Id)
    requires k < |es| - 1
    ensures var prior := es[..|es| - 1];
            && (Born(es, k, id) <==> Born(prior, k, id)) && (Reports(es, k, id) <==> Reports(prior, k, id))
            && (Decides(es, k, id) <==> Decides(prior, k, id)) && es[..k] == prior[..k]
  {
    hide Claims, Enqueues, Died;
    assert es[..|es| - 1][..k] == es[..k];
  }

  /** What the last event makes of the job's history. */
  lemma LastEvent(es: seq<Event>, id: Id)
    requires es != []
    ensures var prior, n, e := es[..|es| - 1], |es| - 1, es[|es| - 1];
            && (Born(es, n, id) <==> e.Enqueue? && Enqueues(prior) == id)
            && (Reports(es, n, id) <==> e.Fail? && e.claim == Claim(id, Claims(prior, id)))
            && Claims(es, id) == Claims(prior, id) + (if e.Take? && e.id == id then 1 else 0)
            && (Died(es, id) <==>
                if e.Take? && e.id == id then false
                else Died(prior, id) || (Claims(prior, id) >= 5 && Reports(es, n, id)))
  {
    var prior, n, e := es[..|es| - 1], |es| - 1, es[|es| - 1];
    hide Enqueues;
    forall k | 0 <= k < n
      ensures Reports(es, k, id) <==> Reports(prior, k, id)
      ensures Reports(es, k, id) ==> es[k].claim.attempts <= Claims(prior, id)
    {
      PriorEvents(es, k, id);
      ClaimsMonotone(prior, k, id);
    }
  }

  lemma {:induction false} ClaimsMonotone(es: seq<Event>, k: nat, id: Id)
    requires k <= |es|
    ensures Claims(es[..k], id) <= Claims(es, id)
  {
    if k < |es| {
      assert es[..|es| - 1][..k] == es[..k];
      ClaimsMonotone(es[..|es| - 1], k, id);
    } else {
      assert es[..k] == es;
    }
  }

  /** What is due stays so until something decides again. */
  lemma StillDue(es: seq<Event>, id: Id, job: Job)
    requires es != [] && Explained(es[..|es| - 1], id, job) && !Decides(es, |es| - 1, id)
    requires Died(es, id) <==> Died(es[..|es| - 1], id)
    requires Claims(es, id) == Claims(es[..|es| - 1], id)
    ensures Explained(es, id, job)
  {
    hide Claims, Enqueues, Died, Decides, Reports, Born, DueBy;
    var prior := es[..|es| - 1];
    BirthStays(es, id, job);
    var k :| 0 <= k < |prior| && DueBy(prior, k, id, job.runAfter);
    DueStays(es, k, id, job.runAfter);
  }

  lemma BirthStays(es: seq<Event>, id: Id, job: Job)
    requires es != [] && exists b | 0 <= b < |es| - 1 ::
               Born(es[..|es| - 1], b, id) && job.kind == es[b].kind && job.payload == es[b].payload
    ensures exists b | 0 <= b < |es| :: Born(es, b, id) && job.kind == es[b].kind && job.payload == es[b].payload
  {
    hide Enqueues;
    var b :| 0 <= b < |es| - 1 && Born(es[..|es| - 1], b, id) && job.kind == es[b].kind && job.payload == es[b].payload;
    PriorEvents(es, b, id);
    assert Born(es, b, id);
  }

  lemma DueStays(es: seq<Event>, k: nat, id: Id, due: Time)
    requires k < |es| - 1 && DueBy(es[..|es| - 1], k, id, due) && !Decides(es, |es| - 1, id)
    ensures DueBy(es, k, id, due)
  {
    hide Decides, Claims, Backoff, Enqueues;
    PriorEvents(es, k, id);
    forall j | k < j < |es| ensures !Decides(es, j, id) {
      if j < |es| - 1 {
        PriorEvents(es, j, id);
      }
    }
  }

  /** The last event decides. */
  lemma NowDue(es: seq<Event>, id: Id, job: Job, before: Job)
    requires es != [] && Decides(es, |es| - 1, id) && !Born(es, |es| - 1, id) && Explained(es[..|es| - 1], id, before)
    requires job.kind == before.kind && job.payload == before.payload
    requires job.attempts == Claims(es, id) && (job.dead <==> Died(es, id)) && DueBy(es, |es| - 1, id, job.runAfter)
    ensures Explained(es, id, job)
  {
    hide Claims, Enqueues, Died, Decides, Reports, DueBy;
    BirthStays(es, id, job);
  }

  /** One event does to a job's row what it does to its history. */
  lemma ExplainedStep(es: seq<Event>, q: Queue, id: Id)
    requires es != [] && q.nextId == Enqueues(es[..|es| - 1]) && q.nextId !in q.jobs && Enabled(q, es[|es| - 1])
    requires id in q.jobs && Explained(es[..|es| - 1], id, q.jobs[id]) && id in Next(q, es[|es| - 1]).jobs
    ensures Explained(es, id, Next(q, es[|es| - 1]).jobs[id])
  {
    hide Explained, Claims, Enqueues, Died, Backoff, Reports, Born;
    var prior, n, e := es[..|es| - 1], |es| - 1, es[|es| - 1];
    assert es[..n] == prior;
    var before, job := q.jobs[id], Next(q, e).jobs[id];
    ExplainedRow(prior, id, before);
    LastEvent(es, id);
    if Decides(es, n, id) {
      NowDue(es, id, job, before);
    } else {
      StillDue(es, id, job);
    }
  }

  lemma ExplainedRow(es: seq<Event>, id: Id, job: Job)
    requires Explained(es, id, job)
    ensures job.attempts == Claims(es, id) && (job.dead <==> Died(es, id))
  {
  }

  lemma ExplainedBirth(es: seq<Event>, id: Id)
    requires es != [] && es[|es| - 1].Enqueue? && Enqueues(es[..|es| - 1]) == id && Claims(es[..|es| - 1], id) == 0
    ensures Explained(es, id, Job(es[|es| - 1].kind, es[|es| - 1].payload, es[|es| - 1].at, 0, false))
  {
    hide Enqueues, Died;
    LastEvent(es, id);
    var n := |es| - 1;
    assert !Died(es, id) by { DiedClaims(es, id); }
    assert Born(es, n, id) && DueBy(es, n, id, es[n].at);
  }

  lemma DiedClaims(es: seq<Event>, id: Id)
    ensures Died(es, id) ==> Claims(es, id) >= 5
  {
  }

  /** In every run, each row is what the log says, and the next id is the number of jobs enqueued. */
  lemma {:induction false} RowsFollowLog(es: seq<Event>)
    requires Legal(es)
    ensures After(es).nextId == Enqueues(es)
    ensures forall id <- After(es).jobs :: Explained(es, id, After(es).jobs[id])
  {
    if es != [] {
      hide Explained, Next, Enabled, Claims;
      var prior, e := es[..|es| - 1], es[|es| - 1];
      var q := After(prior);
      RowsFollowLog(prior);
      AttemptsAreClaims(prior);
      RowsOfNext(q, e);
      assert (id => Claims(prior, id))(q.nextId) == 0;
      forall id <- After(es).jobs ensures Explained(es, id, After(es).jobs[id]) {
        if id in q.jobs {
          ExplainedStep(es, q, id);
        } else {
          ExplainedBirth(es, id);
        }
      }
    }
  }

  lemma RowsOfNext(q: Queue, e: Event)
    requires Enabled(q, e)
    ensures Next(q, e).nextId == q.nextId + if e.Enqueue? then 1 else 0
    ensures forall id <- Next(q, e).jobs :: id in q.jobs ||
              (e.Enqueue? && id == q.nextId && Next(q, e).jobs[id] == Job(e.kind, e.payload, e.at, 0, false))
  {
  }

  /**
   * A failure reported under the current claim kills the job exactly if that claim was at least the fifth; then it
   * stays dead and is never taken again. Otherwise the job is due after the delay for the number of its claims.
   */
  lemma FifthFailureKills(es: seq<Event>, k: nat, id: Id)
    requires Legal(es) && k < |es| && Fails(es, k, id)
    ensures Legal(es[..k + 1]) && id in After(es[..k + 1]).jobs
    ensures var job := After(es[..k + 1]).jobs[id];
            && (job.dead <==> Claims(es[..k], id) >= 5)
            && job.runAfter == es[k].at + Backoff(Claims(es[..k], id))
    ensures Claims(es[..k], id) >= 5 ==>
              && (id in After(es).jobs ==> After(es).jobs[id].dead)
              && forall m | k < m < |es| :: !(es[m].Take? && es[m].id == id)
  {
    hide Legal, After, Claims, Backoff;
    StepOf(es, k);
    AttemptsAreClaims(es[..k]);
    if Claims(es[..k], id) >= 5 {
      AttemptsAreClaims(es[..k + 1]);
      DeadStays(es, k + 1, |es|, id);
      assert es[..|es|] == es;
      forall m | k < m < |es| ensures !(es[m].Take? && es[m].id == id) {
        DeadStays(es, k + 1, m, id);
        StepOf(es, m);
      }
    }
  }

  lemma {:induction false} DeadStays(es: seq<Event>, k: nat, m: nat, id: Id)
    requires Legal(es) && k <= m <= |es| && Legal(es[..k])
    requires id < After(es[..k]).nextId && (id in After(es[..k]).jobs ==> After(es[..k]).jobs[id].dead)
    ensures Legal(es[..m]) && id < After(es[..m]).nextId
    ensures id in After(es[..m]).jobs ==> After(es[..m]).jobs[id].dead
    decreases m
  {
    hide Legal, After, Claims;
    if k < m {
      DeadStays(es, k, m - 1, id);
      StepOf(es, m - 1);
      DeadStep(After(es[..m - 1]), es[m - 1], id);
    }
  }

  lemma DeadStep(q: Queue, e: Event, id: Id)
    requires Enabled(q, e) && id < q.nextId && (id in q.jobs ==> q.jobs[id].dead)
    ensures id < Next(q, e).nextId && (id in Next(q, e).jobs ==> Next(q, e).jobs[id].dead)
  {
  }

  // ----- No starvation -----

  /** The live jobs that may be claimed before the given one: due no later, ties included. */
  function Ahead(q: Queue, id: Id): set<Id>
    requires id in q.jobs
  {
    set i | i in q.jobs && i != id && !q.jobs[i].dead && q.jobs[i].runAfter <= q.jobs[id].runAfter
  }

  /** The event leaves the job alone, as a report by a superseded claim does. */
  predicate Leaves(q: Queue, e: Event, id: Id) {
    match e
    case Enqueue(_, _, _) => true
    case Take(i, _) => i != id
    case Complete(c, _) => c.id != id || !Current(q, c)
    case Fail(c, _) => c.id != id || !Current(q, c)
    case Purge(i, _) => i != id
  }

  /** The k-th event leaves the job alone: it is neither claimed nor ended, whoever else reports on it. */
  predicate Spares(es: seq<Event>, k: nat, id: Id)
    requires Legal(es) && k < |es|
  {
    LegalPrefix(es, k);
    Leaves(After(es[..k]), es[k], id)
  }

  function Takes(es: seq<Event>): nat {
    if es == [] then 0 else Takes(es[..|es| - 1]) + if es[|es| - 1].Take? then 1 else 0
  }

  /** How many jobs were enqueued no later than the given time. */
  function Ties(es: seq<Event>, due: Time): nat {
    if es == [] then 0
    else Ties(es[..|es| - 1], due) + if es[|es| - 1].Enqueue? && es[|es| - 1].at <= due then 1 else 0
  }

  /**
   * While a due job waits, at most as many claims happen as there were live jobs ahead of it, plus
   * those enqueued at the very instant it fell due.
   */
  lemma NoStarvation(es: seq<Event>, from: nat, id: Id)
    requires Legal(es) && Monotone(es) && from < |es| && Legal(es[..from])
    requires id in After(es[..from]).jobs && !After(es[..from]).jobs[id].dead
    requires After(es[..from]).jobs[id].runAfter <= es[from].at
    requires forall k | from <= k < |es| :: Spares(es, k, id)
    ensures var q := After(es[..from]);
            Takes(es[from..]) <= |Ahead(q, id)| + Ties(es[from..], q.jobs[id].runAfter)
  {
    hide Legal, After, Ahead, Spares, Takes, Ties;
    Waiting(es, from, |es|, id);
    assert es[from..|es|] == es[from..];
  }

  lemma {:induction false} Waiting(es: seq<Event>, from: nat, k: nat, id: Id)
    requires Legal(es) && Monotone(es) && from < |es| && from <= k <= |es| && Legal(es[..from])
    requires id in After(es[..from]).jobs && !After(es[..from]).jobs[id].dead
    requires After(es[..from]).jobs[id].runAfter <= es[from].at
    requires forall j | from <= j < |es| :: Spares(es, j, id)
    ensures Legal(es[..k]) && id in After(es[..k]).jobs
    ensures After(es[..k]).jobs[id] == After(es[..from]).jobs[id]
    ensures var q, r := After(es[..from]), After(es[..k]);
            |Ahead(r, id)| + Takes(es[from..k]) <= |Ahead(q, id)| + Ties(es[from..k], q.jobs[id].runAfter)
    decreases k
  {
    hide Legal, After, Claims, Enabled, Next, Ahead, Leaves, Monotone;
    if k > from {
      Waiting(es, from, k - 1, id);
      StepOf(es, k - 1);
      SliceStep(es, from, k);
      AttemptsAreClaims(es[..k - 1]);
      assert Spares(es, k - 1, id);
      AheadStep(After(es[..k - 1]), es[k - 1], id);
    }
  }

  lemma SliceStep(es: seq<Event>, from: nat, k: nat)
    requires Monotone(es) && from < k <= |es|
    ensures es[from].at <= es[k - 1].at
    ensures es[from..k][..k - 1 - from] == es[from..k - 1]
  {
  }

  /** Only a job enqueued at the same instant joins the jobs ahead; a claim always removes one. */
  lemma AheadStep(q: Queue, e: Event, id: Id)
    requires Enabled(q, e) && Leaves(q, e, id) && q.nextId !in q.jobs
    requires id in q.jobs && !q.jobs[id].dead && q.jobs[id].runAfter <= e.at
    ensures var r := Next(q, e);
            && id in r.jobs && r.jobs[id] == q.jobs[id]
            && |Ahead(r, id)| + (if e.Take? then 1 else 0)
               <= |Ahead(q, id)| + (if e.Enqueue? && e.at <= q.jobs[id].runAfter then 1 else 0)
  {
    var r := Next(q, e);
    match e
    case Enqueue(_, _, at) =>
      if at <= q.jobs[id].runAfter {
        assert Ahead(r, id) <= Ahead(q, id) + {q.nextId};
        SubsetIsNoLarger(Ahead(r, id), Ahead(q, id) + {q.nextId});
      } else {
        SubsetIsNoLarger(Ahead(r, id), Ahead(q, id));
      }
    case Take(i, _) =>
      assert i in Ahead(q, id);
      SubsetIsNoLarger(Ahead(r, id), Ahead(q, id) - {i});
    case _ =>
      SubsetIsNoLarger(Ahead(r, id), Ahead(q, id));
  }

  lemma SubsetIsNoLarger<T>(a: set<T>, b: set<T>)
    requires a <= b
    ensures |a| <= |b|
  {
    assert b == a + (b - a);
  }

  /** The first job and m more, all due at once. */
  function Line(m: nat): seq<Event> {
    (if m == 0 then [] else Line(m - 1)) + [Enqueue("", "", 0)]
  }

  /** A run that keeps passing over the first job: the line is claimed first, then one newcomer after the other. */
  function Crowd(m: nat, rounds: nat): seq<Event> {
    if rounds == 0 then Line(m)
    else Crowd(m, rounds - 1) + (if rounds <= m then [] else [Enqueue("", "", 0)]) + [Take(rounds, 0)]
  }

  /** The event lets another job go first. */
  predicate Overtakes(e: Event) {
    e.Enqueue? || (e.Take? && e.id != 0)
  }

  lemma OvertakingSpares(es: seq<Event>, k: nat)
    requires Legal(es) && k < |es| && Overtakes(es[k])
    ensures Spares(es, k, 0)
  {
    hide Legal, After;
  }

  /** Jobs 1 to `taken` of the first `total` are claimed, and none of the others is. */
  ghost predicate Lined(q: Queue, total: nat, taken: nat) {
    && q.nextId == total
    && (forall i: Id :: i in q.jobs <==> i < total)
    && (forall i <- q.jobs ::
        if 1 <= i <= taken then q.jobs[i].runAfter == LEASE else q.jobs[i] == Job("", "", 0, 0, false))
  }

  /**
   * The bound is attained for every number of jobs ahead and every number of ties: in this run the
   * first job, due all the time, waits through exactly as many claims as NoStarvation allows.
   */
  lemma TiesCanStarve(m: nat, n: nat)
    ensures var es, from := Crowd(m, m + n), m + 1;
            && Legal(es) && Monotone(es) && from <= |es| && Legal(es[..from])
            && 0 in After(es).jobs && After(es).jobs[0] == Job("", "", 0, 0, false)
            && 0 in After(es[..from]).jobs && After(es[..from]).jobs[0] == Job("", "", 0, 0, false)
            && (forall k | from <= k < |es| :: es[k].at == 0 && Spares(es, k, 0))
            && |Ahead(After(es[..from]), 0)| == m && Ties(es[from..], 0) == n && Takes(es[from..]) == m + n
  {
    hide Legal, After, Crowd, Takes, Ties, Overtakes;
    CrowdRuns(m, m + n);
    var es := Crowd(m, m + n);
    forall k | m + 1 <= k < |es| ensures Spares(es, k, 0) {
      OvertakingSpares(es, k);
    }
    LineRuns(m);
    assert Ahead(After(Line(m)), 0) == Rest(m);
  }

  /** The jobs behind the first. */
  function Rest(m: nat): (r: set<Id>)
    ensures |r| == m && forall i :: i in r <==> 1 <= i <= m
  {
    if m == 0 then {} else Rest(m - 1) + {m}
  }

  lemma {:induction false} LineRuns(m: nat)
    ensures var es := Line(m);
            |es| == m + 1 && Legal(es) && Lined(After(es), m + 1, 0) && forall k | 0 <= k < |es| :: es[k].at == 0
  {
    hide Legal, After, Takes, Ties, Enabled, Next, Lined;
    var prior := if m == 0 then [] else Line(m - 1);
    if m == 0 {
      NoEvents();
    } else {
      LineRuns(m - 1);
    }
    Joined(After(prior), m, 0);
    Appended(prior, Enqueue("", "", 0), 0);
  }

  /** The first job has waited through `taken` claims, while `joined` jobs came behind the line. */
  ghost predicate Waited(es: seq<Event>, m: nat, taken: nat, joined: nat) {
    && m + 1 <= |es| && es[..m + 1] == Line(m) && Legal(es) && Lined(After(es), m + 1 + joined, taken)
    && (forall k | 0 <= k < |es| :: es[k].at == 0 && (k > m ==> Overtakes(es[k])))
    && Takes(es[m + 1..]) == taken && Ties(es[m + 1..], 0) == joined
  }

  lemma {:induction false} CrowdRuns(m: nat, rounds: nat)
    ensures Waited(Crowd(m, rounds), m, rounds, if rounds <= m then 0 else rounds - m)
  {
    hide Waited;
    if rounds == 0 {
      LineWaited(m);
    } else {
      var prior := Crowd(m, rounds - 1);
      CrowdRuns(m, rounds - 1);
      if rounds <= m {
        OneTaken(prior, m, rounds - 1, 0);
        assert prior + [] == prior;
      } else {
        OneJoined(prior, m, rounds - 1, rounds - 1 - m);
        OneTaken(prior + [Enqueue("", "", 0)], m, rounds - 1, rounds - m);
      }
    }
  }

  lemma LineWaited(m: nat)
    ensures Waited(Line(m), m, 0, 0)
  {
    hide Lined, Takes, Ties, Legal, After, Line;
    LineRuns(m);
    NoEvents();
    var es := Line(m);
    assert es[..m + 1] == es && es[m + 1..] == [];
  }

  /** The next in line is claimed. */
  lemma OneTaken(es: seq<Event>, m: nat, taken: nat, joined: nat)
    requires Waited(es, m, taken, joined) && taken < m + joined
    ensures Waited(es + [Take(taken + 1, 0)], m, taken + 1, joined)
  {
    hide Lined, Takes, Ties, Enabled, Next, Legal, After, Line;
    LineStep(After(es), m + 1 + joined, taken + 1);
    Appended(es, Take(taken + 1, 0), m + 1);
  }

  /** A newcomer arrives. */
  lemma OneJoined(es: seq<Event>, m: nat, taken: nat, joined: nat)
    requires Waited(es, m, taken, joined) && taken < m + 1 + joined
    ensures Waited(es + [Enqueue("", "", 0)], m, taken, joined + 1)
  {
    hide Lined, Takes, Ties, Enabled, Next, Legal, After, Line;
    Joined(After(es), m + 1 + joined, taken);
    Appended(es, Enqueue("", "", 0), m + 1);
  }

  lemma NoEvents()
    ensures Legal([]) && Lined(After([]), 0, 0) && Takes([]) == 0 && Ties([], 0) == 0
  {
  }

  /** One more event of the run. */
  lemma Appended(es: seq<Event>, e: Event, from: nat)
    requires Legal(es) && Enabled(After(es), e) && from <= |es| && e.at == 0
    ensures var fs := es + [e];
            && Legal(fs) && After(fs) == Next(After(es), e) && fs[..from] == es[..from]
            && Takes(fs[from..]) == Takes(es[from..]) + (if e.Take? then 1 else 0)
            && Ties(fs[from..], 0) == Ties(es[from..], 0) + (if e.Enqueue? then 1 else 0)
  {
    hide Legal, After, Takes, Ties;
    AppendedRun(es, e);
    assert (es + [e])[from..] == es[from..] + [e];
    CountsOfOneMore(es[from..], e);
  }

  lemma AppendedRun(es: seq<Event>, e: Event)
    requires Legal(es) && Enabled(After(es), e)
    ensures Legal(es + [e]) && After(es + [e]) == Next(After(es), e)
  {
    hide Enabled, Next;
    assert (es + [e])[..|es|] == es;
  }

  lemma CountsOfOneMore(es: seq<Event>, e: Event)
    requires e.at == 0
    ensures Takes(es + [e]) == Takes(es) + (if e.Take? then 1 else 0)
    ensures Ties(es + [e], 0) == Ties(es, 0) + (if e.Enqueue? then 1 else 0)
  {
    assert (es + [e])[..|es|] == es;
  }

  /** One more of the line is claimed. */
  lemma LineStep(q: Queue, total: nat, taken: nat)
    requires 1 <= taken < total && Lined(q, total, taken - 1)
    ensures Enabled(q, Take(taken, 0)) && Lined(Next(q, Take(taken, 0)), total, taken) && Overtakes(Take(taken, 0))
  {
  }

  lemma Joined(q: Queue, total: nat, taken: nat)
    requires Lined(q, total, taken) && (taken < total || total == 0)
    ensures Enabled(q, Enqueue("", "", 0)) && Lined(Next(q, Enqueue("", "", 0)), total + 1, taken)
  {
  }
}
