/** The lanes of the launch coordinator: which queued job may call its provider, and when. A call that has
    timed out keeps its lane until it settles. */
module CoordinatorLanes {
  const MAX_ACTIVE_GLOBAL := 4
  const MAX_ACTIVE_PER_PROVIDER := 1

  datatype Kind = Create | Reconcile | Retire
  datatype Job = Job(id: string, kind: Kind, provider: string)

  /** A call to a provider that has not settled, whether or not anyone still waits for it. */
  datatype Call = Call(id: string, retiring: bool, provider: string)

  /** The life of a job that holds a lane. Its own work awaits the result of its call, but only until the
      deadline; its lane awaits the call itself. */
  datatype Phase =
    | Starting      // no call yet; the work may also end without one
    | Calling       // the call is under way and its result is awaited
    | PastDeadline  // the work goes on without the result, the call is still under way
    | Lingering     // the work is done, the call is still under way
    | Answered      // the call has settled, the work goes on
    | Over          // the work is done and no call is under way

  predicate Unsettled(p: Phase) {
    p.Calling? || p.PastDeadline? || p.Lingering?
  }

  function AfterSettling(p: Phase): Phase {
    match p
    case Calling => Answered
    case PastDeadline => Answered
    case Lingering => Over
    case _ => p
  }

  function AfterWork(p: Phase): Phase {
    match p
    case Starting => Over
    case PastDeadline => Lingering
    case Answered => Over
    case _ => p
  }

  // ----- counting lanes

  ghost function Holders(jobs: map<string, string>, provider: string): set<string> {
    set id | id in jobs && jobs[id] == provider
  }

  ghost function Load(active: map<string, string>, retiring: map<string, string>, provider: string): nat {
    |Holders(active, provider)| + |Holders(retiring, provider)|
  }

  /** The counter of each provider is the number of jobs that hold its lane, and at most one does. */
  ghost predicate Tally(active: map<string, string>, retiring: map<string, string>, providers: map<string, nat>) {
    forall p :: Load(active, retiring, p) == (if p in providers then providers[p] else 0)
                && (p in providers ==> providers[p] == MAX_ACTIVE_PER_PROVIDER)
  }

  predicate Free(providers: map<string, nat>, provider: string) {
    (if provider in providers then providers[provider] else 0) < MAX_ACTIVE_PER_PROVIDER
  }

  function Increment(providers: map<string, nat>, provider: string): map<string, nat> {
    providers[provider := (if provider in providers then providers[provider] else 0) + 1]
  }

  function Decrement(providers: map<string, nat>, provider: string): map<string, nat> {
    var count := (if provider in providers then providers[provider] as int else 1) - 1;
    if count > 0 then providers[provider := count] else providers - {provider}
  }

  lemma HoldersWith(jobs: map<string, string>, id: string, provider: string, p: string)
    requires id !in jobs
    ensures |Holders(jobs[id := provider], p)| == |Holders(jobs, p)| + (if p == provider then 1 else 0)
  {
    if p == provider {
      assert Holders(jobs[id := provider], p) == Holders(jobs, p) + {id};
    } else {
      assert Holders(jobs[id := provider], p) == Holders(jobs, p);
    }
  }

  lemma HoldersWithout(jobs: map<string, string>, id: string, p: string)
    requires id in jobs
    ensures |Holders(jobs - {id}, p)| == |Holders(jobs, p)| - (if p == jobs[id] then 1 else 0)
  {
    if p == jobs[id] {
      assert id in Holders(jobs, p);
      assert Holders(jobs - {id}, p) == Holders(jobs, p) - {id};
    } else {
      assert Holders(jobs - {id}, p) == Holders(jobs, p);
    }
  }

  lemma TallyLaunch(
      active: map<string, string>, retiring: map<string, string>, providers: map<string, nat>, id: string,
      provider: string)
    requires Tally(active, retiring, providers) && id !in active && Free(providers, provider)
    ensures Tally(active[id := provider], retiring, Increment(providers, provider))
  {
    forall p
      ensures Load(active[id := provider], retiring, p) == Load(active, retiring, p) + (if p == provider then 1 else 0)
    {
      HoldersWith(active, id, provider, p);
    }
  }

  lemma TallyRetirement(
      active: map<string, string>, retiring: map<string, string>, providers: map<string, nat>, id: string,
      provider: string)
    requires Tally(active, retiring, providers) && id !in retiring && Free(providers, provider)
    ensures Tally(active, retiring[id := provider], Increment(providers, provider))
  {
    forall p
      ensures Load(active, retiring[id := provider], p) == Load(active, retiring, p) + (if p == provider then 1 else 0)
    {
      HoldersWith(retiring, id, provider, p);
    }
  }

  lemma TallyWithoutLaunch(
      active: map<string, string>, retiring: map<string, string>, providers: map<string, nat>, id: string)
    requires Tally(active, retiring, providers) && id in active
    ensures Tally(active - {id}, retiring, Decrement(providers, active[id]))
  {
    forall p
      ensures Load(active - {id}, retiring, p) == Load(active, retiring, p) - (if p == active[id] then 1 else 0)
    {
      HoldersWithout(active, id, p);
    }
  }

  lemma TallyWithoutRetirement(
      active: map<string, string>, retiring: map<string, string>, providers: map<string, nat>, id: string)
    requires Tally(active, retiring, providers) && id in retiring
    ensures Tally(active, retiring - {id}, Decrement(providers, retiring[id]))
  {
    forall p
      ensures Load(active, retiring - {id}, p) == Load(active, retiring, p) - (if p == retiring[id] then 1 else 0)
    {
      HoldersWithout(retiring, id, p);
    }
  }

  /** Two holders of one provider's lane are the same job. */
  lemma OneHolder(active: map<string, string>, retiring: map<string, string>, providers: map<string, nat>, p: string)
    requires Tally(active, retiring, providers)
    ensures forall a, b :: a in active && b in active && active[a] == p && active[b] == p ==> a == b
    ensures forall a, b :: a in retiring && b in retiring && retiring[a] == p && retiring[b] == p ==> a == b
    ensures forall a, b :: a in active && b in retiring ==> !(active[a] == p && retiring[b] == p)
  {
    assert Load(active, retiring, p) <= 1;
    forall a, b | a in active && b in active && active[a] == p && active[b] == p ensures a == b {
      AtMostOne(Holders(active, p), a, b);
    }
    forall a, b | a in retiring && b in retiring && retiring[a] == p && retiring[b] == p ensures a == b {
      AtMostOne(Holders(retiring, p), a, b);
    }
    forall a, b | a in active && b in retiring ensures !(active[a] == p && retiring[b] == p) {
      assert a in Holders(active, p) || active[a] != p;
      assert b in Holders(retiring, p) || retiring[b] != p;
    }
  }

  lemma AtMostOne(s: set<string>, a: string, b: string)
    requires |s| <= 1 && a in s && b in s
    ensures a == b
  {
    assert |s - {a}| == 0;
    assert b !in s - {a};
  }

  // ----- queues

  function FirstFree(queue: seq<Job>, providers: map<string, nat>): (k: nat)
    ensures k <= |queue|
    ensures k < |queue| ==> Free(providers, queue[k].provider)
    ensures forall i :: 0 <= i < k ==> !Free(providers, queue[i].provider)
  {
    if queue == [] then 0 else if Free(providers, queue[0].provider) then 0 else 1 + FirstFree(queue[1..], providers)
  }

  function Without(queue: seq<Job>, k: nat): (rest: seq<Job>)
    requires k < |queue|
    ensures |rest| == |queue| - 1
  {
    queue[..k] + queue[k + 1..]
  }

  function IdsOf(queue: seq<Job>): set<string> {
    set job | job in queue :: job.id
  }

  ghost predicate Distinct(queue: seq<Job>) {
    forall i, j :: 0 <= i < j < |queue| ==> queue[i].id != queue[j].id
  }

  lemma IdsWithout(queue: seq<Job>, k: nat)
    requires Distinct(queue) && k < |queue|
    ensures Distinct(Without(queue, k)) && IdsOf(Without(queue, k)) == IdsOf(queue) - {queue[k].id}
  {
    var rest := Without(queue, k);
    forall i | 0 <= i < |rest| ensures rest[i] == queue[if i < k then i else i + 1] {
    }
    forall i | 0 <= i < |queue| && i != k ensures queue[i] in rest && queue[i].id != queue[k].id {
      assert rest[if i < k then i else i - 1] == queue[i];
    }
    forall id | id in IdsOf(queue) - {queue[k].id} ensures id in IdsOf(rest) {
      var i :| 0 <= i < |queue| && queue[i].id == id;
      assert queue[i] in rest;
    }
  }

  lemma IdsWith(queue: seq<Job>, job: Job)
    requires Distinct(queue) && job.id !in IdsOf(queue)
    ensures Distinct(queue + [job]) && IdsOf(queue + [job]) == IdsOf(queue) + {job.id}
  {
    assert forall x :: x in queue + [job] <==> x in queue || x == job;
  }

  /** The jobs of one provider, in order. */
  ghost function Of(jobs: seq<Job>, provider: string): seq<Job> {
    if jobs == [] then []
    else (if jobs[0].provider == provider then [jobs[0]] else []) + Of(jobs[1..], provider)
  }

  lemma {:induction false} OfJoined(a: seq<Job>, b: seq<Job>, provider: string)
    ensures Of(a + b, provider) == Of(a, provider) + Of(b, provider)
  {
    if a == [] {
      assert a + b == b;
    } else {
      assert (a + b)[1..] == a[1..] + b;
      OfJoined(a[1..], b, provider);
    }
  }

  lemma {:induction false} OfNone(jobs: seq<Job>, provider: string)
    requires forall i :: 0 <= i < |jobs| ==> jobs[i].provider != provider
    ensures Of(jobs, provider) == []
  {
    if jobs != [] {
      OfNone(jobs[1..], provider);
    }
  }

  /** Every accepted job of a provider has been started or waits, in the order of acceptance. */
  ghost predicate InOrder(accepted: seq<Job>, started: seq<Job>, queue: seq<Job>) {
    forall p :: Of(accepted, p) == Of(started, p) + Of(queue, p)
  }

  lemma AcceptInOrder(accepted: seq<Job>, started: seq<Job>, queue: seq<Job>, job: Job)
    requires InOrder(accepted, started, queue)
    ensures InOrder(accepted + [job], started, queue + [job])
  {
    forall p ensures Of(accepted + [job], p) == Of(started, p) + Of(queue + [job], p) {
      OfJoined(accepted, [job], p);
      OfJoined(queue, [job], p);
    }
  }

  lemma OneOf(job: Job, provider: string)
    ensures Of([job], provider) == if job.provider == provider then [job] else []
  {
    assert [job][1..] == [];
  }

  lemma Swap(a: seq<Job>, b: seq<Job>, c: seq<Job>)
    requires a == [] || b == []
    ensures (a + b) + c == b + (a + c)
  {
    if a == [] {
      assert a + b == b && a + c == c;
    } else {
      assert a + b == a && b + (a + c) == a + c;
    }
  }

  lemma OfPulled(before: seq<Job>, job: Job, after: seq<Job>, provider: string)
    requires forall i :: 0 <= i < |before| ==> before[i].provider != job.provider
    ensures Of(before + [job] + after, provider) == Of([job], provider) + Of(before + after, provider)
  {
    hide Of;
    OneOf(job, provider);
    OfJoined(before + [job], after, provider);
    OfJoined(before, [job], provider);
    OfJoined(before, after, provider);
    if provider == job.provider {
      OfNone(before, provider);
    }
    Swap(Of(before, provider), Of([job], provider), Of(after, provider));
  }

  /** Starting the first job whose provider is free overtakes no job of that provider. */
  lemma StartInOrder(accepted: seq<Job>, started: seq<Job>, queue: seq<Job>, providers: map<string, nat>)
    requires InOrder(accepted, started, queue) && FirstFree(queue, providers) < |queue|
    ensures InOrder(accepted, started + [queue[FirstFree(queue, providers)]],
                    Without(queue, FirstFree(queue, providers)))
  {
    hide Of;
    var k := FirstFree(queue, providers);
    var job := queue[k];
    forall p ensures Of(accepted, p) == Of(started + [job], p) + Of(Without(queue, k), p) {
      assert queue == queue[..k] + [job] + queue[k + 1..];
      OfPulled(queue[..k], job, queue[k + 1..], p);
      OfJoined(started, [job], p);
    }
  }

  // ----- the scheduler

  /** Nothing more can be started: all lanes are in use, or every waiting job's provider is busy. */
  ghost predicate Saturated(
      queue: seq<Job>, active: map<string, string>, retiring: map<string, string>, providers: map<string, nat>)
  {
    InUse(active, retiring) >= MAX_ACTIVE_GLOBAL || forall i :: 0 <= i < |queue| ==> !Free(providers, queue[i].provider)
  }

  ghost predicate LaunchesApart(queue: seq<Job>, queued: set<string>, active: map<string, string>) {
    Distinct(queue) && queued == IdsOf(queue) && queued !! active.Keys
  }

  ghost predicate RetirementsApart(queue: seq<Job>, all: set<string>, retiring: map<string, string>) {
    Distinct(queue) && IdsOf(queue) !! retiring.Keys && all == IdsOf(queue) + retiring.Keys
  }

  /** The calls of one kind that have not settled are those of the jobs whose phase says so. */
  ghost predicate CallsOf(calls: set<Call>, retiring: bool, jobs: map<string, string>, phases: map<string, Phase>) {
    && phases.Keys == jobs.Keys
    && (forall c :: c in calls && c.retiring == retiring ==>
        c.id in jobs && jobs[c.id] == c.provider && Unsettled(phases[c.id]))
    && (forall id :: id in jobs && Unsettled(phases[id]) ==> Call(id, retiring, jobs[id]) in calls)
  }

  lemma NewJobHasNoCall(
      calls: set<Call>, retiring: bool, jobs: map<string, string>, phases: map<string, Phase>, job: Job)
    requires CallsOf(calls, retiring, jobs, phases) && job.id !in jobs
    ensures CallsOf(calls, retiring, jobs[job.id := job.provider], phases[job.id := Starting])
  {
  }

  /** A job without a call under way starts one. */
  lemma CallBegins(calls: set<Call>, retiring: bool, jobs: map<string, string>, phases: map<string, Phase>, id: string)
    requires CallsOf(calls, retiring, jobs, phases) && id in jobs && phases[id].Starting?
    ensures CallsOf(calls + {Call(id, retiring, jobs[id])}, retiring, jobs, phases[id := Calling])
  {
  }

  lemma CallEnds(calls: set<Call>, retiring: bool, jobs: map<string, string>, phases: map<string, Phase>, id: string)
    requires CallsOf(calls, retiring, jobs, phases) && id in jobs && Unsettled(phases[id])
    ensures CallsOf(calls - {Call(id, retiring, jobs[id])}, retiring, jobs, phases[id := AfterSettling(phases[id])])
  {
  }

  /** A change of phase that neither starts nor settles a call. */
  lemma CallStays(
      calls: set<Call>, retiring: bool, jobs: map<string, string>, phases: map<string, Phase>, id: string, p: Phase)
    requires CallsOf(calls, retiring, jobs, phases) && id in jobs && (Unsettled(p) <==> Unsettled(phases[id]))
    ensures CallsOf(calls, retiring, jobs, phases[id := p])
  {
  }

  lemma JobEnds(calls: set<Call>, retiring: bool, jobs: map<string, string>, phases: map<string, Phase>, id: string)
    requires CallsOf(calls, retiring, jobs, phases) && id in jobs && !Unsettled(phases[id])
    ensures CallsOf(calls, retiring, jobs - {id}, phases - {id})
    ensures forall c :: c in calls && c.retiring == retiring ==> c.id != id
  {
  }

  /** Calls of the other kind are not looked at. */
  lemma OtherCalls(calls: set<Call>, c: Call, retiring: bool, jobs: map<string, string>, phases: map<string, Phase>)
    requires CallsOf(calls, retiring, jobs, phases) && c.retiring != retiring
    ensures CallsOf(calls + {c}, retiring, jobs, phases) && CallsOf(calls - {c}, retiring, jobs, phases)
  {
  }

  lemma LaunchStarts(
      queue: seq<Job>, queued: set<string>, active: map<string, string>, retiring: map<string, string>, k: nat)
    requires LaunchesApart(queue, queued, active) && k < |queue|
    ensures queue[k].id !in active
    ensures InUse(active[queue[k].id := queue[k].provider], retiring) == InUse(active, retiring) + 1
    ensures LaunchesApart(Without(queue, k), queued - {queue[k].id}, active[queue[k].id := queue[k].provider])
  {
    hide Distinct, Without;
    IdsWithout(queue, k);
    assert queue[k].id in IdsOf(queue);
    assert active[queue[k].id := queue[k].provider].Keys == active.Keys + {queue[k].id};
  }

  lemma RetirementStarts(
      queue: seq<Job>, all: set<string>, retiring: map<string, string>, active: map<string, string>, k: nat)
    requires RetirementsApart(queue, all, retiring) && k < |queue|
    ensures queue[k].id !in retiring
    ensures InUse(active, retiring[queue[k].id := queue[k].provider]) == InUse(active, retiring) + 1
    ensures RetirementsApart(Without(queue, k), all, retiring[queue[k].id := queue[k].provider])
  {
    var id, ids := queue[k].id, IdsOf(queue);
    IdsWithout(queue, k);
    assert id in ids;
    hide IdsOf, Distinct, Without;
    MoveBetween(ids, retiring, id, queue[k].provider);
  }

  lemma MoveBetween(ids: set<string>, retiring: map<string, string>, id: string, provider: string)
    requires id in ids && ids !! retiring.Keys
    ensures (ids - {id}) + retiring[id := provider].Keys == ids + retiring.Keys
    ensures ids - {id} !! retiring[id := provider].Keys && |retiring[id := provider]| == |retiring| + 1
  {
    var keys := retiring.Keys;
    assert retiring[id := provider].Keys == keys + {id};
    MoveElement(ids, keys, id);
  }

  lemma MoveElement(a: set<string>, b: set<string>, id: string)
    requires id in a && a !! b
    ensures (a - {id}) + (b + {id}) == a + b && a - {id} !! b + {id} && |b + {id}| == |b| + 1
  {
  }

  /** The lanes in use. */
  function InUse(active: map<string, string>, retiring: map<string, string>): nat {
    |active| + |retiring|
  }

  /** No provider has become free. */
  ghost predicate Busier(before: map<string, nat>, after: map<string, nat>) {
    forall p :: !Free(before, p) ==> !Free(after, p)
  }

  lemma Occupied(before: map<string, nat>, providers: map<string, nat>, provider: string)
    requires Busier(before, providers)
    ensures Busier(before, providers) && Busier(before, Increment(providers, provider))
  {
  }

  lemma AsBusy(providers: map<string, nat>)
    ensures Busier(providers, providers)
  {
  }

  lemma RetirementJoins(queue: seq<Job>, all: set<string>, retiring: map<string, string>, entry: Job)
    requires RetirementsApart(queue, all, retiring) && entry.id !in all
    ensures RetirementsApart(queue + [entry], all + {entry.id}, retiring)
  {
    hide Distinct;
    IdsWith(queue, entry);
  }

  lemma NothingWaits(queue: seq<Job>, queued: set<string>, active: map<string, string>,
                     retirementQueue: seq<Job>, all: set<string>, retiring: map<string, string>)
    requires LaunchesApart(queue, queued, active) && RetirementsApart(retirementQueue, all, retiring)
    ensures LaunchesApart([], {}, active) && RetirementsApart([], all - IdsOf(retirementQueue), retiring)
    ensures all - IdsOf(retirementQueue) == retiring.Keys
  {
    assert IdsOf([]) == {};
  }

  lemma StaysSaturated(
      queue: seq<Job>, active: map<string, string>, retiring: map<string, string>, providers: map<string, nat>,
      active': map<string, string>, retiring': map<string, string>, providers': map<string, nat>)
    requires InUse(active', retiring') >= InUse(active, retiring) && Busier(providers, providers')
    ensures Saturated(queue, active, retiring, providers) ==> Saturated(queue, active', retiring', providers')
  {
    hide Free;
  }

  lemma NoneFree(
      queue: seq<Job>, active: map<string, string>, retiring: map<string, string>, providers: map<string, nat>)
    requires FirstFree(queue, providers) == |queue|
    ensures Saturated(queue, active, retiring, providers)
  {
  }

  lemma AllInUse()
    ensures forall queue, active, retiring, providers ::
              InUse(active, retiring) >= MAX_ACTIVE_GLOBAL ==> Saturated(queue, active, retiring, providers)
  {
  }

  class Lanes {
    var queue: seq<Job>
    var queued: set<string>
    var active: map<string, string>
    var retirementQueue: seq<Job>
    var retirements: set<string>
    var activeRetirements: map<string, string>
    var activeProviders: map<string, nat>
    /** How far each job that holds a lane has come. */
    var phases: map<string, Phase>
    var retirementPhases: map<string, Phase>
    var draining: bool
    /** Calls to providers that have not settled. */
    var calls: set<Call>
    ghost var accepted: seq<Job>
    ghost var started: seq<Job>
    ghost var acceptedRetirements: seq<Job>
    ghost var startedRetirements: seq<Job>

    ghost predicate Valid()
      reads this
    {
      && LaunchesApart(queue, queued, active) && RetirementsApart(retirementQueue, retirements, activeRetirements)
      && Tally(active, activeRetirements, activeProviders)
      && InUse(active, activeRetirements) <= MAX_ACTIVE_GLOBAL
      && CallsOf(calls, false, active, phases) && CallsOf(calls, true, activeRetirements, retirementPhases)
      && (draining ==> queue == [] && retirementQueue == [])
      && (!draining ==>
          InOrder(accepted, started, queue) && InOrder(acceptedRetirements, startedRetirements, retirementQueue))
    }

    /** No lane is idle that a waiting job could use. */
    ghost predicate Busy()
      reads this
    {
      && Saturated(queue, active, activeRetirements, activeProviders)
      && Saturated(retirementQueue, active, activeRetirements, activeProviders)
    }

    constructor ()
      ensures Valid() && Busy() && !draining && queue == [] && retirementQueue == [] && calls == {}
      ensures accepted == [] && started == [] && acceptedRetirements == [] && startedRetirements == []
    {
      queue, queued, active, retirementQueue, retirements := [], {}, map[], [], {};
      activeRetirements, activeProviders, draining, calls := map[], map[], false, {};
      phases, retirementPhases := map[], map[];
      accepted, started, acceptedRetirements, startedRetirements := [], [], [], [];
      new;
      assert forall p :: Holders(active, p) == {} && Holders(activeRetirements, p) == {};
    }

    method Enqueue(job: Job)
      requires Valid()
      modifies this`queue, this`queued, this`accepted
      ensures Valid()
      ensures if draining || job.id in old(queued) || job.id in active
              then queue == old(queue) && accepted == old(accepted)
              else queue == old(queue) + [job] && accepted == old(accepted) + [job]
    {
      hide Tally, InOrder, Distinct, CallsOf, RetirementsApart;
      if draining || job.id in queued || job.id in active { return; }
      IdsWith(queue, job);
      AcceptInOrder(accepted, started, queue, job);
      queue, queued := queue + [job], queued + {job.id};
      accepted := accepted + [job];
    }

    method Pump()
      requires Valid()
      modifies this`queue, this`queued, this`active, this`phases, this`activeProviders, this`started
      ensures Valid()
      ensures draining ==> queue == old(queue) && active == old(active) && phases == old(phases)
      ensures draining ==> activeProviders == old(activeProviders)
      ensures draining || Saturated(queue, active, activeRetirements, activeProviders)
      ensures InUse(active, activeRetirements) >= InUse(old(active), activeRetirements)
      ensures Busier(old(activeProviders), activeProviders)
    {
      hide Tally, InOrder, CallsOf, LaunchesApart, RetirementsApart, Increment, Free, Busier, Without, FirstFree,
           Saturated, InUse;
      AsBusy(activeProviders);
      if draining { return; }
      AllInUse();
      while InUse(active, activeRetirements) < MAX_ACTIVE_GLOBAL
        invariant LaunchesApart(queue, queued, active) && InOrder(accepted, started, queue)
        invariant CallsOf(calls, false, active, phases) && Tally(active, activeRetirements, activeProviders)
        invariant InUse(active, activeRetirements) >= InUse(old(active), activeRetirements)
        invariant Busier(old(activeProviders), activeProviders)
        invariant InUse(active, activeRetirements) <= MAX_ACTIVE_GLOBAL
        decreases MAX_ACTIVE_GLOBAL - InUse(active, activeRetirements)
      {
        var index := FirstFree(queue, activeProviders);
        if index == |queue| {
          NoneFree(queue, active, activeRetirements, activeProviders);
          break;
        }
        var item := queue[index];
        StartInOrder(accepted, started, queue, activeProviders);
        LaunchStarts(queue, queued, active, activeRetirements, index);
        NewJobHasNoCall(calls, false, active, phases, item);
        TallyLaunch(active, activeRetirements, activeProviders, item.id, item.provider);
        queue, queued := Without(queue, index), queued - {item.id};
        Occupied(old(activeProviders), activeProviders, item.provider);
        activeProviders := Increment(activeProviders, item.provider);
        active, phases := active[item.id := item.provider], phases[item.id := Starting];
        started := started + [item];
      }
    }

    method PumpRetirements()
      requires Valid()
      modifies this`retirementQueue, this`activeRetirements, this`retirementPhases, this`activeProviders,
        this`startedRetirements
      ensures Valid()
      ensures draining ==> retirementQueue == old(retirementQueue) && activeRetirements == old(activeRetirements)
      ensures draining ==> retirementPhases == old(retirementPhases) && activeProviders == old(activeProviders)
      ensures draining || Saturated(retirementQueue, active, activeRetirements, activeProviders)
      ensures InUse(active, activeRetirements) >= InUse(active, old(activeRetirements))
      ensures Busier(old(activeProviders), activeProviders)
    {
      hide Tally, InOrder, CallsOf, LaunchesApart, RetirementsApart, Increment, Free, Busier, Without, FirstFree,
           Saturated, InUse;
      AsBusy(activeProviders);
      if draining { return; }
      AllInUse();
      while InUse(active, activeRetirements) < MAX_ACTIVE_GLOBAL
        invariant RetirementsApart(retirementQueue, retirements, activeRetirements)
        invariant InOrder(acceptedRetirements, startedRetirements, retirementQueue)
        invariant CallsOf(calls, true, activeRetirements, retirementPhases)
        invariant Tally(active, activeRetirements, activeProviders)
        invariant InUse(active, activeRetirements) >= InUse(active, old(activeRetirements))
        invariant Busier(old(activeProviders), activeProviders)
        invariant InUse(active, activeRetirements) <= MAX_ACTIVE_GLOBAL
        decreases MAX_ACTIVE_GLOBAL - InUse(active, activeRetirements)
      {
        var index := FirstFree(retirementQueue, activeProviders);
        if index == |retirementQueue| {
          NoneFree(retirementQueue, active, activeRetirements, activeProviders);
          break;
        }
        var entry := retirementQueue[index];
        StartInOrder(acceptedRetirements, startedRetirements, retirementQueue, activeProviders);
        RetirementStarts(retirementQueue, retirements, activeRetirements, active, index);
        NewJobHasNoCall(calls, true, activeRetirements, retirementPhases, entry);
        TallyRetirement(active, activeRetirements, activeProviders, entry.id, entry.provider);
        retirementQueue := Without(retirementQueue, index);
        activeRetirements := activeRetirements[entry.id := entry.provider];
        retirementPhases := retirementPhases[entry.id := Starting];
        Occupied(old(activeProviders), activeProviders, entry.provider);
        activeProviders := Increment(activeProviders, entry.provider);
        startedRetirements := startedRetirements + [entry];
      }
    }

    /** `#trackRetirement`: the caller has checked that this launch has no retirement under way. */
    method TrackRetirement(entry: Job)
      requires Valid() && !draining && entry.id !in retirements
      modifies this`retirementQueue, this`retirements, this`acceptedRetirements, this`activeRetirements
      modifies this`retirementPhases, this`activeProviders, this`startedRetirements
      ensures Valid() && !draining && acceptedRetirements == old(acceptedRetirements) + [entry]
      ensures Saturated(retirementQueue, active, activeRetirements, activeProviders)
      ensures old(Busy()) ==> Busy()
    {
      hide Tally, InOrder, CallsOf, LaunchesApart, RetirementsApart, Free, Saturated;
      RetirementJoins(retirementQueue, retirements, activeRetirements, entry);
      AcceptInOrder(acceptedRetirements, startedRetirements, retirementQueue, entry);
      ghost var providers, retiring := activeProviders, activeRetirements;
      retirementQueue, retirements := retirementQueue + [entry], retirements + {entry.id};
      acceptedRetirements := acceptedRetirements + [entry];
      PumpRetirements();
      StaysSaturated(queue, active, retiring, providers, active, activeRetirements, activeProviders);
    }

    /** The providers that the jobs of a kind occupy, and how far these have come. */
    function Jobs(retiring: bool): map<string, string>
      reads this
    {
      if retiring then activeRetirements else active
    }

    function Phases(retiring: bool): map<string, Phase>
      reads this
    {
      if retiring then retirementPhases else phases
    }

    method SetPhase(retiring: bool, id: string, p: Phase)
      modifies this`phases, this`retirementPhases
      ensures Phases(retiring) == old(Phases(retiring))[id := p] && Phases(!retiring) == old(Phases(!retiring))
    {
      if retiring {
        retirementPhases := retirementPhases[id := p];
      } else {
        phases := phases[id := p];
      }
    }

    /** The step of a job that calls its provider; a job that is not at this point takes no step. */
    method StartCall(retiring: bool, id: string)
      requires Valid()
      modifies this`calls, this`phases, this`retirementPhases
      ensures Valid()
      ensures var starts := id in Jobs(retiring) && old(Phases(retiring))[id].Starting?;
              && calls == (if starts then old(calls) + {Call(id, retiring, Jobs(retiring)[id])} else old(calls))
              && Phases(retiring) == if starts then old(Phases(retiring))[id := Calling] else old(Phases(retiring))
    {
      hide CallsOf, Tally, LaunchesApart, RetirementsApart, InOrder, InUse;
      KeysAgree();
      if id !in Jobs(retiring) || !Phases(retiring)[id].Starting? { return; }
      var c := Call(id, retiring, Jobs(retiring)[id]);
      CallBegins(calls, retiring, Jobs(retiring), Phases(retiring), id);
      OtherCalls(calls, c, !retiring, Jobs(!retiring), Phases(!retiring));
      calls := calls + {c};
      SetPhase(retiring, id, Calling);
    }

    /** The deadline of a call: its job goes on without the result, and keeps its lane. */
    method Deadline(retiring: bool, id: string)
      requires Valid()
      modifies this`phases, this`retirementPhases
      ensures Valid()
      ensures var passes := id in Jobs(retiring) && old(Phases(retiring))[id].Calling?;
              Phases(retiring) == if passes then old(Phases(retiring))[id := PastDeadline] else old(Phases(retiring))
    {
      hide CallsOf, Tally, LaunchesApart, RetirementsApart, InOrder, InUse;
      KeysAgree();
      if id !in Jobs(retiring) || !Phases(retiring)[id].Calling? { return; }
      CallStays(calls, retiring, Jobs(retiring), Phases(retiring), id, PastDeadline);
      SetPhase(retiring, id, PastDeadline);
    }

    /** A call settles, whenever that is. */
    method CallSettles(c: Call)
      requires Valid()
      modifies this`calls, this`phases, this`retirementPhases
      ensures Valid() && calls == old(calls) - {c}
      ensures c in old(calls) ==>
                Phases(c.retiring) == old(Phases(c.retiring))[c.id := AfterSettling(old(Phases(c.retiring))[c.id])]
    {
      hide CallsOf, Tally, LaunchesApart, RetirementsApart, InOrder, InUse;
      if c !in calls { return; }
      KeysAgree();
      var p := AfterSettling(Phases(c.retiring)[c.id]);
      CallEnds(calls, c.retiring, Jobs(c.retiring), Phases(c.retiring), c.id);
      OtherCalls(calls, c, !c.retiring, Jobs(!c.retiring), Phases(!c.retiring));
      calls := calls - {c};
      SetPhase(c.retiring, c.id, p);
    }

    /** A job has done its own work: written its outcome, or found that it has nothing to do. While it awaits
        the result of a call its work is not done. */
    method WorkEnds(retiring: bool, id: string)
      requires Valid()
      modifies this`phases, this`retirementPhases
      ensures Valid()
      ensures id in Jobs(retiring) ==>
                Phases(retiring) == old(Phases(retiring))[id := AfterWork(old(Phases(retiring))[id])]
    {
      hide CallsOf, Tally, LaunchesApart, RetirementsApart, InOrder, InUse;
      KeysAgree();
      if id !in Jobs(retiring) { return; }
      var p := AfterWork(Phases(retiring)[id]);
      CallStays(calls, retiring, Jobs(retiring), Phases(retiring), id, p);
      SetPhase(retiring, id, p);
    }

    lemma KeysAgree()
      requires Valid()
      ensures forall retiring :: Phases(retiring).Keys == Jobs(retiring).Keys
      ensures phases.Keys == active.Keys && retirementPhases.Keys == activeRetirements.Keys
      ensures forall c :: c in calls ==>
                c.id in Jobs(c.retiring) && Jobs(c.retiring)[c.id] == c.provider && Unsettled(Phases(c.retiring)[c.id])
    {
    }

    method LeaveLaunch(id: string)
      requires Valid() && id in active && id in phases && phases[id].Over?
      modifies this`active, this`phases, this`activeProviders
      ensures Valid() && active == old(active) - {id} && forall c :: c in calls && !c.retiring ==> c.id != id
    {
      hide Tally, InOrder, LaunchesApart, RetirementsApart, CallsOf, Decrement, InUse;
      JobEnds(calls, false, active, phases, id);
      LaunchEnds(queue, queued, active, activeRetirements, id);
      TallyWithoutLaunch(active, activeRetirements, activeProviders, id);
      activeProviders := Decrement(activeProviders, active[id]);
      active, phases := active - {id}, phases - {id};
    }

    method LeaveRetirement(id: string)
      requires Valid() && id in activeRetirements && id in retirementPhases && retirementPhases[id].Over?
      modifies this`activeRetirements, this`retirementPhases, this`retirements, this`activeProviders
      ensures Valid() && activeRetirements == old(activeRetirements) - {id}
      ensures forall c :: c in calls && c.retiring ==> c.id != id
    {
      hide Tally, InOrder, LaunchesApart, RetirementsApart, CallsOf, Decrement, InUse;
      JobEnds(calls, true, activeRetirements, retirementPhases, id);
      RetirementEnds(retirementQueue, retirements, activeRetirements, active, id);
      TallyWithoutRetirement(active, activeRetirements, activeProviders, id);
      retirements := retirements - {id};
      activeProviders := Decrement(activeProviders, activeRetirements[id]);
      activeRetirements, retirementPhases := activeRetirements - {id}, retirementPhases - {id};
    }

    /** A launch or reconciliation job that is over gives up its lane. By then its call, if it made one, has
        settled. */
    method ReleaseLaunch(id: string) returns (released: bool)
      requires Valid()
      modifies this`queue, this`queued, this`active, this`phases, this`retirementQueue, this`activeRetirements
      modifies this`retirementPhases, this`activeProviders, this`started, this`startedRetirements
      ensures Valid() && (released <==> id in old(active) && old(phases)[id].Over?)
      ensures released ==> (draining || Busy()) && forall c :: c in calls && !c.retiring ==> c.id != id
      ensures released && draining ==> active == old(active) - {id} && activeRetirements == old(activeRetirements)
      ensures !released ==> active == old(active) && activeRetirements == old(activeRetirements) && queue == old(queue)
    {
      hide Tally, InOrder, LaunchesApart, RetirementsApart, CallsOf, Free, Decrement, Saturated, Busier, InUse;
      KeysAgree();
      if id !in active || !phases[id].Over? { return false; }
      LeaveLaunch(id);
      PumpRetirements();
      ghost var providers, held := activeProviders, active;
      Pump();
      StaysSaturated(retirementQueue, held, activeRetirements, providers, active, activeRetirements, activeProviders);
      return true;
    }

    method ReleaseRetirement(id: string) returns (released: bool)
      requires Valid()
      modifies this`queue, this`queued, this`active, this`phases, this`retirementQueue, this`retirements
      modifies this`activeRetirements, this`retirementPhases, this`activeProviders, this`started,
        this`startedRetirements
      ensures Valid() && (released <==> id in old(activeRetirements) && old(retirementPhases)[id].Over?)
      ensures released ==> (draining || Busy()) && forall c :: c in calls && c.retiring ==> c.id != id
      ensures released && draining ==> active == old(active) && activeRetirements == old(activeRetirements) - {id}
      ensures !released ==> active == old(active) && activeRetirements == old(activeRetirements) && queue == old(queue)
    {
      hide Tally, InOrder, LaunchesApart, RetirementsApart, CallsOf, Free, Decrement, Saturated, Busier, InUse;
      KeysAgree();
      if id !in activeRetirements || !retirementPhases[id].Over? { return false; }
      LeaveRetirement(id);
      Pump();
      ghost var providers, retiring := activeProviders, activeRetirements;
      PumpRetirements();
      StaysSaturated(queue, active, retiring, providers, active, activeRetirements, activeProviders);
      return true;
    }

    /** Shutting down drops what waits; lanes in use are given up one by one as their calls settle. */
    method Stop()
      requires Valid()
      modifies this`draining, this`queue, this`queued, this`retirementQueue, this`retirements
      ensures Valid() && draining
      ensures !old(draining) ==> queue == [] && retirementQueue == [] && retirements == activeRetirements.Keys
    {
      hide Tally, InOrder, CallsOf, LaunchesApart, RetirementsApart, IdsOf, InUse;
      if draining { return; }
      NothingWaits(queue, queued, active, retirementQueue, retirements, activeRetirements);
      draining := true;
      queue, queued := [], {};
      retirements := retirements - IdsOf(retirementQueue);
      retirementQueue := [];
    }
  }

  lemma LaunchEnds(
      queue: seq<Job>, queued: set<string>, active: map<string, string>, retiring: map<string, string>, id: string)
    requires LaunchesApart(queue, queued, active) && id in active
    ensures LaunchesApart(queue, queued, active - {id}) && InUse(active - {id}, retiring) == InUse(active, retiring) - 1
  {
    assert (active - {id}).Keys == active.Keys - {id};
  }

  lemma RetirementEnds(
      queue: seq<Job>, all: set<string>, retiring: map<string, string>, active: map<string, string>, id: string)
    requires RetirementsApart(queue, all, retiring) && id in retiring
    ensures RetirementsApart(queue, all - {id}, retiring - {id})
    ensures InUse(active, retiring - {id}) == InUse(active, retiring) - 1
  {
    assert (retiring - {id}).Keys == retiring.Keys - {id};
  }

  /** Two calls to one provider that have not settled are one call of one job: creations, reconciliations
      and retirements of a provider never overlap, however many deadlines have passed. */
  lemma CallsDoNotOverlap(lanes: Lanes, c: Call, d: Call)
    requires lanes.Valid() && c in lanes.calls && d in lanes.calls && c.provider == d.provider
    ensures c == d
  {
    hide Tally, InOrder, LaunchesApart, RetirementsApart;
    lanes.KeysAgree();
    OneHolder(lanes.active, lanes.activeRetirements, lanes.activeProviders, c.provider);
  }
}
