/** The agent registry: the cache of discovered agents, the events that describe its changes, and the fence
    that keeps the agents of launches being retired out of it. */
module Registry {
  import opened Common

  /** `process` marks an agent found by scanning processes; a `pid` of 0 is none. `content` stands for every
      other field that clients see, `updatedAt` for the fields that do not count as a change. */
  datatype Agent = Agent(
    id: string, source: string, provider: string, pid: nat, process: bool, raw: bool, content: nat, updatedAt: nat)

  type Agents = map<string, Agent>

  function Semantic(a: Agent): Agent {
    a.(updatedAt := 0)
  }

  predicate Keyed(agents: Agents) {
    forall id :: id in agents ==> agents[id].id == id
  }

  /** `detailed` reports the same process as the process agent `scanned`. */
  predicate Hides(detailed: Agent, scanned: Agent) {
    scanned.process && !detailed.process && scanned.pid != 0
    && detailed.pid == scanned.pid && detailed.provider == scanned.provider
  }

  /** A process agent is hidden while another adapter reports the same process in more detail. */
  predicate Duplicated(agents: Agents, a: Agent) {
    exists id | id in agents :: Hides(agents[id], a)
  }

  predicate Shown(agents: Agents, a: Agent) {
    !a.raw && !Duplicated(agents, a)
  }

  /** What clients see: the agents listed, up to the fields that do not count. */
  function Canonical(agents: Agents): Agents {
    map id | id in agents && Shown(agents, agents[id]) :: Semantic(agents[id])
  }

  // ----- events

  datatype Change = Discovered(agent: Agent) | Updated(agent: Agent) | Removed(id: string)

  function Apply(view: Agents, c: Change): Agents {
    match c
    case Discovered(agent) => view[agent.id := Semantic(agent)]
    case Updated(agent) => view[agent.id := Semantic(agent)]
    case Removed(id) => view - {id}
  }

  /** A client that applies every event to what it saw. */
  function Follow(view: Agents, changes: seq<Change>): Agents {
    if changes == [] then view else Apply(Follow(view, changes[..|changes| - 1]), changes[|changes| - 1])
  }

  lemma FollowWith(view: Agents, changes: seq<Change>, c: Change)
    ensures Follow(view, changes + [c]) == Apply(Follow(view, changes), c)
  {
    assert (changes + [c])[..|changes|] == changes;
  }

  // ----- what an outcome makes of the cache

  datatype Outcome = Found(agents: seq<Agent>) | Failed(markStale: bool)

  function Put(agents: Agents, found: seq<Agent>): Agents {
    if found == [] then agents
    else Put(agents, found[..|found| - 1])[found[|found| - 1].id := found[|found| - 1]]
  }

  function Others(agents: Agents, adapter: string): Agents {
    map id | id in agents && agents[id].source != adapter :: agents[id]
  }

  /** The next cache, before its time stamps are settled; `stale` is the adapter's own marking. */
  function Merged(agents: Agents, adapter: string, outcome: Outcome, stale: nat -> nat): Agents {
    match outcome
    case Found(found) => Put(Others(agents, adapter), found)
    case Failed(markStale) =>
      if !markStale then agents
      else map id | id in agents ::
             if agents[id].source == adapter then agents[id].(content := stale(agents[id].content)) else agents[id]
  }

  ghost predicate SameUpToTime(a: Agents, b: Agents) {
    a.Keys == b.Keys && forall id :: id in a ==> Semantic(a[id]) == Semantic(b[id])
  }

  lemma SameIsShownSame(a: Agents, b: Agents)
    requires SameUpToTime(a, b)
    ensures Canonical(a) == Canonical(b)
  {
    forall id, k | id in a && k in a ensures Hides(a[k], a[id]) <==> Hides(b[k], b[id]) {
      SemanticHides(a[k], a[id]);
      SemanticHides(b[k], b[id]);
    }
    forall id | id in a ensures Shown(a, a[id]) <==> Shown(b, b[id]) {
      assert Semantic(a[id]).raw == Semantic(b[id]).raw;
    }
  }

  lemma SemanticHides(detailed: Agent, scanned: Agent)
    ensures Hides(detailed, scanned) <==> Hides(Semantic(detailed), Semantic(scanned))
  {
  }

  /** An agent that has not changed keeps its stamp; one that has, or is new, gets the current time. */
  function Settled(previous: Agents, next: Agents, at: nat): (settled: Agents)
    ensures SameUpToTime(settled, next)
    ensures forall id :: id in settled && id in previous && Semantic(previous[id]) == Semantic(next[id]) ==>
              settled[id] == previous[id]
  {
    map id | id in next ::
      if id in previous && Semantic(previous[id]) == Semantic(next[id]) then previous[id]
      else next[id].(updatedAt := at)
  }

  // ----- the changes between two listings

  /** A change is reported only when it happened. */
  predicate Justified(c: Change, previous: Agents, next: Agents) {
    match c
    case Discovered(a) => a.id !in previous && a.id in next && next[a.id] == a
    case Updated(a) => a.id in previous && a.id in next && next[a.id] == a && previous[a.id] != a
    case Removed(id) => id in previous && id !in next
  }

  ghost predicate AllJustified(changes: seq<Change>, previous: Agents, next: Agents) {
    forall i :: 0 <= i < |changes| ==> Justified(changes[i], previous, next)
  }

  lemma JustifiedWith(changes: seq<Change>, c: Change, previous: Agents, next: Agents)
    requires AllJustified(changes, previous, next) && Justified(c, previous, next)
    ensures AllJustified(changes + [c], previous, next)
  {
  }

  predicate Agrees(previous: Agents, next: Agents, id: string) {
    id in previous && id in next && previous[id] == next[id]
  }

  /** The listing as reported once all but these have been compared. */
  ghost function Compared(previous: Agents, next: Agents, ids: set<string>): Agents {
    previous + (next - ids)
  }

  ghost predicate AgreeSoFar(previous: Agents, next: Agents, ids: set<string>) {
    forall id :: id in next && id !in ids ==> Agrees(previous, next, id)
  }

  lemma OneMore(previous: Agents, next: Agents, ids: set<string>, id: string)
    requires id in ids && ids <= next.Keys
    ensures Compared(previous, next, ids - {id}) == Compared(previous, next, ids)[id := next[id]]
    ensures Agrees(previous, next, id) ==> Compared(previous, next, ids - {id}) == Compared(previous, next, ids)
    ensures AgreeSoFar(previous, next, ids - {id}) <==> AgreeSoFar(previous, next, ids) && Agrees(previous, next, id)
  {
  }

  lemma NoneYet(previous: Agents, next: Agents)
    ensures Compared(previous, next, next.Keys) == previous && AgreeSoFar(previous, next, next.Keys)
    ensures Compared(previous, next, {}) == previous + next
  {
  }

  /** Compares each agent listed now with what was listed before, in any order. */
  method Report(previous: Agents, next: Agents) returns (changes: seq<Change>)
    requires Keyed(next) && forall id :: id in next ==> next[id] == Semantic(next[id])
    ensures Follow(previous, changes) == previous + next
    ensures changes == [] <==> AgreeSoFar(previous, next, {})
    ensures AllJustified(changes, previous, next)
  {
    hide Follow, Compared, AgreeSoFar, AllJustified;
    changes := [];
    var ids := next.Keys;
    NoneYet(previous, next);
    NothingFollowed(previous, next);
    while ids != {}
      invariant ids <= next.Keys && Follow(previous, changes) == Compared(previous, next, ids)
      invariant changes == [] <==> AgreeSoFar(previous, next, ids)
      invariant AllJustified(changes, previous, next)
      decreases |ids|
    {
      var id :| id in ids;
      OneMore(previous, next, ids, id);
      if id !in previous {
        FollowWith(previous, changes, Discovered(next[id]));
        JustifiedWith(changes, Discovered(next[id]), previous, next);
        changes := changes + [Discovered(next[id])];
      } else if previous[id] != next[id] {
        FollowWith(previous, changes, Updated(next[id]));
        JustifiedWith(changes, Updated(next[id]), previous, next);
        changes := changes + [Updated(next[id])];
      }
      ids := ids - {id};
    }
  }

  lemma NothingFollowed(previous: Agents, next: Agents)
    ensures Follow(previous, []) == previous && AllJustified([], previous, next)
  {
  }

  /** The listing as reported while these are still to be removed. */
  ghost function Lingering(previous: Agents, next: Agents, gone: set<string>): Agents
    requires gone <= previous.Keys
  {
    (map id | id in gone :: previous[id]) + next
  }

  lemma OneLess(previous: Agents, next: Agents, gone: set<string>, id: string)
    requires id in gone && gone <= previous.Keys - next.Keys
    ensures Lingering(previous, next, gone - {id}) == Lingering(previous, next, gone) - {id}
  {
  }

  lemma AllLinger(previous: Agents, next: Agents)
    ensures Lingering(previous, next, previous.Keys - next.Keys) == previous + next
    ensures Lingering(previous, next, {}) == next
  {
  }

  /** Reports what is no longer listed. */
  method ReportRemoved(previous: Agents, next: Agents, some: seq<Change>) returns (changes: seq<Change>)
    requires Follow(previous, some) == previous + next && AllJustified(some, previous, next)
    ensures Follow(previous, changes) == next && AllJustified(changes, previous, next)
    ensures changes == [] <==> some == [] && previous.Keys <= next.Keys
  {
    hide Follow, Lingering, AllJustified;
    changes := some;
    var gone := previous.Keys - next.Keys;
    AllLinger(previous, next);
    while gone != {}
      invariant gone <= previous.Keys - next.Keys && Follow(previous, changes) == Lingering(previous, next, gone)
      invariant changes == [] <==> some == [] && gone == previous.Keys - next.Keys
      invariant AllJustified(changes, previous, next)
      decreases |gone|
    {
      var id :| id in gone;
      OneLess(previous, next, gone, id);
      FollowWith(previous, changes, Removed(id));
      JustifiedWith(changes, Removed(id), previous, next);
      changes := changes + [Removed(id)];
      gone := gone - {id};
    }
  }

  /** Following the changes turns the previous listing into the next one, every change is one that happened,
      and there are none exactly when nothing changed. */
  method Compare(previous: Agents, next: Agents) returns (changes: seq<Change>)
    requires Keyed(next) && forall id :: id in next ==> next[id] == Semantic(next[id])
    ensures Follow(previous, changes) == next
    ensures changes == [] <==> previous == next
    ensures AllJustified(changes, previous, next)
  {
    hide Follow, AllJustified;
    changes := Report(previous, next);
    changes := ReportRemoved(previous, next, changes);
  }

  // ----- owned launches

  /** The agent of an owned launch, and the provider that runs it. */
  datatype Owned = Owned(agentId: string, provider: string)

  /** Every cached agent of a launch-capable adapter belongs to a launch that is owned now. */
  ghost predicate Fenced(agents: Agents, owned: map<string, Owned>, launchers: map<string, string>) {
    forall id :: id in agents && agents[id].source in launchers ==> Belongs(owned, id, launchers[agents[id].source])
  }

  predicate Belongs(owned: map<string, Owned>, id: string, provider: string) {
    exists launch | launch in owned :: owned[launch] == Owned(id, provider)
  }

  /** `discoverOwned()` must return exactly one agent for each owned launch, from this adapter and provider. */
  predicate Proven(found: seq<Agent>, expected: seq<string>, adapter: string, provider: string) {
    && |found| == |expected|
    && (forall i | 0 <= i < |found| ::
          found[i].id in expected && found[i].source == adapter && found[i].provider == provider)
    && (forall i, j | 0 <= i < j < |found| :: found[i].id != found[j].id)
  }

  function OwnedOnly(found: seq<Agent>, owned: map<string, Owned>, provider: string): (kept: seq<Agent>)
    ensures forall i :: 0 <= i < |kept| ==> kept[i] in found && Belongs(owned, kept[i].id, provider)
  {
    if found == [] then []
    else
      var front := OwnedOnly(found[..|found| - 1], owned, provider);
      if Belongs(owned, found[|found| - 1].id, provider) then front + [found[|found| - 1]] else front
  }

  lemma {:induction false} PutAgents(agents: Agents, found: seq<Agent>)
    requires Keyed(agents)
    ensures Keyed(Put(agents, found))
    ensures forall id :: id in Put(agents, found) ==>
              (id in agents && Put(agents, found)[id] == agents[id]) || Put(agents, found)[id] in found
  {
    if found != [] {
      PutAgents(agents, found[..|found| - 1]);
    }
  }

  lemma MergedFenced(
      agents: Agents, owned: map<string, Owned>, launchers: map<string, string>, adapter: string, outcome: Outcome,
      stale: nat -> nat)
    requires Keyed(agents) && Fenced(agents, owned, launchers)
    requires outcome.Found? ==> forall i :: 0 <= i < |outcome.agents| ==> outcome.agents[i].source == adapter
    requires outcome.Found? && adapter in launchers ==>
               forall i :: 0 <= i < |outcome.agents| ==> Belongs(owned, outcome.agents[i].id, launchers[adapter])
    ensures Keyed(Merged(agents, adapter, outcome, stale))
    ensures Fenced(Merged(agents, adapter, outcome, stale), owned, launchers)
  {
    hide Belongs;
    var next := Merged(agents, adapter, outcome, stale);
    match outcome {
      case Found(found) =>
        PutAgents(Others(agents, adapter), found);
        forall id | id in next && next[id].source in launchers ensures Belongs(owned, id, launchers[next[id].source]) {
          if next[id] in found {
            var i :| 0 <= i < |found| && found[i] == next[id];
          } else {
            assert id in agents && agents[id] == next[id];
          }
        }
      case Failed(_) =>
    }
  }

  lemma FailureKeepsAgents(agents: Agents, adapter: string, stale: nat -> nat)
    ensures forall marked :: Merged(agents, adapter, Failed(marked), stale).Keys == agents.Keys
  {
  }

  lemma SettledFenced(settled: Agents, next: Agents, owned: map<string, Owned>, launchers: map<string, string>)
    requires SameUpToTime(settled, next) && Keyed(next) && Fenced(next, owned, launchers)
    ensures Keyed(settled) && Fenced(settled, owned, launchers)
  {
    hide Belongs;
    forall id | id in settled ensures settled[id].id == id && settled[id].source == next[id].source {
      assert Semantic(settled[id]) == Semantic(next[id]);
      assert Semantic(settled[id]).id == Semantic(next[id]).id;
      assert Semantic(settled[id]).source == Semantic(next[id]).source;
    }
  }

  lemma CanonicalIsSemantic(agents: Agents)
    requires Keyed(agents)
    ensures Keyed(Canonical(agents)) && forall id :: id in Canonical(agents) ==>
              Canonical(agents)[id] == Semantic(Canonical(agents)[id])
  {
  }

  // ----- removing or adding one agent

  /** The agent has a process id and is the only one that hides some process agent which is not raw. */
  predicate Reveals(agents: Agents, id: string)
    requires id in agents
  {
    exists k | k in agents ::
      && Hides(agents[id], agents[k]) && !agents[k].raw
      && forall j | j in agents :: Hides(agents[j], agents[k]) ==> j == id
  }

  lemma ShownWithout(agents: Agents, id: string, k: string)
    requires id in agents && k in agents && k != id
    ensures Shown(agents - {id}, agents[k]) <==>
              Shown(agents, agents[k])
              || (Hides(agents[id], agents[k]) && !agents[k].raw
                  && forall j | j in agents :: Hides(agents[j], agents[k]) ==> j == id)
  {
    hide Hides;
    var rest := agents - {id};
    if Duplicated(rest, agents[k]) {
      var j :| j in rest && Hides(rest[j], agents[k]);
      assert j in agents && Hides(agents[j], agents[k]);
    }
    forall j | j in agents && j != id && Hides(agents[j], agents[k]) ensures Duplicated(rest, agents[k]) {
      assert j in rest && Hides(rest[j], agents[k]);
    }
  }

  lemma CanonicalWithout(agents: Agents, id: string)
    requires id in agents
    ensures id !in Canonical(agents - {id})
    ensures Reveals(agents, id) <==> exists k :: k in Canonical(agents - {id}) && k !in Canonical(agents)
    ensures forall k :: k in Canonical(agents) && k != id ==>
              k in Canonical(agents - {id}) && Canonical(agents - {id})[k] == Canonical(agents)[k]
  {
    hide Hides, Shown;
    forall k | k in agents && k != id
      ensures Shown(agents - {id}, agents[k]) <==>
                Shown(agents, agents[k])
                || (Hides(agents[id], agents[k]) && !agents[k].raw
                    && forall j | j in agents :: Hides(agents[j], agents[k]) ==> j == id)
    {
      ShownWithout(agents, id, k);
    }
    if Reveals(agents, id) {
      var k :| k in agents && Hides(agents[id], agents[k]) && !agents[k].raw
               && forall j | j in agents :: Hides(agents[j], agents[k]) ==> j == id;
      OnlyOthersAreHidden(agents, id, k);
      assert k in Canonical(agents - {id}) && k !in Canonical(agents);
    }
  }

  lemma OnlyOthersAreHidden(agents: Agents, id: string, k: string)
    requires id in agents && k in agents && Hides(agents[id], agents[k])
    ensures k != id && !Shown(agents, agents[k])
  {
  }

  /** The single event of an eviction tells the whole change exactly when the evicted agent is not the only
      one that hides another; the listing stays as it is exactly when it was not listed either. */
  lemma EvictionIsTold(agents: Agents, id: string)
    requires id in agents
    ensures var told := if id in Canonical(agents) then [Removed(id)] else [];
            Follow(Canonical(agents), told) == Canonical(agents - {id}) <==> !Reveals(agents, id)
    ensures Canonical(agents) == Canonical(agents - {id}) <==> id !in Canonical(agents) && !Reveals(agents, id)
  {
    CanonicalWithout(agents, id);
    hide Canonical, Reveals;
    var before, after := Canonical(agents), Canonical(agents - {id});
    var told := if id in before then [Removed(id)] else [];
    FollowWith(before, [], Removed(id));
    FollowNothing(before);
    assert [] + [Removed(id)] == [Removed(id)];
    assert Follow(before, told) == before - {id};
    if !Reveals(agents, id) {
      assert before - {id} == after;
    } else {
      var k :| k in after && k !in before;
    }
  }

  /** The agent is listed and hides nothing that was. */
  predicate Plain(agents: Agents, a: Agent) {
    Shown(agents, a) && HidesNone(agents, a)
  }

  predicate HidesNone(agents: Agents, a: Agent) {
    forall k | k in agents :: Shown(agents, agents[k]) ==> !Hides(a, agents[k])
  }

  lemma ShownWith(agents: Agents, a: Agent, b: Agent)
    requires a.id !in agents
    ensures Shown(agents[a.id := a], b) <==> Shown(agents, b) && !Hides(a, b)
  {
    hide Hides;
    var more := agents[a.id := a];
    if Duplicated(agents, b) {
      var j :| j in agents && Hides(agents[j], b);
      assert j in more && Hides(more[j], b);
    } else if Hides(a, b) {
      assert a.id in more && Hides(more[a.id], b);
    }
    forall j | j in more && Hides(more[j], b) ensures Hides(a, b) || Duplicated(agents, b) {
      assert j == a.id || (j in agents && Hides(agents[j], b));
    }
  }

  /** The single event of a restored agent tells the whole change exactly when it is listed and hides no agent
      that was; the listing changes when either fails to hold alone. */
  lemma RestoringIsTold(agents: Agents, a: Agent)
    requires a.id !in agents
    ensures Follow(Canonical(agents), [Discovered(a)]) == Canonical(agents[a.id := a]) <==> Plain(agents, a)
    ensures Canonical(agents[a.id := a]) == Canonical(agents) <==> !Shown(agents, a) && HidesNone(agents, a)
  {
    var before, after := Canonical(agents), Canonical(agents[a.id := a]);
    FollowWith(before, [], Discovered(a));
    FollowNothing(before);
    assert [] + [Discovered(a)] == [Discovered(a)];
    assert Follow(before, [Discovered(a)]) == before[a.id := Semantic(a)];
    assert !Hides(a, a);
    hide Hides, Shown, Follow;
    ShownWith(agents, a, a);
    assert a.id !in before && (a.id in after <==> Shown(agents, a));
    forall k | k in agents
      ensures Shown(agents[a.id := a], agents[k]) <==> Shown(agents, agents[k]) && !Hides(a, agents[k])
    {
      ShownWith(agents, a, agents[k]);
    }
    forall k | k in agents ensures k in after <==> k in before && !Hides(a, agents[k]) {
    }
    if HidesNone(agents, a) {
      assert after == if Shown(agents, a) then before[a.id := Semantic(a)] else before;
    } else {
      var k :| k in agents && Shown(agents, agents[k]) && Hides(a, agents[k]);
      assert k in before && k !in after;
    }
  }

  // ----- the object

  class AgentRegistry {
    /** The launch-capable adapters and the provider of each. */
    const launchers: map<string, string>
    const stale: nat -> nat
    var agents: Agents
    var owned: map<string, Owned>
    var generation: nat
    /** The discovery under way of each adapter: the generation it started in. */
    var flights: map<string, nat>
    var revision: nat
    var events: seq<Change>

    ghost predicate Valid()
      reads this
    {
      && Keyed(agents) && Fenced(agents, owned, launchers)
      && forall a :: a in flights ==> flights[a] <= generation
    }

    constructor (launchers: map<string, string>, stale: nat -> nat)
      ensures Valid() && agents == map[] && owned == map[] && flights == map[] && revision == 0 && events == []
      ensures this.launchers == launchers && this.stale == stale
    {
      this.launchers, this.stale := launchers, stale;
      agents, owned, generation, flights, revision, events := map[], map[], 0, map[], 0, [];
    }

    /** The events of an outcome turn the listing before it into the listing after it, and the revision rises
        exactly when the listing changed. */
    method ApplyOutcome(adapter: string, outcome: Outcome, at: nat)
      requires Valid()
      requires outcome.Found? ==> forall i :: 0 <= i < |outcome.agents| ==> outcome.agents[i].source == adapter
      requires outcome.Found? && adapter in launchers ==>
                 forall i :: 0 <= i < |outcome.agents| ==> Belongs(owned, outcome.agents[i].id, launchers[adapter])
      modifies this`agents, this`revision, this`events
      ensures Valid() && SameUpToTime(agents, Merged(old(agents), adapter, outcome, stale))
      ensures Canonical(agents) == Canonical(Merged(old(agents), adapter, outcome, stale))
      ensures |old(events)| <= |events| && events[..|old(events)|] == old(events)
      ensures Follow(Canonical(old(agents)), events[|old(events)|..]) == Canonical(agents)
      ensures revision == old(revision) + if Canonical(old(agents)) == Canonical(agents) then 0 else 1
    {
      hide Follow, Canonical, Merged, Fenced, Keyed, Belongs;
      MergedFenced(agents, owned, launchers, adapter, outcome, stale);
      var previous := Canonical(agents);
      var next := Merged(agents, adapter, outcome, stale);
      SettledFenced(Settled(agents, next, at), next, owned, launchers);
      SameIsShownSame(Settled(agents, next, at), next);
      agents := Settled(agents, next, at);
      CanonicalIsSemantic(agents);
      var changes := Compare(previous, Canonical(agents));
      if changes != [] { revision := revision + 1; }
      events := events + changes;
      assert events[|old(events)|..] == changes;
    }

    method StartDiscovery(adapter: string)
      requires Valid()
      modifies this`flights
      ensures Valid()
      ensures flights == if adapter in old(flights) then old(flights) else old(flights)[adapter := generation]
    {
      if adapter !in flights { flights := flights[adapter := generation]; }
    }

    /** The outcome as it is applied: one that does not bring exactly the expected agents, or comes from a
        transport that is no longer current, is a failure; one that started before the owned launches changed
        is none at all; and only owned agents are taken from a launch adapter. */
    function Normalized(adapter: string, outcome: Outcome, expected: seq<string>, current: bool, started: nat)
      : (normal: Option<Outcome>)
      reads this`owned, this`generation
    {
      if outcome.Failed? then Some(outcome)
      else if adapter in launchers && !Proven(outcome.agents, expected, adapter, launchers[adapter]) then
        Some(Failed(false))
      else if adapter in launchers && started != generation then None
      else if !current then Some(Failed(true))
      else if adapter in launchers then Some(Found(OwnedOnly(outcome.agents, owned, launchers[adapter])))
      else Some(outcome)
    }

    /** A discovery completes. `expected` are the owned agents it was asked for, `current` whether its
        transport is still the current one. */
    method CompleteDiscovery(adapter: string, outcome: Outcome, expected: seq<string>, current: bool, at: nat)
      requires Valid() && adapter in flights
      requires adapter !in launchers && outcome.Found? ==>
                 forall i :: 0 <= i < |outcome.agents| ==> outcome.agents[i].source == adapter
      modifies this`agents, this`revision, this`events, this`flights
      ensures Valid() && flights == old(flights) - {adapter}
      ensures match Normalized(adapter, outcome, expected, current, old(flights)[adapter])
              case Some(normal) => SameUpToTime(agents, Merged(old(agents), adapter, normal, stale))
              case None => agents == old(agents) && revision == old(revision) && events == old(events)
      // whatever it brings, it adds no agent and removes none
      ensures adapter in launchers && old(flights)[adapter] != generation ==> agents.Keys == old(agents).Keys
      ensures |old(events)| <= |events| && events[..|old(events)|] == old(events)
      ensures Follow(Canonical(old(agents)), events[|old(events)|..]) == Canonical(agents)
      ensures revision == old(revision) + if Canonical(old(agents)) == Canonical(agents) then 0 else 1
    {
      FailureKeepsAgents(agents, adapter, stale);
      hide Follow, Canonical, Merged, Fenced, Keyed, Belongs;
      var started := flights[adapter];
      flights := flights - {adapter};
      var launching := adapter in launchers;
      if outcome.Found? && launching && !Proven(outcome.agents, expected, adapter, launchers[adapter]) {
        ApplyOutcome(adapter, Failed(false), at);
      } else if outcome.Found? && launching && started != generation {
        FollowNothing(Canonical(agents));
        assert events[|events|..] == [];
      } else if outcome.Found? && !current {
        ApplyOutcome(adapter, Failed(true), at);
      } else if outcome.Found? && launching {
        var kept := OwnedOnly(outcome.agents, owned, launchers[adapter]);
        ApplyOutcome(adapter, Found(kept), at);
      } else {
        ApplyOutcome(adapter, outcome, at);
      }
    }

    /** The agent that the coordinator cached when it evicted it, if it is this launch's and not there again. */
    predicate Restores(record: Owned, cached: Option<Agent>)
      reads this`agents
    {
      && cached.Some? && cached.value.id == record.agentId && cached.value.provider == record.provider
      && cached.value.source in launchers && launchers[cached.value.source] == record.provider
      && cached.value.id !in agents
    }

    /** A launch is owned again. A restored agent is announced, and the revision rises, whether or not the
        listing shows it; the announcement tells the whole change exactly when the listing shows the agent and
        the agent hides nothing that was listed. */
    method Activate(launch: string, record: Owned, cached: Option<Agent>, at: nat)
      requires Valid() && (launch in owned ==> owned[launch] == record)
      modifies this`agents, this`owned, this`generation, this`revision, this`events
      ensures Valid() && owned == old(owned)[launch := record] && generation == old(generation) + 1
      ensures !old(Restores(record, cached)) ==>
                agents == old(agents) && events == old(events) && revision == old(revision)
      ensures old(Restores(record, cached)) ==>
                var restored := cached.value.(updatedAt := at);
                && agents == old(agents)[restored.id := restored]
                && events == old(events) + [Discovered(restored)] && revision == old(revision) + 1
                && (Follow(Canonical(old(agents)), [Discovered(restored)]) == Canonical(agents)
                    <==> Plain(old(agents), restored))
                && (Canonical(agents) == Canonical(old(agents))
                    <==> !Shown(old(agents), restored) && HidesNone(old(agents), restored))
    {
      hide Follow, Canonical, Shown, HidesNone, Plain;
      OwnedMore(agents, owned, launchers, launch, record);
      owned, generation := owned[launch := record], generation + 1;
      if Restores(record, cached) {
        assert owned[launch] == Owned(cached.value.id, record.provider);
        var restored := cached.value.(updatedAt := at);
        RestoringIsTold(agents, restored);
        agents := agents[restored.id := restored];
        revision := revision + 1;
        events := events + [Discovered(restored)];
      }
    }

    predicate Evicts(launch: string)
      reads this`owned, this`agents
    {
      launch in owned && owned[launch].agentId in agents
    }

    /** A launch stops being owned: its agent leaves the cache, and any discovery under way is superseded. The
        events tell the whole change exactly when the agent is not the only one that hides another, and the
        revision misses a change exactly when, besides, the agent was not listed itself. */
    method Deactivate(launch: string) returns (evicted: Option<Agent>)
      requires Valid()
      modifies this`agents, this`owned, this`generation, this`revision, this`events
      ensures Valid() && owned == old(owned) - {launch}
      ensures launch in old(owned) ==>
                && generation == old(generation) + 1 && agents == old(agents) - {old(owned)[launch].agentId}
                && forall a :: a in flights ==> flights[a] != generation
      ensures launch !in old(owned) ==> generation == old(generation) && agents == old(agents)
      ensures evicted.Some? <==> old(Evicts(launch))
      ensures !old(Evicts(launch)) ==>
                events == old(events) && revision == old(revision) && agents == old(agents)
      ensures old(Evicts(launch)) ==>
                var id := old(owned)[launch].agentId;
                var listed := id in Canonical(old(agents));
                && evicted == Some(old(agents)[id])
                && events == old(events) + (if listed then [Removed(id)] else [])
                && revision == old(revision) + (if listed then 1 else 0)
                && (Follow(Canonical(old(agents)), events[|old(events)|..]) == Canonical(agents)
                    <==> !Reveals(old(agents), id))
                && (Canonical(agents) == Canonical(old(agents)) <==> !listed && !Reveals(old(agents), id))
    {
      hide Follow, Canonical, Shown, Reveals;
      if launch !in owned {
        return None;
      }
      var id := owned[launch].agentId;
      OwnedLess(agents, owned, launchers, launch);
      owned, generation := owned - {launch}, generation + 1;
      if id !in agents {
        assert agents - {id} == agents;
        return None;
      }
      evicted := Some(agents[id]);
      EvictionIsTold(agents, id);
      NotListed(agents - {id}, id);
      ghost var before := events;
      if id in Canonical(agents) && id !in Canonical(agents - {id}) {
        revision := revision + 1;
        events := events + [Removed(id)];
      }
      agents := agents - {id};
      assert events[|before|..] == [] || events[|before|..] == [Removed(id)];
    }
  }

  lemma NotListed(agents: Agents, id: string)
    requires id !in agents
    ensures id !in Canonical(agents)
  {
  }

  lemma FollowNothing(view: Agents)
    ensures Follow(view, []) == view
  {
  }

  lemma OwnedMore(
      agents: Agents, owned: map<string, Owned>, launchers: map<string, string>, launch: string, record: Owned)
    requires Fenced(agents, owned, launchers) && (launch in owned ==> owned[launch] == record)
    ensures Fenced(agents, owned[launch := record], launchers)
  {
    forall id, provider | Belongs(owned, id, provider) ensures Belongs(owned[launch := record], id, provider) {
      var l :| l in owned && owned[l] == Owned(id, provider);
      assert owned[launch := record][l] == Owned(id, provider);
    }
  }

  lemma OwnedLess(agents: Agents, owned: map<string, Owned>, launchers: map<string, string>, launch: string)
    requires Fenced(agents, owned, launchers) && launch in owned
    ensures Fenced(agents - {owned[launch].agentId}, owned - {launch}, launchers)
  {
    forall id, provider | Belongs(owned, id, provider) && id != owned[launch].agentId
      ensures Belongs(owned - {launch}, id, provider)
    {
      var l :| l in owned && owned[l] == Owned(id, provider);
      assert (owned - {launch})[l] == Owned(id, provider);
    }
  }

  lemma {:induction false} FollowMore(view: Agents, first: seq<Change>, second: seq<Change>)
    ensures Follow(view, first + second) == Follow(Follow(view, first), second)
  {
    if second == [] {
      assert first + second == first;
    } else {
      var front := second[..|second| - 1];
      FollowMore(view, first, front);
      assert (first + second)[..|first + second| - 1] == first + front;
    }
  }

  lemma HiderRevealed(agents: Agents, scanned: Agent, detailed: Agent)
    requires agents.Keys == {scanned.id, detailed.id} && scanned.id != detailed.id
    requires Semantic(agents[scanned.id]) == Semantic(scanned) && Semantic(agents[detailed.id]) == Semantic(detailed)
    requires Hides(detailed, scanned) && !scanned.raw
    ensures Reveals(agents, detailed.id)
  {
    SemanticHides(detailed, scanned);
    SemanticHides(agents[detailed.id], agents[scanned.id]);
    assert Semantic(scanned).raw == Semantic(agents[scanned.id]).raw;
    assert Semantic(scanned).process == Semantic(agents[scanned.id]).process;
  }

  lemma PutOne(agents: Agents, a: Agent)
    ensures Put(agents, [a]) == agents[a.id := a]
  {
    assert [a][..0] == [];
  }

  lemma OneOwned(a: Agent, owned: map<string, Owned>, provider: string)
    requires Belongs(owned, a.id, provider)
    ensures OwnedOnly([a], owned, provider) == [a]
  {
    assert [a][..0] == [];
    assert OwnedOnly([], owned, provider) == [];
  }

  lemma NoneListed()
    ensures Canonical(map[]) == map[]
  {
  }

  /** An adapter's only agent joins those of the others. */
  lemma MergedOne(agents: Agents, a: Agent, stale: nat -> nat)
    requires forall id :: id in agents ==> agents[id].source != a.source
    ensures Merged(agents, a.source, Found([a]), stale) == agents[a.id := a]
  {
    PutOne(agents, a);
    assert Others(agents, a.source) == agents;
  }

  lemma OnlySource(agents: Agents, a: Agent)
    requires SameUpToTime(agents, map[a.id := a])
    ensures forall id :: id in agents ==> agents[id].source == a.source
  {
    forall id | id in agents ensures agents[id].source == a.source {
      assert Semantic(agents[id]).source == Semantic(a).source;
    }
  }

  lemma SamePlusOne(now: Agents, before: Agents, expected: Agents, a: Agent)
    requires SameUpToTime(now, before[a.id := a]) && SameUpToTime(before, expected)
    ensures SameUpToTime(now, expected[a.id := a])
  {
  }

  lemma IsOwned(owned: map<string, Owned>, launch: string, id: string, provider: string)
    requires launch in owned && owned[launch] == Owned(id, provider)
    ensures Belongs(owned, id, provider)
  {
  }

  const DETAILED := Agent("a", "launcher", "p", 1, false, false, 0, 0)
  const SCANNED := Agent("b", "processes", "p", 1, true, false, 0, 0)

  /** A scan of the processes finds one that no adapter reports, and a launch is owned. */
  method Scanned(stale: nat -> nat) returns (registry: AgentRegistry)
    ensures fresh(registry) && registry.Valid() && registry.stale == stale && registry.flights == map[]
    ensures registry.launchers == map["launcher" := "p"] && registry.owned == map["l" := Owned("a", "p")]
    ensures SameUpToTime(registry.agents, map["b" := SCANNED])
    ensures Follow(map[], registry.events) == Canonical(registry.agents)
  {
    hide Follow, Canonical, Merged, Shown;
    registry := new AgentRegistry(map["launcher" := "p"], stale);
    NoneListed();
    registry.StartDiscovery("processes");
    registry.CompleteDiscovery("processes", Found([SCANNED]), [], true, 1);
    MergedOne(map[], SCANNED, stale);
    assert registry.flights == map[];
    assert registry.events[0..] == registry.events;
    assert Follow(map[], registry.events) == Canonical(registry.agents);
    registry.Activate("l", Owned("a", "p"), None, 1);
  }

  /** The launch is discovered, and its agent hides the scanned process. */
  method Detail(registry: AgentRegistry)
    requires registry.Valid() && registry.flights == map[]
    requires registry.launchers == map["launcher" := "p"] && registry.owned == map["l" := Owned("a", "p")]
    requires SameUpToTime(registry.agents, map["b" := SCANNED])
    requires Follow(map[], registry.events) == Canonical(registry.agents)
    modifies registry
    ensures registry.Valid() && registry.owned == old(registry.owned)
    ensures SameUpToTime(registry.agents, map["b" := SCANNED, "a" := DETAILED])
    ensures Follow(map[], registry.events) == Canonical(registry.agents)
  {
    hide Follow, Canonical, Merged, SameUpToTime, OwnedOnly, Belongs, Fenced;
    OnlySource(registry.agents, SCANNED);
    MergedOne(registry.agents, DETAILED, registry.stale);
    IsOwned(registry.owned, "l", "a", "p");
    OneOwned(DETAILED, registry.owned, "p");
    ghost var agents, told := registry.agents, registry.events;
    registry.StartDiscovery("launcher");
    registry.CompleteDiscovery("launcher", Found([DETAILED]), ["a"], true, 2);
    FollowMore(map[], told, registry.events[|told|..]);
    assert registry.events == told + registry.events[|told|..];
    SamePlusOne(registry.agents, agents, map["b" := SCANNED], DETAILED);
  }

  /** It does happen, to an adapter whose launches report the process they run in: a scan finds the process, the
      launch is discovered and hides it, the launch is retired, and whoever followed every event of the registry
      from the start now misses the scanned process. */
  method EvictionCanReveal(stale: nat -> nat) returns (registry: AgentRegistry)
    ensures fresh(registry) && registry.Valid()
    ensures Follow(map[], registry.events) != Canonical(registry.agents)
  {
    hide Follow, Canonical, Reveals, Shown;
    registry := Scanned(stale);
    Detail(registry);
    HiderRevealed(registry.agents, SCANNED, DETAILED);
    assert registry.owned["l"].agentId == "a" && registry.Evicts("l");
    ghost var agents, told := registry.agents, registry.events;
    var _ := registry.Deactivate("l");
    assert Follow(Canonical(agents), registry.events[|told|..]) != Canonical(registry.agents);
    FollowMore(map[], told, registry.events[|told|..]);
    assert registry.events == told + registry.events[|told|..];
  }
}
