/** The action queues: one action at a time for each agent, in order, with bounds and idempotency keys. */
module ActionExecutor {
  import opened Common
  import LaunchContracts

  const MAX_IDEMPOTENCY_ENTRIES := 1_000

  /** An accepted action. Tickets number the accepted actions. */
  datatype Item = Item(ticket: nat, key: string, started: bool)

  /** A remembered key; `expires` is unset until the action is settled. */
  datatype Entry = Entry(signature: string, ticket: nat, expires: Option<int>)

  datatype Settlement = Fulfilled | Rejected | TimedOut | ShutDown

  datatype Answer =
    | InvalidKey | Conflict | Replayed(ticket: nat) | ShuttingDown | CacheFull | QueueFull | Accepted(ticket: nat)

  type Queues = map<string, seq<Item>>

  predicate KeyShape(key: string) {
    8 <= |key| <= 128 && forall i | 0 <= i < |key| :: LaunchContracts.Alphanumeric(key[i]) || key[i] in "._:-"
  }

  function QueueOf(queues: Queues, agent: string): seq<Item> {
    if agent in queues then queues[agent] else []
  }

  // ----- what the queues and the books beside them agree on

  /** Who waits where, what is settled, what runs, and what is remembered. */
  datatype Books = Books(
    owners: map<nat, string>, outcomes: map<nat, Settlement>, active: set<nat>, cache: map<string, Entry>)

  ghost function Tickets(queues: Queues): set<nat> {
    set agent, i | agent in queues && 0 <= i < |queues[agent]| :: queues[agent][i].ticket
  }

  /** A waiting action belongs to the agent it waits for, runs exactly when it has been started, is settled
      only after that, and is remembered under its key until then. */
  ghost predicate ItemFits(item: Item, agent: string, b: Books) {
    && item.ticket in b.owners && b.owners[item.ticket] == agent
    && (item.started <==> item.ticket in b.active)
    && (item.ticket in b.outcomes ==> item.started)
    && (item.ticket !in b.outcomes ==> item.key in b.cache && b.cache[item.key].ticket == item.ticket)
  }

  /** Tickets grow along a queue, it is within its limit, and only its head has been started. */
  ghost predicate QueueFits(queue: seq<Item>, agent: string, limit: nat, b: Books) {
    0 < |queue| <= limit && Ascending(queue) && TailWaits(queue) && ItemsFit(queue, agent, b)
  }

  ghost predicate Ascending(queue: seq<Item>) {
    forall i, j :: 0 <= i < j < |queue| ==> queue[i].ticket < queue[j].ticket
  }

  ghost predicate TailWaits(queue: seq<Item>) {
    forall i :: 0 < i < |queue| ==> !queue[i].started
  }

  ghost predicate ItemsFit(queue: seq<Item>, agent: string, b: Books) {
    forall i :: 0 <= i < |queue| ==> ItemFits(queue[i], agent, b)
  }

  ghost predicate QueuesFit(queues: Queues, limit: nat, b: Books) {
    forall agent :: agent in queues ==> QueueFits(queues[agent], agent, limit, b)
  }

  ghost predicate In(queue: seq<Item>, ticket: nat) {
    exists i :: 0 <= i < |queue| && queue[i].ticket == ticket
  }

  /** Every accepted action still waits or is settled. */
  ghost predicate Accounted(queues: Queues, b: Books) {
    && (forall t :: t in b.owners ==> In(QueueOf(queues, b.owners[t]), t) || t in b.outcomes)
    && (forall t :: t in b.outcomes || t in b.active ==> t in b.owners)
  }

  /** Each remembered key stands for one action, and expires only once that is settled. */
  ghost predicate CacheFits(b: Books) {
    && (forall key :: key in b.cache ==>
          b.cache[key].ticket in b.owners && (b.cache[key].expires.Some? <==> b.cache[key].ticket in b.outcomes))
    && (forall k, l :: k in b.cache && l in b.cache && b.cache[k].ticket == b.cache[l].ticket ==> k == l)
  }

  ghost predicate Fits(queues: Queues, limit: nat, b: Books) {
    QueuesFit(queues, limit, b) && Accounted(queues, b) && CacheFits(b)
  }

  // ----- one queue changes, the others stay

  function Trimmed(queues: Queues, agent: string, queue: seq<Item>): Queues {
    if queue == [] then queues - {agent} else queues[agent := queue]
  }

  /** What one step changes: at most one ticket, of this agent. */
  ghost predicate OnlyFor(ticket: nat, agent: string, b: Books, c: Books) {
    && c.owners.Keys == b.owners.Keys + {ticket} && (forall t :: t in b.owners ==> c.owners[t] == b.owners[t])
    && c.owners[ticket] == agent
    && b.outcomes.Keys <= c.outcomes.Keys <= b.outcomes.Keys + {ticket}
    && b.active - {ticket} == c.active - {ticket}
    && (forall key :: key in b.cache ==> key in c.cache && c.cache[key].ticket == b.cache[key].ticket)
  }

  lemma OthersStay(queues: Queues, agent: string, queue: seq<Item>, limit: nat, b: Books, c: Books, ticket: nat)
    requires QueuesFit(queues, limit, b) && OnlyFor(ticket, agent, b, c)
    requires queue == [] || QueueFits(queue, agent, limit, c)
    ensures QueuesFit(Trimmed(queues, agent, queue), limit, c)
  {
    var next: map<string, seq<Item>> := Trimmed(queues, agent, queue);
    forall other | other in next ensures QueueFits(next[other], other, limit, c) {
      if other != agent {
        var same := queues[other];
        forall i | 0 <= i < |same| ensures ItemFits(same[i], other, c) {
          var t := same[i].ticket;
          assert ItemFits(same[i], other, b);
          assert t != ticket;
          assert t in b.active - {ticket} <==> t in c.active - {ticket};
          assert t in b.outcomes.Keys <==> t in c.outcomes.Keys;
        }
      }
    }
  }

  lemma OthersAccounted(queues: Queues, agent: string, queue: seq<Item>, b: Books, c: Books, ticket: nat)
    requires Accounted(queues, b) && OnlyFor(ticket, agent, b, c) && c.active <= b.active + {ticket}
    requires forall t :: In(QueueOf(queues, agent), t) ==> In(queue, t) || t in c.outcomes
    requires In(queue, ticket) || ticket in c.outcomes
    ensures Accounted(Trimmed(queues, agent, queue), c)
  {
    var next: map<string, seq<Item>> := Trimmed(queues, agent, queue);
    assert QueueOf(next, agent) == queue;
    forall t | t in c.owners ensures In(QueueOf(next, c.owners[t]), t) || t in c.outcomes {
      if t != ticket {
        assert t in b.owners;
        assert c.owners[t] != agent ==> QueueOf(next, c.owners[t]) == QueueOf(queues, c.owners[t]);
      }
    }
  }

  function Cut(queue: seq<Item>, k: nat): (rest: seq<Item>)
    requires k < |queue|
    ensures |rest| == |queue| - 1 && forall i :: 0 <= i < |rest| ==> rest[i] == queue[if i < k then i else i + 1]
    ensures forall i :: 0 <= i < |queue| && i != k ==> queue[i] == rest[if i < k then i else i - 1]
  {
    queue[..k] + queue[k + 1..]
  }

  lemma InCut(queue: seq<Item>, k: nat, t: nat)
    requires k < |queue| && In(queue, t)
    ensures In(Cut(queue, k), t) || t == queue[k].ticket
  {
    var i :| 0 <= i < |queue| && queue[i].ticket == t;
    if i != k {
      assert Cut(queue, k)[if i < k then i else i - 1].ticket == t;
    }
  }

  // ----- the tickets in the queues

  lemma InTickets(queues: Queues, t: nat)
    ensures t in Tickets(queues) <==> exists agent :: agent in queues && In(queues[agent], t)
  {
    if t in Tickets(queues) {
      var agent, i :| agent in queues && 0 <= i < |queues[agent]| && queues[agent][i].ticket == t;
      assert In(queues[agent], t);
    }
    if agent :| agent in queues && In(queues[agent], t) {
      var i :| 0 <= i < |queues[agent]| && queues[agent][i].ticket == t;
    }
  }

  lemma TicketOf(queues: Queues, limit: nat, b: Books, agent: string, t: nat)
    requires QueuesFit(queues, limit, b) && agent in queues && In(queues[agent], t)
    ensures t in b.owners && b.owners[t] == agent
  {
    var i :| 0 <= i < |queues[agent]| && queues[agent][i].ticket == t;
    assert ItemFits(queues[agent][i], agent, b);
  }

  /** Changing one queue changes the tickets that wait by those of this queue. */
  lemma TicketsChange(queues: Queues, agent: string, queue: seq<Item>, limit: nat, b: Books, t: nat)
    requires QueuesFit(queues, limit, b)
    ensures t in Tickets(Trimmed(queues, agent, queue))
            <==> In(queue, t) || (t in Tickets(queues) && !In(QueueOf(queues, agent), t))
  {
    var next: map<string, seq<Item>> := Trimmed(queues, agent, queue);
    InTickets(queues, t);
    InTickets(next, t);
    if a :| a in next && In(next[a], t) {
      if a != agent && In(QueueOf(queues, agent), t) {
        TicketOf(queues, limit, b, a, t);
        TicketOf(queues, limit, b, agent, t);
      }
    }
    if In(queue, t) {
      assert In(next[agent], t);
    } else if t in Tickets(queues) && !In(QueueOf(queues, agent), t) {
      var a :| a in queues && In(queues[a], t);
      assert next[a] == queues[a];
    }
  }

  // ----- the steps

  function WithItem(queues: Queues, agent: string, item: Item): seq<Item> {
    QueueOf(queues, agent) + [item]
  }

  function Remembering(b: Books, agent: string, item: Item, signature: string): Books {
    b.(owners := b.owners[item.ticket := agent], cache := b.cache[item.key := Entry(signature, item.ticket, None)])
  }

  lemma TailAccepted(queue: seq<Item>, agent: string, item: Item, limit: nat, b: Books, signature: string)
    requires queue == [] || QueueFits(queue, agent, limit, b)
    requires CacheFits(b) && |queue| < limit
    requires !item.started && item.key !in b.cache && item.ticket !in b.outcomes && item.ticket !in b.active
    requires forall t :: t in b.owners ==> t < item.ticket
    ensures var c := Remembering(b, agent, item, signature);
            QueueFits(queue + [item], agent, limit, c) && OnlyFor(item.ticket, agent, b, c) && CacheFits(c)
  {
    var c := Remembering(b, agent, item, signature);
    var later := queue + [item];
    forall i | 0 <= i < |queue| ensures ItemFits(later[i], agent, c) && later[i].ticket < item.ticket {
      assert ItemFits(queue[i], agent, b);
    }
    assert ItemFits(later[|queue|], agent, c);
  }

  lemma AcceptKeeps(queues: Queues, agent: string, item: Item, limit: nat, b: Books, signature: string)
    requires Fits(queues, limit, b) && |QueueOf(queues, agent)| < limit && !item.started && item.key !in b.cache
    requires forall t :: t in b.owners ==> t < item.ticket
    ensures var queue := WithItem(queues, agent, item);
            && Fits(Trimmed(queues, agent, queue), limit, Remembering(b, agent, item, signature))
            && |Tickets(Trimmed(queues, agent, queue))| == |Tickets(queues)| + 1
            && |Remembering(b, agent, item, signature).cache| == |b.cache| + 1
  {
    OneMoreRemembered(b, agent, item, signature);
    hide Tickets, Trimmed, In, QueueFits, CacheFits, Accounted, OnlyFor, WithItem;
    var c := Remembering(b, agent, item, signature);
    var before, queue := QueueOf(queues, agent), WithItem(queues, agent, item);
    NewTicket(queues, agent, item, limit, b);
    TailAccepted(before, agent, item, limit, b, signature);
    WithLast(queues, agent, item);
    AcceptTickets(queues, agent, item, limit, b);
    assert c.active <= b.active + {item.ticket};
    hide Remembering, QueueOf;
    OthersStay(queues, agent, queue, limit, b, c, item.ticket);
    OthersAccounted(queues, agent, queue, b, c, item.ticket);
  }

  lemma OneMoreRemembered(b: Books, agent: string, item: Item, signature: string)
    requires item.key !in b.cache
    ensures |Remembering(b, agent, item, signature).cache| == |b.cache| + 1
  {
  }

  lemma NewTicket(queues: Queues, agent: string, item: Item, limit: nat, b: Books)
    requires Fits(queues, limit, b) && forall t :: t in b.owners ==> t < item.ticket
    ensures item.ticket !in b.outcomes && item.ticket !in b.active && item.ticket !in b.owners
    ensures QueueOf(queues, agent) == [] || QueueFits(QueueOf(queues, agent), agent, limit, b)
  {
    hide QueueFits, CacheFits;
  }

  lemma WithLast(queues: Queues, agent: string, item: Item)
    ensures WithItem(queues, agent, item) == QueueOf(queues, agent) + [item]
    ensures forall t :: In(WithItem(queues, agent, item), t) <==> In(QueueOf(queues, agent), t) || t == item.ticket
  {
    var before, queue := QueueOf(queues, agent), WithItem(queues, agent, item);
    assert queue[|before|].ticket == item.ticket;
    forall t | In(before, t) ensures In(queue, t) {
      var i :| 0 <= i < |before| && before[i].ticket == t;
      assert queue[i].ticket == t;
    }
  }

  lemma InQueueOf(queues: Queues, agent: string, t: nat)
    requires In(QueueOf(queues, agent), t)
    ensures agent in queues && In(queues[agent], t)
  {
  }

  lemma AcceptTickets(queues: Queues, agent: string, item: Item, limit: nat, b: Books)
    requires QueuesFit(queues, limit, b) && item.ticket !in b.owners
    ensures Tickets(Trimmed(queues, agent, WithItem(queues, agent, item))) == Tickets(queues) + {item.ticket}
    ensures item.ticket !in Tickets(queues)
  {
    var queue := WithItem(queues, agent, item);
    WithLast(queues, agent, item);
    hide Tickets, Trimmed, In, WithItem;
    forall t ensures t in Tickets(Trimmed(queues, agent, queue)) <==> t in Tickets(queues) + {item.ticket} {
      TicketsChange(queues, agent, queue, limit, b, t);
      InTickets(queues, t);
      if In(QueueOf(queues, agent), t) { InQueueOf(queues, agent, t); }
    }
    InTickets(queues, item.ticket);
    forall a | a in queues ensures !In(queues[a], item.ticket) {
      if In(queues[a], item.ticket) { TicketOf(queues, limit, b, a, item.ticket); }
    }
  }

  /** Changing an entry of the queue other than its tickets. */
  function Started(queue: seq<Item>): seq<Item>
    requires queue != []
  {
    queue[0 := queue[0].(started := true)]
  }

  lemma SameTickets(queue: seq<Item>, t: nat)
    requires queue != []
    ensures In(Started(queue), t) <==> In(queue, t)
  {
    var later := Started(queue);
    if i :| 0 <= i < |queue| && queue[i].ticket == t {
      assert later[i].ticket == t;
    }
    if i :| 0 <= i < |queue| && later[i].ticket == t {
      assert queue[i].ticket == t;
    }
  }

  lemma HeadStarts(queue: seq<Item>, agent: string, limit: nat, b: Books)
    requires QueueFits(queue, agent, limit, b) && !queue[0].started
    ensures var c := b.(active := b.active + {queue[0].ticket});
            QueueFits(Started(queue), agent, limit, c) && OnlyFor(queue[0].ticket, agent, b, c)
            && In(queue, queue[0].ticket)
  {
    var ticket, later := queue[0].ticket, Started(queue);
    var c := b.(active := b.active + {ticket});
    forall i | 0 <= i < |queue| ensures ItemFits(later[i], agent, c) && later[i].ticket == queue[i].ticket {
      assert ItemFits(queue[i], agent, b);
      assert i > 0 ==> queue[0].ticket < queue[i].ticket;
    }
    assert ItemFits(queue[0], agent, b);
    assert b.active - {ticket} == c.active - {ticket};
  }

  lemma TicketsStay(queues: Queues, agent: string, later: seq<Item>, limit: nat, b: Books)
    requires QueuesFit(queues, limit, b) && agent in queues && forall t :: In(queues[agent], t) <==> In(later, t)
    ensures Tickets(Trimmed(queues, agent, later)) == Tickets(queues)
  {
    hide Tickets, Trimmed, In, QueuesFit;
    forall t ensures t in Tickets(Trimmed(queues, agent, later)) <==> t in Tickets(queues) {
      TicketsChange(queues, agent, later, limit, b, t);
      InTickets(queues, t);
    }
  }

  lemma StartKeeps(queues: Queues, agent: string, limit: nat, b: Books)
    requires Fits(queues, limit, b) && agent in queues && queues[agent] != [] && !queues[agent][0].started
    ensures var c := b.(active := b.active + {queues[agent][0].ticket});
            && Fits(Trimmed(queues, agent, Started(queues[agent])), limit, c)
            && Tickets(Trimmed(queues, agent, Started(queues[agent]))) == Tickets(queues)
  {
    var queue := queues[agent];
    var ticket, later := queue[0].ticket, Started(queue);
    var c := b.(active := b.active + {ticket});
    HeadStarts(queue, agent, limit, b);
    hide Tickets, Trimmed, In, Started, QueueFits, Accounted;
    OthersStay(queues, agent, later, limit, b, c, ticket);
    forall t ensures In(queue, t) <==> In(later, t) {
      SameTickets(queue, t);
    }
    OthersAccounted(queues, agent, later, b, c, ticket);
    TicketsStay(queues, agent, later, limit, b);
  }

  function Settled(b: Books, item: Item, how: Settlement, expires: int): Books {
    b.(outcomes := b.outcomes[item.ticket := how],
       cache := if item.key in b.cache && b.cache[item.key].ticket == item.ticket
                then b.cache[item.key := b.cache[item.key].(expires := Some(expires))] else b.cache)
  }

  lemma SettledCache(b: Books, item: Item, agent: string, how: Settlement, expires: int)
    requires CacheFits(b) && ItemFits(item, agent, b) && item.ticket !in b.outcomes
    ensures CacheFits(Settled(b, item, how, expires)) && OnlyFor(item.ticket, agent, b, Settled(b, item, how, expires))
  {
  }

  lemma HeadSettles(queue: seq<Item>, agent: string, limit: nat, b: Books, how: Settlement, expires: int)
    requires QueueFits(queue, agent, limit, b) && CacheFits(b) && queue[0].started && queue[0].ticket !in b.outcomes
    ensures var c := Settled(b, queue[0], how, expires);
            && QueueFits(queue, agent, limit, c) && CacheFits(c) && OnlyFor(queue[0].ticket, agent, b, c)
            && In(queue, queue[0].ticket) && c.active == b.active
  {
    var item := queue[0];
    var c := Settled(b, item, how, expires);
    assert ItemFits(item, agent, b);
    SettledCache(b, item, agent, how, expires);
    hide CacheFits, OnlyFor;
    forall i | 0 <= i < |queue| ensures ItemFits(queue[i], agent, c) {
      assert ItemFits(queue[i], agent, b);
      assert i > 0 ==> queue[0].ticket < queue[i].ticket;
    }
  }

  /** An action that runs settles: with its result, its failure, or a timeout. */
  lemma SettleKeeps(queues: Queues, agent: string, limit: nat, b: Books, how: Settlement, expires: int)
    requires Fits(queues, limit, b) && agent in queues && queues[agent] != []
    requires queues[agent][0].started && queues[agent][0].ticket !in b.outcomes
    ensures Fits(queues, limit, Settled(b, queues[agent][0], how, expires))
  {
    hide QueueFits, Accounted, CacheFits, Settled, In, OnlyFor;
    var queue := queues[agent];
    var c := Settled(b, queue[0], how, expires);
    HeadSettles(queue, agent, limit, b, how, expires);
    OthersStay(queues, agent, queue, limit, b, c, queue[0].ticket);
    OthersAccounted(queues, agent, queue, b, c, queue[0].ticket);
    assert Trimmed(queues, agent, queue) == queues;
  }

  /** Taking an item out of its queue: its ticket stops waiting, and nothing else changes. */
  lemma CutKeeps(queues: Queues, agent: string, k: nat, limit: nat, b: Books, c: Books)
    requires Fits(queues, limit, b) && agent in queues && k < |queues[agent]|
    requires OnlyFor(queues[agent][k].ticket, agent, b, c) && c.active <= b.active && CacheFits(c)
    requires queues[agent][k].ticket in c.outcomes
    requires k > 0 || |queues[agent]| == 1 || !queues[agent][1].started
    ensures Fits(Trimmed(queues, agent, Cut(queues[agent], k)), limit, c)
    ensures Tickets(Trimmed(queues, agent, Cut(queues[agent], k))) == Tickets(queues) - {queues[agent][k].ticket}
    ensures queues[agent][k].ticket in Tickets(queues)
  {
    var queue := queues[agent];
    var ticket, rest := queue[k].ticket, Cut(queue, k);
    QueueCut(queue, agent, k, limit, b, c);
    CutAccounts(queue, k, c);
    CutTickets(queues, agent, k, limit, b);
    hide Tickets, Trimmed, QueueFits, CacheFits, Accounted, OnlyFor, In, Cut;
    OthersStay(queues, agent, rest, limit, b, c, ticket);
    assert c.active <= b.active + {ticket} && QueueOf(queues, agent) == queue;
    OthersAccounted(queues, agent, rest, b, c, ticket);
  }

  lemma CutAccounts(queue: seq<Item>, k: nat, c: Books)
    requires k < |queue| && queue[k].ticket in c.outcomes
    ensures forall t :: In(queue, t) ==> In(Cut(queue, k), t) || t in c.outcomes
  {
    hide In, Cut;
    forall t | In(queue, t) ensures In(Cut(queue, k), t) || t in c.outcomes {
      InCut(queue, k, t);
    }
  }

  lemma CutTickets(queues: Queues, agent: string, k: nat, limit: nat, b: Books)
    requires QueuesFit(queues, limit, b) && agent in queues && k < |queues[agent]|
    ensures Tickets(Trimmed(queues, agent, Cut(queues[agent], k))) == Tickets(queues) - {queues[agent][k].ticket}
    ensures queues[agent][k].ticket in Tickets(queues)
  {
    var queue := queues[agent];
    var ticket, rest := queue[k].ticket, Cut(queue, k);
    assert In(queue, ticket) && Ascending(queue) by {
      assert QueueFits(queue, agent, limit, b);
    }
    hide Tickets, Trimmed, Cut, In, QueuesFit, Ascending;
    forall t ensures t in Tickets(Trimmed(queues, agent, rest)) <==> t in Tickets(queues) - {ticket} {
      TicketsChange(queues, agent, rest, limit, b, t);
      InTickets(queues, t);
      if In(queue, t) { InCut(queue, k, t); }
      if In(rest, t) { CutIn(queue, k, t); }
    }
    InTickets(queues, ticket);
  }

  lemma CutIn(queue: seq<Item>, k: nat, t: nat)
    requires k < |queue| && In(Cut(queue, k), t) && Ascending(queue)
    ensures In(queue, t) && t != queue[k].ticket
  {
    var i :| 0 <= i < |Cut(queue, k)| && Cut(queue, k)[i].ticket == t;
    var j := if i < k then i else i + 1;
    assert queue[j].ticket == t;
  }

  lemma FitsStill(item: Item, agent: string, ticket: nat, b: Books, c: Books)
    requires ItemFits(item, agent, b) && OnlyFor(ticket, agent, b, c) && item.ticket != ticket
    ensures ItemFits(item, agent, c)
  {
    var t := item.ticket;
    assert t in b.active - {ticket} <==> t in c.active - {ticket};
    assert t in b.outcomes.Keys <==> t in c.outcomes.Keys;
  }

  lemma CutAscends(queue: seq<Item>, k: nat)
    requires Ascending(queue) && k < |queue|
    ensures Ascending(Cut(queue, k)) && forall i :: 0 <= i < |queue| && i != k ==> queue[i].ticket != queue[k].ticket
  {
    var rest := Cut(queue, k);
    hide Cut;
    forall i, j | 0 <= i < j < |rest| ensures rest[i].ticket < rest[j].ticket {
      assert queue[if i < k then i else i + 1].ticket < queue[if j < k then j else j + 1].ticket;
    }
  }

  lemma CutWaits(queue: seq<Item>, k: nat)
    requires TailWaits(queue) && k < |queue| && (k > 0 || |queue| == 1 || !queue[1].started)
    ensures TailWaits(Cut(queue, k))
  {
    var rest := Cut(queue, k);
    hide Cut;
    forall i | 0 < i < |rest| ensures !rest[i].started {
      assert rest[i] == queue[if i < k then i else i + 1];
    }
  }

  lemma CutItemsFit(queue: seq<Item>, agent: string, k: nat, b: Books, c: Books)
    requires ItemsFit(queue, agent, b) && Ascending(queue) && k < |queue| && OnlyFor(queue[k].ticket, agent, b, c)
    ensures ItemsFit(Cut(queue, k), agent, c)
  {
    var rest := Cut(queue, k);
    CutAscends(queue, k);
    hide Cut, OnlyFor, ItemFits, Ascending;
    forall i | 0 <= i < |rest| ensures ItemFits(rest[i], agent, c) {
      var j := if i < k then i else i + 1;
      assert rest[i] == queue[j];
      FitsStill(queue[j], agent, queue[k].ticket, b, c);
    }
  }

  lemma QueueCut(queue: seq<Item>, agent: string, k: nat, limit: nat, b: Books, c: Books)
    requires QueueFits(queue, agent, limit, b) && k < |queue| && OnlyFor(queue[k].ticket, agent, b, c)
    requires k > 0 || |queue| == 1 || !queue[1].started
    ensures Cut(queue, k) == [] || QueueFits(Cut(queue, k), agent, limit, c)
  {
    hide Ascending, TailWaits, ItemsFit, OnlyFor, Cut;
    CutAscends(queue, k);
    CutWaits(queue, k);
    CutItemsFit(queue, agent, k, b, c);
  }

  // ----- the executor

  /** The keys still remembered at a time. */
  function Live(cache: map<string, Entry>, now: int): map<string, Entry> {
    map key | key in cache && !(cache[key].expires.Some? && cache[key].expires.value <= now) :: cache[key]
  }

  lemma LiveKeeps(queues: Queues, limit: nat, b: Books, now: int)
    requires Fits(queues, limit, b)
    ensures Fits(queues, limit, b.(cache := Live(b.cache, now))) && |Live(b.cache, now)| <= |b.cache|
  {
    var c := b.(cache := Live(b.cache, now));
    assert c.cache.Keys <= b.cache.Keys;
    Smaller(c.cache.Keys, b.cache.Keys);
    forall agent | agent in queues ensures QueueFits(queues[agent], agent, limit, c) {
      var queue := queues[agent];
      forall i | 0 <= i < |queue| ensures ItemFits(queue[i], agent, c) {
        assert ItemFits(queue[i], agent, b);
      }
    }
  }

  lemma Smaller(a: set<string>, b: set<string>)
    requires a <= b
    ensures |a| <= |b|
  {
    assert |b - a| == |b| - |a|;
  }

  class ActionExecutor {
    const perAgentLimit: nat
    const globalLimit: nat
    const ttl: int
    var queues: Queues
    var cache: map<string, Entry>
    var active: set<nat>
    var queued: nat
    var draining: bool
    var next: nat
    /** Which agent each accepted action was for, and how each settled action was settled. */
    ghost var owners: map<nat, string>
    ghost var outcomes: map<nat, Settlement>

    ghost function Book(): Books
      reads this
    {
      Books(owners, outcomes, active, cache)
    }

    ghost predicate Valid()
      reads this
    {
      && Fits(queues, perAgentLimit, Book())
      && queued == |Tickets(queues)| <= globalLimit && |cache| <= MAX_IDEMPOTENCY_ENTRIES
      && (forall t :: t in owners ==> t < next)
    }

    constructor (perAgent: nat, global: nat, ttl: int)
      requires perAgent > 0 && global > 0
      ensures Valid() && perAgentLimit == perAgent && globalLimit == global && owners == map[] && outcomes == map[]
    {
      perAgentLimit, globalLimit, this.ttl := perAgent, global, ttl;
      queues, cache, active, queued, draining, next, owners, outcomes := map[], map[], {}, 0, false, 0, map[], map[];
      new;
      assert Tickets(queues) == {};
    }

    /** Starts the head of an agent's queue, unless it runs already, and nothing else. */
    method Pump(agent: string)
      requires Valid()
      modifies this`queues, this`active
      ensures Valid() && queues == Pumped(old(queues), agent) && queued == |Tickets(queues)|
    {
      hide Fits, Tickets;
      if agent !in queues || queues[agent] == [] || queues[agent][0].started { return; }
      StartKeeps(queues, agent, perAgentLimit, Book());
      active := active + {queues[agent][0].ticket};
      queues := queues[agent := queues[agent][0 := queues[agent][0].(started := true)]];
    }

    /** Accepts an action, or answers without changing anything but forgetting keys that have expired. A key
        that is remembered is never accepted again: it is replayed or refused. */
    method Execute(agent: string, key: string, signature: string, now: int) returns (answer: Answer)
      requires Valid()
      modifies this`queues, this`cache, this`active, this`queued, this`next, this`owners
      ensures Valid()
      ensures var live := Live(old(cache), now);
              answer == if !KeyShape(key) then InvalidKey
                        else if key in live then
                          (if live[key].signature != signature then Conflict else Replayed(live[key].ticket))
                        else if draining then ShuttingDown
                        else if |live| >= MAX_IDEMPOTENCY_ENTRIES then CacheFull
                        else if |QueueOf(old(queues), agent)| >= perAgentLimit || old(queued) >= globalLimit then
                          QueueFull
                        else Accepted(old(next))
      ensures answer.Accepted? ==>
                && owners == old(owners)[old(next) := agent] && next == old(next) + 1
                && cache == Live(old(cache), now)[key := Entry(signature, old(next), None)]
                && queues == Pumped(old(queues)[agent := QueueOf(old(queues), agent) + [Item(old(next), key, false)]],
                                    agent)
      ensures !answer.Accepted? ==>
                && owners == old(owners) && next == old(next) && queues == old(queues)
                && cache == if answer.InvalidKey? then old(cache) else Live(old(cache), now)
    {
      hide Fits, Tickets, KeyShape, Live, Pumped;
      if !KeyShape(key) { return InvalidKey; }
      LiveKeeps(queues, perAgentLimit, Book(), now);
      cache := Live(cache, now);
      if key in cache {
        return if cache[key].signature != signature then Conflict else Replayed(cache[key].ticket);
      }
      if draining { return ShuttingDown; }
      if |cache| >= MAX_IDEMPOTENCY_ENTRIES { return CacheFull; }
      var queue := QueueOf(queues, agent);
      if |queue| >= perAgentLimit || queued >= globalLimit { return QueueFull; }
      Accept(agent, key, signature);
      Pump(agent);
      return Accepted(next - 1);
    }

    /** The action joins the end of its agent's queue, and its key is remembered. */
    method Accept(agent: string, key: string, signature: string)
      requires Valid() && key !in cache && |cache| < MAX_IDEMPOTENCY_ENTRIES
      requires |QueueOf(queues, agent)| < perAgentLimit && queued < globalLimit
      modifies this`queues, this`cache, this`queued, this`next, this`owners
      ensures Valid() && owners == old(owners)[old(next) := agent] && next == old(next) + 1
      ensures cache == old(cache)[key := Entry(signature, old(next), None)]
      ensures queues == old(queues)[agent := QueueOf(old(queues), agent) + [Item(old(next), key, false)]]
    {
      hide Fits, Tickets, QueueOf, WithItem, Trimmed, Remembering;
      var item := Item(next, key, false);
      AcceptKeeps(queues, agent, item, perAgentLimit, Book(), signature);
      AcceptedAs(queues, agent, item, Book(), signature);
      queues, queued := queues[agent := QueueOf(queues, agent) + [item]], queued + 1;
      cache := cache[key := Entry(signature, next, None)];
      owners, next := owners[next := agent], next + 1;
    }

    /** The action at the head of a queue settles; it is settled this once, and its key starts to expire. */
    method Settle(agent: string, how: Settlement, now: int)
      requires Valid() && agent in queues && queues[agent] != [] && queues[agent][0].started
      requires queues[agent][0].ticket !in outcomes
      modifies this`cache, this`outcomes
      ensures Valid() && Book() == Settled(old(Book()), queues[agent][0], how, now + ttl)
    {
      hide Fits, Tickets;
      var item := queues[agent][0];
      SettleKeeps(queues, agent, perAgentLimit, Book(), how, now + ttl);
      SettledSize(Book(), item, how, now + ttl);
      if item.key in cache && cache[item.key].ticket == item.ticket {
        cache := cache[item.key := cache[item.key].(expires := Some(now + ttl))];
      }
      outcomes := outcomes[item.ticket := how];
    }

    /** A settled action leaves the head of its queue, and the next one starts. */
    method Release(agent: string)
      requires Valid() && agent in queues && queues[agent] != [] && queues[agent][0].ticket in outcomes
      modifies this`queues, this`active, this`queued
      ensures Valid() && queued == old(queued) - 1
      ensures queues == Pumped(Trimmed(old(queues), agent, old(queues)[agent][1..]), agent)
    {
      hide Fits, Tickets, Pumped;
      var queue, ticket := queues[agent], queues[agent][0].ticket;
      ReleaseKeeps(queues, agent, perAgentLimit, Book());
      active := active - {ticket};
      queues := Trimmed(queues, agent, queue[1..]);
      queued := queued - 1;
      Pump(agent);
    }

    /** Shutting down rejects every action that has not been started, and leaves those that run. */
    method Shutdown(now: int)
      requires Valid()
      modifies this`queues, this`cache, this`queued, this`draining, this`outcomes
      ensures Valid() && draining
      ensures HeadsRemain(old(queues), queues, {})
      ensures OnlyShutDown(old(outcomes), outcomes)
      ensures OnlyExpire(old(cache), cache, now + ttl)
      ensures forall t :: t in owners && t !in outcomes ==> t in active
    {
      hide Fits, Tickets, HeadsRemain, OnlyShutDown, OnlyExpire;
      NoneExpire(cache, now + ttl);
      AllRemain(queues, perAgentLimit, Book());
      draining := true;
      var agents := queues.Keys;
      while agents != {}
        invariant Valid() && draining && agents <= queues.Keys && HeadsRemain(old(queues), queues, agents)
        invariant OnlyShutDown(old(outcomes), outcomes) && OnlyExpire(old(cache), cache, now + ttl)
        decreases |agents|
      {
        var agent :| agent in agents;
        ghost var before, settled, remembered := queues, outcomes, cache;
        DropPending(agent, now);
        MoreExpire(old(cache), remembered, cache, now + ttl);
        HeadRemains(old(queues), before, queues, agents, agent);
        MoreShutDown(old(outcomes), settled, outcomes);
        agents := agents - {agent};
      }
      OnlyRunning(old(queues), queues, perAgentLimit, Book());
    }

    /** Rejects, in order, what waits behind the action of an agent that runs. */
    method DropPending(agent: string, now: int)
      requires Valid() && agent in queues
      modifies this`queues, this`cache, this`queued, this`outcomes
      ensures Valid()
      ensures old(queues)[agent] != []
      ensures queues == old(queues) - {agent}
              || (queues == old(queues)[agent := [old(queues)[agent][0]]] && old(queues)[agent][0].started)
      ensures OnlyShutDown(old(outcomes), outcomes) && OnlyExpire(old(cache), cache, now + ttl)
    {
      hide Fits, Tickets, Trimmed, Cut, OnlyExpire;
      NoneExpire(cache, now + ttl);
      QueueIsThere(queues, perAgentLimit, Book(), agent);
      ghost var all := queues;
      var queue := queues[agent];
      var from := if queue[0].started then 1 else 0;
      TrimmedSame(all, agent);
      while from < |queue|
        invariant Valid() && from <= |queue| && queues == Trimmed(all, agent, queue)
        invariant forall i :: from <= i < |queue| ==> !queue[i].started
        invariant from == 1 ==> queue[0] == all[agent][0]
        invariant OnlyShutDown(old(outcomes), outcomes) && OnlyExpire(old(cache), cache, now + ttl)
        decreases |queue|
      {
        TrimmedAgain(all, agent, queue, Cut(queue, from));
        ghost var remembered := cache;
        DropOne(agent, from, now);
        MoreExpire(old(cache), remembered, cache, now + ttl);
        queue := Cut(queue, from);
      }
      TrimmedEnd(all, agent, queue);
      assert queue == if from == 0 then [] else [all[agent][0]];
    }

    /** One action that waits is settled as shut down and leaves its queue. */
    method DropOne(agent: string, k: nat, now: int)
      requires Valid() && agent in queues && k < |queues[agent]| && !queues[agent][k].started
      modifies this`queues, this`cache, this`queued, this`outcomes
      ensures Valid() && queues == Trimmed(old(queues), agent, Cut(old(queues)[agent], k))
      ensures old(queues)[agent][k].ticket !in old(outcomes)
      ensures outcomes == old(outcomes)[old(queues)[agent][k].ticket := ShutDown]
      ensures OnlyExpire(old(cache), cache, now + ttl)
    {
      hide Fits, Tickets, Trimmed, Cut, Settled;
      var item := queues[agent][k];
      UnsettledIsKept(queues, perAgentLimit, Book(), agent, k);
      DropKeeps(queues, agent, k, perAgentLimit, Book(), now + ttl);
      SettledSize(Book(), item, ShutDown, now + ttl);
      SettledBooks(Book(), item, ShutDown, now + ttl);
      if item.key in cache && cache[item.key].ticket == item.ticket {
        cache := cache[item.key := cache[item.key].(expires := Some(now + ttl))];
      }
      outcomes := outcomes[item.ticket := ShutDown];
      queues := Trimmed(queues, agent, Cut(queues[agent], k));
      queued := queued - 1;
    }
  }

  lemma AcceptedAs(queues: Queues, agent: string, item: Item, b: Books, signature: string)
    ensures Trimmed(queues, agent, WithItem(queues, agent, item)) == queues[agent := QueueOf(queues, agent) + [item]]
    ensures Remembering(b, agent, item, signature)
            == b.(owners := b.owners[item.ticket := agent],
                  cache := b.cache[item.key := Entry(signature, item.ticket, None)])
  {
  }

  lemma TrimmedSame(queues: Queues, agent: string)
    requires agent in queues && queues[agent] != []
    ensures Trimmed(queues, agent, queues[agent]) == queues
  {
  }

  lemma TrimmedAgain(queues: Queues, agent: string, queue: seq<Item>, rest: seq<Item>)
    requires queue != []
    ensures var trimmed := Trimmed(queues, agent, queue);
            agent in trimmed && trimmed[agent] == queue && Trimmed(trimmed, agent, rest) == Trimmed(queues, agent, rest)
  {
  }

  lemma TrimmedEnd(queues: Queues, agent: string, queue: seq<Item>)
    ensures Trimmed(queues, agent, queue) == if queue == [] then queues - {agent} else queues[agent := queue]
  {
  }

  lemma SettledBooks(b: Books, item: Item, how: Settlement, expires: int)
    ensures Settled(b, item, how, expires)
            == b.(outcomes := b.outcomes[item.ticket := how],
                  cache := if item.key in b.cache && b.cache[item.key].ticket == item.ticket
                           then b.cache[item.key := b.cache[item.key].(expires := Some(expires))] else b.cache)
  {
  }

  function Pumped(queues: Queues, agent: string): Queues {
    if agent !in queues || queues[agent] == [] || queues[agent][0].started then queues
    else queues[agent := Started(queues[agent])]
  }

  lemma SettledSize(b: Books, item: Item, how: Settlement, expires: int)
    ensures |Settled(b, item, how, expires).cache| == |b.cache|
  {
    assert Settled(b, item, how, expires).cache.Keys == b.cache.Keys;
  }

  lemma HeadReleased(queue: seq<Item>, agent: string, limit: nat, b: Books)
    requires QueueFits(queue, agent, limit, b)
    ensures OnlyFor(queue[0].ticket, agent, b, b.(active := b.active - {queue[0].ticket}))
    ensures queue[1..] == Cut(queue, 0)
    ensures |queue| == 1 || !queue[1].started
  {
    assert ItemFits(queue[0], agent, b);
  }

  lemma ReleaseKeeps(queues: Queues, agent: string, limit: nat, b: Books)
    requires Fits(queues, limit, b) && agent in queues && queues[agent] != [] && queues[agent][0].ticket in b.outcomes
    ensures var ticket := queues[agent][0].ticket;
            && Fits(Trimmed(queues, agent, queues[agent][1..]), limit, b.(active := b.active - {ticket}))
            && |Tickets(Trimmed(queues, agent, queues[agent][1..]))| == |Tickets(queues)| - 1
  {
    hide QueueFits, OnlyFor, Tickets, Trimmed, Cut, Accounted;
    var c := b.(active := b.active - {queues[agent][0].ticket});
    HeadReleased(queues[agent], agent, limit, b);
    CutKeeps(queues, agent, 0, limit, b, c);
  }

  lemma BehindWaits(queue: seq<Item>, agent: string, limit: nat, b: Books)
    requires QueueFits(queue, agent, limit, b)
    ensures forall i :: 0 < i < |queue| ==> !queue[i].started
  {
  }

  lemma DropKeeps(queues: Queues, agent: string, k: nat, limit: nat, b: Books, expires: int)
    requires Fits(queues, limit, b) && agent in queues && k < |queues[agent]| && !queues[agent][k].started
    ensures Fits(Trimmed(queues, agent, Cut(queues[agent], k)), limit, Settled(b, queues[agent][k], ShutDown, expires))
    ensures |Tickets(Trimmed(queues, agent, Cut(queues[agent], k)))| == |Tickets(queues)| - 1
    ensures queues[agent][k].ticket !in b.outcomes
  {
    var queue := queues[agent];
    assert ItemFits(queue[k], agent, b);
    BehindWaits(queue, agent, limit, b);
    SettledCache(b, queue[k], agent, ShutDown, expires);
    hide Fits, QueueFits, OnlyFor, Tickets, Trimmed, CacheFits;
    CutKeeps(queues, agent, k, limit, b, Settled(b, queue[k], ShutDown, expires));
  }

  /** What was settled stays so, and what has been settled since was shut down. */
  ghost predicate OnlyShutDown(before: map<nat, Settlement>, after: map<nat, Settlement>) {
    && (forall t :: t in before ==> t in after && after[t] == before[t])
    && (forall t :: t in after && t !in before ==> after[t] == ShutDown)
  }

  lemma MoreShutDown(a: map<nat, Settlement>, b: map<nat, Settlement>, c: map<nat, Settlement>)
    requires OnlyShutDown(a, b) && OnlyShutDown(b, c)
    ensures OnlyShutDown(a, c)
  {
  }

  /** Every key stays, for the same action; one that did not expire yet may have started to. */
  ghost predicate OnlyExpire(before: map<string, Entry>, after: map<string, Entry>, at: int) {
    && after.Keys == before.Keys
    && forall key :: key in before ==>
         || after[key] == before[key]
         || (before[key].expires.None? && after[key] == before[key].(expires := Some(at)))
  }

  lemma NoneExpire(cache: map<string, Entry>, at: int)
    ensures OnlyExpire(cache, cache, at)
  {
  }

  lemma MoreExpire(a: map<string, Entry>, b: map<string, Entry>, c: map<string, Entry>, at: int)
    requires OnlyExpire(a, b, at) && OnlyExpire(b, c, at)
    ensures OnlyExpire(a, c, at)
  {
  }

  lemma UnsettledIsKept(queues: Queues, limit: nat, b: Books, agent: string, k: nat)
    requires Fits(queues, limit, b) && agent in queues && k < |queues[agent]| && !queues[agent][k].started
    ensures queues[agent][k].key in b.cache && b.cache[queues[agent][k].key].expires.None?
  {
    hide Accounted;
    assert ItemFits(queues[agent][k], agent, b);
  }

  /** Apart from these agents, only the actions that run are left, each at the head of its queue. */
  ghost predicate HeadsRemain(before: Queues, after: Queues, untouched: set<string>) {
    forall agent :: agent in after ==>
      && agent in before && before[agent] != []
      && if agent in untouched then after[agent] == before[agent]
         else after[agent] == [before[agent][0]] && before[agent][0].started
  }

  lemma AllRemain(queues: Queues, limit: nat, b: Books)
    requires Fits(queues, limit, b)
    ensures HeadsRemain(queues, queues, queues.Keys) && OnlyShutDown(b.outcomes, b.outcomes)
  {
    hide ItemFits;
  }

  lemma HeadRemains(before: Queues, a: Queues, b: Queues, agents: set<string>, agent: string)
    requires HeadsRemain(before, a, agents) && agent in agents && agent in a && a[agent] != []
    requires b == a - {agent} || (b == a[agent := [a[agent][0]]] && a[agent][0].started)
    ensures HeadsRemain(before, b, agents - {agent})
  {
  }

  lemma QueueIsThere(queues: Queues, limit: nat, b: Books, agent: string)
    requires Fits(queues, limit, b) && agent in queues
    ensures queues[agent] != [] && forall i :: 0 < i < |queues[agent]| ==> !queues[agent][i].started
  {
  }

  lemma OnlyRunning(before: Queues, queues: Queues, limit: nat, b: Books)
    requires Fits(queues, limit, b) && HeadsRemain(before, queues, {})
    ensures forall t :: t in b.owners && t !in b.outcomes ==> t in b.active
  {
    forall t | t in b.owners && t !in b.outcomes ensures t in b.active {
      assert In(QueueOf(queues, b.owners[t]), t);
      assert ItemFits(queues[b.owners[t]][0], b.owners[t], b);
    }
  }
}
