/** Listing agents: their order under every choice of sort and direction, pages that are followed by cursor, and
    the counts beside them. */
module Listing {
  import opened Common
  import Texts

  datatype Status = Blocked | Working | Idle | Unknown | Finished | Error | Other(name: string)

  /** When an agent was last active: the instant its text denotes, if it denotes one. */
  datatype Activity = Activity(ms: Option<int>, text: string)

  /** `activity` is the time of the last activity; `recency` falls back to that of the last update. */
  datatype Agent = Agent(
    id: string, status: Status, hasAction: bool, active: bool, activity: Activity, recency: Activity,
    name: string, provider: string, shown: bool, matchesText: bool)

  // ----- the order by attention

  function Rank(s: Status): nat {
    match s
    case Blocked => 0
    case Working => 1
    case Idle => 2
    case Unknown => 3
    case Finished => 4
    case Error => 5
    case Other(_) => 6
  }

  function Sign(b: bool): int { if b then 1 else 0 }

  function CompareText(a: string, b: string): int {
    if Texts.Before(a, b) then -1 else if Texts.Before(b, a) then 1 else 0
  }

  /** The more recent first; a text that is no date comes after every date. */
  function CompareActivity(a: Activity, b: Activity): int {
    if a.ms.Some? && b.ms.Some? then
      if a.ms.value < b.ms.value then 1 else if a.ms.value > b.ms.value then -1 else 0
    else if a.ms.Some? then -1
    else if b.ms.Some? then 1
    else CompareText(b.text, a.text)
  }

  function CompareAgents(a: Agent, b: Agent): int {
    var status := Rank(a.status) - Rank(b.status);
    var action := Sign(b.hasAction) - Sign(a.hasAction);
    var visibility := Sign(!a.active) - Sign(!b.active);
    var activity := CompareActivity(a.activity, b.activity);
    if status != 0 then status
    else if action != 0 then action
    else if visibility != 0 then visibility
    else if activity != 0 then activity
    else CompareText(a.id, b.id)
  }

  lemma TextOrder(a: string, b: string, c: string)
    ensures CompareText(a, b) == -CompareText(b, a)
    ensures CompareText(a, b) == 0 <==> a == b
    ensures CompareText(a, b) <= 0 && CompareText(b, c) <= 0 ==> CompareText(a, c) <= 0
    ensures CompareText(a, b) <= 0 && CompareText(b, c) <= 0 && (CompareText(a, b) < 0 || CompareText(b, c) < 0) ==>
              CompareText(a, c) < 0
  {
    hide Texts.Before;
    Texts.OneOrTheOther(a, b);
    Texts.OneOrTheOther(b, c);
    Texts.OneOrTheOther(a, c);
    if Texts.Before(a, b) && Texts.Before(b, c) { Texts.BeforeChains(a, b, c); }
    Texts.NotBeforeItself(a);
  }

  lemma ActivityOrder(a: Activity, b: Activity, c: Activity)
    ensures CompareActivity(a, b) == -CompareActivity(b, a)
    ensures CompareActivity(a, b) <= 0 && CompareActivity(b, c) <= 0 ==> CompareActivity(a, c) <= 0
    ensures CompareActivity(a, b) < 0 && CompareActivity(b, c) <= 0 ==> CompareActivity(a, c) < 0
    ensures CompareActivity(a, b) <= 0 && CompareActivity(b, c) < 0 ==> CompareActivity(a, c) < 0
  {
    hide CompareText;
    TextOrder(b.text, a.text, a.text);
    TextOrder(c.text, b.text, a.text);
  }

  /** `compareAgents` is a strict total order on agents with different ids. */
  lemma AttentionIsATotalOrder(a: Agent, b: Agent, c: Agent)
    ensures CompareAgents(a, b) < 0 <==> CompareAgents(b, a) > 0
    ensures CompareAgents(a, b) == 0 ==> a.id == b.id
    ensures CompareAgents(a, a) == 0
    ensures CompareAgents(a, b) <= 0 && CompareAgents(b, c) <= 0 ==> CompareAgents(a, c) <= 0
    ensures CompareAgents(a, b) < 0 && CompareAgents(b, c) < 0 ==> CompareAgents(a, c) < 0
  {
    hide CompareText, CompareActivity, Rank;
    TextOrder(a.id, b.id, c.id);
    TextOrder(a.id, a.id, a.id);
    ActivityOrder(a.activity, b.activity, c.activity);
    ActivityOrder(a.activity, a.activity, a.activity);
  }

  // ----- the order a client asks for

  datatype SortBy = Attention | LastActivity | Name | Provider | StatusName

  /** A filter: which agents match is decided by the view, the text searched for, the providers and the
      statuses; an empty list of providers or statuses selects all. It carries the order asked for. */
  datatype Filter = Filter(providers: seq<string>, statuses: seq<Status>, sort: SortBy, descending: bool)

  /** How texts are normalised before they are compared. */
  type Fold = string -> string

  function NameOf(s: Status): string {
    match s
    case Blocked => "blocked"
    case Working => "working"
    case Idle => "idle"
    case Unknown => "unknown"
    case Finished => "done"
    case Error => "error"
    case Other(name) => name
  }

  /** The earlier first; a text that is no date comes before every date. */
  function CompareTimestamp(a: Activity, b: Activity, fold: Fold): int {
    if a.ms.Some? && b.ms.Some? then
      if a.ms.value < b.ms.value then -1 else if a.ms.value > b.ms.value then 1 else 0
    else if a.ms.Some? then 1
    else if b.ms.Some? then -1
    else CompareText(fold(a.text), fold(b.text))
  }

  function CompareField(sort: SortBy, a: Agent, b: Agent, fold: Fold): int {
    match sort
    case Attention => CompareAgents(a, b)
    case LastActivity => CompareTimestamp(a.recency, b.recency, fold)
    case Name => CompareText(fold(a.name), fold(b.name))
    case Provider => CompareText(fold(a.provider), fold(b.provider))
    case StatusName => CompareText(fold(NameOf(a.status)), fold(NameOf(b.status)))
  }

  function Compare(f: Filter, fold: Fold, a: Agent, b: Agent): int {
    var field := CompareField(f.sort, a, b, fold);
    var directed := if f.descending then -field else field;
    if f.sort.Attention? || field != 0 then directed else CompareText(fold(a.id), fold(b.id))
  }

  lemma TimestampOrder(a: Activity, b: Activity, c: Activity, fold: Fold)
    ensures CompareTimestamp(a, b, fold) == -CompareTimestamp(b, a, fold)
    ensures CompareTimestamp(a, b, fold) <= 0 && CompareTimestamp(b, c, fold) <= 0 ==> CompareTimestamp(a, c, fold) <= 0
    ensures CompareTimestamp(a, b, fold) == 0 && CompareTimestamp(b, c, fold) == 0 ==> CompareTimestamp(a, c, fold) == 0
  {
    hide CompareText;
    TextOrder(fold(a.text), fold(b.text), fold(c.text));
    TextOrder(fold(c.text), fold(b.text), fold(a.text));
  }

  lemma FieldOrder(sort: SortBy, a: Agent, b: Agent, c: Agent, fold: Fold)
    ensures CompareField(sort, a, b, fold) < 0 <==> CompareField(sort, b, a, fold) > 0
    ensures CompareField(sort, a, b, fold) <= 0 && CompareField(sort, b, c, fold) <= 0 ==>
              CompareField(sort, a, c, fold) <= 0
  {
    hide CompareText, CompareTimestamp, CompareAgents, NameOf;
    match sort
    case Attention => AttentionIsATotalOrder(a, b, c);
    case LastActivity => TimestampOrder(a.recency, b.recency, c.recency, fold);
    case Name => TextOrder(fold(a.name), fold(b.name), fold(c.name));
    case Provider => TextOrder(fold(a.provider), fold(b.provider), fold(c.provider));
    case StatusName => TextOrder(fold(NameOf(a.status)), fold(NameOf(b.status)), fold(NameOf(c.status)));
  }

  /** Every order is total up to ties, and two agents tie only if their ids do not differ once normalised. */
  lemma CompareIsAnOrder(f: Filter, fold: Fold, a: Agent, b: Agent, c: Agent)
    ensures Compare(f, fold, a, b) < 0 <==> Compare(f, fold, b, a) > 0
    ensures Compare(f, fold, a, b) <= 0 && Compare(f, fold, b, c) <= 0 ==> Compare(f, fold, a, c) <= 0
    ensures Compare(f, fold, a, b) == 0 ==> if f.sort.Attention? then a.id == b.id else fold(a.id) == fold(b.id)
  {
    if f.sort.Attention? {
      AttentionIsATotalOrder(a, b, c);
      assert CompareField(f.sort, a, b, fold) == 0 ==> a.id == b.id;
    }
    hide CompareText, CompareField;
    FieldOrder(f.sort, a, b, c, fold);
    FieldOrder(f.sort, b, c, a, fold);
    FieldOrder(f.sort, c, a, b, fold);
    FieldOrder(f.sort, c, b, a, fold);
    FieldOrder(f.sort, b, a, c, fold);
    FieldOrder(f.sort, a, c, b, fold);
    TextOrder(fold(a.id), fold(b.id), fold(c.id));
  }

  // ----- sorting

  function Insert(f: Filter, fold: Fold, a: Agent, sorted: seq<Agent>): seq<Agent> {
    if sorted == [] || Compare(f, fold, a, sorted[0]) <= 0 then [a] + sorted
    else [sorted[0]] + Insert(f, fold, a, sorted[1..])
  }

  /** The stable sort of a list. */
  function Sort(f: Filter, fold: Fold, agents: seq<Agent>): seq<Agent> {
    if agents == [] then [] else Insert(f, fold, agents[0], Sort(f, fold, agents[1..]))
  }

  ghost predicate Sorted(f: Filter, fold: Fold, agents: seq<Agent>) {
    forall i, j :: 0 <= i < j < |agents| ==> Compare(f, fold, agents[i], agents[j]) <= 0
  }

  /** Those that tie with an agent, in their order. */
  function Ties(f: Filter, fold: Fold, x: Agent, agents: seq<Agent>): seq<Agent> {
    if agents == [] then []
    else (if Compare(f, fold, agents[0], x) == 0 then [agents[0]] else []) + Ties(f, fold, x, agents[1..])
  }

  lemma SortedWith(f: Filter, fold: Fold, a: Agent, sorted: seq<Agent>)
    requires Sorted(f, fold, sorted) && forall i :: 0 <= i < |sorted| ==> Compare(f, fold, a, sorted[i]) <= 0
    ensures Sorted(f, fold, [a] + sorted)
  {
    hide Compare;
    var all := [a] + sorted;
    forall i, j | 0 <= i < j < |all| ensures Compare(f, fold, all[i], all[j]) <= 0 {
      assert all[j] == sorted[j - 1];
      assert i > 0 ==> all[i] == sorted[i - 1];
    }
  }

  lemma SortedRest(f: Filter, fold: Fold, agents: seq<Agent>)
    requires Sorted(f, fold, agents) && agents != []
    ensures Sorted(f, fold, agents[1..]) && multiset(agents[1..]) == multiset(agents) - multiset{agents[0]}
  {
    hide Compare;
    assert agents == [agents[0]] + agents[1..];
    forall i, j | 0 <= i < j < |agents[1..]| ensures Compare(f, fold, agents[1..][i], agents[1..][j]) <= 0 {
      assert Compare(f, fold, agents[i + 1], agents[j + 1]) <= 0;
    }
  }

  lemma {:induction false} InsertSorts(f: Filter, fold: Fold, a: Agent, sorted: seq<Agent>)
    requires Sorted(f, fold, sorted)
    ensures Sorted(f, fold, Insert(f, fold, a, sorted))
    ensures multiset(Insert(f, fold, a, sorted)) == multiset(sorted) + multiset{a}
  {
    hide Compare;
    if sorted == [] {
    } else {
      var first, others := sorted[0], sorted[1..];
      assert sorted == [first] + others;
      CompareIsAnOrder(f, fold, a, first, a);
      if Compare(f, fold, a, first) <= 0 {
        forall j | 0 <= j < |sorted| ensures Compare(f, fold, a, sorted[j]) <= 0 {
          CompareIsAnOrder(f, fold, a, first, sorted[j]);
          assert j > 0 ==> Compare(f, fold, sorted[0], sorted[j]) <= 0;
        }
        SortedWith(f, fold, a, sorted);
      } else {
        SortedRest(f, fold, sorted);
        InsertSorts(f, fold, a, others);
        CompareIsAnOrder(f, fold, first, a, first);
        FirstStays(f, fold, sorted, a, Insert(f, fold, a, others));
      }
    }
  }

  lemma FirstStays(f: Filter, fold: Fold, sorted: seq<Agent>, a: Agent, rest: seq<Agent>)
    requires sorted != [] && Sorted(f, fold, sorted) && Sorted(f, fold, rest)
    requires multiset(rest) == multiset(sorted[1..]) + multiset{a} && Compare(f, fold, sorted[0], a) <= 0
    ensures Sorted(f, fold, [sorted[0]] + rest) && multiset([sorted[0]] + rest) == multiset(sorted) + multiset{a}
  {
    hide Compare;
    assert sorted == [sorted[0]] + sorted[1..];
    forall j | 0 <= j < |rest| ensures Compare(f, fold, sorted[0], rest[j]) <= 0 {
      assert rest[j] in multiset(rest);
      if rest[j] != a {
        assert rest[j] in sorted[1..];
        var k :| 0 <= k < |sorted[1..]| && sorted[1..][k] == rest[j];
        assert Compare(f, fold, sorted[0], sorted[k + 1]) <= 0;
      }
    }
    SortedWith(f, fold, sorted[0], rest);
  }

  lemma {:induction false} InsertKeepsTies(f: Filter, fold: Fold, a: Agent, sorted: seq<Agent>, x: Agent)
    ensures Ties(f, fold, x, Insert(f, fold, a, sorted))
            == (if Compare(f, fold, a, x) == 0 then [a] else []) + Ties(f, fold, x, sorted)
  {
    hide Compare;
    if sorted == [] || Compare(f, fold, a, sorted[0]) <= 0 {
      assert ([a] + sorted)[0] == a && ([a] + sorted)[1..] == sorted;
    } else {
      var first, rest := sorted[0], Insert(f, fold, a, sorted[1..]);
      InsertKeepsTies(f, fold, a, sorted[1..], x);
      assert ([first] + rest)[0] == first && ([first] + rest)[1..] == rest;
      CompareIsAnOrder(f, fold, first, x, first);
      CompareIsAnOrder(f, fold, a, x, first);
    }
  }

  /** The sorted list is in order, has the same agents, and keeps those that tie in the order they came. */
  lemma {:induction false} SortSorts(f: Filter, fold: Fold, agents: seq<Agent>, x: Agent)
    ensures Sorted(f, fold, Sort(f, fold, agents)) && multiset(Sort(f, fold, agents)) == multiset(agents)
    ensures Ties(f, fold, x, Sort(f, fold, agents)) == Ties(f, fold, x, agents)
  {
    hide Compare;
    if agents == [] {
    } else {
      SortSorts(f, fold, agents[1..], x);
      assert agents == [agents[0]] + agents[1..];
      InsertSorts(f, fold, agents[0], Sort(f, fold, agents[1..]));
      InsertKeepsTies(f, fold, agents[0], Sort(f, fold, agents[1..]), x);
    }
  }

  lemma HeadIsLeast(f: Filter, fold: Fold, agents: seq<Agent>, x: Agent)
    requires Sorted(f, fold, agents) && x in agents
    ensures x == agents[0] || Compare(f, fold, agents[0], x) <= 0
  {
    hide Compare;
    var i :| 0 <= i < |agents| && agents[i] == x;
    assert i > 0 ==> Compare(f, fold, agents[0], agents[i]) <= 0;
  }

  /** No two different agents tie. */
  ghost predicate Separate(f: Filter, fold: Fold, agents: seq<Agent>) {
    forall x, y :: x in agents && y in agents && Compare(f, fold, x, y) == 0 ==> x == y
  }

  lemma {:induction false} SortedIsUnique(f: Filter, fold: Fold, a: seq<Agent>, b: seq<Agent>)
    requires Sorted(f, fold, a) && Sorted(f, fold, b) && multiset(a) == multiset(b) && Separate(f, fold, a)
    ensures a == b
    decreases |a|
  {
    hide Compare, Sorted;
    assert |a| == |multiset(a)| == |multiset(b)| == |b|;
    if a != [] {
      assert a[0] in multiset(b) && b[0] in multiset(a);
      HeadIsLeast(f, fold, a, b[0]);
      HeadIsLeast(f, fold, b, a[0]);
      CompareIsAnOrder(f, fold, a[0], b[0], a[0]);
      SortedRest(f, fold, a);
      SortedRest(f, fold, b);
      assert a == [a[0]] + a[1..] && b == [b[0]] + b[1..];
      SortedIsUnique(f, fold, a[1..], b[1..]);
    }
  }

  /** The listing does not depend on the order in which agents were discovered, if none of them tie. */
  lemma ListingIsCanonical(f: Filter, fold: Fold, a: seq<Agent>, b: seq<Agent>)
    requires Separate(f, fold, a) && multiset(a) == multiset(b)
    ensures Sort(f, fold, a) == Sort(f, fold, b)
  {
    hide Compare, Sorted;
    if a != [] {
      SortSorts(f, fold, a, a[0]);
      SortSorts(f, fold, b, a[0]);
      forall x ensures x in Sort(f, fold, a) <==> x in a {
        assert x in multiset(Sort(f, fold, a)) <==> x in multiset(a);
      }
      SortedIsUnique(f, fold, Sort(f, fold, a), Sort(f, fold, b));
    } else {
      assert |multiset(b)| == |b|;
    }
  }

  /** By attention different ids are enough, as the registry keeps them; so its own listing is canonical. The other
      orders compare normalised ids in the end, and need those to differ. */
  lemma DifferentIdsSeparate(f: Filter, fold: Fold, agents: seq<Agent>)
    requires forall i, j :: 0 <= i < |agents| && 0 <= j < |agents|
                            && (if f.sort.Attention? then agents[i].id == agents[j].id
                                else fold(agents[i].id) == fold(agents[j].id))
                            ==> i == j
    ensures Separate(f, fold, agents)
  {
    hide Compare;
    forall x, y | x in agents && y in agents && Compare(f, fold, x, y) == 0 ensures x == y {
      CompareIsAnOrder(f, fold, x, y, x);
      var i :| 0 <= i < |agents| && agents[i] == x;
      var j :| 0 <= j < |agents| && agents[j] == y;
    }
  }

  /** Two agents that tie are listed in the order they came in, and only those. */
  lemma TiesFollowTheOrder(f: Filter, fold: Fold, a: Agent, b: Agent)
    requires a != b
    ensures Sort(f, fold, [a, b]) == Sort(f, fold, [b, a]) <==> Compare(f, fold, a, b) != 0
  {
    hide Compare;
    SortOfTwo(f, fold, a, b);
    SortOfTwo(f, fold, b, a);
    CompareIsAnOrder(f, fold, a, b, a);
    CompareIsAnOrder(f, fold, b, a, b);
    assert [a, b][0] != [b, a][0];
  }

  lemma SortOfTwo(f: Filter, fold: Fold, a: Agent, b: Agent)
    ensures Sort(f, fold, [a, b]) == if Compare(f, fold, a, b) <= 0 then [a, b] else [b, a]
  {
    hide Compare;
    assert [a, b][1..] == [b] && [b][1..] == [];
    assert Sort(f, fold, []) == [] && Insert(f, fold, b, []) == [b] + [] == [b];
    assert Sort(f, fold, [b]) == [b];
    assert Insert(f, fold, a, []) == [a] + [] == [a];
    assert Insert(f, fold, a, [b]) == if Compare(f, fold, a, b) <= 0 then [a] + [b] else [b] + [a];
  }

  // ----- one page

  predicate Matches(a: Agent, f: Filter) {
    && a.shown && (f.providers == [] || a.provider in f.providers) && (f.statuses == [] || a.status in f.statuses)
    && a.matchesText
  }

  function Filtered(agents: seq<Agent>, f: Filter): seq<Agent> {
    if agents == [] then []
    else (if Matches(agents[0], f) then [agents[0]] else []) + Filtered(agents[1..], f)
  }

  datatype Cursor = Garbled | Cursor(offset: int, revision: nat, filter: Filter)

  datatype Query = Query(limit: nat, offset: nat, filter: Filter)

  datatype Page = Page(agents: seq<Agent>, total: nat, next: Option<Cursor>)

  const MAX_PAGE_LIMIT := 200

  function DecodeCursor(c: Cursor, revision: nat, f: Filter): Result<nat, string> {
    match c
    case Garbled => Err("invalid_cursor")
    case Cursor(offset, of, filter) =>
      if offset < 0 then Err("invalid_cursor")
      else if of != revision then Err("stale_cursor")
      else if filter != f then Err("invalid_cursor")
      else Ok(offset)
  }

  function ParseQuery(limit: int, cursor: Option<Cursor>, f: Filter, revision: nat): Result<Query, string> {
    if limit < 1 || limit > MAX_PAGE_LIMIT then Err("invalid_limit")
    else
      match (if cursor.Some? then DecodeCursor(cursor.value, revision, f) else Ok(0))
      case Err(e) => Err(e)
      case Ok(offset) => Ok(Query(limit, offset, f))
  }

  function PageAgents(agents: seq<Agent>, fold: Fold, q: Query, revision: nat): Result<Page, string> {
    var filtered := Sort(q.filter, fold, Filtered(agents, q.filter));
    if q.offset > |filtered| then Err("invalid_cursor")
    else
      var end := if q.offset + q.limit < |filtered| then q.offset + q.limit else |filtered|;
      var next := if end < |filtered| then Some(Cursor(end, revision, q.filter)) else None;
      Ok(Page(filtered[q.offset..end], |filtered|, next))
  }

  /** A client at one revision: asks for a page, then for the page its cursor leads to, until there is none. */
  method FollowCursors(agents: seq<Agent>, fold: Fold, f: Filter, limit: int, revision: nat)
    returns (all: seq<Agent>, pages: nat)
    requires 1 <= limit <= MAX_PAGE_LIMIT
    ensures all == Sort(f, fold, Filtered(agents, f))
    ensures (pages - 1) * limit <= |all| <= pages * limit && pages >= 1
  {
    hide Sort, Filtered;
    ghost var sorted := Sort(f, fold, Filtered(agents, f));
    all, pages := [], 0;
    var cursor: Option<Cursor> := None;
    while true
      invariant |all| <= |sorted| && all == sorted[..|all|] && |all| == pages * limit
      invariant if pages == 0 then cursor.None? else cursor == Some(Cursor(|all|, revision, f)) && |all| < |sorted|
      decreases |sorted| - |all|, 1 - pages
    {
      var query := ParseQuery(limit, cursor, f, revision);
      var page := PageAgents(agents, fold, query.value, revision);
      all, pages := all + page.value.agents, pages + 1;
      if page.value.next.None? { break; }
      cursor := page.value.next;
    }
  }

  /** The cursor that a page ends with leads on: with the same filter and at the same revision to the agents that
      follow, of the same list, whatever limit is asked for now; at any other revision it is stale, and with any
      other filter it is refused. There is one exactly when agents are left. */
  lemma NextCursorLeadsOn(agents: seq<Agent>, fold: Fold, q: Query, revision: nat, limit: int, f: Filter, later: nat)
    requires PageAgents(agents, fold, q, revision).Ok? && 1 <= limit <= MAX_PAGE_LIMIT
    ensures var page := PageAgents(agents, fold, q, revision).value;
            && (page.next.Some? <==> q.offset + |page.agents| < page.total)
            && (page.next.Some? ==>
                  var query := ParseQuery(limit, page.next, f, later);
                  if later != revision then query == Err("stale_cursor")
                  else if f != q.filter then query == Err("invalid_cursor")
                  else
                    && query.Ok? && PageAgents(agents, fold, query.value, later).Ok?
                    && var more := PageAgents(agents, fold, query.value, later).value;
                    && more.total == page.total && more.agents != []
                    && Sort(f, fold, Filtered(agents, f))[q.offset..q.offset + |page.agents| + |more.agents|]
                       == page.agents + more.agents)
  {
    hide Sort, Filtered;
  }

  // ----- the counts beside a page

  function CountOf<T(==)>(values: seq<T>, value: T): nat {
    if values == [] then 0 else (if values[0] == value then 1 else 0) + CountOf(values[1..], value)
  }

  /** `counts`: the values that occur, each with the number of times it does. */
  method Counts<T(==)>(values: seq<T>) returns (counts: map<T, nat>)
    ensures forall v :: v in counts <==> v in values
    ensures forall v :: v in counts ==> counts[v] == CountOf(values, v)
  {
    counts := map[];
    var i := 0;
    while i < |values|
      invariant i <= |values| && forall v :: v in counts <==> v in values[..i]
      invariant forall v :: v in counts ==> counts[v] == CountOf(values[..i], v)
      invariant forall v :: v !in counts ==> CountOf(values[..i], v) == 0
    {
      forall v ensures CountOf(values[..i + 1], v) == CountOf(values[..i], v) + if values[i] == v then 1 else 0 {
        CountNext(values, i, v);
      }
      counts := counts[values[i] := (if values[i] in counts then counts[values[i]] else 0) + 1];
      i := i + 1;
    }
    assert values[..i] == values;
  }

  lemma {:induction false} CountNext<T>(values: seq<T>, i: nat, v: T)
    requires i < |values|
    ensures CountOf(values[..i + 1], v) == CountOf(values[..i], v) + if values[i] == v then 1 else 0
  {
    if i == 0 {
      assert values[..1][1..] == [];
    } else {
      CountNext(values[1..], i - 1, v);
      assert values[..i + 1][1..] == values[1..][..i] && values[..i][1..] == values[1..][..i - 1];
    }
  }

  function Statuses(agents: seq<Agent>): seq<Status> {
    if agents == [] then [] else [agents[0].status] + Statuses(agents[1..])
  }

  function Providers(agents: seq<Agent>): seq<string> {
    if agents == [] then [] else [agents[0].provider] + Providers(agents[1..])
  }

  function Total<T(==)>(values: seq<T>, selected: seq<T>): nat {
    if selected == [] then 0 else CountOf(values, selected[0]) + Total(values, selected[1..])
  }

  ghost predicate Once<T>(selected: seq<T>) {
    forall i, j :: 0 <= i < j < |selected| ==> selected[i] != selected[j]
  }

  lemma {:induction false} TotalWith<T>(value: T, values: seq<T>, selected: seq<T>)
    requires Once(selected)
    ensures Total([value] + values, selected) == Total(values, selected) + if value in selected then 1 else 0
  {
    assert ([value] + values)[1..] == values;
    if selected != [] {
      TotalWith(value, values, selected[1..]);
      assert selected == [selected[0]] + selected[1..];
    }
  }

  lemma {:induction false} NoneCounted<T>(selected: seq<T>)
    ensures Total([], selected) == 0
  {
    if selected != [] {
      NoneCounted(selected[1..]);
    }
  }

  /** With statuses selected, their counts beside the page add up to the total of the page. */
  lemma {:induction false} CountsAddUp(agents: seq<Agent>, f: Filter)
    requires f.statuses != [] && Once(f.statuses)
    ensures Total(Statuses(Filtered(agents, f.(statuses := []))), f.statuses) == |Filtered(agents, f)|
  {
    if agents == [] {
      NoneCounted(f.statuses);
    } else {
      CountsAddUp(agents[1..], f);
      var rest := Filtered(agents[1..], f.(statuses := []));
      if Matches(agents[0], f.(statuses := [])) {
        assert ([agents[0]] + rest)[1..] == rest;
        TotalWith(agents[0].status, Statuses(rest), f.statuses);
      } else {
        assert [] + rest == rest;
      }
    }
  }

  /** And so with providers. */
  lemma {:induction false} ProviderCountsAddUp(agents: seq<Agent>, f: Filter)
    requires f.providers != [] && Once(f.providers)
    ensures Total(Providers(Filtered(agents, f.(providers := []))), f.providers) == |Filtered(agents, f)|
  {
    if agents == [] {
      NoneCounted(f.providers);
    } else {
      ProviderCountsAddUp(agents[1..], f);
      var rest := Filtered(agents[1..], f.(providers := []));
      if Matches(agents[0], f.(providers := [])) {
        assert ([agents[0]] + rest)[1..] == rest;
        TotalWith(agents[0].provider, Providers(rest), f.providers);
      } else {
        assert [] + rest == rest;
      }
    }
  }
}
