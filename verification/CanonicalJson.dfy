/** The canonical form of a JSON record: its lexemes with the keys of every object in order. */
module CanonicalJson {
  import opened Common
  import Texts

  /** A parsed JSON value; a number is its own text, and the keys of an object are distinct. */
  datatype Json =
    | Null | Boolean(b: bool) | Number(text: string) | Text(s: string)
    | List(items: seq<Json>) | Record(members: seq<Member>)
  datatype Member = Member(key: string, value: Json)

  datatype Lexeme = Atom(value: Json) | OpenList | CloseList | OpenRecord | CloseRecord | Comma | Key(key: string)

  ghost predicate DistinctKeys(members: seq<Member>) {
    forall i, j :: 0 <= i < j < |members| ==> members[i].key != members[j].key
  }

  /** As JSON writes numbers. */
  predicate NumberText(text: string) {
    text != [] && forall i | 0 <= i < |text| :: NumberChar(text[i])
  }

  predicate NumberChar(c: char) {
    '0' <= c <= '9' || c in "+-.eE"
  }

  ghost predicate Wellformed(v: Json) {
    match v
    case Number(text) => NumberText(text)
    case List(items) => forall i :: 0 <= i < |items| ==> Wellformed(items[i])
    case Record(members) => DistinctKeys(members) && forall i :: 0 <= i < |members| ==> Wellformed(members[i].value)
    case _ => true
  }

  // ----- how many nodes a value has

  function Nodes(v: Json): nat {
    match v
    case List(items) => 1 + NodesOfItems(items)
    case Record(members) => 1 + NodesOfMembers(members)
    case _ => 1
  }

  function NodesOfItems(items: seq<Json>): nat {
    if items == [] then 0 else Nodes(items[0]) + NodesOfItems(items[1..])
  }

  function NodesOfMembers(members: seq<Member>): nat {
    if members == [] then 0 else Nodes(members[0].value) + NodesOfMembers(members[1..])
  }

  // ----- the canonical form

  function Insert(m: Member, sorted: seq<Member>): (r: seq<Member>)
    ensures NodesOfMembers(r) == Nodes(m.value) + NodesOfMembers(sorted)
    ensures |r| == |sorted| + 1 && multiset(r) == multiset(sorted) + multiset{m}
  {
    if sorted == [] || Texts.Before(m.key, sorted[0].key) then
      assert ([m] + sorted)[1..] == sorted;
      [m] + sorted
    else
      var rest := Insert(m, sorted[1..]);
      assert ([sorted[0]] + rest)[1..] == rest;
      assert sorted == [sorted[0]] + sorted[1..];
      [sorted[0]] + rest
  }

  function InOrder(members: seq<Member>): (r: seq<Member>)
    ensures NodesOfMembers(r) == NodesOfMembers(members) && |r| == |members| && multiset(r) == multiset(members)
  {
    if members == [] then []
    else
      assert members == [members[0]] + members[1..];
      Insert(members[0], InOrder(members[1..]))
  }

  function Lexemes(v: Json): seq<Lexeme>
    decreases Nodes(v), 0, 0
  {
    match v
    case List(items) => [OpenList] + ListLexemes(items, true) + [CloseList]
    case Record(members) => [OpenRecord] + RecordLexemes(InOrder(members), true) + [CloseRecord]
    case _ => [Atom(v)]
  }

  function Separator(first: bool): seq<Lexeme> {
    if first then [] else [Comma]
  }

  function ListLexemes(items: seq<Json>, first: bool): seq<Lexeme>
    decreases NodesOfItems(items), 1, |items|
  {
    if items == [] then [] else Separator(first) + (Lexemes(items[0]) + ListLexemes(items[1..], false))
  }

  function RecordLexemes(members: seq<Member>, first: bool): seq<Lexeme>
    decreases NodesOfMembers(members), 1, |members|
  {
    if members == [] then []
    else Separator(first) + ([Key(members[0].key)] + (Lexemes(members[0].value) + RecordLexemes(members[1..], false)))
  }

  /** `canonicalJson`: nothing when there are too many nodes. */
  function Canonical(v: Json, maxNodes: nat): Option<seq<Lexeme>> {
    if Nodes(v) > maxNodes then None else Some(Lexemes(v))
  }

  // ----- equality up to the order of keys

  ghost predicate Same(a: Json, b: Json)
    decreases a, 1
  {
    match a
    case List(items) =>
      b.List? && |items| == |b.items| && forall i :: 0 <= i < |items| ==> Same(items[i], b.items[i])
    case Record(members) =>
      b.Record? && |members| == |b.members| && forall i :: 0 <= i < |members| ==> Counterpart(members[i], b.members)
    case _ => a == b
  }

  /** A member with the same key and the same value. */
  ghost predicate Counterpart(m: Member, members: seq<Member>)
    decreases m, 0
  {
    exists j :: 0 <= j < |members| && m.key == members[j].key && Same(m.value, members[j].value)
  }

  // ----- different values have different forms, whatever follows them

  predicate Closing(l: Lexeme) {
    l.CloseList? || l.CloseRecord?
  }

  lemma NeverCloses(v: Json)
    ensures Lexemes(v) != [] && !Closing(Lexemes(v)[0]) && !Lexemes(v)[0].Comma?
  {
  }

  /** What a value's form is made of, up to what follows it. */
  lemma ItemsUnfold(items: seq<Json>, first: bool, x: seq<Lexeme>)
    requires items != []
    ensures ListLexemes(items, first) + x
            == Separator(first) + (Lexemes(items[0]) + (ListLexemes(items[1..], false) + x))
  {
  }

  lemma MembersUnfold(members: seq<Member>, first: bool, x: seq<Lexeme>)
    requires members != []
    ensures RecordLexemes(members, first) + x
            == Separator(first)
            + ([Key(members[0].key)] + (Lexemes(members[0].value) + (RecordLexemes(members[1..], false) + x)))
  {
  }

  lemma DropFirst(a: Lexeme, x: seq<Lexeme>, b: Lexeme, y: seq<Lexeme>)
    requires [a] + x == [b] + y
    ensures a == b && x == y
  {
    assert ([a] + x)[0] == a && ([b] + y)[0] == b;
    assert x == ([a] + x)[1..] && y == ([b] + y)[1..];
  }

  /** A bracketed form and what follows it, opened. */
  lemma Opened(start: Lexeme, inner: seq<Lexeme>, end: Lexeme, x: seq<Lexeme>)
    ensures ([start] + inner + [end]) + x == [start] + (inner + ([end] + x))
  {
    Regroup([start] + inner, [end], x);
    Regroup([start], inner, [end] + x);
  }

  lemma Regroup<T>(a: seq<T>, b: seq<T>, c: seq<T>)
    ensures (a + b) + c == a + (b + c)
  {
  }

  lemma ListOpens(items: seq<Json>, others: seq<Json>, x: seq<Lexeme>, y: seq<Lexeme>)
    requires Lexemes(List(items)) + x == Lexemes(List(others)) + y
    ensures ListLexemes(items, true) + ([CloseList] + x) == ListLexemes(others, true) + ([CloseList] + y)
  {
    var p, q := ListLexemes(items, true), ListLexemes(others, true);
    assert Lexemes(List(items)) == [OpenList] + p + [CloseList];
    assert Lexemes(List(others)) == [OpenList] + q + [CloseList];
    hide ListLexemes, Lexemes;
    Opened(OpenList, p, CloseList, x);
    Opened(OpenList, q, CloseList, y);
    DropFirst(OpenList, p + ([CloseList] + x), OpenList, q + ([CloseList] + y));
  }

  lemma RecordOpens(members: seq<Member>, others: seq<Member>, x: seq<Lexeme>, y: seq<Lexeme>)
    requires Lexemes(Record(members)) + x == Lexemes(Record(others)) + y
    ensures RecordLexemes(InOrder(members), true) + ([CloseRecord] + x)
            == RecordLexemes(InOrder(others), true) + ([CloseRecord] + y)
  {
    var p, q := RecordLexemes(InOrder(members), true), RecordLexemes(InOrder(others), true);
    assert Lexemes(Record(members)) == [OpenRecord] + p + [CloseRecord];
    assert Lexemes(Record(others)) == [OpenRecord] + q + [CloseRecord];
    hide RecordLexemes, InOrder, Lexemes;
    Opened(OpenRecord, p, CloseRecord, x);
    Opened(OpenRecord, q, CloseRecord, y);
    DropFirst(OpenRecord, p + ([CloseRecord] + x), OpenRecord, q + ([CloseRecord] + y));
  }

  lemma SameKind(a: Json, b: Json, x: seq<Lexeme>, y: seq<Lexeme>)
    requires Lexemes(a) + x == Lexemes(b) + y
    ensures (a.List? <==> b.List?) && (a.Record? <==> b.Record?)
    ensures !a.List? && !a.Record? ==> a == b && x == y
  {
    assert Lexemes(a)[0] == (Lexemes(a) + x)[0] == (Lexemes(b) + y)[0] == Lexemes(b)[0];
    if !a.List? && !a.Record? {
      DropFirst(Atom(a), x, Atom(b), y);
    }
  }

  lemma {:induction false} LexemesRead(a: Json, b: Json, x: seq<Lexeme>, y: seq<Lexeme>)
    requires Lexemes(a) + x == Lexemes(b) + y
    ensures Same(a, b) && x == y
    decreases Nodes(a), 0, 0
  {
    hide Lexemes, ListLexemes, RecordLexemes;
    SameKind(a, b, x, y);
    match a {
      case List(items) =>
        ListOpens(items, b.items, x, y);
        ItemsRead(items, b.items, true, [CloseList] + x, [CloseList] + y);
        DropFirst(CloseList, x, CloseList, y);
      case Record(members) =>
        RecordOpens(members, b.members, x, y);
        MembersRead(InOrder(members), InOrder(b.members), true, [CloseRecord] + x, [CloseRecord] + y);
        DropFirst(CloseRecord, x, CloseRecord, y);
        MembersSame(members, b.members, InOrder(members), InOrder(b.members));
      case _ =>
    }
  }

  lemma {:induction false} ItemsRead(a: seq<Json>, b: seq<Json>, first: bool, x: seq<Lexeme>, y: seq<Lexeme>)
    requires ListLexemes(a, first) + x == ListLexemes(b, first) + y && x != [] && y != [] && Closing(x[0])
    requires Closing(y[0])
    ensures |a| == |b| && x == y && forall i :: 0 <= i < |a| ==> Same(a[i], b[i])
    decreases NodesOfItems(a), 1, |a|
  {
    hide Same;
    if a == [] || b == [] {
      ItemsEnd(a, first, x);
      ItemsEnd(b, first, y);
      assert [] + x == x && [] + y == y;
    } else {
      hide Lexemes, ListLexemes;
      ItemsUnfold(a, first, x);
      ItemsUnfold(b, first, y);
      var p, q := ListLexemes(a[1..], false) + x, ListLexemes(b[1..], false) + y;
      DropSeparator(first, Lexemes(a[0]) + p, Lexemes(b[0]) + q);
      LexemesRead(a[0], b[0], p, q);
      ItemsRead(a[1..], b[1..], false, x, y);
      forall i | 0 <= i < |a| ensures Same(a[i], b[i]) {
        assert i > 0 ==> a[i] == a[1..][i - 1] && b[i] == b[1..][i - 1];
      }
    }
  }

  lemma DropSeparator(first: bool, x: seq<Lexeme>, y: seq<Lexeme>)
    requires Separator(first) + x == Separator(first) + y
    ensures x == y
  {
    if first {
      assert [] + x == x && [] + y == y;
    } else {
      DropFirst(Comma, x, Comma, y);
    }
  }

  /** The form of a list starts like a closing lexeme only when the list is empty. */
  lemma ItemsEnd(items: seq<Json>, first: bool, x: seq<Lexeme>)
    requires x != [] && Closing(x[0])
    ensures ListLexemes(items, first) + x != [] && (Closing((ListLexemes(items, first) + x)[0]) <==> items == [])
    ensures items == [] ==> ListLexemes(items, first) == []
  {
    if items != [] {
      ItemsUnfold(items, first, x);
      NeverCloses(items[0]);
    }
  }

  lemma MembersEnd(members: seq<Member>, first: bool, x: seq<Lexeme>)
    requires x != [] && Closing(x[0])
    ensures RecordLexemes(members, first) + x != []
    ensures (Closing((RecordLexemes(members, first) + x)[0]) <==> members == [])
    ensures members == [] ==> RecordLexemes(members, first) == []
  {
    if members != [] {
      MembersUnfold(members, first, x);
    }
  }

  lemma {:induction false} MembersRead(a: seq<Member>, b: seq<Member>, first: bool, x: seq<Lexeme>, y: seq<Lexeme>)
    requires RecordLexemes(a, first) + x == RecordLexemes(b, first) + y && x != [] && y != [] && Closing(x[0])
    requires Closing(y[0])
    ensures |a| == |b| && x == y && forall i :: 0 <= i < |a| ==> a[i].key == b[i].key && Same(a[i].value, b[i].value)
    decreases NodesOfMembers(a), 1, |a|
  {
    hide Same;
    if a == [] || b == [] {
      MembersEnd(a, first, x);
      MembersEnd(b, first, y);
      assert [] + x == x && [] + y == y;
    } else {
      hide Lexemes, RecordLexemes;
      MembersUnfold(a, first, x);
      MembersUnfold(b, first, y);
      var p, q := RecordLexemes(a[1..], false) + x, RecordLexemes(b[1..], false) + y;
      DropSeparator(first, [Key(a[0].key)] + (Lexemes(a[0].value) + p), [Key(b[0].key)] + (Lexemes(b[0].value) + q));
      DropFirst(Key(a[0].key), Lexemes(a[0].value) + p, Key(b[0].key), Lexemes(b[0].value) + q);
      LexemesRead(a[0].value, b[0].value, p, q);
      MembersRead(a[1..], b[1..], false, x, y);
      forall i | 0 <= i < |a| ensures a[i].key == b[i].key && Same(a[i].value, b[i].value) {
        assert i > 0 ==> a[i] == a[1..][i - 1] && b[i] == b[1..][i - 1];
      }
    }
  }

  lemma MembersSame(a: seq<Member>, b: seq<Member>, m: seq<Member>, n: seq<Member>)
    requires multiset(a) == multiset(m) && multiset(b) == multiset(n) && |m| == |n| && |a| == |m| && |b| == |n|
    requires forall i :: 0 <= i < |m| ==> m[i].key == n[i].key && Same(m[i].value, n[i].value)
    ensures Same(Record(a), Record(b))
  {
    forall i | 0 <= i < |a| ensures Counterpart(a[i], b) {
      assert a[i] in multiset(m);
      var k :| 0 <= k < |m| && m[k] == a[i];
      assert n[k] in multiset(b);
      var j :| 0 <= j < |b| && b[j] == n[k];
    }
  }

  // ----- equal values have the same form

  ghost predicate Rising(members: seq<Member>) {
    forall i, j :: 0 <= i < j < |members| ==> Texts.Before(members[i].key, members[j].key)
  }

  lemma {:induction false} InsertRises(m: Member, sorted: seq<Member>)
    requires Rising(sorted) && forall i :: 0 <= i < |sorted| ==> sorted[i].key != m.key
    ensures Rising(Insert(m, sorted))
  {
    hide Texts.Before;
    var all := Insert(m, sorted);
    if sorted == [] {
    } else if Texts.Before(m.key, sorted[0].key) {
      forall j | 0 < j < |sorted| ensures Texts.Before(m.key, sorted[j].key) {
        Texts.BeforeChains(m.key, sorted[0].key, sorted[j].key);
      }
    } else {
      var rest := Insert(m, sorted[1..]);
      Texts.OneOrTheOther(m.key, sorted[0].key);
      InsertRises(m, sorted[1..]);
      forall j | 0 <= j < |rest| ensures Texts.Before(sorted[0].key, rest[j].key) {
        assert rest[j] in multiset(rest);
        if rest[j] != m {
          assert rest[j] in sorted[1..];
        }
      }
      assert all == [sorted[0]] + rest;
    }
  }

  lemma {:induction false} InOrderRises(members: seq<Member>)
    requires DistinctKeys(members)
    ensures Rising(InOrder(members))
  {
    if members != [] {
      var rest := InOrder(members[1..]);
      InOrderRises(members[1..]);
      forall i | 0 <= i < |rest| ensures rest[i].key != members[0].key {
        assert rest[i] in multiset(rest);
        var k :| 0 <= k < |members[1..]| && members[1..][k] == rest[i];
        assert members[k + 1].key != members[0].key;
      }
      InsertRises(members[0], rest);
    }
  }

  ghost predicate Matched(m: seq<Member>, n: seq<Member>) {
    |m| == |n| && Rising(m) && Rising(n) && forall i :: 0 <= i < |m| ==> Counterpart(m[i], n)
  }

  /** In two rising lists of equal length where each member of one has a counterpart in the other, the
      counterpart stands at the same place: not before it, and not after it. */
  lemma {:induction false} NotBefore(m: seq<Member>, n: seq<Member>, i: nat, j: nat)
    requires Matched(m, n) && i < |m| && j < |n| && n[j].key == m[i].key
    ensures i <= j
    decreases i
  {
    hide Texts.Before, Same;
    if i > 0 {
      assert Counterpart(m[i - 1], n);
      var k :| 0 <= k < |n| && m[i - 1].key == n[k].key && Same(m[i - 1].value, n[k].value);
      NotBefore(m, n, i - 1, k);
      assert Texts.Before(m[i - 1].key, m[i].key);
      Ordered(n, k, j);
    }
  }

  lemma {:induction false} NotAfter(m: seq<Member>, n: seq<Member>, i: nat, j: nat)
    requires Matched(m, n) && i < |m| && j < |n| && n[j].key == m[i].key
    ensures j <= i
    decreases |m| - i
  {
    hide Texts.Before, Same;
    if i < |m| - 1 {
      assert Counterpart(m[i + 1], n);
      var k :| 0 <= k < |n| && m[i + 1].key == n[k].key && Same(m[i + 1].value, n[k].value);
      NotAfter(m, n, i + 1, k);
      assert Texts.Before(m[i].key, m[i + 1].key);
      Ordered(n, j, k);
    }
  }

  lemma Ordered(n: seq<Member>, j: nat, k: nat)
    requires Rising(n) && j < |n| && k < |n| && Texts.Before(n[j].key, n[k].key)
    ensures j < k
  {
    hide Texts.Before;
    Texts.NotBeforeItself(n[j].key);
    Texts.OneOrTheOther(n[j].key, n[k].key);
  }

  lemma MatchedInPlace(m: seq<Member>, n: seq<Member>, i: nat)
    requires Matched(m, n) && i < |m|
    ensures m[i].key == n[i].key && Same(m[i].value, n[i].value)
  {
    hide Texts.Before, Same;
    assert Counterpart(m[i], n);
    var j :| 0 <= j < |n| && m[i].key == n[j].key && Same(m[i].value, n[j].value);
    NotBefore(m, n, i, j);
    NotAfter(m, n, i, j);
  }

  /** Having a counterpart does not depend on the order of either list. */
  lemma CounterpartStays(x: Member, a: seq<Member>, b: seq<Member>, n: seq<Member>)
    requires multiset(b) == multiset(n) && x in a && forall i :: 0 <= i < |a| ==> Counterpart(a[i], b)
    ensures Counterpart(x, n)
  {
    hide Same;
    var k :| 0 <= k < |a| && a[k] == x;
    assert Counterpart(a[k], b);
    var j :| 0 <= j < |b| && x.key == b[j].key && Same(x.value, b[j].value);
    SameElements(b, n, j);
    var l :| 0 <= l < |n| && n[l] == b[j];
  }

  lemma SameElements<T>(b: seq<T>, n: seq<T>, j: nat)
    requires multiset(b) == multiset(n) && j < |b|
    ensures b[j] in n
  {
    assert b[j] in multiset(b);
  }

  lemma SortedMatch(a: seq<Member>, b: seq<Member>)
    requires Same(Record(a), Record(b)) && DistinctKeys(a) && DistinctKeys(b)
    ensures Matched(InOrder(a), InOrder(b))
  {
    InOrderRises(a);
    InOrderRises(b);
    SameMembersHave(a, b);
    var m, n := InOrder(a), InOrder(b);
    hide Same, InOrder, Rising, Counterpart, DistinctKeys;
    forall i | 0 <= i < |m| ensures Counterpart(m[i], n) {
      SameElements(m, a, i);
      CounterpartStays(m[i], a, b, n);
    }
  }

  lemma SameMembersHave(a: seq<Member>, b: seq<Member>)
    requires Same(Record(a), Record(b))
    ensures |a| == |b| && forall i :: 0 <= i < |a| ==> Counterpart(a[i], b)
  {
  }

  lemma {:induction false} SameLexemes(a: Json, b: Json)
    requires Same(a, b) && Wellformed(a) && Wellformed(b)
    ensures Lexemes(a) == Lexemes(b) && Nodes(a) == Nodes(b)
    decreases Nodes(a), 0, 0
  {
    match a {
      case List(items) =>
        ItemsSame(items, b.items, true);
      case Record(members) =>
        SortedMatch(members, b.members);
        SameMembersHave(members, b.members);
        forall i | 0 <= i < |members|
          ensures Wellformed(InOrder(members)[i].value) && Wellformed(InOrder(b.members)[i].value)
        {
          assert InOrder(members)[i] in multiset(members) && InOrder(b.members)[i] in multiset(b.members);
        }
        MembersSameForm(InOrder(members), InOrder(b.members), true);
      case _ =>
    }
  }

  lemma {:induction false} ItemsSame(a: seq<Json>, b: seq<Json>, first: bool)
    requires |a| == |b| && forall i :: 0 <= i < |a| ==> Same(a[i], b[i]) && Wellformed(a[i]) && Wellformed(b[i])
    ensures ListLexemes(a, first) == ListLexemes(b, first) && NodesOfItems(a) == NodesOfItems(b)
    decreases NodesOfItems(a), 1, |a|
  {
    if a != [] {
      hide Same, Wellformed, Lexemes;
      SameLexemes(a[0], b[0]);
      ItemsSame(a[1..], b[1..], false);
    }
  }

  lemma {:induction false} MembersSameForm(m: seq<Member>, n: seq<Member>, first: bool)
    requires Matched(m, n) && forall i :: 0 <= i < |m| ==> Wellformed(m[i].value) && Wellformed(n[i].value)
    ensures RecordLexemes(m, first) == RecordLexemes(n, first) && NodesOfMembers(m) == NodesOfMembers(n)
    decreases NodesOfMembers(m), 1, |m|
  {
    forall i | 0 <= i < |m| ensures m[i].key == n[i].key && Same(m[i].value, n[i].value) {
      MatchedInPlace(m, n, i);
    }
    PairsSameForm(m, n, first);
  }

  lemma {:induction false} PairsSameForm(m: seq<Member>, n: seq<Member>, first: bool)
    requires |m| == |n| && forall i :: 0 <= i < |m| ==> m[i].key == n[i].key && Same(m[i].value, n[i].value)
    requires forall i :: 0 <= i < |m| ==> Wellformed(m[i].value) && Wellformed(n[i].value)
    ensures RecordLexemes(m, first) == RecordLexemes(n, first) && NodesOfMembers(m) == NodesOfMembers(n)
    decreases NodesOfMembers(m), 0, |m|
  {
    if m != [] {
      hide Same, Wellformed, Lexemes;
      SameLexemes(m[0].value, n[0].value);
      PairsSameForm(m[1..], n[1..], false);
    }
  }

  /** Two parsed values have the same canonical form exactly when they are equal up to the order of keys. */
  lemma CanonicalDecidesSame(a: Json, b: Json, maxNodes: nat)
    requires Wellformed(a) && Wellformed(b) && Canonical(a, maxNodes).Some?
    ensures Canonical(a, maxNodes) == Canonical(b, maxNodes) <==> Same(a, b)
  {
    hide Same, Lexemes, Wellformed;
    if Same(a, b) {
      SameLexemes(a, b);
    }
    if Canonical(a, maxNodes) == Canonical(b, maxNodes) {
      assert Lexemes(a) + [] == Lexemes(b) + [];
      LexemesRead(a, b, [], []);
    }
  }
}
