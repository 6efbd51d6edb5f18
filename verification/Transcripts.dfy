/** Cursor transcripts: choosing among copies of one, and bounding the messages shown. */
module Transcripts {

  // ----- bounding

  datatype Message = Message(role: string, text: string)
  datatype Bounds = Bounds(maxMessages: nat, maxMessageChars: nat, maxTextChars: nat)

  function TotalChars(messages: seq<Message>): nat {
    if messages == [] then 0 else |messages[0].text| + TotalChars(messages[1..])
  }

  function Clip(text: string, limit: nat): string {
    if |text| > limit then text[..limit] else text
  }

  /** These are the newest messages, in order, each cut to the limit of one message; only the oldest of them
      may be cut further. */
  ghost predicate NewestOf(selected: seq<Message>, messages: seq<Message>, b: Bounds) {
    && |selected| <= |messages|
    && forall i :: 0 <= i < |selected| ==>
         var original := messages[|messages| - |selected| + i];
         && selected[i].role == original.role
         && (if i > 0 then selected[i].text == Clip(original.text, b.maxMessageChars)
             else selected[i].text <= Clip(original.text, b.maxMessageChars))
  }

  ghost predicate OldestUncut(selected: seq<Message>, messages: seq<Message>, b: Bounds)
    requires |selected| <= |messages|
  {
    selected != [] ==> selected[0].text == Clip(messages[|messages| - |selected|].text, b.maxMessageChars)
  }

  lemma OneOlder(selected: seq<Message>, messages: seq<Message>, b: Bounds, text: string)
    requires NewestOf(selected, messages, b) && OldestUncut(selected, messages, b) && |selected| < |messages|
    requires text <= Clip(messages[|messages| - |selected| - 1].text, b.maxMessageChars)
    ensures var message := messages[|messages| - |selected| - 1];
            var more := [Message(message.role, text)] + selected;
            && NewestOf(more, messages, b) && TotalChars(more) == |text| + TotalChars(selected)
            && (OldestUncut(more, messages, b) <==> text == Clip(message.text, b.maxMessageChars))
            && (more == messages[|messages| - |more|..] <==>
                  text == message.text && selected == messages[|messages| - |selected|..])
  {
    var k := |messages| - |selected| - 1;
    var more := [Message(messages[k].role, text)] + selected;
    forall i | 0 < i < |more| ensures more[i] == selected[i - 1] {
    }
    assert more[1..] == selected;
    assert messages[k..] == [messages[k]] + messages[k + 1..];
    assert more[0] == Message(messages[k].role, text) && messages[k..][0] == messages[k];
    assert messages[k..][1..] == messages[k + 1..];
  }

  lemma ClippedShort(selected: seq<Message>, messages: seq<Message>, b: Bounds, i: nat)
    requires NewestOf(selected, messages, b) && i < |selected|
    ensures |selected[i].text| <= b.maxMessageChars
  {
  }

  lemma NoneSelected(messages: seq<Message>, b: Bounds)
    ensures NewestOf([], messages, b) && OldestUncut([], messages, b) && TotalChars([]) == 0
  {
  }

  lemma TextCut(text: string, most: nat, remaining: nat)
    ensures var cut := Clip(Clip(text, most), remaining);
            && cut <= Clip(text, most) && |cut| <= remaining
            && (cut != Clip(text, most) ==> |cut| == remaining)
            && (cut == text <==> |text| <= most && |Clip(text, most)| <= remaining)
  {
  }

  lemma AllSelected(selected: seq<Message>, messages: seq<Message>)
    requires |selected| < |messages|
    ensures selected != messages
  {
  }

  method BoundMessages(messages: seq<Message>, b: Bounds) returns (selected: seq<Message>, truncated: bool)
    ensures |selected| <= |messages| && NewestOf(selected, messages, b)
    ensures |selected| <= b.maxMessages && TotalChars(selected) <= b.maxTextChars
    ensures forall i :: 0 <= i < |selected| ==> |selected[i].text| <= b.maxMessageChars
    // nothing more would have fitted
    ensures |selected| == |messages| || |selected| == b.maxMessages || TotalChars(selected) == b.maxTextChars
    ensures OldestUncut(selected, messages, b) || TotalChars(selected) == b.maxTextChars
    ensures truncated <==> selected != messages
  {
    hide NewestOf, OldestUncut, TotalChars, Clip;
    NoneSelected(messages, b);
    selected := [];
    var remaining := b.maxTextChars;
    truncated := |messages| > b.maxMessages;
    var index := |messages|;
    while index > 0 && |selected| < b.maxMessages && remaining > 0
      invariant remaining >= 0 && index >= 0 && index + |selected| == |messages| && |selected| <= b.maxMessages
      invariant NewestOf(selected, messages, b) && TotalChars(selected) + remaining == b.maxTextChars
      invariant remaining > 0 ==> OldestUncut(selected, messages, b)
      invariant |messages| > b.maxMessages ==> truncated
      invariant |messages| <= b.maxMessages ==> (truncated <==> selected != messages[index..])
      decreases index
    {
      index := index - 1;
      var text := Clip(messages[index].text, b.maxMessageChars);
      if |messages[index].text| > b.maxMessageChars { truncated := true; }
      if |text| > remaining { truncated := true; }
      TextCut(messages[index].text, b.maxMessageChars, remaining);
      text := Clip(text, remaining);
      OneOlder(selected, messages, b, text);
      remaining := remaining - |text|;
      selected := [Message(messages[index].role, text)] + selected;
    }
    if |selected| < |messages| {
      truncated := true;
      AllSelected(selected, messages);
    }
    assert index == 0 ==> messages[index..] == messages;
    forall i | 0 <= i < |selected| ensures |selected[i].text| <= b.maxMessageChars {
      ClippedShort(selected, messages, b, i);
    }
  }

  // ----- choosing among copies

  datatype Candidate = Candidate(projectKey: string, hashes: seq<string>, valid: bool, partial: bool)

  datatype Verdict =
    | Nothing | Corrupt(partial: bool, count: nat) | Divergent(partial: bool, count: nat)
    | Readable(from: Candidate, partial: bool, count: nat)

  /** How project keys collate: whether the first comes before the second. */
  type Collation = (string, string) -> bool

  /** A comparison of strings orders them totally, up to strings that it does not tell apart. */
  ghost predicate Orders(before: Collation) {
    && (forall a, b :: before(a, b) ==> !before(b, a))
    && (forall a, b, c :: !before(a, b) && !before(b, c) ==> !before(a, c))
  }

  predicate Tied(before: Collation, a: string, b: string) {
    !before(a, b) && !before(b, a)
  }

  /** The order of candidates: the longer first, then by project key. */
  predicate Ahead(before: Collation, a: Candidate, b: Candidate) {
    |a.hashes| > |b.hashes| || (|a.hashes| == |b.hashes| && before(a.projectKey, b.projectKey))
  }

  /** The first of the candidates once they are sorted; a sort keeps those that tie in the order they came. */
  function First(before: Collation, candidates: seq<Candidate>): Candidate
    requires candidates != []
  {
    if |candidates| == 1 then candidates[0]
    else
      var rest := First(before, candidates[1..]);
      if Ahead(before, rest, candidates[0]) then rest else candidates[0]
  }

  predicate AnyPartial(candidates: seq<Candidate>) {
    exists c | c in candidates :: c.partial
  }

  function Reconcile(before: Collation, candidates: seq<Candidate>): Verdict {
    if candidates == [] then Nothing
    else if exists c | c in candidates :: !c.valid then Corrupt(AnyPartial(candidates), |candidates|)
    else if forall c | c in candidates :: c.hashes <= First(before, candidates).hashes then
      Readable(First(before, candidates), AnyPartial(candidates), |candidates|)
    else Divergent(AnyPartial(candidates), |candidates|)
  }

  lemma {:induction false} FirstIsAhead(before: Collation, candidates: seq<Candidate>, i: nat)
    requires Orders(before) && i < |candidates|
    ensures First(before, candidates) in candidates && !Ahead(before, candidates[i], First(before, candidates))
  {
    var head := candidates[0];
    NotAheadOfItself(before, head);
    if |candidates| > 1 {
      var rest := First(before, candidates[1..]);
      FirstIsAhead(before, candidates[1..], if i > 0 then i - 1 else 0);
      NotBothAhead(before, rest, head);
      hide Orders, Ahead;
      if i > 0 && !Ahead(before, rest, head) {
        NotAheadChains(before, candidates[i], rest, head);
      }
    }
  }

  lemma NotAheadOfItself(before: Collation, a: Candidate)
    requires Orders(before)
    ensures !Ahead(before, a, a)
  {
    assert before(a.projectKey, a.projectKey) ==> !before(a.projectKey, a.projectKey);
  }

  lemma NotBothAhead(before: Collation, a: Candidate, b: Candidate)
    requires Orders(before)
    ensures !(Ahead(before, a, b) && Ahead(before, b, a))
  {
  }

  lemma NotAheadChains(before: Collation, a: Candidate, b: Candidate, c: Candidate)
    requires Orders(before) && !Ahead(before, a, b) && !Ahead(before, b, c)
    ensures !Ahead(before, a, c)
  {
  }

  predicate Comparable(a: Candidate, b: Candidate) {
    a.hashes <= b.hashes || b.hashes <= a.hashes
  }

  ghost predicate AllPrefixes(candidates: seq<Candidate>, hashes: seq<string>) {
    forall c | c in candidates :: c.hashes <= hashes
  }

  ghost predicate AllComparable(candidates: seq<Candidate>) {
    forall i, j :: 0 <= i < |candidates| && 0 <= j < |candidates| ==> Comparable(candidates[i], candidates[j])
  }

  lemma PrefixesAreComparable(candidates: seq<Candidate>, hashes: seq<string>)
    requires AllPrefixes(candidates, hashes)
    ensures AllComparable(candidates)
  {
    forall i, j | 0 <= i < |candidates| && 0 <= j < |candidates| ensures Comparable(candidates[i], candidates[j]) {
      assert candidates[i] in candidates && candidates[j] in candidates;
      assert candidates[i].hashes == hashes[..|candidates[i].hashes|];
      assert candidates[j].hashes == hashes[..|candidates[j].hashes|];
    }
  }

  lemma LongestIsContinued(candidates: seq<Candidate>, best: Candidate)
    requires AllComparable(candidates) && best in candidates
    requires forall i :: 0 <= i < |candidates| ==> |candidates[i].hashes| <= |best.hashes|
    ensures AllPrefixes(candidates, best.hashes)
  {
    var k :| 0 <= k < |candidates| && candidates[k] == best;
    forall i | 0 <= i < |candidates| ensures candidates[i].hashes <= best.hashes {
      assert Comparable(candidates[i], candidates[k]);
    }
  }

  /** A transcript is readable exactly when there are copies, all are valid, and of any two one continues
      the other. */
  lemma ReadableWhenComparable(before: Collation, candidates: seq<Candidate>)
    requires Orders(before)
    ensures Reconcile(before, candidates).Readable? <==>
            && candidates != []
            && (forall i :: 0 <= i < |candidates| ==> candidates[i].valid)
            && AllComparable(candidates)
  {
    hide Comparable, AllComparable, First;
    if candidates != [] {
      var best := First(before, candidates);
      FirstIsAhead(before, candidates, 0);
      forall i | 0 <= i < |candidates| ensures |candidates[i].hashes| <= |best.hashes| {
        FirstIsAhead(before, candidates, i);
      }
      if AllComparable(candidates) {
        LongestIsContinued(candidates, best);
      }
      if AllPrefixes(candidates, best.hashes) {
        PrefixesAreComparable(candidates, best.hashes);
      }
    }
  }

  // ----- whether the order in which the copies were found matters

  /** No copy comes before this one: it is among the longest, and under the least key of those. */
  ghost predicate Foremost(before: Collation, candidates: seq<Candidate>, c: Candidate) {
    c in candidates && forall i :: 0 <= i < |candidates| ==> !Ahead(before, candidates[i], c)
  }

  lemma FirstIsForemost(before: Collation, candidates: seq<Candidate>)
    requires Orders(before) && candidates != []
    ensures Foremost(before, candidates, First(before, candidates))
  {
    hide First, Orders, Ahead;
    FirstIsAhead(before, candidates, 0);
    forall i | 0 <= i < |candidates| ensures !Ahead(before, candidates[i], First(before, candidates)) {
      FirstIsAhead(before, candidates, i);
    }
  }

  ghost predicate SameCopies(a: seq<Candidate>, b: seq<Candidate>) {
    multiset(a) == multiset(b)
  }

  lemma SameMembers(a: seq<Candidate>, b: seq<Candidate>)
    requires SameCopies(a, b)
    ensures |a| == |b| && forall c :: c in a <==> c in b
  {
    assert |a| == |multiset(a)| == |multiset(b)| == |b|;
    forall c ensures c in a <==> c in b {
      assert c in multiset(a) <==> c in multiset(b);
    }
  }

  lemma SameForemost(before: Collation, a: seq<Candidate>, b: seq<Candidate>, c: Candidate)
    requires SameCopies(a, b) && Foremost(before, b, c)
    ensures Foremost(before, a, c)
  {
    hide Ahead;
    SameMembers(a, b);
    forall i | 0 <= i < |a| ensures !Ahead(before, a[i], c) {
      assert a[i] in b;
      var k :| 0 <= k < |b| && b[k] == a[i];
    }
  }

  /** Two orders of the same copies have the same verdict, but for which of the foremost copies is shown. */
  lemma SameVerdict(before: Collation, a: seq<Candidate>, b: seq<Candidate>)
    requires Orders(before) && SameCopies(a, b)
    ensures Reconcile(before, a).Readable? <==> Reconcile(before, b).Readable?
    ensures Reconcile(before, a) == Reconcile(before, b)
            <==> (Reconcile(before, a).Readable? ==> First(before, a) == First(before, b))
  {
    hide Orders, Comparable, First;
    SameMembers(a, b);
    ReadableWhenComparable(before, a);
    ReadableWhenComparable(before, b);
    if AllComparable(a) { ComparableAmong(a, b); }
    if AllComparable(b) { ComparableAmong(b, a); }
    assert AnyPartial(a) == AnyPartial(b);
  }

  lemma ComparableAmong(a: seq<Candidate>, b: seq<Candidate>)
    requires AllComparable(a) && forall c :: c in b ==> c in a
    ensures AllComparable(b)
  {
    hide Comparable;
    forall i, j | 0 <= i < |b| && 0 <= j < |b| ensures Comparable(b[i], b[j]) {
      assert b[i] in a && b[j] in a;
      var k :| 0 <= k < |a| && a[k] == b[i];
      var m :| 0 <= m < |a| && a[m] == b[j];
    }
  }

  /** Whatever is foremost is shown when it is found first. */
  lemma FoundFirst(before: Collation, a: seq<Candidate>, c: Candidate) returns (b: seq<Candidate>)
    requires Orders(before) && Foremost(before, a, c)
    ensures SameCopies(a, b) && b != [] && First(before, b) == c
  {
    hide Orders, Ahead, First;
    var k :| 0 <= k < |a| && a[k] == c;
    b := [c] + (a[..k] + a[k + 1..]);
    assert a == a[..k] + [c] + a[k + 1..];
    HeadStays(before, a, b);
  }

  lemma HeadStays(before: Collation, a: seq<Candidate>, b: seq<Candidate>)
    requires Orders(before) && SameCopies(a, b) && b != [] && Foremost(before, a, b[0])
    ensures First(before, b) == b[0]
  {
    hide Orders, Ahead;
    SameForemost(before, b, a, b[0]);
    if |b| > 1 {
      FirstIsAhead(before, b[1..], 0);
      var rest := First(before, b[1..]);
      var i :| 0 <= i < |b[1..]| && b[1..][i] == rest;
      assert b[i + 1] == rest;
    }
  }

  ghost predicate OrderMatters(before: Collation, a: seq<Candidate>) {
    exists b :: SameCopies(a, b) && Reconcile(before, a) != Reconcile(before, b)
  }

  /** The verdict depends on the order in which the copies were found exactly when they are readable and two different
      ones are foremost: equally many records under keys that collate equal, as two spellings of one accented
      letter do. */
  lemma TiesFollowTheOrder(before: Collation, a: seq<Candidate>)
    requires Orders(before)
    ensures OrderMatters(before, a)
            <==> && Reconcile(before, a).Readable?
                 && exists c, d :: c != d && Foremost(before, a, c) && Foremost(before, a, d)
  {
    hide Orders, Reconcile, Foremost, First, SameCopies, AllComparable;
    ReadableWhenComparable(before, a);
    if OrderMatters(before, a) {
      var b :| SameCopies(a, b) && Reconcile(before, a) != Reconcile(before, b);
      SameVerdict(before, a, b);
      TwoForemost(before, a, b);
    }
    if c, d :| Reconcile(before, a).Readable? && c != d && Foremost(before, a, c) && Foremost(before, a, d) {
      var other := if First(before, a) == c then d else c;
      var b := FoundFirst(before, a, other);
      SameVerdict(before, a, b);
    }
  }

  lemma TwoForemost(before: Collation, a: seq<Candidate>, b: seq<Candidate>)
    requires Orders(before) && SameCopies(a, b) && Reconcile(before, a).Readable?
    ensures a != [] && b != []
    ensures Foremost(before, a, First(before, a)) && Foremost(before, a, First(before, b))
  {
    hide Orders, Foremost, First;
    SameMembers(a, b);
    FirstIsForemost(before, a);
    FirstIsForemost(before, b);
    SameForemost(before, a, b, First(before, b));
  }

  /** Two foremost copies have equally many records under keys that collate equal, so without such a pair the order
      does not matter. */
  lemma OrderDoesNotMatter(before: Collation, a: seq<Candidate>, b: seq<Candidate>)
    requires Orders(before) && multiset(a) == multiset(b)
    requires forall c, d :: c in a && d in a && |c.hashes| == |d.hashes| && Tied(before, c.projectKey, d.projectKey) ==>
              c == d
    ensures Reconcile(before, a) == Reconcile(before, b)
  {
    hide Orders, Reconcile, First;
    if Reconcile(before, a) != Reconcile(before, b) {
      SameVerdict(before, a, b);
      TwoForemost(before, a, b);
      ForemostTie(before, a, First(before, a), First(before, b));
    }
  }

  lemma ForemostTie(before: Collation, candidates: seq<Candidate>, c: Candidate, d: Candidate)
    requires Foremost(before, candidates, c) && Foremost(before, candidates, d)
    ensures c in candidates && d in candidates && |c.hashes| == |d.hashes|
    ensures Tied(before, c.projectKey, d.projectKey)
  {
    var i :| 0 <= i < |candidates| && candidates[i] == c;
    var j :| 0 <= j < |candidates| && candidates[j] == d;
    assert !Ahead(before, candidates[i], d) && !Ahead(before, candidates[j], c);
  }
}
