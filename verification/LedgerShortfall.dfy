/** Where the space reserved for retirements falls short: once the tombstones kept and to come exceed a hundred,
    the projection counts only the hundred largest of them, and a ledger that passes both size checks can have a
    retirement that can no longer be completed. */
module LedgerShortfall {
  import opened Common
  import opened LaunchContracts
  import opened LedgerState
  import opened LedgerSize
  import opened LedgerTotals
  import opened LedgerCapacity

  // ----- many identities of the same length

  function Digit(n: nat): char
    requires n < 10
  {
    "0123456789"[n]
  }

  function Digits(i: nat, n: nat): (s: string)
    ensures |s| == n && forall k :: 0 <= k < n ==> '0' <= s[k] <= '9'
  {
    if n == 0 then [] else Digits(i / 10, n - 1) + [Digit(i % 10)]
  }

  function Ten(n: nat): nat {
    if n == 0 then 1 else 10 * Ten(n - 1)
  }

  lemma {:induction false} DigitsApart(i: nat, j: nat, n: nat)
    requires i < Ten(n) && j < Ten(n) && Digits(i, n) == Digits(j, n)
    ensures i == j
  {
    if n == 0 {
    } else {
      var a, b := Digits(i, n), Digits(j, n);
      assert a[..n - 1] == Digits(i / 10, n - 1) && b[..n - 1] == Digits(j / 10, n - 1);
      assert a[n - 1] == Digit(i % 10) && b[n - 1] == Digit(j % 10);
      SameDigit(i % 10, j % 10);
      DigitsApart(i / 10, j / 10, n - 1);
    }
  }

  lemma SameDigit(a: nat, b: nat)
    requires a < 10 && b < 10 && Digit(a) == Digit(b)
    ensures a == b
  {
  }

  /** An identity: a tag, zeros, and the number. */
  function Named(tag: string, zeros: nat, i: nat): (s: string)
    ensures |s| == |tag| + zeros + 4 && tag <= s
    ensures forall k :: |tag| <= k < |s| ==> '0' <= s[k] <= '9'
  {
    tag + (seq(zeros, _ => '0') + Digits(i, 4))
  }

  lemma NamedApart(tag: string, zeros: nat, i: nat, j: nat)
    requires i < 10000 && j < 10000 && Named(tag, zeros, i) == Named(tag, zeros, j)
    ensures i == j
  {
    var k := |tag| + zeros;
    assert Named(tag, zeros, i)[k..] == Digits(i, 4) && Named(tag, zeros, j)[k..] == Digits(j, 4);
    assert Ten(4) == 10000;
    DigitsApart(i, j, 4);
  }

  // ----- the ledger

  const AT := Stamp(Some(0), 24)
  const SMALL := Request("p", "t", "f", "m", Risk(false, false), "v")
  const FAILED := 939
  const TOMBSTONES := 99

  function Long(): (s: string)
    ensures |s| == 100 && SafeId(s)
  {
    seq(100, _ => 'x')
  }

  function Large(): Request {
    Request(Long(), Long(), Long(), Long(), Risk(false, false), Long())
  }

  function Signature(): string {
    Named("s", 38, 0)
  }

  /** The first two launches are being retired; the others have failed. */
  function LaunchAt(i: nat): Record {
    var base := Record(Named("launch:", 32, i), Named("attempt:", 32, i), Named("a", 38, i), Signature(), Large(),
                       Failed, None, None, Some(LaunchError("failed", false)), None, AT, AT);
    if i < 2 then
      base.(request := SMALL, state := Retiring, error := None, providerAgentId := Some("g"), agentId := Some("n"),
            retirementKeyHash := Some(Named("b", 38, i)))
    else base
  }

  function TombstoneAt(i: nat): Retirement {
    Retirement(Named("launch:", 32, i), Named("attempt:", 32, i), "p", Named("b", 38, i), Named("a", 38, i),
               Signature(), SMALL, AT, AT, None)
  }

  function Launches(from: nat, n: nat): (records: seq<Record>)
    ensures |records| == n && forall i :: 0 <= i < n ==> records[i] == LaunchAt(from + i)
    decreases n
  {
    if n == 0 then [] else [LaunchAt(from)] + Launches(from + 1, n - 1)
  }

  function Tombstones(from: nat, n: nat): (retirements: seq<Retirement>)
    ensures |retirements| == n && forall i :: 0 <= i < n ==> retirements[i] == TombstoneAt(from + i)
    decreases n
  {
    if n == 0 then [] else [TombstoneAt(from)] + Tombstones(from + 1, n - 1)
  }

  function Crowded(): Ledger {
    Ledger(Launches(0, FAILED + 2), Tombstones(FAILED + 2, TOMBSTONES), [])
  }

  // ----- it is sound

  lemma LaunchIsValid(i: nat)
    ensures ValidRecord(LaunchAt(i)) && LaunchAt(i).retirementKeyHash != Some(LaunchAt(i).keyHash)
  {
    assert SafeId("p") && SafeId("t") && SafeId("f") && SafeId("m") && SafeId("v") && SafeId("g") && SafeId("n");
    assert SafeId("failed");
    KeysApart(i, i);
    hide SafeId;
  }

  lemma TombstoneIsValid(i: nat)
    ensures ValidRetirement(TombstoneAt(i)) && TombstoneAt(i).creationKeyHash != TombstoneAt(i).keyHash
  {
    assert SafeId("p") && SafeId("t") && SafeId("f") && SafeId("m") && SafeId("v");
    KeysApart(i, i);
    hide SafeId;
  }

  lemma KeysApart(i: nat, j: nat)
    ensures Named("a", 38, i) != Named("b", 38, j)
  {
    assert Named("a", 38, i)[0] == 'a' && Named("b", 38, j)[0] == 'b';
  }

  function FullRow(i: nat): Row {
    Row(Named("launch:", 32, i), Named("attempt:", 32, i), {Named("a", 38, i), Named("b", 38, i)})
  }

  predicate Within(row: Row, i: nat) {
    row.id == FullRow(i).id && row.attemptId == FullRow(i).attemptId && row.claims <= FullRow(i).claims
  }

  lemma RowsWithin(i: nat)
    ensures Within(RecordRow(LaunchAt(i)), i) && Within(RetirementRow(TombstoneAt(i)), i)
  {
    hide Named;
  }

  lemma WithinApart(a: Row, i: nat, b: Row, j: nat)
    requires Within(a, i) && Within(b, j) && i < 10000 && j < 10000 && i != j
    ensures Apart(a, b)
  {
    KeysApart(i, j);
    KeysApart(j, i);
    if Named("launch:", 32, i) == Named("launch:", 32, j) { NamedApart("launch:", 32, i, j); }
    if Named("attempt:", 32, i) == Named("attempt:", 32, j) { NamedApart("attempt:", 32, i, j); }
    if Named("a", 38, i) == Named("a", 38, j) { NamedApart("a", 38, i, j); }
    if Named("b", 38, i) == Named("b", 38, j) { NamedApart("b", 38, i, j); }
    hide Named;
  }

  lemma SoundWithoutCleanups(l: Ledger)
    requires RecordsSound(l.records) && RetirementsSound(l.retirements) && Disjoint(l.records, l.retirements)
    requires l.cleanups == [] && RetiringCount(l.records) <= MAX_RETIREMENT_CLEANUPS
    ensures Sound(l)
  {
    hide RecordsSound, RetirementsSound, Disjoint, RetiringCount;
  }

  lemma CrowdedIsSound()
    ensures Sound(Crowded()) && TimesAtLeast(Crowded(), 24)
  {
    hide Sound, TimesAtLeast, RecordsSound, RetirementsSound, Disjoint, RetiringCount, Launches, Tombstones, Kept,
         Completions, LaunchAt, Completion;
    LaunchesSound(FAILED + 2);
    TombstonesSound(FAILED + 2, TOMBSTONES);
    AllDisjoint();
    FewRetire();
    SameWidth();
    SoundWithoutCleanups(Crowded());
  }

  lemma LaunchesSound(n: nat)
    requires n <= MAX_RECORDS
    ensures RecordsSound(Launches(0, n))
  {
    hide ValidRecord, RecordRow, Within, Apart, LaunchAt;
    var records := Launches(0, n);
    forall i | 0 <= i < n ensures ValidRecord(records[i]) && records[i].retirementKeyHash != Some(records[i].keyHash) {
      LaunchIsValid(i);
    }
    forall i, j | 0 <= i < j < n ensures Apart(RecordRow(records[i]), RecordRow(records[j])) {
      RowsWithin(i);
      RowsWithin(j);
      WithinApart(RecordRow(records[i]), i, RecordRow(records[j]), j);
    }
  }

  lemma TombstonesSound(from: nat, n: nat)
    requires n <= MAX_RETIREMENTS && from + n <= 10000
    ensures RetirementsSound(Tombstones(from, n))
  {
    hide ValidRetirement, RetirementRow, Within, Apart, TombstoneAt;
    var retirements := Tombstones(from, n);
    forall j | 0 <= j < n
      ensures ValidRetirement(retirements[j]) && retirements[j].creationKeyHash != retirements[j].keyHash
    {
      TombstoneIsValid(from + j);
    }
    forall i, j | 0 <= i < j < n ensures Apart(RetirementRow(retirements[i]), RetirementRow(retirements[j])) {
      RowsWithin(from + i);
      RowsWithin(from + j);
      WithinApart(RetirementRow(retirements[i]), from + i, RetirementRow(retirements[j]), from + j);
    }
  }

  lemma AllDisjoint()
    ensures Disjoint(Crowded().records, Crowded().retirements)
  {
    hide RecordRow, RetirementRow, Within, Apart, LaunchAt, TombstoneAt;
    var l := Crowded();
    var n := FAILED + 2;
    forall i, j | 0 <= i < |l.records| && 0 <= j < |l.retirements|
      ensures Apart(RecordRow(l.records[i]), RetirementRow(l.retirements[j]))
    {
      RowsWithin(i);
      RowsWithin(n + j);
      WithinApart(RecordRow(l.records[i]), i, RetirementRow(l.retirements[j]), n + j);
    }
  }

  lemma SameWidth()
    ensures TimesAtLeast(Crowded(), 24)
  {
    hide Named;
  }

  lemma {:induction false} NoneRetire(from: nat, n: nat)
    requires from >= 2
    ensures RetiringCount(Launches(from, n)) == 0 && Completions(Launches(from, n)) == []
    ensures Kept(Launches(from, n)) == Launches(from, n)
    decreases n
  {
    hide Named;
    if n > 0 {
      NoneRetire(from + 1, n - 1);
      assert Launches(from, n)[1..] == Launches(from + 1, n - 1);
    }
  }

  lemma TwoFirst(n: nat)
    ensures var all := Launches(0, n + 2);
            all[0] == LaunchAt(0) && all[1..][0] == LaunchAt(1) && all[1..][1..] == Launches(2, n)
  {
    assert Launches(0, n + 2)[1..] == Launches(1, n + 1) && Launches(1, n + 1)[1..] == Launches(2, n);
  }

  lemma FewRetire()
    ensures RetiringCount(Crowded().records) == 2
    ensures Kept(Crowded().records) == Launches(2, FAILED)
    ensures Completions(Crowded().records) == [Completion(LaunchAt(0)), Completion(LaunchAt(1))]
  {
    TwoRetire();
    hide Launches, LaunchAt, Completion, Tombstones;
    TwoFirst(FAILED);
    NoneRetire(2, FAILED);
  }

  lemma TwoRetire()
    ensures ToRetire(LaunchAt(0)) && ToRetire(LaunchAt(1))
  {
    hide Named;
  }

  // ----- its size

  lemma Requests()
    ensures RequestBytes(SMALL) == 134 && RequestBytes(Large()) == 134 + 5 * 99
  {
  }

  lemma LaunchSize(i: nat)
    ensures RecordBytes(LaunchAt(i)) == if i < 2 then 571 else 1006
  {
    Requests();
    hide Named, RequestBytes;
  }

  lemma TombstoneSize(i: nat)
    ensures RetirementBytes(TombstoneAt(i)) == 535
  {
    Requests();
    hide Named, RequestBytes;
  }

  /** What completing one of the first two leaves, with any scope. */
  lemma CompletionSize(i: nat, scope: string)
    requires i < 2 && |scope| == 16
    ensures RetirementBytes(RetirementEntry(LaunchAt(i), AT, Some(scope))) == 569
    ensures CleanupBytes(RetirementCleanup(RetirementEntry(LaunchAt(i), AT, Some(scope)))) == 222
  {
    Requests();
    hide Named, RequestBytes;
  }

  lemma {:induction false} LaunchesSize(from: nat, n: nat)
    requires from >= 2
    ensures RecordsBytes(Launches(from, n)) == n * 1007
    decreases n
  {
    hide LaunchAt, RecordBytes;
    if n > 0 {
      LaunchesSize(from + 1, n - 1);
      assert Launches(from, n)[1..] == Launches(from + 1, n - 1);
      LaunchSize(from);
    }
  }

  lemma {:induction false} TombstonesSize(from: nat, n: nat)
    ensures RetirementsBytes(Tombstones(from, n)) == n * 536
    decreases n
  {
    hide TombstoneAt, RetirementBytes;
    if n > 0 {
      TombstonesSize(from + 1, n - 1);
      assert Tombstones(from, n)[1..] == Tombstones(from + 1, n - 1);
      TombstoneSize(from);
    }
  }

  lemma RetiringSize(n: nat)
    ensures RecordsBytes(Launches(0, n + 2)) == 2 * 572 + n * 1007
    ensures RecordsBytes(Launches(1, n + 1)) == 572 + n * 1007
  {
    hide LaunchAt, RecordBytes;
    assert Launches(0, n + 2)[1..] == Launches(1, n + 1) && Launches(1, n + 1)[1..] == Launches(2, n);
    LaunchSize(0);
    LaunchSize(1);
    LaunchesSize(2, n);
  }

  lemma CrowdedSize()
    ensures Size(Crowded(), false) == 999_853
  {
    hide RecordsBytes, RetirementsBytes, Launches, Tombstones, Size, Shape;
    Shapes();
    RetiringSize(FAILED);
    TombstonesSize(FAILED + 2, TOMBSTONES);
    SizeShape(Crowded());
  }

  // ----- its projection: the smallest of a hundred and one tombstones is not counted

  predicate AtLeast(retirements: seq<Retirement>, size: nat) {
    forall i | 0 <= i < |retirements| :: RetirementBytes(retirements[i]) >= size
  }

  lemma {:induction false} InsertAtLeast(t: Retirement, sorted: seq<Retirement>, size: nat)
    requires AtLeast(sorted, size) && RetirementBytes(t) >= size
    ensures AtLeast(Insert(t, sorted), size)
  {
    hide RetirementBytes;
    if sorted != [] && LargerFirst(sorted[0], t) {
      InsertAtLeast(t, sorted[1..], size);
    }
  }

  lemma {:induction false} SortAtLeast(retirements: seq<Retirement>, size: nat)
    requires AtLeast(retirements, size)
    ensures AtLeast(BySize(retirements), size)
  {
    hide RetirementBytes, Insert;
    if retirements != [] {
      SortAtLeast(retirements[1..], size);
      InsertAtLeast(retirements[0], BySize(retirements[1..]), size);
    }
  }

  lemma DropLast(retirements: seq<Retirement>)
    requires retirements != []
    ensures var n := |retirements| - 1;
            RetirementsBytes(retirements) == RetirementsBytes(retirements[..n]) + RetirementBytes(retirements[n]) + 1
  {
    var n := |retirements| - 1;
    hide RetirementBytes;
    assert retirements == retirements[..n] + [retirements[n]];
    RetirementsSum(retirements[..n], [retirements[n]]);
    assert RetirementsBytes([retirements[n]]) == RetirementBytes(retirements[n]) + 1;
  }

  lemma FirstHundred(retirements: seq<Retirement>, size: nat)
    requires |retirements| == MAX_RETIREMENTS + 1 && AtLeast(retirements, size)
    ensures var first := First(BySize(retirements), MAX_RETIREMENTS);
            |first| == MAX_RETIREMENTS && RetirementsBytes(first) + size + 1 <= RetirementsBytes(retirements)
  {
    hide RetirementBytes, RetirementsBytes, BySize;
    SortSum(retirements);
    SortAtLeast(retirements, size);
    DropLast(BySize(retirements));
  }

  lemma PairSize(a: Retirement, b: Retirement)
    requires a.cleanupScope.Some? && b.cleanupScope.Some?
    ensures RetirementsBytes([a, b]) == RetirementBytes(a) + RetirementBytes(b) + 2
    ensures CompletionCleanups([a, b]) == [RetirementCleanup(a), RetirementCleanup(b)]
    ensures CleanupsBytes([RetirementCleanup(a), RetirementCleanup(b)])
            == CleanupBytes(RetirementCleanup(a)) + CleanupBytes(RetirementCleanup(b)) + 2
  {
    hide RetirementBytes, CleanupBytes, RetirementCleanup;
    assert [a, b][1..] == [b] && [b][1..] == [];
    assert RetirementsBytes([b]) == RetirementBytes(b) + 1;
    var c, d := RetirementCleanup(a), RetirementCleanup(b);
    assert [c, d][1..] == [d] && [d][1..] == [];
    assert CleanupsBytes([d]) == CleanupBytes(d) + 1;
  }

  lemma PairTotals(a: Retirement, b: Retirement)
    requires a.cleanupScope.Some? && RetirementBytes(a) == 569 && CleanupBytes(RetirementCleanup(a)) == 222
    requires b.cleanupScope.Some? && RetirementBytes(b) == 569 && CleanupBytes(RetirementCleanup(b)) == 222
    ensures RetirementsBytes([a, b]) == 1140 && CleanupsBytes(CompletionCleanups([a, b])) == 446 && AtLeast([a, b], 535)
  {
    PairSize(a, b);
    hide RetirementBytes, RetirementsBytes, CleanupBytes, CleanupsBytes, CompletionCleanups, RetirementCleanup;
  }

  lemma CompletionsSize()
    ensures var completions := Completions(Crowded().records);
            && |completions| == 2 && RetirementsBytes(completions) == 1140 && AtLeast(completions, 535)
            && CleanupsBytes(CompletionCleanups(completions)) == 446
  {
    FewRetire();
    ReservedSize(0);
    ReservedSize(1);
    hide *;
    var a, b := Completion(LaunchAt(0)), Completion(LaunchAt(1));
    PairTotals(a, b);
    assert Completions(Crowded().records) == [a, b];
  }

  lemma ReservedSize(i: nat)
    requires i < 2
    ensures ToRetire(LaunchAt(i)) && RetirementBytes(Completion(LaunchAt(i))) == 569
    ensures CleanupBytes(RetirementCleanup(Completion(LaunchAt(i)))) == 222
  {
    CompletionSize(i, PLACEHOLDER_SCOPE);
    hide Named, RetirementBytes, CleanupBytes, RetirementCleanup;
    assert Completion(LaunchAt(i)) == RetirementEntry(LaunchAt(i), AT, Some(PLACEHOLDER_SCOPE));
  }

  lemma AllAtLeast()
    ensures AtLeast(Crowded().retirements, 535)
  {
    hide TombstoneAt, RetirementBytes, Launches;
    forall i | 0 <= i < TOMBSTONES ensures RetirementBytes(Crowded().retirements[i]) >= 535 {
      TombstoneSize(FAILED + 2 + i);
    }
  }

  /** With one tombstone too many, the projection counts all but the smallest. */
  lemma PeakBelow(l: Ledger, size: nat)
    requires Sound(l) && l.cleanups == [] && |l.retirements| + |Completions(l.records)| == MAX_RETIREMENTS + 1
    requires AtLeast(l.retirements + Completions(l.records), size)
    ensures var completions := Completions(l.records);
            var bytes := RetirementsBytes(l.retirements) + RetirementsBytes(completions);
            && size + 1 <= bytes
            && Peak(l, false)
               <= Shape(|Kept(l.records)|, RecordsBytes(Kept(l.records)), MAX_RETIREMENTS, bytes - size - 1,
                        |completions|, CleanupsBytes(CompletionCleanups(completions)))
  {
    hide Sound, RetirementBytes, RetirementsBytes, CleanupBytes, CleanupsBytes, RecordBytes, RecordsBytes, Completions,
         Kept, First, BySize, AddCleanups, Size, CompletionCleanups, OneRecordEach, NoneAdded, CleanupsFitRecords,
         ValidRecord, AtLeast, Shape;
    var completions := Completions(l.records);
    SoundIds(l);
    NothingAdded(l);
    RetirementsSum(l.retirements, completions);
    FirstHundred(l.retirements + completions, size);
    AddedCleanups(l.cleanups, l.records);
    assert l.cleanups + CompletionCleanups(completions) == CompletionCleanups(completions);
    SizeShape(Projected(l));
    var bytes := RetirementsBytes(Projected(l).retirements);
    ShapeScoped(|Kept(l.records)|, RecordsBytes(Kept(l.records)), MAX_RETIREMENTS, bytes,
                RetirementsBytes(l.retirements) + RetirementsBytes(completions) - size - 1 - bytes,
                |completions|, CleanupsBytes(CompletionCleanups(completions)));
  }

  lemma Shapes()
    ensures Shape(941, 946_717, 99, 53_064, 0, 0) == 999_853
    ensures Shape(939, 945_573, 100, 53_668, 2, 446) == 999_758
    ensures Shape(940, 946_145, 100, 53_634, 1, 223) == 1_000_073
  {
  }

  lemma Joined(a: seq<Retirement>, b: seq<Retirement>, size: nat)
    requires AtLeast(a, size) && AtLeast(b, size)
    ensures AtLeast(a + b, size)
  {
    hide RetirementBytes;
  }

  lemma NothingAdded(l: Ledger)
    requires l.cleanups == []
    ensures NoneAdded(l.cleanups, l.records)
  {
  }

  lemma CrowdedPeak()
    ensures Peak(Crowded(), false) <= 999_758
  {
    hide Sound, TimesAtLeast, LaunchAt, Launches, Tombstones, RetirementBytes, RetirementsBytes, CleanupsBytes, Peak,
         RecordsBytes, Completions, Completion, Kept, RetiringCount, CompletionCleanups, Shape, AtLeast;
    CrowdedIsSound();
    FewRetire();
    CompletionsSize();
    AllAtLeast();
    LaunchesSize(2, FAILED);
    TombstonesSize(FAILED + 2, TOMBSTONES);
    Joined(Crowded().retirements, Completions(Crowded().records), 535);
    PeakBelow(Crowded(), 535);
    Shapes();
  }

  // ----- the retirement that cannot be completed

  lemma CompletionIsWritten(id: string, scope: string)
    requires id == LaunchAt(0).id && Base64Url(scope, 16)
    ensures CompleteRetirement(Crowded(), id, AT, Some(scope)).Write?
    ensures FindRecord(Crowded().records, id) == 0
  {
    LaunchIsValid(0);
    hide ValidRecord, Named, Tombstones, SafeId;
    assert Crowded().records[0] == LaunchAt(0);
    EntryIsValid(scope);
  }

  lemma EntryIsValid(scope: string)
    requires Base64Url(scope, 16)
    ensures ValidRetirement(RetirementEntry(LaunchAt(0), AT, Some(scope)))
  {
    LaunchIsValid(0);
    TombstoneIsValid(0);
    hide TaggedUuid, Base64Url, SafeId, Named;
  }

  function Entry(scope: string): (t: Retirement)
    ensures t.cleanupScope == Some(scope)
  {
    RetirementEntry(LaunchAt(0), AT, Some(scope))
  }

  /** What is left once the first retirement has completed. */
  function Completed(scope: string): Ledger {
    Ledger(Launches(1, FAILED + 1), Tombstones(FAILED + 2, TOMBSTONES) + [Entry(scope)],
           [RetirementCleanup(Entry(scope))])
  }

  lemma CompletesTo(scope: string)
    requires Base64Url(scope, 16)
    ensures CompleteRetirement(Crowded(), LaunchAt(0).id, AT, Some(scope)) == Write(Completed(scope))
  {
    var l, id := Crowded(), LaunchAt(0).id;
    CrowdedIsSound();
    CompletionIsWritten(id, scope);
    CompleteRetirementKeepsSound(l, id, AT, Some(scope));
    hide Sound, TimesAtLeast, CompleteRetirement, RetirementCleanup, Entry, LaunchAt;
    assert l.records[0] == LaunchAt(0) && Entry(scope) == RetirementEntry(l.records[0], AT, Some(scope));
    assert Without(l.records, 0) == l.records[1..] == Launches(1, FAILED + 1);
    assert Newest(l.retirements + [Entry(scope)]) == l.retirements + [Entry(scope)];
    assert l.cleanups + [RetirementCleanup(Entry(scope))] == [RetirementCleanup(Entry(scope))];
  }

  lemma CompletedSize(scope: string)
    requires |scope| == 16
    ensures Size(Completed(scope), false) == 1_000_073
  {
    EntrySize(scope);
    hide Entry, Launches, Tombstones, RetirementCleanup, RetirementBytes, RetirementsBytes, CleanupBytes, CleanupsBytes,
         RecordsBytes, Size, Shape;
    Shapes();
    RetiringSize(FAILED);
    TombstonesSize(FAILED + 2, TOMBSTONES);
    AddedSize(Tombstones(FAILED + 2, TOMBSTONES), Entry(scope));
    SizeShape(Completed(scope));
  }

  lemma EntrySize(scope: string)
    requires |scope| == 16
    ensures RetirementBytes(Entry(scope)) == 569 && CleanupBytes(RetirementCleanup(Entry(scope))) == 222
  {
    CompletionSize(0, scope);
    hide RetirementBytes, CleanupBytes, RetirementCleanup, LaunchAt;
  }

  lemma AddedSize(retirements: seq<Retirement>, t: Retirement)
    requires t.cleanupScope.Some?
    ensures RetirementsBytes(retirements + [t]) == RetirementsBytes(retirements) + RetirementBytes(t) + 1
    ensures CleanupsBytes([RetirementCleanup(t)]) == CleanupBytes(RetirementCleanup(t)) + 1
  {
    hide RetirementBytes, CleanupBytes;
    RetirementsSum(retirements, [t]);
    assert RetirementsBytes([t]) == RetirementBytes(t) + 1;
  }

  /** A sound ledger that passed both size checks, with two retirements under way and all timestamps of one
      length, in which the first cannot be completed any more, whatever scope the provider reports. So the condition
      of `ReservationSuffices` that tombstones stay within a hundred cannot be dropped. */
  lemma ReservationCanFallShort(scope: string) returns (op: Op)
    requires Base64Url(scope, 16)
    ensures Sound(Crowded()) && TimesAtLeast(Crowded(), 24) && Fits(Crowded(), false) && !Roomy(Crowded())
    ensures op.Complete? && op.scope == Some(scope) && op.now.width == 24
    ensures Apply(Crowded(), op).Write? && !Fits(Apply(Crowded(), op).next, false)
  {
    op := Complete(LaunchAt(0).id, AT, Some(scope));
    CrowdedIsSound();
    CrowdedSize();
    CrowdedPeak();
    CompletesTo(scope);
    CompletedSize(scope);
    FewRetire();
    hide Sound, TimesAtLeast, LaunchAt, Launches, Tombstones, Completed, CompleteRetirement, Size, Peak, RetiringCount,
         Completions, Kept;
  }
}
