/** The order of records and of cleanups carries no meaning: a failed write may leave a restored entry at
    the end of its map, and reading the compact form back lists the cleanups in the order of the tombstones. */
module LedgerOrder {
  import opened Common
  import opened LaunchContracts
  import opened LedgerState
  import opened LedgerEncoding

  /** The same tombstones, and the same records and cleanups in any order. */
  ghost predicate SameEntries(a: Ledger, b: Ledger) {
    multiset(a.records) == multiset(b.records) && a.retirements == b.retirements
    && multiset(a.cleanups) == multiset(b.cleanups)
  }

  // ----- places in two lists with the same elements

  lemma Rest<T>(s: seq<T>, k: nat)
    requires k < |s|
    ensures multiset(Without(s, k)) == multiset(s) - multiset{s[k]}
  {
    assert s == s[..k] + [s[k]] + s[k + 1..];
  }

  lemma Place<T>(a: seq<T>, b: seq<T>, i: nat) returns (p: nat)
    requires multiset(a) == multiset(b) && i < |a|
    ensures p < |b| && b[p] == a[i]
  {
    assert a[i] in multiset(b);
    p :| 0 <= p < |b| && b[p] == a[i];
  }

  /** Two places of one list are two places of the other. */
  lemma TwoPlaces<T>(a: seq<T>, b: seq<T>, i: nat, j: nat) returns (p: nat, q: nat)
    requires multiset(a) == multiset(b) && i < |a| && j < |a| && i != j
    ensures p < |b| && q < |b| && p != q && b[p] == a[i] && b[q] == a[j]
  {
    p := Place(a, b, i);
    Rest(a, i);
    Rest(b, p);
    var j' := if j < i then j else j - 1;
    WithoutIndex(a, i, j');
    var q' := Place(Without(a, i), Without(b, p), j');
    WithoutIndex(b, p, q');
    q := if q' < p then q' else q' + 1;
  }

  lemma SameLength<T>(a: seq<T>, b: seq<T>)
    requires multiset(a) == multiset(b)
    ensures |a| == |b|
  {
    assert |multiset(a)| == |a| && |multiset(b)| == |b|;
  }

  // ----- soundness does not depend on the order

  lemma {:induction false} SameRetiring(a: seq<Record>, b: seq<Record>)
    requires multiset(a) == multiset(b)
    ensures RetiringCount(a) == RetiringCount(b)
    decreases |a|
  {
    SameLength(a, b);
    if a != [] {
      var p := Place(a, b, 0);
      Rest(a, 0);
      Rest(b, p);
      SameRetiring(Without(a, 0), Without(b, p));
      RetiringCountWithout(a, 0);
      RetiringCountWithout(b, p);
    }
  }

  lemma SameRecordsSound(a: seq<Record>, b: seq<Record>)
    requires multiset(a) == multiset(b) && RecordsSound(b)
    ensures RecordsSound(a)
  {
    hide ValidRecord;
    SameLength(a, b);
    forall i | 0 <= i < |a| ensures ValidRecord(a[i]) && a[i].retirementKeyHash != Some(a[i].keyHash) {
      var p := Place(a, b, i);
    }
    forall i, j | 0 <= i < j < |a| ensures Apart(RecordRow(a[i]), RecordRow(a[j])) {
      var p, q := TwoPlaces(a, b, i, j);
      assert p < q ==> Apart(RecordRow(b[p]), RecordRow(b[q]));
      assert q < p ==> Apart(RecordRow(b[q]), RecordRow(b[p]));
    }
  }

  lemma SameCleanupsSound(a: seq<Cleanup>, b: seq<Cleanup>)
    requires multiset(a) == multiset(b) && CleanupsSound(b)
    ensures CleanupsSound(a)
  {
    hide ValidCleanup;
    forall i | 0 <= i < |a| ensures ValidCleanup(a[i]) {
      var p := Place(a, b, i);
    }
    forall i, j | 0 <= i < j < |a| ensures a[i].launchId != a[j].launchId && a[i].attemptId != a[j].attemptId {
      var p, q := TwoPlaces(a, b, i, j);
      assert p < q ==> b[p].launchId != b[q].launchId && b[p].attemptId != b[q].attemptId;
    }
  }

  lemma SameKeepsApart(a: Ledger, b: Ledger)
    requires SameEntries(a, b)
    requires Disjoint(b.records, b.retirements)
    requires CleanupsFitRetirements(b.cleanups, b.retirements) && CleanupsFitRecords(b.cleanups, b.records)
    ensures Disjoint(a.records, a.retirements)
    ensures CleanupsFitRetirements(a.cleanups, a.retirements) && CleanupsFitRecords(a.cleanups, a.records)
  {
    hide Compatible, RecordRow, RetirementRow;
    forall i, j | 0 <= i < |a.records| && 0 <= j < |a.retirements|
      ensures Apart(RecordRow(a.records[i]), RetirementRow(a.retirements[j]))
    {
      var p := Place(a.records, b.records, i);
      assert Apart(RecordRow(b.records[p]), RetirementRow(b.retirements[j]));
    }
    forall i, j | 0 <= i < |a.cleanups| && 0 <= j < |a.retirements|
      ensures Compatible(a.cleanups[i], a.retirements[j])
    {
      var p := Place(a.cleanups, b.cleanups, i);
      assert Compatible(b.cleanups[p], b.retirements[j]);
    }
    forall i, j | 0 <= i < |a.cleanups| && 0 <= j < |a.records|
      ensures a.cleanups[i].launchId != a.records[j].id && a.cleanups[i].attemptId != a.records[j].attemptId
    {
      var p := Place(a.cleanups, b.cleanups, i);
      var q := Place(a.records, b.records, j);
      assert b.cleanups[p].launchId != b.records[q].id;
    }
  }

  lemma SameEntriesSound(a: Ledger, b: Ledger)
    requires SameEntries(a, b) && Sound(b)
    ensures Sound(a)
  {
    hide RecordsSound, RetirementsSound, CleanupsSound, Disjoint, CleanupsFitRetirements, CleanupsFitRecords,
         RetiringCount;
    SameRecordsSound(a.records, b.records);
    SameCleanupsSound(a.cleanups, b.cleanups);
    SameKeepsApart(a, b);
    SameRetiring(a.records, b.records);
    SameLength(a.cleanups, b.cleanups);
  }

  // ----- reading back what was written

  lemma {:induction false} CountOfOne(cleanups: seq<Cleanup>, c: Cleanup)
    requires OneEach(cleanups)
    ensures multiset(cleanups)[c] == if c in cleanups then 1 else 0
  {
    if cleanups != [] {
      var rest := cleanups[1..];
      assert cleanups == [cleanups[0]] + rest;
      CountOfOne(rest, c);
      forall k | 0 <= k < |rest| ensures rest[k].launchId != cleanups[0].launchId {
        assert rest[k] == cleanups[k + 1];
      }
    }
  }

  lemma SoundOneEach(l: Ledger)
    requires Sound(l)
    ensures OneEach(l.cleanups)
  {
    hide RecordsSound, RetirementsSound, Disjoint, CleanupsFitRetirements, CleanupsFitRecords, RetiringCount,
         ValidCleanup;
  }

  lemma SameCounts(a: seq<Cleanup>, b: seq<Cleanup>)
    requires OneEach(a) && OneEach(b) && forall c :: c in a <==> c in b
    ensures multiset(a) == multiset(b)
  {
    forall c ensures multiset(a)[c] == multiset(b)[c] {
      CountOfOne(a, c);
      CountOfOne(b, c);
    }
  }

  /** Whatever was written for a ledger, in either encoding, opens as the same entries. */
  lemma ReopenedIsSame(l: Ledger, compact: bool)
    requires Sound(l)
    ensures Readable(Encode(l, compact)) && SameEntries(Loaded(Encode(l, compact)), l)
  {
    hide Sound, Encode, Loaded, OneEach;
    RoundTrip(l, compact);
    var again := Loaded(Encode(l, compact));
    SoundOneEach(l);
    SoundOneEach(again);
    SameCounts(again.cleanups, l.cleanups);
  }
}
