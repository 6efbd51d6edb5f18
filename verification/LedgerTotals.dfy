/** What the records, tombstones and cleanups of a ledger take together, now and once its retirements are completed. */
module LedgerTotals {
  import opened Common
  import opened LaunchContracts
  import opened LedgerState
  import opened LedgerSize

  // ----- a tombstone with its cleanup outweighs the retiring record it replaces

  lemma RecordLengths(r: Record)
    requires ValidRecord(r) && ToRetire(r)
    ensures |r.id| == 43 && |r.attemptId| == 44 && |r.keyHash| == 43 && |r.signature| == 43
    ensures |r.retirementKeyHash.value| == 43
    ensures r.providerAgentId.Some? && |r.providerAgentId.value| <= 100 && r.agentId.Some? && |r.agentId.value| <= 100
    ensures 1 <= |r.request.provider| && r.error.None?
  {
  }

  lemma CompletionOutweighsRecord(r: Record)
    requires ValidRecord(r) && ToRetire(r)
    ensures RecordBytes(r) + 22 <= RetirementBytes(Completion(r)) + CleanupBytes(RetirementCleanup(Completion(r)))
  {
    RecordLengths(r);
    hide ValidRecord, RequestBytes;
    assert |PLACEHOLDER_SCOPE| == 16;
    assert RecordBytes(r) <= 875 + RequestBytes(r.request) + r.requestedAt.width + r.updatedAt.width;
  }

  lemma CancelShrinks(r: Record, now: Stamp)
    requires ValidRecord(r) && ToRetire(r) && now.width <= r.updatedAt.width
    ensures RecordBytes(r.(state := Owned, retirementKeyHash := None,
                           updatedAt := Later(r.updatedAt, now))) < RecordBytes(r)
  {
  }

  lemma NoLargerThanReserved(r: Record, now: Stamp, scope: Option<string>)
    requires ValidRecord(r) && ToRetire(r) && now.width <= r.updatedAt.width
    requires ValidRetirement(RetirementEntry(r, now, scope))
    ensures RetirementBytes(RetirementEntry(r, now, scope)) <= RetirementBytes(Completion(r))
    ensures scope.Some? ==>
              CleanupBytes(RetirementCleanup(RetirementEntry(r, now, scope)))
                == CleanupBytes(RetirementCleanup(Completion(r)))
  {
  }

  // ----- sums

  function CompletionCleanups(completions: seq<Retirement>): (cleanups: seq<Cleanup>)
    requires forall i :: 0 <= i < |completions| ==> completions[i].cleanupScope.Some?
    ensures |cleanups| == |completions|
    ensures forall i :: 0 <= i < |cleanups| ==> cleanups[i] == RetirementCleanup(completions[i])
  {
    if completions == [] then [] else [RetirementCleanup(completions[0])] + CompletionCleanups(completions[1..])
  }

  lemma {:induction false} RetirementsSum(a: seq<Retirement>, b: seq<Retirement>)
    ensures RetirementsBytes(a + b) == RetirementsBytes(a) + RetirementsBytes(b)
  {
    if a == [] {
      assert a + b == b;
    } else {
      assert (a + b)[1..] == a[1..] + b;
      RetirementsSum(a[1..], b);
    }
  }

  lemma {:induction false} CleanupsSum(a: seq<Cleanup>, b: seq<Cleanup>)
    ensures CleanupsBytes(a + b) == CleanupsBytes(a) + CleanupsBytes(b)
  {
    if a == [] {
      assert a + b == b;
    } else {
      assert (a + b)[1..] == a[1..] + b;
      CleanupsSum(a[1..], b);
    }
  }

  lemma {:induction false} InsertSum(t: Retirement, sorted: seq<Retirement>)
    ensures |Insert(t, sorted)| == |sorted| + 1
    ensures RetirementsBytes(Insert(t, sorted)) == RetirementBytes(t) + 1 + RetirementsBytes(sorted)
  {
    hide RecordBytes, RetirementBytes, CleanupBytes;
    if sorted != [] && LargerFirst(sorted[0], t) {
      InsertSum(t, sorted[1..]);
      assert Insert(t, sorted)[1..] == Insert(t, sorted[1..]);
    } else {
      assert Insert(t, sorted)[1..] == sorted;
    }
  }

  lemma {:induction false} SortSum(retirements: seq<Retirement>)
    ensures |BySize(retirements)| == |retirements|
    ensures RetirementsBytes(BySize(retirements)) == RetirementsBytes(retirements)
  {
    hide RecordBytes, RetirementBytes, CleanupBytes;
    if retirements != [] {
      SortSum(retirements[1..]);
      InsertSum(retirements[0], BySize(retirements[1..]));
    }
  }

  /** The four totals a set of records contributes to the projection. */
  function KeptBytes(records: seq<Record>): nat {
    RecordsBytes(Kept(records))
  }

  function TombstoneBytes(records: seq<Record>): nat {
    RetirementsBytes(Completions(records))
  }

  function DutyBytes(records: seq<Record>): nat {
    CleanupsBytes(CompletionCleanups(Completions(records)))
  }

  function OneKept(r: Record): nat { if ToRetire(r) then 0 else RecordBytes(r) + 1 }
  function OneTombstone(r: Record): nat { if ToRetire(r) then RetirementBytes(Completion(r)) + 1 else 0 }
  function OneDuty(r: Record): nat { if ToRetire(r) then CleanupBytes(RetirementCleanup(Completion(r))) + 1 else 0 }
  function One(r: Record): nat { if ToRetire(r) then 1 else 0 }

  lemma HeadTotals(records: seq<Record>)
    requires records != []
    ensures KeptBytes(records) == OneKept(records[0]) + KeptBytes(records[1..])
    ensures |Kept(records)| + One(records[0]) == 1 + |Kept(records[1..])|
    ensures TombstoneBytes(records) == OneTombstone(records[0]) + TombstoneBytes(records[1..])
    ensures |Completions(records)| == One(records[0]) + |Completions(records[1..])|
    ensures DutyBytes(records) == OneDuty(records[0]) + DutyBytes(records[1..])
  {
    hide RecordBytes, RetirementBytes, CleanupBytes;
    var r := records[0];
    var rest := records[1..];
    if ToRetire(r) {
      assert Completions(records)[1..] == Completions(rest);
      assert CompletionCleanups(Completions(records))[1..] == CompletionCleanups(Completions(rest));
    } else {
      assert Kept(records)[1..] == Kept(rest);
    }
  }

  lemma {:induction false} WithoutTotals(records: seq<Record>, k: nat)
    requires k < |records|
    ensures KeptBytes(records) == KeptBytes(Without(records, k)) + OneKept(records[k])
    ensures |Kept(records)| + One(records[k]) == |Kept(Without(records, k))| + 1
    ensures TombstoneBytes(records) == TombstoneBytes(Without(records, k)) + OneTombstone(records[k])
    ensures |Completions(records)| == |Completions(Without(records, k))| + One(records[k])
    ensures DutyBytes(records) == DutyBytes(Without(records, k)) + OneDuty(records[k])
  {
    hide KeptBytes, TombstoneBytes, DutyBytes, OneKept, OneTombstone, OneDuty, One, Kept, Completions, Without;
    HeadTotals(records);
    WithoutHead(records, k);
    if k > 0 {
      var rest, without := records[1..], Without(records, k);
      assert rest[k - 1] == records[k];
      WithoutTotals(rest, k - 1);
      HeadTotals(without);
    }
  }

  lemma WithoutHead<T>(s: seq<T>, k: nat)
    requires k < |s|
    ensures k == 0 ==> Without(s, k) == s[1..]
    ensures k > 0 ==> Without(s, k) != [] && Without(s, k)[0] == s[0] && Without(s, k)[1..] == Without(s[1..], k - 1)
  {
  }

  lemma ReplaceTotals(records: seq<Record>, k: nat, r: Record)
    requires k < |records|
    ensures Without(records[k := r], k) == Without(records, k)
  {
  }

  /** All records together stay below what is kept plus what the retiring ones will turn into. */
  lemma {:induction false} RecordsBelowProjection(records: seq<Record>)
    requires forall i :: 0 <= i < |records| ==> ValidRecord(records[i])
    ensures RecordsBytes(records) + 22 * |Completions(records)| <= KeptBytes(records) + TombstoneBytes(records)
            + DutyBytes(records)
    ensures |records| == |Kept(records)| + |Completions(records)|
    ensures |Completions(records)| == RetiringCount(records)
  {
    hide RecordBytes, RetirementBytes, CleanupBytes;
    if records != [] {
      RecordsBelowProjection(records[1..]);
      HeadTotals(records);
      if ToRetire(records[0]) {
        CompletionOutweighsRecord(records[0]);
      }
    }
  }

  // ----- the projection, as totals

  predicate OneRecordEach(records: seq<Record>) {
    forall i, j :: 0 <= i < |records| && 0 <= j < |records| && records[i].id == records[j].id ==> i == j
  }

  lemma CompletionsFirst(records: seq<Record>)
    requires records != []
    ensures if ToRetire(records[0]) then
              && Completions(records) == [Completion(records[0])] + Completions(records[1..])
              && CompletionCleanups(Completions(records))
                 == [RetirementCleanup(Completion(records[0]))] + CompletionCleanups(Completions(records[1..]))
            else
              Completions(records) == Completions(records[1..])
  {
    hide Completion, RetirementCleanup;
    if ToRetire(records[0]) {
      assert Completions(records)[1..] == Completions(records[1..]);
    }
  }

  /** No cleanup is for one of these records. */
  ghost predicate NoneAdded(cleanups: seq<Cleanup>, records: seq<Record>) {
    forall i, j :: 0 <= i < |cleanups| && 0 <= j < |records| ==> cleanups[i].launchId != records[j].id
  }

  lemma {:induction false} AddedCleanups(cleanups: seq<Cleanup>, records: seq<Record>)
    requires OneRecordEach(records) && NoneAdded(cleanups, records)
    ensures AddCleanups(cleanups, Completions(records)) == cleanups + CompletionCleanups(Completions(records))
    decreases |records|
  {
    if records == [] {
    } else {
      CompletionsFirst(records);
      AddedRest(cleanups, records);
      hide OneRecordEach, NoneAdded, PutCleanup, Completions, CompletionCleanups, AddCleanups;
      if ToRetire(records[0]) {
        var c := RetirementCleanup(Completion(records[0]));
        AddedFirst(cleanups, records, c);
        AddedOnce(cleanups, records);
        AddedCleanups(cleanups + [c], records[1..]);
        Shifted(cleanups, c, CompletionCleanups(Completions(records[1..])));
      } else {
        AddedCleanups(cleanups, records[1..]);
      }
    }
  }

  lemma Shifted<T>(front: seq<T>, x: T, back: seq<T>)
    ensures (front + [x]) + back == front + ([x] + back)
  {
  }

  lemma AddedOnce(cleanups: seq<Cleanup>, records: seq<Record>)
    requires records != [] && ToRetire(records[0])
    ensures AddCleanups(cleanups, Completions(records))
            == AddCleanups(PutCleanup(cleanups, RetirementCleanup(Completion(records[0]))), Completions(records[1..]))
  {
    hide PutCleanup, RetirementCleanup, Completion;
    assert Completions(records)[1..] == Completions(records[1..]);
  }

  lemma AddedRest(cleanups: seq<Cleanup>, records: seq<Record>)
    requires records != [] && OneRecordEach(records) && NoneAdded(cleanups, records)
    ensures OneRecordEach(records[1..]) && NoneAdded(cleanups, records[1..])
  {
  }

  lemma AddedFirst(cleanups: seq<Cleanup>, records: seq<Record>, c: Cleanup)
    requires records != [] && c.launchId == records[0].id && OneRecordEach(records) && NoneAdded(cleanups, records)
    ensures PutCleanup(cleanups, c) == cleanups + [c] && NoneAdded(cleanups + [c], records[1..])
  {
    assert FindCleanup(cleanups, c.launchId) == |cleanups|;
    forall i, j | 0 <= i < |cleanups| + 1 && 0 <= j < |records| - 1
      ensures (cleanups + [c])[i].launchId != records[1..][j].id
    {
      assert records[1..][j] == records[j + 1];
    }
  }

  lemma SoundIds(l: Ledger)
    requires Sound(l)
    ensures OneRecordEach(l.records) && CleanupsFitRecords(l.cleanups, l.records)
    ensures forall i :: 0 <= i < |l.records| ==> ValidRecord(l.records[i])
  {
    hide ValidRecord, ValidRetirement, ValidCleanup;
    forall i, j | 0 <= i < |l.records| && 0 <= j < |l.records| && l.records[i].id == l.records[j].id ensures i == j {
      assert i < j ==> Apart(RecordRow(l.records[i]), RecordRow(l.records[j]));
      assert j < i ==> Apart(RecordRow(l.records[j]), RecordRow(l.records[i]));
      assert RecordRow(l.records[i]).id == l.records[i].id && RecordRow(l.records[j]).id == l.records[j].id;
    }
  }

  function Shape(
      records: nat, recordBytes: nat, retirements: nat, retirementBytes: nat, cleanups: nat, cleanupBytes: nat): nat
  {
    2 + Member("schemaVersion", 1) + Member("records", Array(records, recordBytes))
    + if retirements == 0 && cleanups == 0 then 0
      else
        Member("retirements", Array(retirements, retirementBytes))
        + Member("retirementCleanups", Array(cleanups, cleanupBytes))
  }

  lemma SizeShape(l: Ledger)
    ensures Size(l, false)
            == Shape(|l.records|, RecordsBytes(l.records), |l.retirements|, RetirementsBytes(l.retirements),
                     |l.cleanups|, CleanupsBytes(l.cleanups))
  {
    hide RecordBytes, RetirementBytes, CleanupBytes;
  }

  lemma ShapeScoped(k: nat, K: nat, c: nat, T: nat, more: nat, d: nat, D: nat)
    ensures Shape(k, K, c, T, d, D) <= Shape(k, K, c, T + more, d, D)
  {
  }

  /** The tombstones kept and those to come are within the hundred that are retained. */
  predicate Roomy(l: Ledger) {
    |l.retirements| + RetiringCount(l.records) <= MAX_RETIREMENTS
  }

  lemma ApartFromRecords(l: Ledger)
    requires CleanupsFitRecords(l.cleanups, l.records)
    ensures NoneAdded(l.cleanups, l.records)
  {
    hide RecordBytes, RetirementBytes, CleanupBytes;
  }
}
