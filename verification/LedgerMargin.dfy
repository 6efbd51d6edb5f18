/** Exactly when a completion or a cancellation still fits, for either encoding of the ledger file: what leaves the
    file and what arrives in it, and the one size check of the two that can refuse the operation. */
module LedgerMargin {
  import opened Common
  import opened LaunchContracts
  import opened LedgerState
  import opened LedgerEncoding
  import opened LedgerSize
  import opened LedgerTotals
  import opened LedgerLargest
  import opened LedgerMatching

  // ----- the file, with the list of cleanups apart

  /** Whether this encoding names the cleanups: the compact one does not where they follow from the tombstones. */
  predicate Names(l: Ledger, compact: bool) {
    !(compact && ExactlyMatch(l.retirements, l.cleanups))
  }

  function ListBytes(l: Ledger, compact: bool): nat {
    if (l.retirements == [] && l.cleanups == []) || !Names(l, compact) then 0
    else Member("retirementCleanups", Array(|l.cleanups|, CleanupsBytes(l.cleanups)))
  }

  function Unlisted(records: nat, recordBytes: nat, retirements: nat, retirementBytes: nat, cleanups: nat): nat {
    2 + Member("schemaVersion", 1) + Member("records", Array(records, recordBytes))
    + if retirements == 0 && cleanups == 0 then 0 else Member("retirements", Array(retirements, retirementBytes))
  }

  function UnlistedBytes(l: Ledger): nat {
    Unlisted(|l.records|, RecordsBytes(l.records), |l.retirements|, RetirementsBytes(l.retirements), |l.cleanups|)
  }

  lemma SizeParts(l: Ledger, compact: bool)
    ensures Size(l, compact) == UnlistedBytes(l) + ListBytes(l, compact)
  {
    hide RecordsBytes, RetirementsBytes, CleanupsBytes, Scoped, CleanedUpBy;
  }

  /** What one element takes in an array of so many: its text, and a comma unless it is the only one. */
  function Element(count: nat, bytes: nat): nat {
    bytes + if count <= 1 then 0 else 1
  }

  // ----- a completion, in the file

  function Dropped(l: Ledger): nat {
    if |l.retirements| == MAX_RETIREMENTS then RetirementBytes(l.retirements[0]) + 1 else 0
  }

  /** The record, and the oldest tombstone where there are a hundred. */
  function Leaving(l: Ledger, k: nat): nat
    requires k < |l.records|
  {
    Element(|l.records|, RecordBytes(l.records[k])) + Dropped(l)
  }

  /** The tombstone with, for the first entry, its section, and where they are named the cleanup with its own. */
  function Arriving(l: Ledger, t: Retirement, named: bool): nat {
    Element(|l.retirements| + 1, RetirementBytes(t))
    + (if l.retirements == [] && l.cleanups == [] then Member("retirements", 2) else 0)
    + if named then ArrivingCleanup(l, t) else 0
  }

  function ArrivingCleanup(l: Ledger, t: Retirement): nat {
    (if t.cleanupScope.Some? then Element(|l.cleanups| + 1, CleanupBytes(RetirementCleanup(t))) else 0)
    + if l.retirements == [] && l.cleanups == [] then Member("retirementCleanups", 2) else 0
  }

  /** The retiring record at this place turned into this tombstone. */
  predicate Completes(l: Ledger, next: Ledger, k: nat, t: Retirement) {
    && k < |l.records| && ToRetire(l.records[k]) && t.launchId == l.records[k].id
    && next.records == Without(l.records, k) && next.retirements == Newest(l.retirements + [t])
    && next.cleanups == if t.cleanupScope.Some? then l.cleanups + [RetirementCleanup(t)] else l.cleanups
  }

  lemma {:induction false} RecordsWithoutBytes(records: seq<Record>, k: nat)
    requires k < |records|
    ensures RecordsBytes(records) == RecordsBytes(Without(records, k)) + RecordBytes(records[k]) + 1
  {
    hide RecordBytes, Without;
    WithoutHead(records, k);
    if k > 0 {
      RecordsWithoutBytes(records[1..], k - 1);
    }
  }

  lemma NewestBytes(l: Ledger, t: Retirement)
    requires |l.retirements| <= MAX_RETIREMENTS
    ensures var next := Newest(l.retirements + [t]);
            && |next| == (if |l.retirements| == MAX_RETIREMENTS then MAX_RETIREMENTS else |l.retirements| + 1)
            && RetirementsBytes(next) + Dropped(l) == RetirementsBytes(l.retirements) + RetirementBytes(t) + 1
  {
    hide RetirementBytes;
    var all := l.retirements + [t];
    RetirementsSum(l.retirements, [t]);
    assert RetirementsBytes([t]) == RetirementBytes(t) + 1;
    assert all[0] == if l.retirements == [] then t else l.retirements[0];
    assert |l.retirements| == MAX_RETIREMENTS ==> Newest(all) == all[1..];
  }

  lemma RecordLeaves(n: nat, R: nat, r: nat)
    requires n > 0 && R >= r + 1 && (n == 1 ==> R == r + 1)
    ensures Array(n - 1, R - r - 1) == Array(n, R) - Element(n, r)
    ensures n == 1 ==> Array(n - 1, R - r - 1) == 2
  {
  }

  lemma EntryArrives(m: nat, T: nat, t: nat)
    requires m == 0 ==> T == 0
    ensures Array(m + 1, T + t + 1) == Array(m, T) + Element(m + 1, t)
    ensures m == 0 ==> Array(m, T) == 2
  {
  }

  lemma EntryReplaces(m: nat, T: nat, t: nat, dropped: nat)
    requires m > 0 && T + t + 1 >= dropped
    ensures Array(m, T + t + 1 - dropped) == Array(m, T) + Element(m + 1, t) - dropped
  {
  }

  lemma OneMember(name: string, value: nat)
    ensures Member(name, value) == Member(name, 0) + value
  {
  }

  lemma OneLeft(records: seq<Record>)
    requires |records| == 1
    ensures RecordsBytes(records) == RecordBytes(records[0]) + 1
  {
    hide RecordBytes;
    assert records[1..] == [];
  }

  lemma CompletionCounts(l: Ledger, next: Ledger, k: nat, t: Retirement)
    requires Completes(l, next, k, t) && |l.retirements| <= MAX_RETIREMENTS
    ensures k < |l.records| && |next.records| == |l.records| - 1
    ensures RecordsBytes(next.records) == RecordsBytes(l.records) - RecordBytes(l.records[k]) - 1
    ensures |l.records| == 1 ==> RecordsBytes(l.records) == RecordBytes(l.records[k]) + 1
    ensures |next.retirements| == if |l.retirements| == MAX_RETIREMENTS then MAX_RETIREMENTS else |l.retirements| + 1
    ensures RetirementsBytes(next.retirements)
            == RetirementsBytes(l.retirements) + RetirementBytes(t) + 1 - Dropped(l)
    ensures l.retirements == [] ==> RetirementsBytes(l.retirements) == 0
    ensures |l.retirements| < MAX_RETIREMENTS ==> Dropped(l) == 0
  {
    hide RecordBytes, RetirementBytes, RecordsBytes, Newest, RetirementCleanup, ToRetire;
    RecordsWithoutBytes(l.records, k);
    NewestBytes(l, t);
    if |l.records| == 1 {
      OneLeft(l.records);
    }
  }

  /** What a completion leaves, but for the list of cleanups. */
  lemma CompletionUnlisted(l: Ledger, next: Ledger, k: nat, t: Retirement)
    requires Completes(l, next, k, t) && |l.retirements| <= MAX_RETIREMENTS
    ensures k < |l.records| && UnlistedBytes(next) == UnlistedBytes(l) - Leaving(l, k) + Arriving(l, t, false)
  {
    hide RecordBytes, RetirementBytes, RecordsBytes, RetirementsBytes, Element, Completes, Array, Member, Dropped,
         ArrivingCleanup;
    CompletionCounts(l, next, k, t);
    OneMember("records", Array(|l.records|, RecordsBytes(l.records)));
    OneMember("records", Array(|next.records|, RecordsBytes(next.records)));
    OneMember("retirements", Array(|l.retirements|, RetirementsBytes(l.retirements)));
    OneMember("retirements", Array(|next.retirements|, RetirementsBytes(next.retirements)));
    OneMember("retirements", 2);
    RecordLeaves(|l.records|, RecordsBytes(l.records), RecordBytes(l.records[k]));
    EntryArrives(|l.retirements|, RetirementsBytes(l.retirements), RetirementBytes(t));
    if |l.retirements| == MAX_RETIREMENTS {
      EntryReplaces(|l.retirements|, RetirementsBytes(l.retirements), RetirementBytes(t), Dropped(l));
    }
  }

  lemma ListMoves(l: Ledger, next: Ledger, k: nat, t: Retirement, compact: bool)
    requires Completes(l, next, k, t) && (Names(next, compact) <==> Names(l, compact))
    ensures ListBytes(next, compact)
            == ListBytes(l, compact) + if Names(l, compact) then ArrivingCleanup(l, t) else 0
  {
    hide CleanupBytes, Names, RetirementCleanup, ToRetire;
    assert next.retirements != [];
    if t.cleanupScope.Some? {
      CleanupsSum(l.cleanups, [RetirementCleanup(t)]);
      assert CleanupsBytes([RetirementCleanup(t)]) == CleanupBytes(RetirementCleanup(t)) + 1;
    }
  }

  lemma RetiringHasKey(l: Ledger, k: nat)
    requires Sound(l) && k < |l.records| && l.records[k].state.Retiring?
    ensures ToRetire(l.records[k]) && ValidRecord(l.records[k])
  {
  }

  lemma CompletionIs(l: Ledger, id: string, now: Stamp, scope: Option<string>)
    requires Sound(l) && CompleteRetirement(l, id, now, scope).Write?
    ensures var k := FindRecord(l.records, id);
            && k < |l.records| && ToRetire(l.records[k]) && l.records[k].retirementKeyHash.Some?
            && Completes(l, CompleteRetirement(l, id, now, scope).next, k, RetirementEntry(l.records[k], now, scope))
            && ValidRecord(l.records[k]) && ValidRetirement(RetirementEntry(l.records[k], now, scope))
  {
    hide Sound, ValidRecord, ValidRetirement, RetirementCleanup, Newest, Without, PutRetirement, PutCleanup,
         DropCleanup;
    CompleteRetirementKeepsSound(l, id, now, scope);
    SoundIds(l);
    RetiringHasKey(l, FindRecord(l.records, id));
  }

  // ----- the projected ledger, in the same parts

  function Candidates(l: Ledger): seq<Retirement> {
    l.retirements + Completions(l.records)
  }

  function Counted(l: Ledger): nat {
    if |Candidates(l)| > MAX_RETIREMENTS then MAX_RETIREMENTS else |Candidates(l)|
  }

  function Duties(l: Ledger): nat {
    |l.cleanups| + |Completions(l.records)|
  }

  lemma ProjectedParts(l: Ledger)
    requires Sound(l)
    ensures UnlistedBytes(Projected(l))
            == Unlisted(|Kept(l.records)|, KeptBytes(l.records), Counted(l), Largest(Candidates(l)), Duties(l))
    ensures ListBytes(Projected(l), false)
            == (if Counted(l) == 0 && Duties(l) == 0 then 0
                else Member("retirementCleanups", Array(Duties(l), CleanupsBytes(l.cleanups) + DutyBytes(l.records))))
  {
    hide Sound, OneRecordEach, NoneAdded, NoneRetired, ExactlyMatch, BySize, Completions, CompletionCleanups, Kept,
         AddCleanups, RetirementsBytes, CleanupsBytes, RecordsBytes, Member, Array, RetiringCount;
    SoundDisjoint(l);
    SortDescends(Candidates(l));
    AddedCleanups(l.cleanups, l.records);
    CleanupsSum(l.cleanups, CompletionCleanups(Completions(l.records)));
  }

  lemma {:induction false} CompletionsSum(a: seq<Record>, b: seq<Record>)
    ensures Completions(a + b) == Completions(a) + Completions(b)
  {
    hide Completion, ToRetire;
    if a == [] {
      assert a + b == b;
    } else {
      assert (a + b)[1..] == a[1..] + b;
      CompletionsSum(a[1..], b);
    }
  }

  lemma CompletionsSplit(records: seq<Record>, k: nat)
    requires k < |records| && ToRetire(records[k])
    ensures var front, back := Completions(records[..k]), Completions(records[k + 1..]);
            && Completions(records) == front + [Completion(records[k])] + back
            && Completions(Without(records, k)) == front + back
  {
    hide Completion, Completions;
    var r := records[k];
    CompletionsSum(records[..k], records[k + 1..]);
    CompletionsSum(records[..k], [r]);
    CompletionsSum(records[..k] + [r], records[k + 1..]);
    SplitAt(records, k);
    OneCompletion(r);
  }

  lemma SplitAt<T>(s: seq<T>, k: nat)
    requires k < |s|
    ensures s == s[..k] + [s[k]] + s[k + 1..]
  {
  }

  lemma OneCompletion(r: Record)
    requires ToRetire(r)
    ensures Completions([r]) == [Completion(r)]
  {
    hide Completion, ToRetire;
    assert [r][1..] == [];
  }

  // ----- a completion never raises the projection

  lemma NewestNoLarger(retirements: seq<Retirement>, t: Retirement, level: nat)
    ensures Above(Newest(retirements + [t]), level) <= Above(retirements, level) + OneAbove(t, level)
  {
    hide OneAbove, Newest;
    var all := retirements + [t];
    var cut := |all| - |Newest(all)|;
    NewestCut(all);
    AboveSum(retirements, [t], level);
    AboveSum(all[..cut], Newest(all), level);
    assert Above([t], level) == OneAbove(t, level) + Above([], level);
  }

  lemma NewestCut(all: seq<Retirement>)
    ensures |Newest(all)| <= |all| && all == all[..|all| - |Newest(all)|] + Newest(all)
  {
  }

  lemma CompletionCandidates(l: Ledger, next: Ledger, k: nat, t: Retirement)
    requires Completes(l, next, k, t) && RetirementBytes(t) <= RetirementBytes(Completion(l.records[k]))
    ensures NoLarger(Candidates(next), Candidates(l))
  {
    hide Newest, Completions, Above, RetirementBytes, Completion, RetirementCleanup, Without, ToRetire;
    CompletionsSplit(l.records, k);
    var x := Completion(l.records[k]);
    var front, back := Completions(l.records[..k]), Completions(l.records[k + 1..]);
    forall level: nat ensures Above(Candidates(next), level) <= Above(Candidates(l), level) {
      NewestNoLarger(l.retirements, t, level);
      AboveSum(next.retirements, front + back, level);
      AboveSum(l.retirements, front + [x] + back, level);
      OneLess(front, x, back, level);
    }
  }

  lemma CompletionCounted(l: Ledger, next: Ledger, k: nat, t: Retirement)
    requires Completes(l, next, k, t) && |l.retirements| <= MAX_RETIREMENTS
    ensures k < |l.records| && ToRetire(l.records[k]) && Counted(next) == Counted(l) > 0
    ensures |Completions(l.records)| == |Completions(next.records)| + 1
    ensures |Kept(next.records)| == |Kept(l.records)| && KeptBytes(next.records) == KeptBytes(l.records)
    ensures DutyBytes(l.records)
            == DutyBytes(next.records) + CleanupBytes(RetirementCleanup(Completion(l.records[k]))) + 1
  {
    hide Completions, RetirementCleanup, Without, KeptBytes, DutyBytes, TombstoneBytes, Kept, RetirementBytes,
         CleanupBytes, RecordBytes, Completion;
    WithoutTotals(l.records, k);
  }

  lemma CompletionListed(l: Ledger, next: Ledger, k: nat, t: Retirement)
    requires Completes(l, next, k, t)
    requires t.cleanupScope.Some? ==>
               CleanupBytes(RetirementCleanup(t)) == CleanupBytes(RetirementCleanup(Completion(l.records[k])))
    ensures |next.cleanups| == |l.cleanups| + (if t.cleanupScope.Some? then 1 else 0)
    ensures CleanupsBytes(next.cleanups)
            == CleanupsBytes(l.cleanups)
               + (if t.cleanupScope.Some? then CleanupBytes(RetirementCleanup(Completion(l.records[k]))) + 1 else 0)
  {
    hide CleanupBytes, RetirementCleanup, ToRetire, Newest, Without, Completion;
    if t.cleanupScope.Some? {
      CleanupsSum(l.cleanups, [RetirementCleanup(t)]);
      assert CleanupsBytes([RetirementCleanup(t)]) == CleanupBytes(RetirementCleanup(t)) + 1;
    }
  }

  lemma FewerListed(d: nat, D: nat, y: nat)
    requires d > 0 && D >= y + 1
    ensures Array(d - 1, D - y - 1) <= Array(d, D)
  {
  }

  lemma ProjectionFalls(l: Ledger, next: Ledger, k: nat, t: Retirement)
    requires Sound(l) && Sound(next) && Completes(l, next, k, t)
    requires RetirementBytes(t) <= RetirementBytes(Completion(l.records[k]))
    requires t.cleanupScope.Some? ==>
               CleanupBytes(RetirementCleanup(t)) == CleanupBytes(RetirementCleanup(Completion(l.records[k])))
    ensures UnlistedBytes(Projected(next)) <= UnlistedBytes(Projected(l))
    ensures ListBytes(Projected(next), false) <= ListBytes(Projected(l), false)
  {
    hide Sound, Completes, RetirementBytes, CleanupBytes, Completion, RetirementCleanup, Array, KeptBytes, DutyBytes,
         Kept, Completions, Largest, CleanupsBytes, UnlistedBytes, ListBytes, Projected, Counted, NoLarger;
    SoundDisjoint(l);
    ProjectedParts(l);
    ProjectedParts(next);
    CompletionCandidates(l, next, k, t);
    CompletionCounted(l, next, k, t);
    CompletionListed(l, next, k, t);
    LargestShrinks(Candidates(next), Candidates(l));
    LargestMonotone(Counted(l), Largest(Candidates(next)), Largest(Candidates(l)));
    FewerListed(Duties(l), CleanupsBytes(l.cleanups) + DutyBytes(l.records),
                CleanupBytes(RetirementCleanup(Completion(l.records[k]))));
  }

  lemma LargestMonotone(c: nat, less: nat, more: nat)
    requires less <= more
    ensures Array(c, less) <= Array(c, more)
  {
  }

  // ----- exactly when a completion fits

  lemma CompletionPeakFalls(l: Ledger, id: string, now: Stamp, scope: Option<string>)
    requires Sound(l) && CompleteRetirement(l, id, now, scope).Write?
    requires now.width <= l.records[FindRecord(l.records, id)].updatedAt.width
    ensures var next := CompleteRetirement(l, id, now, scope).next;
            && UnlistedBytes(Projected(next)) <= UnlistedBytes(Projected(l))
            && ListBytes(Projected(next), false) <= ListBytes(Projected(l), false)
  {
    hide Sound, ValidRecord, ValidRetirement, RetirementBytes, CleanupBytes, Completion, RetirementCleanup, Projected,
         UnlistedBytes, ListBytes, CompleteRetirement, RetirementEntry;
    CompleteRetirementKeepsSound(l, id, now, scope);
    CompletionIs(l, id, now, scope);
    var k := FindRecord(l.records, id);
    EntryScope(l.records[k], now, scope);
    NoLargerThanReserved(l.records[k], now, scope);
    ProjectionFalls(l, CompleteRetirement(l, id, now, scope).next, k, RetirementEntry(l.records[k], now, scope));
  }

  lemma EntryScope(r: Record, now: Stamp, scope: Option<string>)
    requires r.retirementKeyHash.Some?
    ensures RetirementEntry(r, now, scope).cleanupScope == scope
  {
  }

  lemma ListAlike(l: Ledger, compact: bool)
    ensures ListBytes(l, compact) == if Names(l, compact) then ListBytes(l, false) else 0
  {
    hide ExactlyMatch, CleanupsBytes, Member, Array;
  }

  /** For either encoding and any number of tombstones: a completion fits exactly when the file, with the tombstone in
      place of the record and the lists of cleanups as they are written before and after, does not exceed the limit,
      and where the projection comes to name cleanups that it left out before, it does not either. */
  lemma CompletionFitsBeyond(l: Ledger, id: string, now: Stamp, scope: Option<string>, compact: bool)
    requires Sound(l) && Fits(l, compact) && CompleteRetirement(l, id, now, scope).Write?
    requires now.width <= l.records[FindRecord(l.records, id)].updatedAt.width
    ensures var k := FindRecord(l.records, id);
            var t := RetirementEntry(l.records[k], now, scope);
            var next := CompleteRetirement(l, id, now, scope).next;
            Fits(next, compact)
            <==> && Size(l, compact) - Leaving(l, k) - ListBytes(l, compact)
                    + Arriving(l, t, false) + ListBytes(next, compact) <= MAX_LEDGER_BYTES
                 && (Names(Projected(next), compact) && !Names(Projected(l), compact) ==>
                       Peak(next, false) <= MAX_LEDGER_BYTES)
    ensures Peak(CompleteRetirement(l, id, now, scope).next, false) <= Peak(l, false)
  {
    hide Sound, CompleteRetirement, RetirementEntry, Leaving, Arriving, UnlistedBytes, ListBytes, Names, Projected,
         Size, Completes, ValidRecord, ValidRetirement, FindRecord;
    CompletionIs(l, id, now, scope);
    var k := FindRecord(l.records, id);
    var t := RetirementEntry(l.records[k], now, scope);
    var next := CompleteRetirement(l, id, now, scope).next;
    SoundDisjoint(l);
    CompletionUnlisted(l, next, k, t);
    SizeParts(l, compact);
    SizeParts(next, compact);
    CompletionPeakFalls(l, id, now, scope);
    SizeParts(Projected(l), compact);
    SizeParts(Projected(next), compact);
    SizeParts(Projected(l), false);
    SizeParts(Projected(next), false);
    ListAlike(Projected(l), compact);
    ListAlike(Projected(next), compact);
  }

  lemma CompletionNames(l: Ledger, id: string, now: Stamp, scope: Option<string>, compact: bool)
    requires Sound(l) && CompleteRetirement(l, id, now, scope).Write? && (compact ==> Roomy(l))
    ensures var next := CompleteRetirement(l, id, now, scope).next;
            && (Names(next, compact) <==> Names(l, compact))
            && (Names(Projected(next), compact) <==> Names(Projected(l), compact))
  {
    hide Sound, CompleteRetirement, RetirementEntry, ExactlyMatch, Projected, RetirementCleanup, Unseen, NoneAdded,
         NoneRetired, ValidRecord, ValidRetirement, Without, OneRecordEach, FindRecord;
    if compact {
      CompleteRetirementKeepsSound(l, id, now, scope);
      CompletionIs(l, id, now, scope);
      var k := FindRecord(l.records, id);
      var t := RetirementEntry(l.records[k], now, scope);
      var next := CompleteRetirement(l, id, now, scope).next;
      SoundDisjoint(l);
      RecordIsUnseen(l, k);
      OneMoreMatches(l.retirements, l.cleanups, t);
      RetiringCountWithout(l.records, k);
      NewestIsAll(l.retirements, t);
      ProjectionMatches(l);
      ProjectionMatches(next);
    }
  }

  lemma NewestIsAll(retirements: seq<Retirement>, t: Retirement)
    ensures |retirements| < MAX_RETIREMENTS ==> Newest(retirements + [t]) == retirements + [t]
  {
  }

  /** In the explicit encoding, and within a hundred tombstones also in the compact one, a completion fits exactly when
      the file has room for what arrives once what leaves has left. */
  lemma CompletionFitsExactly(l: Ledger, id: string, now: Stamp, scope: Option<string>, compact: bool)
    requires Sound(l) && Fits(l, compact) && CompleteRetirement(l, id, now, scope).Write? && (compact ==> Roomy(l))
    requires now.width <= l.records[FindRecord(l.records, id)].updatedAt.width
    ensures var k := FindRecord(l.records, id);
            var t := RetirementEntry(l.records[k], now, scope);
            Fits(CompleteRetirement(l, id, now, scope).next, compact)
            <==> Size(l, compact) - Leaving(l, k) + Arriving(l, t, Names(l, compact)) <= MAX_LEDGER_BYTES
  {
    hide Sound, CompleteRetirement, RetirementEntry, Leaving, ArrivingCleanup, Element, ListBytes, Names, Projected,
         Size, Completes, ValidRecord, ValidRetirement, RetirementBytes, Fits, FindRecord;
    var k := FindRecord(l.records, id);
    var next := CompleteRetirement(l, id, now, scope).next;
    CompletionIs(l, id, now, scope);
    CompletionNames(l, id, now, scope, compact);
    ListMoves(l, next, k, RetirementEntry(l.records[k], now, scope), compact);
    CompletionFitsBeyond(l, id, now, scope, compact);
  }

  // ----- a cancellation, in the projection

  function Cancelled(r: Record, now: Stamp): Record {
    r.(state := Owned, retirementKeyHash := None, updatedAt := Later(r.updatedAt, now))
  }

  /** The tombstone to come, or what it exceeds the largest one by that was left out and now comes in; its cleanup
      where they are named; and the sections once they are empty. */
  function Released(l: Ledger, k: nat, named: bool): nat
    requires k < |l.records| && ToRetire(l.records[k])
  {
    var t := Completion(l.records[k]);
    (if |Candidates(l)| > MAX_RETIREMENTS then OneAbove(t, LevelAt(Candidates(l), MAX_RETIREMENTS))
     else Element(|Candidates(l)|, RetirementBytes(t)))
    + (if Duties(l) == 1 && |Candidates(l)| == 1 then Member("retirements", 2) else 0)
    + if named then ReleasedCleanup(l, t) else 0
  }

  function ReleasedCleanup(l: Ledger, t: Retirement): nat
    requires t.cleanupScope.Some?
  {
    Element(Duties(l), CleanupBytes(RetirementCleanup(t)))
    + if Duties(l) == 1 && |Candidates(l)| == 1 then Member("retirementCleanups", 2) else 0
  }

  /** The retiring record at this place is owned again. */
  predicate Cancels(l: Ledger, next: Ledger, k: nat, owned: Record) {
    && k < |l.records| && ToRetire(l.records[k]) && !ToRetire(owned)
    && next == l.(records := l.records[k := owned])
  }

  lemma CancellationCandidates(l: Ledger, next: Ledger, k: nat, owned: Record)
    requires Cancels(l, next, k, owned)
    ensures k < |l.records| && ToRetire(l.records[k])
    ensures var t := Completion(l.records[k]);
            && |Candidates(l)| == |Candidates(next)| + 1
            && (if |Candidates(l)| > MAX_RETIREMENTS then
                  Largest(Candidates(next))
                  == Largest(Candidates(l)) - OneAbove(t, LevelAt(Candidates(l), MAX_RETIREMENTS))
                else
                  Largest(Candidates(next)) == Largest(Candidates(l)) - RetirementBytes(t) - 1)
    ensures Candidates(next) == [] ==> Largest(Candidates(next)) == 0
  {
    hide Completions, Above, RetirementBytes, Completion, Without, ToRetire, Largest, OneAbove, LevelAt;
    var t := Completion(l.records[k]);
    var front, back := Completions(l.records[..k]), Completions(l.records[k + 1..]);
    CompletionsSplit(l.records, k);
    CancelledCompletions(l.records, k, owned);
    Regrouped(l.retirements, front, t, back);
    if |Candidates(l)| > MAX_RETIREMENTS {
      LargestWithout(l.retirements + front, t, back);
    } else {
      LargestIsAll(Candidates(l));
      LargestIsAll(Candidates(next));
      OneLess(l.retirements + front, t, back, 0);
      AboveNothingOne(t);
    }
    NoneLargest();
  }

  lemma AboveNothingOne(t: Retirement)
    ensures OneAbove(t, 0) == RetirementBytes(t) + 1
  {
    hide RetirementBytes;
  }

  lemma NoneLargest()
    ensures Largest([]) == 0
  {
  }

  lemma Regrouped(retirements: seq<Retirement>, front: seq<Retirement>, t: Retirement, back: seq<Retirement>)
    ensures retirements + (front + [t] + back) == (retirements + front) + [t] + back
    ensures retirements + (front + back) == (retirements + front) + back
  {
  }

  lemma CancelledCompletions(records: seq<Record>, k: nat, owned: Record)
    requires k < |records| && !ToRetire(owned)
    ensures Completions(records[k := owned]) == Completions(records[..k]) + Completions(records[k + 1..])
  {
    hide Completions, ToRetire;
    CompletionsSum(records[..k], [owned]);
    CompletionsSum(records[..k] + [owned], records[k + 1..]);
    SplitAt(records[k := owned], k);
    assert records[k := owned][..k] == records[..k] && records[k := owned][k + 1..] == records[k + 1..];
    NoCompletion(owned);
  }

  lemma NoCompletion(owned: Record)
    requires !ToRetire(owned)
    ensures Completions([owned]) == []
  {
    hide ToRetire;
    assert [owned][1..] == [];
  }

  lemma CancellationCounts(l: Ledger, next: Ledger, k: nat, owned: Record)
    requires Cancels(l, next, k, owned)
    ensures k < |l.records| && ToRetire(l.records[k])
    ensures |Kept(next.records)| == |Kept(l.records)| + 1
    ensures KeptBytes(next.records) == KeptBytes(l.records) + RecordBytes(owned) + 1
    ensures |Completions(l.records)| == |Completions(next.records)| + 1
    ensures var duty := CleanupBytes(RetirementCleanup(Completion(l.records[k])));
            && DutyBytes(l.records) == DutyBytes(next.records) + duty + 1
            && (Duties(l) == 1 ==> CleanupsBytes(l.cleanups) + DutyBytes(l.records) == duty + 1)
    ensures |Kept(l.records)| == 0 ==> KeptBytes(l.records) == 0
    ensures |next.records| == |l.records| && next.retirements == l.retirements && next.cleanups == l.cleanups
    ensures RecordsBytes(next.records) == RecordsBytes(l.records) - RecordBytes(l.records[k]) + RecordBytes(owned)
  {
    hide Completions, RetirementCleanup, Without, TombstoneBytes, RetirementBytes, CleanupBytes, RecordBytes,
         Completion, ToRetire;
    WithoutTotals(l.records, k);
    WithoutTotals(next.records, k);
    ReplaceTotals(l.records, k, owned);
    RecordsWithoutBytes(l.records, k);
    RecordsWithoutBytes(next.records, k);
  }

  lemma ProjectionUnlisted(l: Ledger, next: Ledger, k: nat, owned: Record)
    requires Sound(l) && Sound(next) && Cancels(l, next, k, owned)
    ensures k < |l.records| && ToRetire(l.records[k])
    ensures UnlistedBytes(Projected(next))
            == UnlistedBytes(Projected(l)) - Released(l, k, false)
               + Element(|Kept(l.records)| + 1, RecordBytes(owned))
  {
    hide Sound, Cancels, RetirementBytes, RecordBytes, CleanupBytes, Completion, RetirementCleanup, Array, KeptBytes,
         DutyBytes, Kept, Completions, Largest, CleanupsBytes, UnlistedBytes, ListBytes, Projected, OneAbove, LevelAt,
         Element, Member, ReleasedCleanup, Candidates;
    CancellationCounts(l, next, k, owned);
    CancellationCandidates(l, next, k, owned);
    ProjectedParts(l);
    ProjectedParts(next);
    EntryArrives(|Kept(l.records)|, KeptBytes(l.records), RecordBytes(owned));
    var m, T, t := |Candidates(l)|, Largest(Candidates(l)), RetirementBytes(Completion(l.records[k]));
    if m > MAX_RETIREMENTS {
      EntryShrinks(MAX_RETIREMENTS, T, OneAbove(Completion(l.records[k]), LevelAt(Candidates(l), MAX_RETIREMENTS)));
    } else {
      RecordLeaves(m, T, t);
    }
    OneMember("records", Array(|Kept(l.records)|, KeptBytes(l.records)));
    OneMember("records", Array(|Kept(next.records)|, KeptBytes(next.records)));
    OneMember("retirements", Array(Counted(l), T));
    OneMember("retirements", Array(Counted(next), Largest(Candidates(next))));
    OneMember("retirements", 2);
  }

  lemma EntryShrinks(m: nat, T: nat, x: nat)
    requires m > 0 && x <= T
    ensures Array(m, T - x) == Array(m, T) - x
  {
  }

  lemma ProjectionListed(l: Ledger, next: Ledger, k: nat, owned: Record)
    requires Sound(l) && Sound(next) && Cancels(l, next, k, owned)
    ensures k < |l.records| && ToRetire(l.records[k])
    ensures ListBytes(Projected(next), false)
            == ListBytes(Projected(l), false) - ReleasedCleanup(l, Completion(l.records[k]))
  {
    hide Sound, Cancels, RetirementBytes, RecordBytes, CleanupBytes, Completion, RetirementCleanup, Array, KeptBytes,
         DutyBytes, Kept, Completions, Largest, CleanupsBytes, UnlistedBytes, ListBytes, Projected, OneAbove, LevelAt,
         Element, Member, Candidates;
    CancellationCounts(l, next, k, owned);
    CancellationCandidates(l, next, k, owned);
    ProjectedParts(l);
    ProjectedParts(next);
    var D, y := CleanupsBytes(l.cleanups) + DutyBytes(l.records),
                CleanupBytes(RetirementCleanup(Completion(l.records[k])));
    RecordLeaves(Duties(l), D, y);
    OneMember("retirementCleanups", Array(Duties(l), D));
    OneMember("retirementCleanups", Array(Duties(next), D - y - 1));
    OneMember("retirementCleanups", 2);
  }

  // ----- exactly when a cancellation fits

  lemma CancellationIs(l: Ledger, id: string, keyHash: string, now: Stamp)
    requires Sound(l) && CancelRetirement(l, id, keyHash, now).Write?
    ensures var k := FindRecord(l.records, id);
            var next := CancelRetirement(l, id, keyHash, now).next;
            && k < |l.records| && ToRetire(l.records[k]) && ValidRecord(l.records[k])
            && Cancels(l, next, k, Cancelled(l.records[k], now)) && Sound(next)
            && (Roomy(l) ==> Roomy(next))
  {
    hide Sound, ValidRecord;
    CancelRetirementKeepsSound(l, id, keyHash, now);
    var k := FindRecord(l.records, id);
    RetiringHasKey(l, k);
    RetiringCountUpdate(l.records, k, Cancelled(l.records[k], now));
  }

  lemma CancellationShrinks(l: Ledger, next: Ledger, k: nat, now: Stamp, compact: bool)
    requires k < |l.records| && ValidRecord(l.records[k]) && now.width <= l.records[k].updatedAt.width
    requires Cancels(l, next, k, Cancelled(l.records[k], now))
    ensures Size(next, compact) < Size(l, compact)
  {
    hide ValidRecord, RecordBytes, RecordsBytes, RetirementsBytes, CleanupsBytes, Size, Names, Cancels, ToRetire,
         KeptBytes, DutyBytes, Kept, Completions, CleanupBytes, Duties;
    var owned := Cancelled(l.records[k], now);
    CancellationCounts(l, next, k, owned);
    CancelShrinks(l.records[k], now);
    SizeParts(l, compact);
    SizeParts(next, compact);
    NamesAlike(l, next, compact);
  }

  lemma NamesAlike(l: Ledger, next: Ledger, compact: bool)
    requires next.retirements == l.retirements && next.cleanups == l.cleanups
    ensures Names(next, compact) <==> Names(l, compact)
  {
    hide ExactlyMatch;
  }

  /** For either encoding and any number of tombstones: a cancellation fits exactly when the projection, with the
      owned record in place of the tombstone to come and the lists of cleanups as the projections of before and after
      write them, does not exceed the limit. */
  lemma CancellationFitsBeyond(l: Ledger, id: string, keyHash: string, now: Stamp, compact: bool)
    requires Sound(l) && Fits(l, compact) && CancelRetirement(l, id, keyHash, now).Write?
    requires now.width <= l.records[FindRecord(l.records, id)].updatedAt.width
    ensures var k := FindRecord(l.records, id);
            var next := CancelRetirement(l, id, keyHash, now).next;
            && ToRetire(l.records[k])
            && (Fits(next, compact)
                <==> Peak(l, compact) - Released(l, k, false) - ListBytes(Projected(l), compact)
                     + Element(|Kept(l.records)| + 1, RecordBytes(Cancelled(l.records[k], now)))
                     + ListBytes(Projected(next), compact) <= MAX_LEDGER_BYTES)
  {
    hide Sound, CancelRetirement, Released, UnlistedBytes, ListBytes, Names, Projected, Size, Cancels, ValidRecord,
         FindRecord, Kept, RecordBytes, Element, Cancelled, ToRetire, Roomy;
    CancellationIs(l, id, keyHash, now);
    var k := FindRecord(l.records, id);
    var next := CancelRetirement(l, id, keyHash, now).next;
    CancellationShrinks(l, next, k, now, compact);
    ProjectionUnlisted(l, next, k, Cancelled(l.records[k], now));
    SizeParts(Projected(l), compact);
    SizeParts(Projected(next), compact);
  }

  lemma ReleasedParts(l: Ledger, k: nat, named: bool)
    requires k < |l.records| && ToRetire(l.records[k])
    ensures Released(l, k, named)
            == Released(l, k, false) + if named then ReleasedCleanup(l, Completion(l.records[k])) else 0
  {
    hide ReleasedCleanup, Completion, Candidates, Duties, OneAbove, LevelAt, Element, RetirementBytes;
  }

  /** In the explicit encoding, and within a hundred tombstones also in the compact one, a cancellation fits exactly
      when the projection has room for the owned record once the tombstone to come is released. */
  lemma CancellationFitsExactly(l: Ledger, id: string, keyHash: string, now: Stamp, compact: bool)
    requires Sound(l) && Fits(l, compact) && CancelRetirement(l, id, keyHash, now).Write? && (compact ==> Roomy(l))
    requires now.width <= l.records[FindRecord(l.records, id)].updatedAt.width
    ensures var k := FindRecord(l.records, id);
            && ToRetire(l.records[k])
            && (Fits(CancelRetirement(l, id, keyHash, now).next, compact)
                <==> Peak(l, compact) - Released(l, k, Names(l, compact))
                     + Element(|Kept(l.records)| + 1, RecordBytes(Cancelled(l.records[k], now))) <= MAX_LEDGER_BYTES)
  {
    hide Sound, CancelRetirement, Released, UnlistedBytes, ListBytes, ExactlyMatch, Projected, Size, Cancels,
         ValidRecord, Fits, FindRecord, Kept, RecordBytes, Element, ToRetire, Roomy, Completion, Cancelled,
         ReleasedCleanup, Peak;
    CancellationIs(l, id, keyHash, now);
    var k := FindRecord(l.records, id);
    var next := CancelRetirement(l, id, keyHash, now).next;
    CancelsKeeps(l, next, k, Cancelled(l.records[k], now));
    ReleasedParts(l, k, Names(l, compact));
    ProjectionListed(l, next, k, Cancelled(l.records[k], now));
    if compact {
      ProjectionMatches(l);
      ProjectionMatches(next);
    }
    ListAlike(Projected(l), compact);
    ListAlike(Projected(next), compact);
    CancellationFitsBeyond(l, id, keyHash, now, compact);
  }

  lemma CancelsKeeps(l: Ledger, next: Ledger, k: nat, owned: Record)
    requires Cancels(l, next, k, owned)
    ensures next.retirements == l.retirements && next.cleanups == l.cleanups
  {
  }
}
