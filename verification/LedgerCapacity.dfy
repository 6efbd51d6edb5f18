/** The space reserved when a retirement is fenced is enough for it to complete, in any order and
    interleaving, so that a deletion that has happened can always be recorded. */
module LedgerCapacity {
  import opened Common
  import opened LaunchContracts
  import opened LedgerState
  import opened LedgerSize
  import opened LedgerTotals
  import opened LedgerMargin

  // ----- no ledger is larger than its projection

  function PeakTotals(l: Ledger): nat {
    Shape(|Kept(l.records)|, KeptBytes(l.records),
          |l.retirements| + |Completions(l.records)|, RetirementsBytes(l.retirements) + TombstoneBytes(l.records),
          |l.cleanups| + |Completions(l.records)|, CleanupsBytes(l.cleanups) + DutyBytes(l.records))
  }

  lemma PeakShape(l: Ledger)
    requires Sound(l) && Roomy(l)
    ensures Peak(l, false) == PeakTotals(l)
  {
    hide Sound, ValidRecord, RecordBytes, RetirementBytes, CleanupBytes, Size, Shape, AddCleanups, CleanupsFitRecords;
    var completions := Completions(l.records);
    SoundIds(l);
    RecordsBelowProjection(l.records);
    SortSum(l.retirements + completions);
    RetirementsSum(l.retirements, completions);
    assert AddCleanups(l.cleanups, completions) == l.cleanups + CompletionCleanups(completions) by {
      ApartFromRecords(l);
      AddedCleanups(l.cleanups, l.records);
    }
    CleanupsSum(l.cleanups, CompletionCleanups(completions));
    SizeShape(Projected(l));
  }

  // ----- the arithmetic, on totals: n records of R bytes, of which k are kept (K bytes) and c are retiring and
  // ----- will turn into tombstones (X bytes) and cleanups (Y bytes) beside those there are (t, T and d, D)

  lemma ShapeGrows(k: nat, K: nat, c: nat, R: nat, X: nat, Y: nat, t: nat, T: nat, d: nat, D: nat)
    requires R + 22 * c <= K + X + Y && (k == 0 ==> K == 0) && (c == 0 ==> X == 0 && Y == 0)
    ensures Shape(k + c, R, t, T, d, D) <= Shape(k, K, t + c, T + X, d + c, D + Y)
  {
  }

  lemma SizeBelowPeak(l: Ledger)
    requires Sound(l) && Roomy(l)
    ensures Size(l, false) <= Peak(l, false)
  {
    hide Sound, ValidRecord, RecordBytes, RetirementBytes, CleanupBytes, Size, Peak, Shape;
    SoundIds(l);
    PeakShape(l);
    SizeShape(l);
    RecordsBelowProjection(l.records);
    ShapeGrows(|Kept(l.records)|, KeptBytes(l.records), |Completions(l.records)|, RecordsBytes(l.records),
               TombstoneBytes(l.records), DutyBytes(l.records), |l.retirements|, RetirementsBytes(l.retirements),
               |l.cleanups|, CleanupsBytes(l.cleanups));
  }

  // ----- completions and cancellations never raise the peak

  datatype Op =
    | Complete(id: string, now: Stamp, scope: Option<string>) | Cancel(id: string, keyHash: string, now: Stamp)

  function Apply(l: Ledger, op: Op): Verdict {
    match op
    case Complete(id, now, scope) => CompleteRetirement(l, id, now, scope)
    case Cancel(id, keyHash, now) => CancelRetirement(l, id, keyHash, now)
  }

  /** No time at which a retirement was begun is written shorter than this. */
  predicate TimesAtLeast(l: Ledger, width: nat) {
    forall i :: 0 <= i < |l.records| && l.records[i].state.Retiring? ==> l.records[i].updatedAt.width >= width
  }

  lemma ApplyKeeps(l: Ledger, op: Op, width: nat)
    requires Sound(l) && Roomy(l) && TimesAtLeast(l, width) && op.now.width <= width && Apply(l, op).Write?
    ensures Sound(Apply(l, op).next) && Roomy(Apply(l, op).next) && TimesAtLeast(Apply(l, op).next, width)
  {
    hide Sound, Roomy, TimesAtLeast, CompleteRetirement, CancelRetirement;
    match op
    case Complete(id, now, scope) =>
      CompleteRetirementKeepsSound(l, id, now, scope);
      CompletionKeepsRoom(l, id, now, scope, width);
    case Cancel(id, keyHash, now) =>
      CancelRetirementKeepsSound(l, id, keyHash, now);
      CancellationKeepsRoom(l, id, keyHash, now, width);
  }

  lemma CompletionKeepsRoom(l: Ledger, id: string, now: Stamp, scope: Option<string>, width: nat)
    requires Sound(l) && Roomy(l) && TimesAtLeast(l, width) && CompleteRetirement(l, id, now, scope).Write?
    ensures Roomy(CompleteRetirement(l, id, now, scope).next)
    ensures TimesAtLeast(CompleteRetirement(l, id, now, scope).next, width)
  {
    hide Sound, ValidRecord, ValidRetirement, RetirementCleanup, PutCleanup, DropCleanup;
    var k := FindRecord(l.records, id);
    RetiringCountWithout(l.records, k);
    var rest := Without(l.records, k);
    forall i | 0 <= i < |rest| ensures rest[i] == l.records[if i < k then i else i + 1] {
      WithoutIndex(l.records, k, i);
    }
  }

  lemma CancellationKeepsRoom(l: Ledger, id: string, keyHash: string, now: Stamp, width: nat)
    requires Roomy(l) && TimesAtLeast(l, width) && CancelRetirement(l, id, keyHash, now).Write?
    ensures Roomy(CancelRetirement(l, id, keyHash, now).next)
    ensures TimesAtLeast(CancelRetirement(l, id, keyHash, now).next, width)
  {
    hide ValidRecord;
    var k := FindRecord(l.records, id);
    RetiringCountUpdate(l.records, k, CancelRetirement(l, id, keyHash, now).next.records[k]);
  }

  lemma CompactIsSmaller(l: Ledger, compact: bool)
    ensures Size(l, compact) <= Size(l, false)
  {
    hide RecordsBytes, RetirementsBytes, CleanupsBytes;
  }

  lemma CompletionHasRoom(l: Ledger, id: string, now: Stamp, scope: Option<string>, width: nat)
    requires Sound(l) && TimesAtLeast(l, width) && Fits(l, false) && now.width <= width
    requires CompleteRetirement(l, id, now, scope).Write?
    requires var next := CompleteRetirement(l, id, now, scope).next; Sound(next) && Roomy(next)
    ensures Fits(CompleteRetirement(l, id, now, scope).next, false)
  {
    hide Sound, Roomy, Size, Peak, CompleteRetirement, ValidRecord, RetirementEntry, Leaving, Arriving, Names,
         FindRecord, ListBytes;
    CompletionIs(l, id, now, scope);
    CompletionFitsBeyond(l, id, now, scope, false);
    SizeBelowPeak(CompleteRetirement(l, id, now, scope).next);
  }

  lemma TombstoneReleases(l: Ledger, k: nat)
    requires k < |l.records| && ToRetire(l.records[k]) && |Candidates(l)| <= MAX_RETIREMENTS
    ensures var t := Completion(l.records[k]);
            RetirementBytes(t) + CleanupBytes(RetirementCleanup(t)) <= Released(l, k, true)
  {
    hide RetirementBytes, CleanupBytes, RetirementCleanup, Completion, Candidates, Completions;
  }

  lemma CancellationHasRoom(l: Ledger, id: string, keyHash: string, now: Stamp, width: nat)
    requires Sound(l) && Roomy(l) && TimesAtLeast(l, width) && Fits(l, false) && now.width <= width
    requires CancelRetirement(l, id, keyHash, now).Write?
    ensures Fits(CancelRetirement(l, id, keyHash, now).next, false)
  {
    hide Sound, Size, Peak, CancelRetirement, ValidRecord, Released, FindRecord, RecordBytes, RetirementBytes,
         CleanupBytes, RetirementCleanup, Completion, Kept, Completions, RetiringCount, Names, Cancelled, Fits,
         Cancels;
    CancellationIs(l, id, keyHash, now);
    var k := FindRecord(l.records, id);
    SoundIds(l);
    RecordsBelowProjection(l.records);
    CompletionOutweighsRecord(l.records[k]);
    OwnedIsSmaller(l.records[k], now);
    TombstoneReleases(l, k);
    CancellationFitsExactly(l, id, keyHash, now, false);
    ExplicitNames(l);
    FitsPeak(l);
  }

  lemma OwnedIsSmaller(r: Record, now: Stamp)
    requires ValidRecord(r) && ToRetire(r) && now.width <= r.updatedAt.width
    ensures RecordBytes(Cancelled(r, now)) < RecordBytes(r)
  {
    hide ValidRecord, RecordBytes;
    CancelShrinks(r, now);
  }

  lemma ExplicitNames(l: Ledger)
    ensures Names(l, false)
  {
  }

  lemma FitsPeak(l: Ledger)
    requires Fits(l, false)
    ensures Peak(l, false) <= MAX_LEDGER_BYTES
  {
    hide Size, Peak;
  }

  /** One completion or cancellation of a ledger that fits leaves a ledger that fits. */
  lemma StepFits(l: Ledger, op: Op, width: nat)
    requires Sound(l) && Roomy(l) && TimesAtLeast(l, width) && Fits(l, false) && op.now.width <= width
    requires Apply(l, op).Write?
    ensures Sound(Apply(l, op).next) && Roomy(Apply(l, op).next) && TimesAtLeast(Apply(l, op).next, width)
    ensures Fits(Apply(l, op).next, false)
  {
    hide Sound, Roomy, TimesAtLeast, Fits, CompleteRetirement, CancelRetirement;
    ApplyKeeps(l, op, width);
    match op {
      case Complete(id, now, scope) => CompletionHasRoom(l, id, now, scope, width);
      case Cancel(id, keyHash, now) => CancellationHasRoom(l, id, keyHash, now, width);
    }
  }

  /** After one ledger has been persisted in the explicit encoding, or in the compact one with room for the explicit,
      every run of completions and cancellations of its retiring records passes both size checks at every step, in
      either encoding: none of them can be refused for lack of space. */
  lemma {:induction false} ReservationSuffices(l: Ledger, ops: seq<Op>, width: nat, compact: bool)
    requires Sound(l) && Roomy(l) && TimesAtLeast(l, width) && Fits(l, false)
    requires forall i :: 0 <= i < |ops| ==> ops[i].now.width <= width
    ensures AllFit(l, ops, compact)
    decreases |ops|
  {
    hide RecordBytes, RetirementBytes, CleanupBytes;
    hide Sound, Roomy, TimesAtLeast, Apply, Size, Projected;
    if ops != [] && Apply(l, ops[0]).Write? {
      var next := Apply(l, ops[0]).next;
      StepFits(l, ops[0], width);
      CompactIsSmaller(next, compact);
      CompactIsSmaller(Projected(next), compact);
      ReservationSuffices(next, ops[1..], width, compact);
    } else if ops != [] {
      ReservationSuffices(l, ops[1..], width, compact);
    }
  }

  predicate AllFit(l: Ledger, ops: seq<Op>, compact: bool)
    decreases |ops|
  {
    ops == [] ||
    match Apply(l, ops[0])
    case Reply(_) => AllFit(l, ops[1..], compact)
    case Write(next) => Fits(next, compact) && AllFit(next, ops[1..], compact)
  }
}
