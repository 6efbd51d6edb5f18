/** Whole runs of the ledger: any operations in any order, each persisted or rolled back, and any crashes and
    restarts between them. */
module LedgerRuns {
  import opened Common
  import opened LaunchContracts
  import opened LedgerState
  import opened LedgerEncoding
  import opened LedgerOrder
  import opened LaunchAdmission
  import L = LaunchLedger

  datatype Operation =
    | Reserving(id: string, attemptId: string, keyHash: string, request: Request, now: Stamp)
    | Transitioning(id: string, expected: set<State>, patch: Patch, now: Stamp)
    | Beginning(id: string, keyHash: string, now: Stamp)
    | Cancelling(id: string, keyHash: string, now: Stamp)
    | Completing(id: string, now: Stamp, scope: Option<string>)
    | CleaningUp(id: string, keyHash: string, compact: bool)
    | Reopening

  function Decide(l: Ledger, op: Operation, sign: Signer): Verdict {
    match op
    case Reserving(id, attemptId, keyHash, request, now) =>
      Reserve(l, id, attemptId, keyHash, sign(request), request, now)
    case Transitioning(id, expected, patch, now) => Transition(l, id, expected, patch, now)
    case Beginning(id, keyHash, now) => BeginRetirement(l, id, keyHash, now)
    case Cancelling(id, keyHash, now) => CancelRetirement(l, id, keyHash, now)
    case Completing(id, now, scope) => CompleteRetirement(l, id, now, scope)
    case CleaningUp(id, keyHash, compact) => CompleteCleanup(l, id, keyHash, compact)
    case Reopening => Reply(Nothing)
  }

  /** The identities of a new record are drawn at random; they are taken to be new. */
  predicate Drawn(l: Ledger, op: Operation) {
    op.Reserving? ==> Fresh(l, op.id, op.attemptId)
  }

  /** An operation takes effect, or leaves the same entries: because it only answered, because its write
      failed and was rolled back, or because the ledger was closed or crashed and opened again. */
  ghost predicate Step(before: Ledger, op: Operation, after: Ledger, sign: Signer) {
    Drawn(before, op) && (Decide(before, op, sign) == Write(after) || SameEntries(after, before))
  }

  /** What the ledger object does, rollback included, is a step. */
  lemma CarriedIsAStep(
      before: Ledger, op: Operation, sign: Signer, compact: bool, outcome: WriteOutcome, fileBefore: L.File,
      ack: L.Ack, after: Ledger, fileAfter: L.File)
    requires Drawn(before, op)
    requires L.Carried(Decide(before, op, sign), compact, outcome, before, fileBefore, ack, after, fileAfter)
    ensures Step(before, op, after, sign)
  {
    hide Decide;
    L.Itself(before);
  }

  /** A crash and a restart are a step: the file opens as the same entries. */
  lemma RestartIsAStep(file: L.File, before: Ledger, sign: Signer)
    requires L.Mirrors(file, before)
    ensures L.Found(file) == Some(file.document) && Step(before, Reopening, Loaded(file.document), sign)
  {
    hide Loaded, Readable;
  }

  ghost predicate Run(ledgers: seq<Ledger>, ops: seq<Operation>, sign: Signer) {
    && |ledgers| == |ops| + 1
    && ledgers[0] == Ledger([], [], [])
    && forall i :: 0 <= i < |ops| ==> Step(ledgers[i], ops[i], ledgers[i + 1], sign)
  }

  lemma StepKeepsSound(before: Ledger, op: Operation, after: Ledger, sign: Signer)
    requires Sound(before) && Step(before, op, after, sign)
    ensures Sound(after)
  {
    hide Sound, Fresh, Reserve, Transition, BeginRetirement, CancelRetirement, CompleteRetirement, CompleteCleanup,
         SameEntries;
    if SameEntries(after, before) {
      SameEntriesSound(after, before);
    } else {
      match op {
        case Reserving(id, attemptId, keyHash, request, now) =>
          ReserveKeepsSound(before, id, attemptId, keyHash, sign(request), request, now);
        case Transitioning(id, expected, patch, now) => TransitionKeepsSound(before, id, expected, patch, now);
        case Beginning(id, keyHash, now) => BeginRetirementKeepsSound(before, id, keyHash, now);
        case Cancelling(id, keyHash, now) => CancelRetirementKeepsSound(before, id, keyHash, now);
        case Completing(id, now, scope) => CompleteRetirementKeepsSound(before, id, now, scope);
        case CleaningUp(id, keyHash, compact) => CompleteCleanupKeepsSound(before, id, keyHash, compact);
      }
    }
  }

  // ----- what becomes of the entries

  /** One record was replaced by one with the same identity, key, request and signature. */
  ghost predicate RecordReplaced(before: Ledger, after: Ledger) {
    && after.retirements == before.retirements && |after.records| == |before.records|
    && forall i :: 0 <= i < |before.records| ==>
         && after.records[i].id == before.records[i].id && after.records[i].keyHash == before.records[i].keyHash
         && after.records[i].request == before.records[i].request
         && after.records[i].signature == before.records[i].signature
  }

  lemma ReplacedKeeps(before: Ledger, after: Ledger, sign: Signer, keyHash: string, id: string, request: Request)
    requires RecordReplaced(before, after)
    ensures Signed(before, sign) ==> Signed(after, sign)
    ensures Held(before, keyHash, id, request) ==> Held(after, keyHash, id, request)
  {
    if i :| 0 <= i < |before.records|
            && before.records[i].keyHash == keyHash && before.records[i].id == id
            && before.records[i].request == request {
      assert after.records[i].keyHash == keyHash;
    }
  }

  lemma ReservingKeeps(
      before: Ledger, after: Ledger, r: Record, sign: Signer, keyHash: string, id: string, request: Request)
    requires after == before.(records := before.records + [r]) && r.signature == sign(r.request)
    ensures Signed(before, sign) ==> Signed(after, sign)
    ensures Held(before, keyHash, id, request) ==> Held(after, keyHash, id, request)
  {
    if i :| 0 <= i < |before.records|
            && before.records[i].keyHash == keyHash && before.records[i].id == id
            && before.records[i].request == request {
      assert after.records[i].keyHash == keyHash;
    }
  }

  lemma StrippingKeeps(before: Ledger, after: Ledger, sign: Signer, keyHash: string, id: string, request: Request)
    requires after.records == before.records && |after.retirements| == |before.retirements|
    requires forall j :: 0 <= j < |before.retirements| ==>
               after.retirements[j] == before.retirements[j]
               || after.retirements[j] == before.retirements[j].(cleanupScope := None)
    ensures Signed(before, sign) ==> Signed(after, sign)
    ensures Held(before, keyHash, id, request) ==> Held(after, keyHash, id, request)
  {
    if Signed(before, sign) {
      forall j | 0 <= j < |after.retirements|
        ensures after.retirements[j].signature == sign(after.retirements[j].request)
      {
        assert before.retirements[j].signature == sign(before.retirements[j].request);
      }
    }
    if j :| 0 <= j < |before.retirements| && before.retirements[j].creationKeyHash == keyHash
            && before.retirements[j].launchId == id && before.retirements[j].request == request {
      assert after.retirements[j].creationKeyHash == keyHash && after.retirements[j].launchId == id;
      assert after.retirements[j].request == request;
    }
  }

  /** A completion moves its record to a tombstone with the same key, request and signature, and may drop the
      oldest of a hundred tombstones. */
  lemma CompletingKeeps(
      before: Ledger, k: nat, t: Retirement, after: Ledger, sign: Signer, keyHash: string, id: string,
      request: Request)
    requires k < |before.records| && after.records == Without(before.records, k)
    requires after.retirements == Newest(before.retirements + [t])
    requires |before.retirements| <= MAX_RETIREMENTS
    requires t.launchId == before.records[k].id && t.creationKeyHash == before.records[k].keyHash
    requires t.request == before.records[k].request && t.signature == before.records[k].signature
    ensures Signed(before, sign) ==> Signed(after, sign)
    ensures Held(before, keyHash, id, request) ==>
              || Held(after, keyHash, id, request)
              || (&& |before.retirements| == MAX_RETIREMENTS
                  && before.retirements[0].creationKeyHash == keyHash && before.retirements[0].launchId == id)
  {
    var all := before.retirements + [t];
    var cut := |all| - |after.retirements|;
    forall j | 0 <= j < |after.retirements| ensures after.retirements[j] == all[j + cut] {
      NewestIndex(all, j);
    }
    forall i | 0 <= i < |after.records| ensures after.records[i] == before.records[if i < k then i else i + 1] {
      WithoutIndex(before.records, k, i);
    }
    CompletingHolds(before, k, t, after, cut, keyHash, id, request);
  }

  lemma CompletingHolds(
      before: Ledger, k: nat, t: Retirement, after: Ledger, cut: nat, keyHash: string, id: string, request: Request)
    requires k < |before.records| && |after.records| == |before.records| - 1
    requires |after.retirements| + cut == |before.retirements| + 1
    requires forall i :: 0 <= i < |after.records| ==> after.records[i] == before.records[if i < k then i else i + 1]
    requires forall j :: 0 <= j < |after.retirements| ==> after.retirements[j] == (before.retirements + [t])[j + cut]
    requires cut == if |before.retirements| == MAX_RETIREMENTS then 1 else 0
    requires t.launchId == before.records[k].id && t.creationKeyHash == before.records[k].keyHash
    requires t.request == before.records[k].request
    ensures Held(before, keyHash, id, request) ==>
              || Held(after, keyHash, id, request)
              || (&& |before.retirements| == MAX_RETIREMENTS
                  && before.retirements[0].creationKeyHash == keyHash && before.retirements[0].launchId == id)
  {
    if i :| 0 <= i < |before.records|
            && before.records[i].keyHash == keyHash && before.records[i].id == id
            && before.records[i].request == request {
      if i == k {
        var last := |after.retirements| - 1;
        assert after.retirements[last] == (before.retirements + [t])[last + cut] == t;
      } else {
        var m := if i < k then i else i - 1;
        assert after.records[m] == before.records[i];
      }
    } else if j :| 0 <= j < |before.retirements| && before.retirements[j].creationKeyHash == keyHash
                   && before.retirements[j].launchId == id && before.retirements[j].request == request {
      if j >= cut {
        assert after.retirements[j - cut] == (before.retirements + [t])[j] == before.retirements[j];
      }
    }
  }

  lemma SameKeeps(before: Ledger, after: Ledger, sign: Signer, keyHash: string, id: string, request: Request)
    requires SameEntries(after, before)
    ensures Signed(before, sign) ==> Signed(after, sign)
    ensures Held(before, keyHash, id, request) ==> Held(after, keyHash, id, request)
  {
    if Signed(before, sign) {
      forall i | 0 <= i < |after.records| ensures after.records[i].signature == sign(after.records[i].request) {
        var p := Place(after.records, before.records, i);
      }
    }
    if i :| 0 <= i < |before.records|
            && before.records[i].keyHash == keyHash && before.records[i].id == id
            && before.records[i].request == request {
      var p := Place(before.records, after.records, i);
    }
  }

  /** The step drops the tombstone that holds this key, the oldest of a hundred. */
  ghost predicate Evicts(before: Ledger, op: Operation, keyHash: string, id: string) {
    && op.Completing? && |before.retirements| == MAX_RETIREMENTS
    && before.retirements[0].creationKeyHash == keyHash && before.retirements[0].launchId == id
  }

  lemma StepKeeps(
      before: Ledger, op: Operation, after: Ledger, sign: Signer, keyHash: string, id: string, request: Request)
    requires Sound(before) && Signed(before, sign) && Step(before, op, after, sign)
    ensures Sound(after) && Signed(after, sign)
    ensures Held(before, keyHash, id, request) ==> Held(after, keyHash, id, request) || Evicts(before, op, keyHash, id)
  {
    hide Sound, Signed, Held, ValidRecord, ValidRetirement, Fresh, FindCleanup, KeyOnRecord, KeyOnRetirement,
         PendingCount, RetiringCount, Newest, PutRetirement, Matches;
    hide SameEntries;
    StepKeepsSound(before, op, after, sign);
    if SameEntries(after, before) {
      SameKeeps(before, after, sign, keyHash, id, request);
    } else {
      match op {
        case Reserving(_, _, key, q, now) =>
          ReservingKeeps(before, after, after.records[|before.records|], sign, keyHash, id, request);
        case Completing(launch, now, scope) =>
          CompleteRetirementKeepsSound(before, launch, now, scope);
          RetirementsBounded(before);
          var k := FindRecord(before.records, launch);
          CompletingKeeps(before, k, RetirementEntry(before.records[k], now, scope), after, sign, keyHash, id, request);
        case CleaningUp(_, _, _) => StrippingKeeps(before, after, sign, keyHash, id, request);
        case Transitioning(_, _, _, _) => ReplacedKeeps(before, after, sign, keyHash, id, request);
        case Beginning(_, _, _) => ReplacedKeeps(before, after, sign, keyHash, id, request);
        case Cancelling(_, _, _) => ReplacedKeeps(before, after, sign, keyHash, id, request);
      }
    }
  }

  lemma RetirementsBounded(l: Ledger)
    requires Sound(l)
    ensures |l.retirements| <= MAX_RETIREMENTS
  {
  }

  lemma EmptyIsSound(sign: Signer)
    ensures Sound(Ledger([], [], [])) && Signed(Ledger([], [], []), sign)
  {
  }

  /** Every ledger of every run satisfies what `open` demands, and reads back the same in either encoding. */
  lemma {:induction false} ReachableIsSound(ledgers: seq<Ledger>, ops: seq<Operation>, sign: Signer, n: nat)
    requires Run(ledgers, ops, sign) && n < |ledgers|
    ensures Sound(ledgers[n]) && Signed(ledgers[n], sign)
    ensures forall compact ::
              Readable(Encode(ledgers[n], compact)) && SameLedger(Loaded(Encode(ledgers[n], compact)), ledgers[n])
  {
    hide Sound, Signed, Step, Readable, Encode, Loaded, SameLedger;
    if n == 0 {
      EmptyIsSound(sign);
    } else {
      ReachableIsSound(ledgers, ops, sign, n - 1);
      StepKeeps(ledgers[n - 1], ops[n - 1], ledgers[n], sign, "", "", Request("", "", "", "", Risk(false, false), ""));
    }
    forall compact
      ensures Readable(Encode(ledgers[n], compact)) && SameLedger(Loaded(Encode(ledgers[n], compact)), ledgers[n])
    {
      RoundTrip(ledgers[n], compact);
    }
  }

  ghost predicate EvictedBetween(ledgers: seq<Ledger>, ops: seq<Operation>, i: nat, j: nat, keyHash: string, id: string)
    requires i <= j < |ledgers| && |ledgers| == |ops| + 1
  {
    exists k :: i <= k < j && Evicts(ledgers[k], ops[k], keyHash, id)
  }

  /** A key once held stays held for the same launch and request, until its tombstone is the oldest of a
      hundred and another is added. */
  lemma {:induction false} HolderStays(
      ledgers: seq<Ledger>, ops: seq<Operation>, sign: Signer, i: nat, j: nat, keyHash: string, id: string,
      request: Request)
    requires Run(ledgers, ops, sign) && i <= j < |ledgers| && Held(ledgers[i], keyHash, id, request)
    ensures Held(ledgers[j], keyHash, id, request) || EvictedBetween(ledgers, ops, i, j, keyHash, id)
  {
    hide Sound, Signed, Held, Step, Evicts, Readable, Encode, Loaded, SameLedger;
    if i < j {
      HolderStays(ledgers, ops, sign, i, j - 1, keyHash, id, request);
      if Held(ledgers[j - 1], keyHash, id, request) {
        ReachableIsSound(ledgers, ops, sign, j - 1);
        StepKeeps(ledgers[j - 1], ops[j - 1], ledgers[j], sign, keyHash, id, request);
      }
    }
  }

  /** Once a launch has been reserved under a key, every later submission under that key, with any payload
      and whatever is advertised by then, is answered with that launch or refused, and none reserves again. */
  lemma ResubmissionIsIdempotent(
      ledgers: seq<Ledger>, ops: seq<Operation>, sign: Signer, n: nat, m: nat,
      fences: Fences, capabilities: Capabilities, payload: Payload, again: Operation)
    requires Run(ledgers, ops, sign) && Injective(sign) && n < m < |ledgers|
    requires ops[n].Reserving? && Decide(ledgers[n], ops[n], sign) == Write(ledgers[n + 1])
    requires !EvictedBetween(ledgers, ops, n + 1, m, ops[n].keyHash, ops[n].id)
    requires again.Reserving? && again.keyHash == ops[n].keyHash
    ensures Consider(ledgers[m], fences, capabilities, payload, ops[n].keyHash, sign)
            == Settled(if ops[n].keyHash !in fences && Spells(payload, ops[n].request) then Accepted(ops[n].id, true)
                       else Refused(CONFLICT))
    ensures Decide(ledgers[m], again, sign).Reply?
    ensures Conclude(Decide(ledgers[m], again, sign), sign(again.request), again.id)
            == if again.request == ops[n].request then Accepted(ops[n].id, true) else Refused(CONFLICT)
  {
    var op := ops[n];
    assert Held(ledgers[n + 1], op.keyHash, op.id, op.request) by {
      assert ledgers[n + 1].records[|ledgers[n].records|].keyHash == op.keyHash;
    }
    hide Sound, Signed, Held, Step, Evicts, Readable, Encode, Loaded, SameLedger, Consider, Conclude, Reserve, Spells;
    HolderStays(ledgers, ops, sign, n + 1, m, op.keyHash, op.id, op.request);
    ReachableIsSound(ledgers, ops, sign, m);
    HeldKeyIsReplayed(ledgers[m], fences, capabilities, payload, op.keyHash, sign, op.id, op.request);
    OvertakenIsReplayed(ledgers[m], op.keyHash, sign, op.id, op.request, again.request, again.id, again.attemptId,
                        again.now);
  }

  // ----- a cleanup that has been finished

  /** The launch has no record and awaits no cleanup. */
  ghost predicate CleanedUp(l: Ledger, id: string) {
    && (forall i :: 0 <= i < |l.records| ==> l.records[i].id != id)
    && (forall i :: 0 <= i < |l.cleanups| ==> l.cleanups[i].launchId != id)
  }

  predicate Redraws(op: Operation, id: string) {
    op.Reserving? && op.id == id
  }

  lemma FinishedIsCleanedUp(l: Ledger, id: string, keyHash: string, compact: bool)
    requires Sound(l) && CompleteCleanup(l, id, keyHash, compact).Write?
    ensures CleanedUp(CompleteCleanup(l, id, keyHash, compact).next, id)
  {
    hide RecordsSound, RetirementsSound, Disjoint, CleanupsFitRetirements, RetiringCount, ValidCleanup, Matches,
         FindRetirement;
    var k := FindCleanup(l.cleanups, id);
    CleanupsWithout(l.cleanups, k);
    assert forall j :: 0 <= j < |l.records| ==> l.cleanups[k].launchId != l.records[j].id;
  }

  lemma SameCleanedUp(before: Ledger, after: Ledger, id: string)
    requires SameEntries(after, before) && CleanedUp(before, id)
    ensures CleanedUp(after, id)
  {
    forall i | 0 <= i < |after.records| ensures after.records[i].id != id {
      var p := Place(after.records, before.records, i);
    }
    forall i | 0 <= i < |after.cleanups| ensures after.cleanups[i].launchId != id {
      var p := Place(after.cleanups, before.cleanups, i);
    }
  }

  lemma CompletingCleansUp(before: Ledger, launch: string, now: Stamp, scope: Option<string>, id: string)
    requires Sound(before) && CompleteRetirement(before, launch, now, scope).Write? && CleanedUp(before, id)
    ensures CleanedUp(CompleteRetirement(before, launch, now, scope).next, id)
  {
    hide Sound, ValidRetirement, Newest, PutRetirement, PutCleanup, DropCleanup;
    CompleteRetirementKeepsSound(before, launch, now, scope);
    var k := FindRecord(before.records, launch);
    var rest := Without(before.records, k);
    forall i | 0 <= i < |rest| ensures rest[i].id != id {
      WithoutIndex(before.records, k, i);
    }
    assert RetirementEntry(before.records[k], now, scope).launchId != id;
  }

  lemma StepKeepsCleanedUp(before: Ledger, op: Operation, after: Ledger, sign: Signer, id: string)
    requires Sound(before) && Step(before, op, after, sign) && CleanedUp(before, id) && !Redraws(op, id)
    ensures CleanedUp(after, id)
  {
    hide Sound, ValidRecord, ValidRetirement, Fresh, KeyOnRecord, KeyOnRetirement, PendingCount, RetiringCount, Newest,
         PutRetirement, PutCleanup, DropCleanup, Matches, SameEntries, RetirementEntry, FindRetirement,
         FindRetiredByKey, FindByKey, CompleteRetirement;
    if SameEntries(after, before) {
      SameCleanedUp(before, after, id);
    } else {
      match op {
        case Completing(launch, now, scope) => CompletingCleansUp(before, launch, now, scope, id);
        case Reserving(_, _, _, _, _) =>
        case CleaningUp(launch, _, _) =>
        case Transitioning(_, _, _, _) =>
        case Beginning(_, _, _) =>
        case Cancelling(_, _, _) =>
      }
    }
  }

  lemma {:induction false} StaysCleanedUp(
      ledgers: seq<Ledger>, ops: seq<Operation>, sign: Signer, i: nat, j: nat, id: string)
    requires Run(ledgers, ops, sign) && i <= j < |ledgers| && CleanedUp(ledgers[i], id)
    requires forall k :: i <= k < j ==> !Redraws(ops[k], id)
    ensures CleanedUp(ledgers[j], id)
  {
    hide Sound, Signed, Step, CleanedUp, Readable, Encode, Loaded, SameLedger, Redraws;
    if i < j {
      StaysCleanedUp(ledgers, ops, sign, i, j - 1, id);
      ReachableIsSound(ledgers, ops, sign, j - 1);
      StepKeepsCleanedUp(ledgers[j - 1], ops[j - 1], ledgers[j], sign, id);
    }
  }

  /** Once a cleanup has been finished, no later ledger of the run awaits it, whatever fails to be written and however
      often the ledger is opened again, as long as the random identity of its launch is not drawn again. */
  lemma FinishedCleanupIsFinal(ledgers: seq<Ledger>, ops: seq<Operation>, sign: Signer, n: nat, m: nat)
    requires Run(ledgers, ops, sign) && n < m < |ledgers|
    requires ops[n].CleaningUp? && Decide(ledgers[n], ops[n], sign) == Write(ledgers[n + 1])
    requires forall k :: n < k < m ==> !Redraws(ops[k], ops[n].id)
    ensures CleanedUp(ledgers[m], ops[n].id)
    ensures forall compact :: CleanedUp(Loaded(Encode(ledgers[m], compact)), ops[n].id)
  {
    hide Sound, Signed, Step, CleanedUp, Readable, Encode, Loaded, SameLedger, Redraws, CompleteCleanup;
    ReachableIsSound(ledgers, ops, sign, n);
    FinishedIsCleanedUp(ledgers[n], ops[n].id, ops[n].keyHash, ops[n].compact);
    StaysCleanedUp(ledgers, ops, sign, n + 1, m, ops[n].id);
    ReachableIsSound(ledgers, ops, sign, m);
    forall compact ensures CleanedUp(Loaded(Encode(ledgers[m], compact)), ops[n].id) {
      ReadsCleanedUp(ledgers[m], Loaded(Encode(ledgers[m], compact)), ops[n].id);
    }
  }

  lemma ReadsCleanedUp(l: Ledger, again: Ledger, id: string)
    requires SameLedger(again, l) && CleanedUp(l, id)
    ensures CleanedUp(again, id)
  {
    forall i | 0 <= i < |again.cleanups| ensures again.cleanups[i].launchId != id {
      assert again.cleanups[i] in l.cleanups;
    }
  }
}
