/** One launch as the whole ledger records it: the ledger's operations move it only along the stages that
    the launch protocol takes for granted, whatever happens to the other launches. */
module LedgerStages {
  import opened LaunchContracts
  import opened LedgerState
  import opened LedgerEncoding
  import opened LedgerOrder
  import opened LaunchAdmission
  import opened LedgerRuns

  datatype Stage =
    | NotRecorded | AtRequested | AtCreating | AtUncertain | AtFailed | AtOwned
    | AtRetiring(key: string) | AtTombstone(key: string)

  function StageOf(r: Record): Stage {
    match r.state
    case Requested => AtRequested
    case Creating => AtCreating
    case Uncertain => AtUncertain
    case Failed => AtFailed
    case Owned => AtOwned
    case Retiring => if r.retirementKeyHash.Some? then AtRetiring(r.retirementKeyHash.value) else NotRecorded
  }

  function StageIn(l: Ledger, id: string): Stage {
    var k := FindRecord(l.records, id);
    var j := FindRetirement(l.retirements, id);
    if k < |l.records| then StageOf(l.records[k])
    else if j < |l.retirements| then AtTombstone(l.retirements[j].keyHash)
    else NotRecorded
  }

  /** The state changes the coordinator asks for. */
  predicate Coordinated(op: Operation) {
    op.Transitioning? ==>
      || (op.expected == {State.Requested} && op.patch.state.Creating?)
      || (op.expected == {State.Creating} && op.patch.state.Uncertain?)
      || (op.expected == {State.Creating, State.Uncertain}
          && (op.patch.state.Owned? || op.patch.state.Failed? || op.patch.state.Uncertain?))
  }

  /** The moves of one launch. A tombstone is final until it is dropped; a retirement ends under the key it
      began with. */
  predicate Moves(a: Stage, b: Stage) {
    || a == b
    || (a.NotRecorded? && b.AtRequested?)
    || (a.AtRequested? && b.AtCreating?)
    || ((a.AtCreating? || a.AtUncertain?) && (b.AtUncertain? || b.AtOwned? || b.AtFailed?))
    || (a.AtOwned? && b.AtRetiring?)
    || (a.AtRetiring? && (b.AtOwned? || b == AtTombstone(a.key)))
    || (a.AtTombstone? && b.NotRecorded?)
  }

  // ----- where a launch is found

  lemma FoundAsRecord(l: Ledger, k: nat)
    requires Sound(l) && k < |l.records|
    ensures StageIn(l, l.records[k].id) == StageOf(l.records[k]) && FindRecord(l.records, l.records[k].id) == k
    ensures forall j :: 0 <= j < |l.retirements| ==> l.retirements[j].launchId != l.records[k].id
  {
    hide ValidRecord, ValidRetirement, CleanupsSound, CleanupsFitRetirements, CleanupsFitRecords, StageOf;
    var i := FindRecord(l.records, l.records[k].id);
    assert i < k ==> Apart(RecordRow(l.records[i]), RecordRow(l.records[k]));
    forall j | 0 <= j < |l.retirements| ensures l.retirements[j].launchId != l.records[k].id {
      assert Apart(RecordRow(l.records[k]), RetirementRow(l.retirements[j]));
    }
  }

  lemma FoundAsTombstone(l: Ledger, j: nat)
    requires Sound(l) && j < |l.retirements|
    ensures StageIn(l, l.retirements[j].launchId) == AtTombstone(l.retirements[j].keyHash)
    ensures forall i :: 0 <= i < |l.records| ==> l.records[i].id != l.retirements[j].launchId
  {
    hide ValidRecord, ValidRetirement, CleanupsSound, CleanupsFitRetirements, CleanupsFitRecords, StageOf;
    var i := FindRetirement(l.retirements, l.retirements[j].launchId);
    assert i < j ==> Apart(RetirementRow(l.retirements[i]), RetirementRow(l.retirements[j]));
    forall i | 0 <= i < |l.records| ensures l.records[i].id != l.retirements[j].launchId {
      assert Apart(RecordRow(l.records[i]), RetirementRow(l.retirements[j]));
    }
  }

  // ----- each operation moves one launch

  lemma AppendMoves(l: Ledger, r: Record, id: string)
    requires Sound(l) && Sound(l.(records := l.records + [r])) && r.state.Requested?
    ensures Moves(StageIn(l, id), StageIn(l.(records := l.records + [r]), id))
  {
    var next := l.(records := l.records + [r]);
    hide Sound;
    var k := FindRecord(l.records, id);
    var j := FindRetirement(l.retirements, id);
    FoundAsRecord(next, |l.records|);
    if k < |l.records| {
      assert next.records[k] == l.records[k];
      FoundAsRecord(next, k);
    } else if id != r.id {
      assert forall i :: 0 <= i < |l.records| ==> next.records[i] == l.records[i];
    }
  }

  lemma ReplaceMoves(l: Ledger, k: nat, r: Record, id: string)
    requires Sound(l) && k < |l.records| && r.id == l.records[k].id && Sound(l.(records := l.records[k := r]))
    requires Moves(StageOf(l.records[k]), StageOf(r))
    ensures Moves(StageIn(l, id), StageIn(l.(records := l.records[k := r]), id))
  {
    var next := l.(records := l.records[k := r]);
    hide Sound, Moves;
    var m := FindRecord(l.records, id);
    if m < |l.records| {
      FoundAsRecord(next, m);
      FoundAsRecord(l, k);
      assert next.records[m].id == l.records[m].id;
      SelfMove(StageOf(l.records[m]));
    } else {
      assert forall i :: 0 <= i < |l.records| ==> next.records[i].id == l.records[i].id;
      SelfMove(StageIn(l, id));
    }
  }

  lemma SelfMove(a: Stage)
    ensures Moves(a, a)
  {
  }

  lemma CompletionMoves(l: Ledger, op: Operation, id: string, sign: Signer)
    requires Sound(l) && op.Completing? && Decide(l, op, sign).Write?
    ensures Moves(StageIn(l, id), StageIn(Decide(l, op, sign).next, id))
  {
    hide Sound, StageIn, FindCleanup, ValidRetirement, Moves, Newest, RetirementCleanup;
    var next := Decide(l, op, sign).next;
    var k := FindRecord(l.records, op.id);
    CompleteRetirementKeepsSound(l, op.id, op.now, op.scope);
    CompletedMoves(l, next, k, RetirementEntry(l.records[k], op.now, op.scope), id);
  }

  lemma CompletedMoves(l: Ledger, next: Ledger, k: nat, t: Retirement, id: string)
    requires Sound(l) && Sound(next) && k < |l.records| && k == FindRecord(l.records, t.launchId)
    requires l.records[k].id == t.launchId && StageOf(l.records[k]) == AtRetiring(t.keyHash)
    requires next.records == Without(l.records, k) && next.retirements == Newest(l.retirements + [t])
    ensures Moves(StageIn(l, id), StageIn(next, id))
  {
    hide Sound, StageOf, Newest, Moves;
    var all := l.retirements + [t];
    var last := |next.retirements| - 1;
    NewestHasLast(l.retirements, t);
    var m := FindRecord(l.records, id);
    if id == t.launchId {
      FoundAsRecord(l, k);
      FoundAsTombstone(next, last);
      EndMove(t.keyHash);
    } else if m < |l.records| {
      var n := if m < k then m else m - 1;
      WithoutIndex(l.records, k, n);
      FoundAsRecord(next, n);
      SelfMove(StageOf(l.records[m]));
    } else {
      NotARecord(l.records, k, id);
      TombstoneMoves(l, next, t, |all| - |next.retirements|, id);
    }
  }

  lemma NewestHasLast(retirements: seq<Retirement>, t: Retirement)
    ensures var kept := Newest(retirements + [t]);
            0 < |kept| <= |retirements| + 1 && kept[|kept| - 1] == t
  {
  }

  lemma EndMove(key: string)
    ensures Moves(AtRetiring(key), AtTombstone(key))
  {
  }

  lemma NotARecord(records: seq<Record>, k: nat, id: string)
    requires k < |records| && forall i :: 0 <= i < |records| ==> records[i].id != id
    ensures FindRecord(Without(records, k), id) == |Without(records, k)|
  {
    var m := FindRecord(Without(records, k), id);
    if m < |Without(records, k)| {
      WithoutIndex(records, k, m);
    }
  }

  lemma TombstoneMoves(l: Ledger, next: Ledger, t: Retirement, cut: nat, id: string)
    requires Sound(l) && Sound(next) && |next.retirements| + cut == |l.retirements| + 1 && t.launchId != id
    requires next.retirements == Newest(l.retirements + [t])
    requires FindRecord(l.records, id) == |l.records| && FindRecord(next.records, id) == |next.records|
    ensures Moves(StageIn(l, id), StageIn(next, id))
  {
    hide Sound, Newest;
    var all := l.retirements + [t];
    var n := FindRetirement(next.retirements, id);
    if n < |next.retirements| {
      NewestIndex(all, n);
      FoundAsTombstone(next, n);
      assert all[n + cut] == next.retirements[n];
      FoundAsTombstone(l, n + cut);
    }
  }

  lemma CleaningMoves(l: Ledger, op: Operation, id: string, sign: Signer)
    requires Sound(l) && op.CleaningUp? && Decide(l, op, sign).Write?
    ensures StageIn(Decide(l, op, sign).next, id) == StageIn(l, id)
  {
    var next := Decide(l, op, sign).next;
    hide Sound, StageOf, FindCleanup;
    assert next.records == l.records && |next.retirements| == |l.retirements|;
    assert forall j :: 0 <= j < |l.retirements| ==>
             next.retirements[j].launchId == l.retirements[j].launchId
             && next.retirements[j].keyHash == l.retirements[j].keyHash;
    SameTombstone(l.retirements, next.retirements, id);
  }

  lemma {:induction false} SameTombstone(a: seq<Retirement>, b: seq<Retirement>, id: string)
    requires |a| == |b| && forall j :: 0 <= j < |a| ==> a[j].launchId == b[j].launchId
    ensures FindRetirement(a, id) == FindRetirement(b, id)
  {
    if a != [] {
      SameTombstone(a[1..], b[1..], id);
    }
  }

  lemma SameStage(before: Ledger, after: Ledger, id: string)
    requires Sound(before) && Sound(after) && SameEntries(after, before)
    ensures StageIn(after, id) == StageIn(before, id)
  {
    hide Sound, StageOf;
    var k, m := FindRecord(before.records, id), FindRecord(after.records, id);
    if k < |before.records| {
      var p := Place(before.records, after.records, k);
      FoundAsRecord(after, p);
    } else if m < |after.records| {
      var p := Place(after.records, before.records, m);
      FoundAsRecord(before, p);
    }
  }

  /** Every step of the ledger moves a launch as the protocol expects, or leaves it where it is. */
  lemma StepMoves(before: Ledger, op: Operation, after: Ledger, sign: Signer, id: string)
    requires Sound(before) && Step(before, op, after, sign) && Coordinated(op)
    ensures Moves(StageIn(before, id), StageIn(after, id))
  {
    StepKeepsSound(before, op, after, sign);
    hide Sound, StageIn, SameEntries, Decide, Moves;
    if SameEntries(after, before) {
      SameStage(before, after, id);
      SelfMove(StageIn(before, id));
    } else {
      match op {
        case Reserving(_, _, _, _, _) => ReservationMoves(before, op, after, sign, id);
        case Completing(_, _, _) =>
          CompletionMoves(before, op, id, sign);
        case CleaningUp(_, _, _) =>
          CleaningMoves(before, op, id, sign);
        case Transitioning(_, _, _, _) => RecordMoves(before, op, after, sign, id);
        case Beginning(_, _, _) => RecordMoves(before, op, after, sign, id);
        case Cancelling(_, _, _) => RecordMoves(before, op, after, sign, id);
      }
    }
  }

  lemma ReservationMoves(before: Ledger, op: Operation, after: Ledger, sign: Signer, id: string)
    requires Sound(before) && Sound(after) && op.Reserving? && Decide(before, op, sign) == Write(after)
    ensures Moves(StageIn(before, id), StageIn(after, id))
  {
    hide Sound, StageIn, ValidRecord, KeyOnRecord, KeyOnRetirement, PendingCount, FindByKey, FindRetiredByKey;
    AppendMoves(before, after.records[|before.records|], id);
  }

  lemma RecordMoves(before: Ledger, op: Operation, after: Ledger, sign: Signer, id: string)
    requires Sound(before) && Sound(after) && Coordinated(op) && Decide(before, op, sign) == Write(after)
    requires op.Transitioning? || op.Beginning? || op.Cancelling?
    ensures Moves(StageIn(before, id), StageIn(after, id))
  {
    hide Sound, StageIn, ValidRecord, KeyOnRetirement, RetiringCount, FindByKey, FindRetiredByKey;
    var k := FindRecord(before.records, op.id);
    ReplaceMoves(before, k, after.records[k], id);
  }

  function Rank(s: Stage): nat {
    match s
    case NotRecorded => 0
    case AtRequested => 1
    case AtCreating => 2
    case _ => 3
  }

  lemma MoveNeverFalls(a: Stage, b: Stage)
    requires Moves(a, b) && !a.NotRecorded? && !b.NotRecorded?
    ensures Rank(a) <= Rank(b) && (a.AtTombstone? ==> b == a)
  {
  }

  /** Over every run, and until its tombstone is dropped, a launch never returns to `requested` or
      `creating`, and its tombstone keeps its key. */
  lemma {:induction false} StageNeverFallsBack(
      ledgers: seq<Ledger>, ops: seq<Operation>, sign: Signer, i: nat, j: nat, id: string)
    requires Run(ledgers, ops, sign) && i <= j < |ledgers|
    requires forall n :: 0 <= n < |ops| ==> Coordinated(ops[n])
    requires forall n :: i <= n <= j ==> !StageIn(ledgers[n], id).NotRecorded?
    ensures Rank(StageIn(ledgers[i], id)) <= Rank(StageIn(ledgers[j], id))
    ensures StageIn(ledgers[i], id).AtTombstone? ==> StageIn(ledgers[j], id) == StageIn(ledgers[i], id)
    decreases j
  {
    hide Sound, Step, StageIn, Coordinated, Moves, Rank, Signed, Readable, Encode, Loaded, SameLedger;
    if i < j {
      StageNeverFallsBack(ledgers, ops, sign, i, j - 1, id);
      ReachableIsSound(ledgers, ops, sign, j - 1);
      StepMoves(ledgers[j - 1], ops[j - 1], ledgers[j], sign, id);
      MoveNeverFalls(StageIn(ledgers[j - 1], id), StageIn(ledgers[j], id));
    }
  }
}
