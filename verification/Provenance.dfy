/** The adapter's own durable record of each agent it created, and every transition of that record.
    A transition that the source answers with an exception is `None` here. Every new record passes
    `ValidRecord` before it is saved, and that check is what closes several dangerous transitions. */
module Provenance {
  import opened Common

  type Key = nat
  type RunId = nat
  type AttemptId = nat

  datatype Phase = Intent | Owned | Retiring | Retired

  /** The optional boolean `deleteAttempted` field. */
  datatype DeleteMark = Unset | NotAttempted | Attempted

  /** What a launch attempt is bound to; fixed for the life of the record. */
  datatype Binding = Binding(
    attemptId: AttemptId, launchId: nat, providerAgentId: nat, agentId: nat, configuration: nat)

  datatype Record = Record(
    binding: Binding,
    phase: Phase,
    runId: Option<RunId>,
    runPending: bool,
    cancelAttempted: Option<RunId>,
    retirementKey: Option<Key>,
    retirementReserved: bool,
    deleteAttempted: DeleteMark)

  predicate ValidRecord(r: Record) {
    && (r.cancelAttempted.Some? ==> r.cancelAttempted == r.runId)
    && (r.deleteAttempted == Attempted ==> r.phase == Retiring)
    && (r.retirementReserved ==>
          r.phase == Owned && r.retirementKey.Some? && r.deleteAttempted == NotAttempted)
    && (r.deleteAttempted == NotAttempted && r.phase != Retiring ==> r.retirementReserved)
    && ((r.phase == Retiring || r.phase == Retired || r.retirementReserved) <==> r.retirementKey.Some?)
    && (r.phase == Retired ==> r.deleteAttempted.Unset?)
    && (r.phase == Intent ==>
          && r.runId.None? && !r.runPending && r.cancelAttempted.None?
          && r.retirementKey.None? && !r.retirementReserved && r.deleteAttempted.Unset?)
  }

  function Checked(r: Record): Option<Record> {
    if ValidRecord(r) then Some(r) else None
  }

  function NewIntent(binding: Binding): Record {
    Record(binding, Intent, None, false, None, None, false, Unset)
  }

  // ----- transitions open in any phase

  function MarkOwned(r: Record): Option<Record> {
    Checked(r.(phase := Owned))
  }

  function CancelRetirement(r: Record, key: Key): Option<Record> {
    if (r.phase == Owned || r.phase == Retiring) && r.retirementKey == Some(key) then
      Checked(r.(phase := Owned, retirementKey := None, retirementReserved := false, deleteAttempted := Unset))
    else
      None
  }

  // ----- transitions of an owned record

  function BeginRun(r: Record): Option<Record> {
    if r.phase == Owned then Checked(r.(runPending := true)) else None
  }

  function CommitRun(r: Record, run: RunId): Option<Record> {
    if r.phase == Owned then Checked(r.(runId := Some(run), runPending := false, cancelAttempted := None)) else None
  }

  function RestoreRun(r: Record): Option<Record> {
    if r.phase == Owned then Checked(r.(runPending := false)) else None
  }

  function BeginCancel(r: Record, run: RunId): Option<Record> {
    if r.phase == Owned && !r.runPending && r.runId == Some(run) && r.cancelAttempted.None? then
      Checked(r.(cancelAttempted := Some(run)))
    else
      None
  }

  function RestoreCancel(r: Record, run: RunId): Option<Record> {
    if r.phase == Owned && r.runId == Some(run) && r.cancelAttempted == Some(run) then
      Checked(r.(cancelAttempted := None))
    else
      None
  }

  function ReserveRetirement(r: Record, key: Key): Option<Record> {
    if r.phase == Owned && (r.retirementKey.None? || r.retirementKey == Some(key)) then
      Checked(r.(retirementKey := Some(key), retirementReserved := true, deleteAttempted := NotAttempted))
    else
      None
  }

  function ReleaseReservation(r: Record, key: Key): Option<Record> {
    if r.phase == Owned && r.retirementKey == Some(key) && r.retirementReserved
        && r.deleteAttempted == NotAttempted then
      Checked(r.(retirementKey := None, retirementReserved := false, deleteAttempted := Unset))
    else
      None
  }

  function BeginRetirement(r: Record, key: Key): Option<Record> {
    if r.phase == Owned && (r.retirementKey.None? || r.retirementKey == Some(key)) then
      Checked(r.(phase := Retiring, retirementKey := Some(key), retirementReserved := false))
    else
      None
  }

  // ----- transitions of a retiring record

  function MarkDeleteAttempted(r: Record, key: Key): Option<Record> {
    if r.phase == Retiring && r.retirementKey == Some(key) then
      Checked(r.(deleteAttempted := Attempted))
    else
      None
  }

  function MarkRetired(r: Record, key: Key): Option<Record> {
    if r.phase == Retiring && r.retirementKey == Some(key) then
      Checked(r.(phase := Retired, deleteAttempted := Unset))
    else
      None
  }

  predicate MayRemove(r: Record, key: Key) {
    r.phase == Retired && r.retirementKey == Some(key)
  }

  // ----- what the transitions mean together

  /** A late reconciliation cannot revive a record whose retirement has begun: `markOwned` itself does
      not look at the phase, but the retirement key it would leave behind fails the record check. */
  lemma MarkOwnedNeverRevives(r: Record)
    requires ValidRecord(r)
    ensures MarkOwned(r).Some? <==> r.phase == Intent || r.phase == Owned
    ensures MarkOwned(r).Some? && r.phase == Owned ==> MarkOwned(r).value == r
  {
    assert r.phase == Owned ==> r.(phase := Owned) == r;
  }

  /** Reserving and then releasing, or reserving, beginning and then cancelling, gives the record back,
      whether or not the deletion had been marked as attempted in between. */
  lemma RetirementCanBeUndone(r: Record, key: Key)
    requires ValidRecord(r) && r.phase == Owned && r.retirementKey.None?
    ensures ReserveRetirement(r, key).Some?
    ensures var reserved := ReserveRetirement(r, key).value;
            && ReleaseReservation(reserved, key) == Some(r)
            && CancelRetirement(reserved, key) == Some(r)
            && BeginRetirement(reserved, key).Some?
            && var begun := BeginRetirement(reserved, key).value;
            && CancelRetirement(begun, key) == Some(r)
            && MarkDeleteAttempted(begun, key).Some?
            && CancelRetirement(MarkDeleteAttempted(begun, key).value, key) == Some(r)
  {
    assert r == r.(phase := Owned, retirementKey := None, retirementReserved := false, deleteAttempted := Unset);
  }

  /** Once retired a record only ever leaves by removal under its own key. */
  lemma RetiredIsFinal(r: Record, key: Key, run: RunId)
    requires ValidRecord(r) && r.phase == Retired
    ensures MarkOwned(r).None? && CancelRetirement(r, key).None? && BeginRun(r).None? && CommitRun(r, run).None?
    ensures RestoreRun(r).None? && BeginCancel(r, run).None? && RestoreCancel(r, run).None?
    ensures ReserveRetirement(r, key).None? && ReleaseReservation(r, key).None? && BeginRetirement(r, key).None?
    ensures MarkDeleteAttempted(r, key).None? && MarkRetired(r, key).None?
    ensures MayRemove(r, key) <==> r.retirementKey == Some(key)
  {
  }

  // ----- the durable store

  const MAX_RECORDS := 1_000

  type Update = Record -> Option<Record>

  /** The state file as the store's methods load, edit and save it, one method at a time. */
  class ProvenanceStore {
    var records: map<AttemptId, Record>

    /** What `#load` accepts; the store must never save anything else. */
    ghost predicate Valid()
      reads this
    {
      && |records| <= MAX_RECORDS
      && (forall a :: a in records ==> ValidRecord(records[a]) && records[a].binding.attemptId == a)
      && (forall a, b :: a in records && b in records && a != b ==>
            && records[a].binding.agentId != records[b].binding.agentId
            && records[a].binding.providerAgentId != records[b].binding.providerAgentId)
    }

    constructor ()
      ensures Valid() && records == map[]
    {
      records := map[];
    }

    /** Provider and public agent identities are hashes of the attempt identity, so a fresh attempt
        brings fresh ones. */
    method Reserve(binding: Binding, write: WriteOutcome) returns (created: Result<bool, string>)
      requires Valid()
      requires forall a :: a in records && a != binding.attemptId ==>
                 && records[a].binding.agentId != binding.agentId
                 && records[a].binding.providerAgentId != binding.providerAgentId
      modifies this
      ensures Valid()
      ensures created == Ok(true) ==>
                binding.attemptId !in old(records) && records == old(records)[binding.attemptId := NewIntent(binding)]
      ensures created != Ok(true) ==> records == old(records)
      ensures created == Ok(false) <==>
                binding.attemptId in old(records) && old(records)[binding.attemptId].binding == binding
      ensures created == Ok(true) <==>
                binding.attemptId !in old(records) && |old(records)| < MAX_RECORDS && write == Written
    {
      if binding.attemptId in records {
        if records[binding.attemptId].binding != binding {
          return Err("attempt provenance conflicts with existing state");
        }
        return Ok(false);
      }
      if |records| >= MAX_RECORDS { return Err("provenance state is full"); }
      if write == NotWritten { return Err("provenance write failed"); }
      records := records[binding.attemptId := NewIntent(binding)];
      created := Ok(true);
    }

    /** The shared load-edit-check-save of every single-record transition above. */
    method Apply(attemptId: AttemptId, update: Update, write: WriteOutcome) returns (updated: Option<Record>)
      requires Valid()
      requires forall r: Record :: update(r).Some? ==>
                 ValidRecord(update(r).value) && update(r).value.binding == r.binding
      modifies this
      ensures Valid()
      ensures updated.Some? <==> attemptId in old(records) && update(old(records)[attemptId]).Some? && write == Written
      ensures updated.Some? ==>
                updated == update(old(records)[attemptId]) && records == old(records)[attemptId := updated.value]
      ensures updated.None? ==> records == old(records)
    {
      if attemptId !in records || write == NotWritten { return None; }
      updated := update(records[attemptId]);
      if updated.Some? {
        records := records[attemptId := updated.value];
        assert records.Keys == old(records).Keys;
      }
    }

    method RemoveRetired(attemptId: AttemptId, key: Key, write: WriteOutcome) returns (removed: Result<bool, string>)
      requires Valid()
      modifies this
      ensures Valid()
      ensures removed == Ok(false) <==> attemptId !in old(records)
      ensures removed == Ok(true) <==>
                attemptId in old(records) && MayRemove(old(records)[attemptId], key) && write == Written
      ensures records == if removed == Ok(true) then old(records) - {attemptId} else old(records)
    {
      if attemptId !in records { return Ok(false); }
      if !MayRemove(records[attemptId], key) { return Err("retirement provenance does not match"); }
      if write == NotWritten { return Err("provenance write failed"); }
      ghost var before := records;
      records := records - {attemptId};
      assert records.Keys == before.Keys - {attemptId};
      assert |records.Keys| <= |before.Keys|;
      removed := Ok(true);
    }
  }
}
