/** The launch ledger as a value, and what each of its operations decides. */
module LedgerState {
  import opened Common
  import opened LaunchContracts

  const MAX_RECORDS := 1_000
  const MAX_PENDING := 32
  const MAX_RETIREMENTS := 100
  const MAX_RETIREMENT_CLEANUPS := 1_000

  datatype Retirement = Retirement(
    launchId: string, attemptId: string, provider: string, keyHash: string, creationKeyHash: string,
    signature: string, request: Request, requestedAt: Stamp, retiredAt: Stamp, cleanupScope: Option<string>)

  datatype Cleanup = Cleanup(
    launchId: string, attemptId: string, provider: string, keyHash: string, cleanupScope: string)

  /** Records, tombstones (oldest first) and pending cleanups, in insertion order. */
  datatype Ledger = Ledger(records: seq<Record>, retirements: seq<Retirement>, cleanups: seq<Cleanup>)

  // ----- lookups; the first match, or the length when there is none

  function FindRecord(records: seq<Record>, id: string): (k: nat)
    ensures k <= |records|
    ensures k < |records| ==> records[k].id == id
    ensures forall i :: 0 <= i < k ==> records[i].id != id
  {
    if records == [] then 0 else if records[0].id == id then 0 else 1 + FindRecord(records[1..], id)
  }

  function FindByKey(records: seq<Record>, keyHash: string): (k: nat)
    ensures k <= |records|
    ensures k < |records| ==> records[k].keyHash == keyHash
    ensures forall i :: 0 <= i < k ==> records[i].keyHash != keyHash
  {
    if records == [] then 0 else if records[0].keyHash == keyHash then 0 else 1 + FindByKey(records[1..], keyHash)
  }

  function FindRetiredByKey(retirements: seq<Retirement>, keyHash: string): (k: nat)
    ensures k <= |retirements|
    ensures k < |retirements| ==> retirements[k].creationKeyHash == keyHash
    ensures forall i :: 0 <= i < k ==> retirements[i].creationKeyHash != keyHash
  {
    if retirements == [] then 0
    else if retirements[0].creationKeyHash == keyHash then 0
    else 1 + FindRetiredByKey(retirements[1..], keyHash)
  }

  function FindRetirement(retirements: seq<Retirement>, id: string): (k: nat)
    ensures k <= |retirements|
    ensures k < |retirements| ==> retirements[k].launchId == id
    ensures forall i :: 0 <= i < k ==> retirements[i].launchId != id
  {
    if retirements == [] then 0
    else if retirements[0].launchId == id then 0
    else 1 + FindRetirement(retirements[1..], id)
  }

  function FindCleanup(cleanups: seq<Cleanup>, id: string): (k: nat)
    ensures k <= |cleanups|
    ensures k < |cleanups| ==> cleanups[k].launchId == id
    ensures forall i :: 0 <= i < k ==> cleanups[i].launchId != id
  {
    if cleanups == [] then 0 else if cleanups[0].launchId == id then 0 else 1 + FindCleanup(cleanups[1..], id)
  }

  function Without<T>(s: seq<T>, k: nat): seq<T>
    requires k < |s|
  {
    s[..k] + s[k + 1..]
  }

  function RetiringCount(records: seq<Record>): nat {
    if records == [] then 0 else (if records[0].state.Retiring? then 1 else 0) + RetiringCount(records[1..])
  }

  function PendingCount(records: seq<Record>): nat {
    if records == [] then 0
    else (if records[0].state.Requested? || records[0].state.Creating? || records[0].state.Uncertain? then 1 else 0)
         + PendingCount(records[1..])
  }

  // ----- derived entries

  function Later(previous: Stamp, candidate: Stamp): Stamp {
    if candidate.ms.Some? && previous.ms.Some? && candidate.ms.value < previous.ms.value then previous else candidate
  }

  function RetirementEntry(r: Record, now: Stamp, scope: Option<string>): Retirement
    requires r.retirementKeyHash.Some?
  {
    Retirement(r.id, r.attemptId, r.request.provider, r.retirementKeyHash.value, r.keyHash, r.signature, r.request,
               r.requestedAt, Later(r.updatedAt, now), scope)
  }

  function RetirementCleanup(t: Retirement): Cleanup
    requires t.cleanupScope.Some?
  {
    Cleanup(t.launchId, t.attemptId, t.provider, t.keyHash, t.cleanupScope.value)
  }

  predicate Matches(c: Cleanup, t: Retirement) {
    && c.launchId == t.launchId && c.attemptId == t.attemptId && c.provider == t.provider
    && c.keyHash == t.keyHash && t.cleanupScope == Some(c.cleanupScope)
  }

  predicate ValidRetirement(t: Retirement) {
    && LaunchId(t.launchId) && AttemptId(t.attemptId) && SafeId(t.provider)
    && SafeHash(t.keyHash) && SafeHash(t.creationKeyHash) && SafeHash(t.signature)
    && (t.cleanupScope.Some? ==> Base64Url(t.cleanupScope.value, 16))
    && ValidRequest(t.request) && t.provider == t.request.provider
    && t.requestedAt.ms.Some? && t.retiredAt.ms.Some?
  }

  predicate ValidCleanup(c: Cleanup) {
    LaunchId(c.launchId) && AttemptId(c.attemptId) && SafeId(c.provider) && SafeHash(c.keyHash)
    && Base64Url(c.cleanupScope, 16)
  }

  // ----- what `open` demands

  /** The identities an entry occupies: its launch, its attempt, and the idempotency keys it claims. */
  datatype Row = Row(id: string, attemptId: string, claims: set<string>)

  function RecordRow(r: Record): Row {
    Row(r.id, r.attemptId, {r.keyHash} + if r.retirementKeyHash.Some? then {r.retirementKeyHash.value} else {})
  }

  function RetirementRow(t: Retirement): Row {
    Row(t.launchId, t.attemptId, {t.creationKeyHash, t.keyHash})
  }

  predicate Apart(a: Row, b: Row) {
    a.id != b.id && a.attemptId != b.attemptId && a.claims !! b.claims
  }

  predicate RecordsSound(records: seq<Record>) {
    && |records| <= MAX_RECORDS
    && (forall i :: 0 <= i < |records| ==>
        ValidRecord(records[i]) && records[i].retirementKeyHash != Some(records[i].keyHash))
    && (forall i, j :: 0 <= i < j < |records| ==> Apart(RecordRow(records[i]), RecordRow(records[j])))
  }

  predicate RetirementsSound(retirements: seq<Retirement>) {
    |retirements| <= MAX_RETIREMENTS && RetirementsApart(retirements)
  }

  predicate RetirementsApart(retirements: seq<Retirement>) {
    && (forall i :: 0 <= i < |retirements| ==>
          ValidRetirement(retirements[i]) && retirements[i].creationKeyHash != retirements[i].keyHash)
    && (forall i, j :: 0 <= i < j < |retirements| ==>
        Apart(RetirementRow(retirements[i]), RetirementRow(retirements[j])))
  }

  predicate Disjoint(records: seq<Record>, retirements: seq<Retirement>) {
    forall i, j :: 0 <= i < |records| && 0 <= j < |retirements| ==>
      Apart(RecordRow(records[i]), RetirementRow(retirements[j]))
  }

  predicate CleanupsSound(cleanups: seq<Cleanup>) {
    && (forall i :: 0 <= i < |cleanups| ==> ValidCleanup(cleanups[i]))
    && (forall i, j :: 0 <= i < j < |cleanups| ==>
          cleanups[i].launchId != cleanups[j].launchId && cleanups[i].attemptId != cleanups[j].attemptId)
  }

  /** A cleanup agrees with the tombstone of its launch, while that is kept, and shares its attempt with no other. */
  predicate Compatible(c: Cleanup, t: Retirement) {
    && (c.launchId == t.launchId ==> Matches(c, t))
    && (c.attemptId == t.attemptId ==> c.launchId == t.launchId)
  }

  predicate CleanupsFitRetirements(cleanups: seq<Cleanup>, retirements: seq<Retirement>) {
    forall i, j :: 0 <= i < |cleanups| && 0 <= j < |retirements| ==> Compatible(cleanups[i], retirements[j])
  }

  predicate CleanupsFitRecords(cleanups: seq<Cleanup>, records: seq<Record>) {
    forall i, j :: 0 <= i < |cleanups| && 0 <= j < |records| ==>
      cleanups[i].launchId != records[j].id && cleanups[i].attemptId != records[j].attemptId
  }

  predicate Sound(l: Ledger) {
    && RecordsSound(l.records) && RetirementsSound(l.retirements) && Disjoint(l.records, l.retirements)
    && CleanupsSound(l.cleanups) && CleanupsFitRetirements(l.cleanups, l.retirements)
    && CleanupsFitRecords(l.cleanups, l.records)
    && |l.cleanups| + RetiringCount(l.records) <= MAX_RETIREMENT_CLEANUPS
  }

  // ----- operations: the new ledger to persist, or an answer that changes nothing

  datatype Answer =
    | Unknown | Unchanged(record: Record) | Retired(retirement: Retirement) | Conflict | Full | Nothing
    | Failure(code: string)

  datatype Verdict = Reply(answer: Answer) | Write(next: Ledger)

  predicate KeyOnRecord(records: seq<Record>, keyHash: string) {
    exists i | 0 <= i < |records| :: records[i].retirementKeyHash == Some(keyHash)
  }

  predicate KeyOnRetirement(retirements: seq<Retirement>, keyHash: string) {
    exists i | 0 <= i < |retirements| :: retirements[i].keyHash == keyHash
  }

  function Reserve(
      l: Ledger, id: string, attemptId: string, keyHash: string, signature: string, request: Request,
      now: Stamp): Verdict
  {
    var existing := FindByKey(l.records, keyHash);
    var retired := FindRetiredByKey(l.retirements, keyHash);
    var record := Record(id, attemptId, keyHash, signature, request, Requested, None, None, None, None, now, now);
    if existing < |l.records| then Reply(Unchanged(l.records[existing]))
    else if retired < |l.retirements| then Reply(Retired(l.retirements[retired]))
    else if KeyOnRecord(l.records, keyHash) || KeyOnRetirement(l.retirements, keyHash) then Reply(Conflict)
    else if PendingCount(l.records) >= MAX_PENDING || |l.records| >= MAX_RECORDS then Reply(Full)
    else if !ValidRecord(record) then Reply(Failure("invalid launch request record"))
    else Write(l.(records := l.records + [record]))
  }

  /** A state change of the coordinator; every patch it uses assigns `error`, and only success assigns ids. */
  datatype Patch = Patch(state: State, agent: Option<(string, string)>, error: Option<LaunchError>)

  function Patched(r: Record, patch: Patch, now: Stamp): Record {
    var s := r.(state := patch.state, error := patch.error, updatedAt := now);
    if patch.agent.None? then s
    else s.(providerAgentId := Some(patch.agent.value.0), agentId := Some(patch.agent.value.1))
  }

  function Transition(l: Ledger, id: string, expected: set<State>, patch: Patch, now: Stamp): Verdict {
    var k := FindRecord(l.records, id);
    if k == |l.records| then Reply(Failure("launch record not found"))
    else if l.records[k].state !in expected then Reply(Unchanged(l.records[k]))
    else
      var next := Patched(l.records[k], patch, now);
      if !ValidRecord(next) then Reply(Failure("invalid launch state transition"))
      else Write(l.(records := l.records[k := next]))
  }

  function BeginRetirement(l: Ledger, id: string, keyHash: string, now: Stamp): Verdict {
    var k := FindRecord(l.records, id);
    if !SafeHash(keyHash) then Reply(Failure("invalid retirement idempotency hash"))
    else if k == |l.records| then Reply(Unknown)
    else if l.records[k].state.Retiring? then Reply(Unchanged(l.records[k]))
    else if !l.records[k].state.Owned? then Reply(Failure("only owned launches can be retired"))
    else if |l.cleanups| + RetiringCount(l.records) >= MAX_RETIREMENT_CLEANUPS then
      Reply(Failure("retirement_cleanup_full"))
    else if (exists i | 0 <= i < |l.records| ::
               l.records[i].id != id && l.records[i].retirementKeyHash == Some(keyHash))
         || KeyOnRetirement(l.retirements, keyHash)
         || FindByKey(l.records, keyHash) < |l.records|
         || FindRetiredByKey(l.retirements, keyHash) < |l.retirements| then
      Reply(Failure("retirement_key_conflict"))
    else
      var r := l.records[k];
      var next := r.(state := Retiring, retirementKeyHash := Some(keyHash), updatedAt := Later(r.updatedAt, now));
      if !ValidRecord(next) then Reply(Failure("invalid launch retirement transition"))
      else Write(l.(records := l.records[k := next]))
  }

  function CancelRetirement(l: Ledger, id: string, keyHash: string, now: Stamp): Verdict {
    var k := FindRecord(l.records, id);
    if k == |l.records| || !l.records[k].state.Retiring? || l.records[k].retirementKeyHash != Some(keyHash) then
      Reply(Failure("launch retirement fence does not match"))
    else
      var r := l.records[k];
      var next := r.(state := Owned, retirementKeyHash := None, updatedAt := Later(r.updatedAt, now));
      if !ValidRecord(next) then Reply(Failure("invalid launch retirement rollback"))
      else Write(l.(records := l.records[k := next]))
  }

  function Newest(retirements: seq<Retirement>): seq<Retirement> {
    if |retirements| > MAX_RETIREMENTS then retirements[|retirements| - MAX_RETIREMENTS..] else retirements
  }

  function PutRetirement(retirements: seq<Retirement>, t: Retirement): seq<Retirement> {
    var k := FindRetirement(retirements, t.launchId);
    if k < |retirements| then retirements[k := t] else retirements + [t]
  }

  function PutCleanup(cleanups: seq<Cleanup>, c: Cleanup): seq<Cleanup> {
    var k := FindCleanup(cleanups, c.launchId);
    if k < |cleanups| then cleanups[k := c] else cleanups + [c]
  }

  function DropCleanup(cleanups: seq<Cleanup>, id: string): seq<Cleanup> {
    var k := FindCleanup(cleanups, id);
    if k < |cleanups| then Without(cleanups, k) else cleanups
  }

  function CompleteRetirement(l: Ledger, id: string, now: Stamp, scope: Option<string>): Verdict {
    var k := FindRecord(l.records, id);
    if k == |l.records| || !l.records[k].state.Retiring? || l.records[k].retirementKeyHash.None? then
      Reply(Failure("launch retirement is not fenced"))
    else
      var t := RetirementEntry(l.records[k], now, scope);
      if !ValidRetirement(t) then Reply(Failure("invalid launch retirement tombstone"))
      else
        Write(Ledger(
          Without(l.records, k),
          Newest(PutRetirement(l.retirements, t)),
          if scope.Some? then PutCleanup(l.cleanups, RetirementCleanup(t)) else DropCleanup(l.cleanups, id)))
  }

  function CompleteCleanup(l: Ledger, id: string, keyHash: string, compact: bool): Verdict {
    var k := FindCleanup(l.cleanups, id);
    if k == |l.cleanups| then Reply(Nothing)
    else if l.cleanups[k].keyHash != keyHash then Reply(Failure("retirement cleanup fence does not match"))
    else
      var j := FindRetirement(l.retirements, id);
      Write(l.(
        cleanups := Without(l.cleanups, k),
        retirements :=
          if compact && j < |l.retirements| && Matches(l.cleanups[k], l.retirements[j]) then
            l.retirements[j := l.retirements[j].(cleanupScope := None)]
          else
            l.retirements))
  }

  // ----- every operation keeps what `open` demands

  lemma {:induction false} RetiringCountUpdate(records: seq<Record>, k: nat, r: Record)
    requires k < |records|
    ensures RetiringCount(records[k := r]) + (if records[k].state.Retiring? then 1 else 0)
            == RetiringCount(records) + (if r.state.Retiring? then 1 else 0)
  {
    if k > 0 {
      assert records[k := r][1..] == records[1..][k - 1 := r];
      RetiringCountUpdate(records[1..], k - 1, r);
    } else {
      assert records[k := r][1..] == records[1..];
    }
  }

  lemma {:induction false} RetiringCountWithout(records: seq<Record>, k: nat)
    requires k < |records|
    ensures RetiringCount(Without(records, k)) + (if records[k].state.Retiring? then 1 else 0) == RetiringCount(records)
  {
    if k > 0 {
      assert Without(records, k)[1..] == Without(records[1..], k - 1);
      RetiringCountWithout(records[1..], k - 1);
    } else {
      assert Without(records, k) == records[1..];
    }
  }

  lemma {:induction false} RetiringCountAppend(records: seq<Record>, r: Record)
    ensures RetiringCount(records + [r]) == RetiringCount(records) + (if r.state.Retiring? then 1 else 0)
  {
    if records != [] {
      assert (records + [r])[1..] == records[1..] + [r];
      RetiringCountAppend(records[1..], r);
    } else {
      assert (records + [r])[1..] == [];
    }
  }

  /** The launch and attempt identities are drawn at random; the model asks that they are new. */
  predicate Fresh(l: Ledger, id: string, attemptId: string) {
    && (forall i :: 0 <= i < |l.records| ==> l.records[i].id != id && l.records[i].attemptId != attemptId)
    && (forall i :: 0 <= i < |l.retirements| ==>
        l.retirements[i].launchId != id && l.retirements[i].attemptId != attemptId)
    && (forall i :: 0 <= i < |l.cleanups| ==> l.cleanups[i].launchId != id && l.cleanups[i].attemptId != attemptId)
  }

  lemma RecordsAppend(records: seq<Record>, r: Record)
    requires RecordsSound(records) && |records| < MAX_RECORDS && ValidRecord(r)
    requires r.retirementKeyHash != Some(r.keyHash)
    requires forall i :: 0 <= i < |records| ==> Apart(RecordRow(records[i]), RecordRow(r))
    ensures RecordsSound(records + [r])
  {
  }

  lemma RecordsReplace(records: seq<Record>, k: nat, r: Record)
    requires RecordsSound(records) && k < |records| && ValidRecord(r) && r.retirementKeyHash != Some(r.keyHash)
    requires forall i :: 0 <= i < |records| && i != k ==> Apart(RecordRow(records[i]), RecordRow(r))
    ensures RecordsSound(records[k := r])
  {
  }

  lemma RecordsWithout(records: seq<Record>, k: nat)
    requires RecordsSound(records) && k < |records|
    ensures RecordsSound(Without(records, k))
    ensures forall i :: 0 <= i < |records| - 1 ==> Apart(RecordRow(Without(records, k)[i]), RecordRow(records[k]))
  {
    var rest := Without(records, k);
    forall i | 0 <= i < |rest| ensures rest[i] == records[if i < k then i else i + 1] {
    }
  }

  lemma NewRecordApart(l: Ledger, r: Record)
    requires Fresh(l, r.id, r.attemptId) && r.retirementKeyHash.None?
    requires FindByKey(l.records, r.keyHash) == |l.records|
    requires FindRetiredByKey(l.retirements, r.keyHash) == |l.retirements|
    requires !KeyOnRecord(l.records, r.keyHash) && !KeyOnRetirement(l.retirements, r.keyHash)
    ensures forall i :: 0 <= i < |l.records| ==> Apart(RecordRow(l.records[i]), RecordRow(r))
    ensures forall j :: 0 <= j < |l.retirements| ==> Apart(RecordRow(r), RetirementRow(l.retirements[j]))
  {
    assert RecordRow(r).claims == {r.keyHash};
    forall i | 0 <= i < |l.records| ensures Apart(RecordRow(l.records[i]), RecordRow(r)) {
    }
    forall j | 0 <= j < |l.retirements| ensures Apart(RecordRow(r), RetirementRow(l.retirements[j])) {
    }
  }

  lemma ReserveKeepsSound(
      l: Ledger, id: string, attemptId: string, keyHash: string, signature: string, request: Request, now: Stamp)
    requires Sound(l) && Fresh(l, id, attemptId)
    requires Reserve(l, id, attemptId, keyHash, signature, request, now).Write?
    ensures Sound(Reserve(l, id, attemptId, keyHash, signature, request, now).next)
  {
    var r := Record(id, attemptId, keyHash, signature, request, Requested, None, None, None, None, now, now);
    NewRecordApart(l, r);
    AppendKeepsSound(l, r);
  }

  lemma DisjointAppend(records: seq<Record>, retirements: seq<Retirement>, r: Record)
    requires Disjoint(records, retirements)
    requires forall j :: 0 <= j < |retirements| ==> Apart(RecordRow(r), RetirementRow(retirements[j]))
    ensures Disjoint(records + [r], retirements)
  {
  }

  lemma AppendKeepsSound(l: Ledger, r: Record)
    requires Sound(l) && Fresh(l, r.id, r.attemptId) && |l.records| < MAX_RECORDS && ValidRecord(r)
    requires r.state.Requested?
    requires forall i :: 0 <= i < |l.records| ==> Apart(RecordRow(l.records[i]), RecordRow(r))
    requires forall j :: 0 <= j < |l.retirements| ==> Apart(RecordRow(r), RetirementRow(l.retirements[j]))
    ensures Sound(l.(records := l.records + [r]))
  {
    RecordsAppend(l.records, r);
    RetiringCountAppend(l.records, r);
    DisjointAppend(l.records, l.retirements, r);
    assert CleanupsFitRecords(l.cleanups, l.records + [r]);
  }

  /** A record keeps its identities and its creation key, and its retirement key is unchanged, gone, or
      claimed by nobody. */
  predicate Replaceable(l: Ledger, k: nat, r: Record)
    requires k < |l.records|
  {
    && ValidRecord(r)
    && r.id == l.records[k].id && r.attemptId == l.records[k].attemptId && r.keyHash == l.records[k].keyHash
    && (r.retirementKeyHash.Some? && r.retirementKeyHash != l.records[k].retirementKeyHash ==>
          && (forall i :: 0 <= i < |l.records| ==> r.retirementKeyHash.value !in RecordRow(l.records[i]).claims)
          && (forall i :: 0 <= i < |l.retirements| ==>
              r.retirementKeyHash.value !in RetirementRow(l.retirements[i]).claims))
    && (r.state.Retiring? && !l.records[k].state.Retiring? ==>
          |l.cleanups| + RetiringCount(l.records) < MAX_RETIREMENT_CLEANUPS)
  }

  lemma ReplaceKeepsApart(l: Ledger, k: nat, r: Record)
    requires Sound(l) && k < |l.records| && Replaceable(l, k, r)
    ensures r.retirementKeyHash != Some(r.keyHash)
    ensures forall i :: 0 <= i < |l.records| && i != k ==> Apart(RecordRow(l.records[i]), RecordRow(r))
    ensures forall j :: 0 <= j < |l.retirements| ==> Apart(RecordRow(r), RetirementRow(l.retirements[j]))
  {
    var before := l.records[k];
    assert r.keyHash in RecordRow(before).claims;
    assert RecordRow(r).claims == RecordRow(before).claims || RecordRow(r).claims == {r.keyHash}
           || (r.retirementKeyHash.Some? && r.retirementKeyHash != before.retirementKeyHash);
    forall i | 0 <= i < |l.records| && i != k ensures Apart(RecordRow(l.records[i]), RecordRow(r)) {
      assert Apart(RecordRow(l.records[i]), RecordRow(before)) || Apart(RecordRow(before), RecordRow(l.records[i]));
    }
    forall j | 0 <= j < |l.retirements| ensures Apart(RecordRow(r), RetirementRow(l.retirements[j])) {
      assert Apart(RecordRow(before), RetirementRow(l.retirements[j]));
    }
  }

  lemma ReplaceKeepsSound(l: Ledger, k: nat, r: Record)
    requires Sound(l) && k < |l.records| && Replaceable(l, k, r)
    ensures Sound(l.(records := l.records[k := r]))
  {
    ReplaceKeepsApart(l, k, r);
    RecordsReplace(l.records, k, r);
    RetiringCountUpdate(l.records, k, r);
    var next := l.records[k := r];
    forall i, j | 0 <= i < |next| && 0 <= j < |l.retirements|
      ensures Apart(RecordRow(next[i]), RetirementRow(l.retirements[j]))
    {
    }
  }

  lemma TransitionKeepsSound(l: Ledger, id: string, expected: set<State>, patch: Patch, now: Stamp)
    requires Sound(l) && Transition(l, id, expected, patch, now).Write?
    ensures Sound(Transition(l, id, expected, patch, now).next)
  {
    var k := FindRecord(l.records, id);
    ReplaceKeepsSound(l, k, Patched(l.records[k], patch, now));
  }

  /** A key that no record was created under and no other record retires under is claimed by none. */
  lemma KeyIsUnclaimed(records: seq<Record>, k: nat, keyHash: string)
    requires RecordsSound(records) && k < |records| && records[k].retirementKeyHash.None?
    requires FindByKey(records, keyHash) == |records|
    requires forall i :: 0 <= i < |records| && records[i].id != records[k].id ==>
              records[i].retirementKeyHash != Some(keyHash)
    ensures forall i :: 0 <= i < |records| ==> keyHash !in RecordRow(records[i]).claims
  {
    hide ValidRecord;
    forall i | 0 <= i < |records| ensures keyHash !in RecordRow(records[i]).claims {
      assert records[i].keyHash != keyHash;
      if i < k {
        assert Apart(RecordRow(records[i]), RecordRow(records[k]));
      } else if i > k {
        assert Apart(RecordRow(records[k]), RecordRow(records[i]));
      }
    }
  }

  lemma BeginRetirementKeepsSound(l: Ledger, id: string, keyHash: string, now: Stamp)
    requires Sound(l) && BeginRetirement(l, id, keyHash, now).Write?
    ensures Sound(BeginRetirement(l, id, keyHash, now).next)
  {
    var k := FindRecord(l.records, id);
    var r := l.records[k].(state := Retiring, retirementKeyHash := Some(keyHash),
                           updatedAt := Later(l.records[k].updatedAt, now));
    assert l.records[k].retirementKeyHash.None?;
    KeyIsUnclaimed(l.records, k, keyHash);
    hide RecordsSound, RetirementsSound, Disjoint, CleanupsSound, CleanupsFitRecords, CleanupsFitRetirements;
    ReplaceKeepsSound(l, k, r);
  }

  lemma CancelRetirementKeepsSound(l: Ledger, id: string, keyHash: string, now: Stamp)
    requires Sound(l) && CancelRetirement(l, id, keyHash, now).Write?
    ensures Sound(CancelRetirement(l, id, keyHash, now).next)
  {
    var k := FindRecord(l.records, id);
    ReplaceKeepsSound(l, k, CancelRetirement(l, id, keyHash, now).next.records[k]);
  }

  lemma RetirementsAppend(retirements: seq<Retirement>, t: Retirement)
    requires RetirementsSound(retirements) && ValidRetirement(t) && t.creationKeyHash != t.keyHash
    requires forall j :: 0 <= j < |retirements| ==> Apart(RetirementRow(retirements[j]), RetirementRow(t))
    ensures RetirementsApart(retirements + [t])
    ensures RetirementsSound(Newest(retirements + [t]))
  {
    var all := retirements + [t];
    assert RetirementsApart(all);
    var kept := Newest(all);
    var cut := |all| - |kept|;
    forall i | 0 <= i < |kept| ensures kept[i] == all[i + cut] {
    }
  }

  lemma {:induction false} CleanupsAppend(cleanups: seq<Cleanup>, c: Cleanup)
    requires CleanupsSound(cleanups) && ValidCleanup(c)
    requires forall i :: 0 <= i < |cleanups| ==>
              cleanups[i].launchId != c.launchId && cleanups[i].attemptId != c.attemptId
    ensures CleanupsSound(cleanups + [c])
  {
  }

  /** Moving a retiring record to its tombstone: what was apart from the record is apart from the tombstone. */
  lemma TombstoneTakesOver(l: Ledger, k: nat, t: Retirement)
    requires Sound(l) && k < |l.records| && RetirementRow(t) == RecordRow(l.records[k])
    ensures forall j :: 0 <= j < |l.retirements| ==> Apart(RetirementRow(l.retirements[j]), RetirementRow(t))
    ensures forall i :: 0 <= i < |l.cleanups| ==>
              l.cleanups[i].launchId != t.launchId && l.cleanups[i].attemptId != t.attemptId
    ensures forall i :: 0 <= i < |l.cleanups| ==> Compatible(l.cleanups[i], t)
  {
    forall j | 0 <= j < |l.retirements| ensures Apart(RetirementRow(l.retirements[j]), RetirementRow(t)) {
      assert Apart(RecordRow(l.records[k]), RetirementRow(l.retirements[j]));
    }
    assert t.launchId == RetirementRow(t).id == l.records[k].id;
    assert t.attemptId == RetirementRow(t).attemptId == l.records[k].attemptId;
  }

  lemma CompleteRetirementKeepsSound(l: Ledger, id: string, now: Stamp, scope: Option<string>)
    requires Sound(l) && CompleteRetirement(l, id, now, scope).Write?
    ensures Sound(CompleteRetirement(l, id, now, scope).next)
    ensures var t := RetirementEntry(l.records[FindRecord(l.records, id)], now, scope);
            CompleteRetirement(l, id, now, scope).next == Ledger(
              Without(l.records, FindRecord(l.records, id)), Newest(l.retirements + [t]),
              if scope.Some? then l.cleanups + [RetirementCleanup(t)] else l.cleanups)
  {
    var k := FindRecord(l.records, id);
    var r := l.records[k];
    var t := RetirementEntry(r, now, scope);
    assert RetirementRow(t) == RecordRow(r) by {
      assert {r.keyHash} + {r.retirementKeyHash.value} == {r.keyHash, r.retirementKeyHash.value};
    }
    TombstoneTakesOver(l, k, t);
    CompletionShape(l, id, now, scope);
    RecordsWithout(l.records, k);
    RetiringCountWithout(l.records, k);
    RetirementsAppend(l.retirements, t);
    if scope.Some? {
      CleanupsAppend(l.cleanups, RetirementCleanup(t));
    }
    CompletionFits(l, k, t);
  }

  lemma CompletionShape(l: Ledger, id: string, now: Stamp, scope: Option<string>)
    requires CompleteRetirement(l, id, now, scope).Write?
    requires forall j :: 0 <= j < |l.retirements| ==> l.retirements[j].launchId != id
    requires forall j :: 0 <= j < |l.cleanups| ==> l.cleanups[j].launchId != id
    ensures var t := RetirementEntry(l.records[FindRecord(l.records, id)], now, scope);
            CompleteRetirement(l, id, now, scope).next == Ledger(
              Without(l.records, FindRecord(l.records, id)), Newest(l.retirements + [t]),
              if scope.Some? then l.cleanups + [RetirementCleanup(t)] else l.cleanups)
  {
    assert FindRetirement(l.retirements, id) == |l.retirements|;
    assert FindCleanup(l.cleanups, id) == |l.cleanups|;
  }

  lemma NewestIndex(all: seq<Retirement>, j: nat)
    requires j < |Newest(all)|
    ensures j + |all| - |Newest(all)| < |all| && Newest(all)[j] == all[j + |all| - |Newest(all)|]
  {
  }

  lemma WithoutIndex<T>(s: seq<T>, k: nat, i: nat)
    requires k < |s| && i < |s| - 1
    ensures Without(s, k)[i] == s[if i < k then i else i + 1]
  {
  }

  lemma CompletionDisjoint(l: Ledger, k: nat, t: Retirement)
    requires Sound(l) && k < |l.records| && RetirementRow(t) == RecordRow(l.records[k])
    requires forall i :: 0 <= i < |l.records| - 1 ==>
              Apart(RecordRow(Without(l.records, k)[i]), RecordRow(l.records[k]))
    ensures Disjoint(Without(l.records, k), Newest(l.retirements + [t]))
  {
    var rest := Without(l.records, k);
    var all := l.retirements + [t];
    forall i, j | 0 <= i < |rest| && 0 <= j < |Newest(all)|
      ensures Apart(RecordRow(rest[i]), RetirementRow(Newest(all)[j]))
    {
      NewestIndex(all, j);
      WithoutIndex(l.records, k, i);
      var m := j + |all| - |Newest(all)|;
      if m < |l.retirements| {
        assert Apart(RecordRow(l.records[if i < k then i else i + 1]), RetirementRow(l.retirements[m]));
      }
    }
  }

  lemma CompletionFits(l: Ledger, k: nat, t: Retirement)
    requires Sound(l) && k < |l.records| && RetirementRow(t) == RecordRow(l.records[k])
    requires forall j :: 0 <= j < |l.retirements| ==> Apart(RetirementRow(l.retirements[j]), RetirementRow(t))
    requires forall i :: 0 <= i < |l.cleanups| ==> Compatible(l.cleanups[i], t)
    requires forall i :: 0 <= i < |l.records| - 1 ==>
              Apart(RecordRow(Without(l.records, k)[i]), RecordRow(l.records[k]))
    ensures Disjoint(Without(l.records, k), Newest(l.retirements + [t]))
    ensures var cleanups := if t.cleanupScope.Some? then l.cleanups + [RetirementCleanup(t)] else l.cleanups;
            && CleanupsFitRetirements(cleanups, Newest(l.retirements + [t]))
            && CleanupsFitRecords(cleanups, Without(l.records, k))
  {
    hide ValidRecord, ValidRetirement, ValidCleanup, RetiringCount, CleanupsFitRecords, Disjoint, RecordRow;
    CompletionDisjoint(l, k, t);
    var cleanups := if t.cleanupScope.Some? then l.cleanups + [RetirementCleanup(t)] else l.cleanups;
    var all := l.retirements + [t];
    var kept := Newest(all);
    forall i, j | 0 <= i < |cleanups| && 0 <= j < |kept| ensures Compatible(cleanups[i], kept[j]) {
      NewestIndex(all, j);
      var m := j + |all| - |kept|;
      if m < |l.retirements| && i < |l.cleanups| {
        assert Compatible(l.cleanups[i], l.retirements[m]);
      } else if m < |l.retirements| {
        assert Apart(RetirementRow(l.retirements[m]), RetirementRow(t));
      }
    }
    CleanupsLeaveRecords(l, k, t, cleanups);
  }

  lemma CleanupsLeaveRecords(l: Ledger, k: nat, t: Retirement, cleanups: seq<Cleanup>)
    requires CleanupsFitRecords(l.cleanups, l.records) && k < |l.records| && RetirementRow(t) == RecordRow(l.records[k])
    requires forall i :: 0 <= i < |l.records| - 1 ==>
              Apart(RecordRow(Without(l.records, k)[i]), RecordRow(l.records[k]))
    requires cleanups == if t.cleanupScope.Some? then l.cleanups + [RetirementCleanup(t)] else l.cleanups
    ensures CleanupsFitRecords(cleanups, Without(l.records, k))
  {
    var rest := Without(l.records, k);
    assert t.launchId == RetirementRow(t).id && t.attemptId == RetirementRow(t).attemptId;
    forall i, j | 0 <= i < |cleanups| && 0 <= j < |rest|
      ensures cleanups[i].launchId != rest[j].id && cleanups[i].attemptId != rest[j].attemptId
    {
      WithoutIndex(l.records, k, j);
      assert Apart(RecordRow(rest[j]), RecordRow(l.records[k]));
    }
  }

  lemma CleanupsWithout(cleanups: seq<Cleanup>, k: nat)
    requires CleanupsSound(cleanups) && k < |cleanups|
    ensures CleanupsSound(Without(cleanups, k))
    ensures forall i :: 0 <= i < |cleanups| - 1 ==> Without(cleanups, k)[i].launchId != cleanups[k].launchId
  {
    forall i | 0 <= i < |cleanups| - 1 ensures Without(cleanups, k)[i] == cleanups[if i < k then i else i + 1] {
      WithoutIndex(cleanups, k, i);
    }
  }

  lemma FitWithout(cleanups: seq<Cleanup>, retirements: seq<Retirement>, records: seq<Record>, k: nat)
    requires CleanupsFitRetirements(cleanups, retirements) && CleanupsFitRecords(cleanups, records) && k < |cleanups|
    ensures CleanupsFitRetirements(Without(cleanups, k), retirements)
    ensures CleanupsFitRecords(Without(cleanups, k), records)
  {
    hide Compatible;
    forall i | 0 <= i < |cleanups| - 1 ensures Without(cleanups, k)[i] == cleanups[if i < k then i else i + 1] {
      WithoutIndex(cleanups, k, i);
    }
  }

  lemma StripOne(t: Retirement)
    ensures RetirementRow(t.(cleanupScope := None)) == RetirementRow(t)
    ensures ValidRetirement(t) ==> ValidRetirement(t.(cleanupScope := None))
  {
  }

  /** Finishing a cleanup strips the scope of a tombstone only together with dropping its one cleanup. */
  lemma CompleteCleanupKeepsSound(l: Ledger, id: string, keyHash: string, compact: bool)
    requires Sound(l) && CompleteCleanup(l, id, keyHash, compact).Write?
    ensures Sound(CompleteCleanup(l, id, keyHash, compact).next)
  {
    var k := FindCleanup(l.cleanups, id);
    var next := CompleteCleanup(l, id, keyHash, compact).next;
    CleanupsWithout(l.cleanups, k);
    FitWithout(l.cleanups, l.retirements, l.records, k);
    AllValid(l.retirements);
    hide ValidRetirement, RetirementRow, CleanupsSound, CleanupsFitRecords, CleanupsFitRetirements, RecordsSound,
         Disjoint, RetirementsSound, Matches;
    forall j | 0 <= j < |l.retirements|
      ensures RetirementRow(next.retirements[j]) == RetirementRow(l.retirements[j])
      ensures ValidRetirement(next.retirements[j])
    {
      StripOne(l.retirements[j]);
    }
    StripKeepsApart(l.records, l.retirements, next.retirements);
    StripKeepsFit(next.cleanups, l.retirements, next.retirements, id);
  }

  lemma AllValid(retirements: seq<Retirement>)
    requires RetirementsSound(retirements)
    ensures forall j :: 0 <= j < |retirements| ==> ValidRetirement(retirements[j])
  {
  }

  lemma StripKeepsFit(cleanups: seq<Cleanup>, retirements: seq<Retirement>, stripped: seq<Retirement>, id: string)
    requires CleanupsFitRetirements(cleanups, retirements) && |stripped| == |retirements|
    requires forall i :: 0 <= i < |cleanups| ==> cleanups[i].launchId != id
    requires forall j :: 0 <= j < |retirements| ==>
               stripped[j] == retirements[j]
               || (retirements[j].launchId == id && stripped[j] == retirements[j].(cleanupScope := None))
    ensures CleanupsFitRetirements(cleanups, stripped)
  {
    forall i, j | 0 <= i < |cleanups| && 0 <= j < |stripped| ensures Compatible(cleanups[i], stripped[j]) {
      assert Compatible(cleanups[i], retirements[j]);
    }
  }

  lemma StripKeepsApart(records: seq<Record>, retirements: seq<Retirement>, stripped: seq<Retirement>)
    requires RetirementsSound(retirements) && Disjoint(records, retirements) && |stripped| == |retirements|
    requires forall j :: 0 <= j < |retirements| ==>
               RetirementRow(stripped[j]) == RetirementRow(retirements[j]) && ValidRetirement(stripped[j])
    requires forall j :: 0 <= j < |retirements| ==>
              stripped[j].(cleanupScope := None) == retirements[j].(cleanupScope := None)
    ensures RetirementsSound(stripped) && Disjoint(records, stripped)
  {
    forall j | 0 <= j < |stripped| ensures stripped[j].creationKeyHash != stripped[j].keyHash {
      assert retirements[j].creationKeyHash != retirements[j].keyHash;
      assert stripped[j].(cleanupScope := None).keyHash == retirements[j].(cleanupScope := None).keyHash;
      assert stripped[j].(cleanupScope := None).creationKeyHash
              == retirements[j].(cleanupScope := None).creationKeyHash;
    }
  }

  // ----- what a retirement leaves of its record

  lemma ReplacedIsFound(records: seq<Record>, k: nat, r: Record)
    requires k < |records| && r.id == records[k].id && FindRecord(records, r.id) == k
    ensures FindRecord(records[k := r], r.id) == k
  {
    var later := records[k := r];
    assert later[k].id == r.id;
    forall i | 0 <= i < k ensures later[i].id != r.id {
      assert later[i] == records[i];
    }
  }

  /** Cancelling the retirement that was begun gives the record back as it was, but for its time of update. */
  lemma CancelUndoesBegin(l: Ledger, id: string, keyHash: string, begun: Stamp, cancelled: Stamp)
    requires Sound(l) && BeginRetirement(l, id, keyHash, begun).Write? && cancelled.ms.Some?
    ensures var fenced := BeginRetirement(l, id, keyHash, begun).next;
            var k := FindRecord(l.records, id);
            && CancelRetirement(fenced, id, keyHash, cancelled).Write?
            && (forall key :: key != keyHash ==> CancelRetirement(fenced, id, key, cancelled).Reply?)
            && CancelRetirement(fenced, id, keyHash, cancelled).next
               == l.(records := l.records[k := l.records[k].(updatedAt := Later(Later(l.records[k].updatedAt, begun),
                                                                                cancelled))])
  {
    hide Sound, SafeHash, SafeId, LaunchId, AttemptId, ValidRequest, FindByKey, FindRetiredByKey, KeyOnRetirement,
         RetiringCount;
    var k := FindRecord(l.records, id);
    var r := l.records[k];
    var fenced := BeginRetirement(l, id, keyHash, begun).next;
    ReplacedIsFound(l.records, k, fenced.records[k]);
    OwnedRecord(l, k);
    assert fenced.records[k].(state := Owned, retirementKeyHash := None)
            == r.(updatedAt := fenced.records[k].updatedAt);
  }

  lemma OwnedRecord(l: Ledger, k: nat)
    requires Sound(l) && k < |l.records| && l.records[k].state.Owned?
    ensures ValidRecord(l.records[k]) && l.records[k].retirementKeyHash.None?
  {
  }

  /** Completing it turns the record into a tombstone with the same launch, attempt, keys and request, after
      which no operation finds the record, and its key is answered by the tombstone. */
  lemma CompletionAnswersForItsRecord(l: Ledger, id: string, now: Stamp, scope: Option<string>)
    requires Sound(l) && CompleteRetirement(l, id, now, scope).Write?
    ensures var next := CompleteRetirement(l, id, now, scope).next;
            var r := l.records[FindRecord(l.records, id)];
            && FindRecord(next.records, id) == |next.records|
            && var j := FindRetirement(next.retirements, id);
            && j == |next.retirements| - 1
            && next.retirements[j].attemptId == r.attemptId && next.retirements[j].creationKeyHash == r.keyHash
            && Some(next.retirements[j].keyHash) == r.retirementKeyHash && next.retirements[j].request == r.request
            && FindRetiredByKey(next.retirements, r.keyHash) == j
            && FindByKey(next.records, r.keyHash) == |next.records|
  {
    var next := CompleteRetirement(l, id, now, scope).next;
    var r := l.records[FindRecord(l.records, id)];
    var last := |next.retirements| - 1;
    CompleteRetirementKeepsSound(l, id, now, scope);
    NewestIndex(l.retirements + [RetirementEntry(r, now, scope)], last);
    assert next.retirements[last] == RetirementEntry(r, now, scope);
    hide CompleteRetirement, ValidRecord, ValidRetirement, Sound;
    NewestTombstoneIsFound(next, r.keyHash, last);
  }

  lemma NewestTombstoneIsFound(l: Ledger, keyHash: string, last: nat)
    requires Sound(l) && last == |l.retirements| - 1 && l.retirements[last].creationKeyHash == keyHash
    ensures FindRecord(l.records, l.retirements[last].launchId) == |l.records|
    ensures FindRetirement(l.retirements, l.retirements[last].launchId) == last
    ensures FindRetiredByKey(l.retirements, keyHash) == last && FindByKey(l.records, keyHash) == |l.records|
  {
    hide ValidRecord, ValidRetirement, CleanupsSound, CleanupsFitRecords, CleanupsFitRetirements, RetiringCount;
    var t := l.retirements[last];
    assert keyHash in RetirementRow(t).claims;
    forall j | 0 <= j < last
      ensures l.retirements[j].launchId != t.launchId && l.retirements[j].creationKeyHash != keyHash
    {
      assert Apart(RetirementRow(l.retirements[j]), RetirementRow(t));
    }
    forall i | 0 <= i < |l.records| ensures l.records[i].id != t.launchId && l.records[i].keyHash != keyHash {
      assert Apart(RecordRow(l.records[i]), RetirementRow(t));
    }
  }
}
