/** Submitting a launch under an idempotency key: what a repeated submission is answered, over every run
    of the ledger. The hash of a key is the key here; a signature is any injective text of a request. */
module LaunchAdmission {
  import opened Common
  import opened LaunchContracts
  import opened LedgerState

  type Signer = Request -> string

  ghost predicate Injective(sign: Signer) {
    forall p, q :: sign(p) == sign(q) ==> p == q
  }

  // ----- submit: the checks made at once, and the conclusion once the ledger has answered

  datatype Response = Refused(code: string) | Accepted(id: string, replayed: bool)
  datatype Considered = Settled(response: Response) | Proceed(request: Request, signature: string)

  const CONFLICT := "idempotency_conflict"

  /** The keys under which a provider has been asked to prepare a retirement that the ledger then refused, and
      has not yet confirmed the release, each with its launch. */
  type Fences = map<string, string>

  function Replay(payload: Payload, id: string, request: Request, signature: string, sign: Signer): Response {
    match Normalize(payload, CapabilitiesFor(request))
    case Err(_) => Refused(CONFLICT)
    case Ok(replayed) => if sign(replayed) != signature then Refused(CONFLICT) else Accepted(id, true)
  }

  function Consider(
      l: Ledger, fences: Fences, capabilities: Capabilities, payload: Payload, keyHash: string, sign: Signer)
    : Considered
  {
    if keyHash in fences || KeyOnRecord(l.records, keyHash) || KeyOnRetirement(l.retirements, keyHash) then
      Settled(Refused(CONFLICT))
    else
      var retired := FindRetiredByKey(l.retirements, keyHash);
      var existing := FindByKey(l.records, keyHash);
      if retired < |l.retirements| then
        var t := l.retirements[retired];
        Settled(Replay(payload, t.launchId, t.request, t.signature, sign))
      else if existing < |l.records| then
        var r := l.records[existing];
        Settled(Replay(payload, r.id, r.request, r.signature, sign))
      else
        match Normalize(payload, capabilities)
        case Err(code) => Settled(Refused(code))
        case Ok(request) => Proceed(request, sign(request))
  }

  /** The ledger may have changed since; its answer decides. `id` is the identity drawn for a new record. */
  function Conclude(answer: Verdict, signature: string, id: string): Response {
    match answer
    case Write(_) => Accepted(id, false)
    case Reply(Conflict) => Refused(CONFLICT)
    case Reply(Full) => Refused("launch_queue_full")
    case Reply(Retired(t)) => if t.signature != signature then Refused(CONFLICT) else Accepted(t.launchId, true)
    case Reply(Unchanged(r)) => if r.signature != signature then Refused(CONFLICT) else Accepted(r.id, true)
    case Reply(_) => Refused("internal")
  }

  // ----- retire: the checks made at once, and the fence that a refused retirement leaves

  datatype Admission = NotAdmitted(code: string) | Finished(retirement: Retirement) | Admitted(record: Record)

  const RETIREMENT_CONFLICT := "retirement_conflict"

  /** Before it looks for a retirement of this launch that is under way or being rolled back. */
  function AdmitRetirement(l: Ledger, fences: Fences, id: string, keyHash: string): Admission {
    var k := FindRecord(l.records, id);
    var t := FindRetirement(l.retirements, id);
    if (keyHash in fences && fences[keyHash] != id)
       || FindByKey(l.records, keyHash) < |l.records| || FindRetiredByKey(l.retirements, keyHash) < |l.retirements| then
      NotAdmitted(RETIREMENT_CONFLICT)
    else if t < |l.retirements| then
      if l.retirements[t].keyHash == keyHash then Finished(l.retirements[t]) else NotAdmitted(RETIREMENT_CONFLICT)
    else if KeyOnRetirement(l.retirements, keyHash)
         || (exists i | 0 <= i < |l.records| ::
               l.records[i].id != id && l.records[i].retirementKeyHash == Some(keyHash)) then
      NotAdmitted(RETIREMENT_CONFLICT)
    else if k == |l.records| then NotAdmitted("launch_not_found")
    else if l.records[k].state.Retiring? && l.records[k].retirementKeyHash != Some(keyHash) then
      NotAdmitted(RETIREMENT_CONFLICT)
    else if !l.records[k].state.Owned? && !l.records[k].state.Retiring? then NotAdmitted("launch_not_retirable")
    else Admitted(l.records[k])
  }

  /** What the ledger's answer to `beginRetirement` makes of the fences. `prepared` when the provider has
      reserved its part or may have. */
  function AfterBegin(fences: Fences, answer: Verdict, prepared: bool, id: string, keyHash: string): Fences {
    if answer.Reply? && answer.answer.Failure? then
      if prepared then fences[keyHash := id] else fences
    else
      AfterRelease(fences, id, keyHash)
  }

  /** The provider has confirmed that it released its part. */
  function AfterRelease(fences: Fences, id: string, keyHash: string): Fences {
    if keyHash in fences && fences[keyHash] == id then fences - {keyHash} else fences
  }

  // ----- who holds a key

  /** A record or a retained tombstone was created under this key, for this request. */
  ghost predicate Held(l: Ledger, keyHash: string, id: string, request: Request) {
    || (exists i :: 0 <= i < |l.records| && l.records[i].keyHash == keyHash
                    && l.records[i].id == id && l.records[i].request == request)
    || (exists j :: 0 <= j < |l.retirements| && l.retirements[j].creationKeyHash == keyHash
                    && l.retirements[j].launchId == id && l.retirements[j].request == request)
  }

  ghost predicate Signed(l: Ledger, sign: Signer) {
    && (forall i :: 0 <= i < |l.records| ==> l.records[i].signature == sign(l.records[i].request))
    && (forall j :: 0 <= j < |l.retirements| ==> l.retirements[j].signature == sign(l.retirements[j].request))
  }

  /** In a sound ledger a key has one holder, and no retirement claims it. */
  lemma HolderIsFound(l: Ledger, keyHash: string, id: string, request: Request)
    requires Sound(l) && Held(l, keyHash, id, request)
    ensures !KeyOnRecord(l.records, keyHash) && !KeyOnRetirement(l.retirements, keyHash)
    ensures var k := FindByKey(l.records, keyHash);
            var j := FindRetiredByKey(l.retirements, keyHash);
            || (j == |l.retirements| && k < |l.records| && l.records[k].id == id && l.records[k].request == request)
            || (j < |l.retirements| && k == |l.records| && l.retirements[j].launchId == id
                && l.retirements[j].request == request)
  {
    hide ValidRecord, ValidRetirement, CleanupsSound, CleanupsFitRetirements, CleanupsFitRecords;
    if i :| 0 <= i < |l.records| && l.records[i].keyHash == keyHash
            && l.records[i].id == id && l.records[i].request == request {
      assert keyHash in RecordRow(l.records[i]).claims;
      forall k | 0 <= k < |l.records| && k != i ensures keyHash !in RecordRow(l.records[k]).claims {
        assert Apart(RecordRow(l.records[k]), RecordRow(l.records[i]))
                || Apart(RecordRow(l.records[i]), RecordRow(l.records[k]));
      }
      forall j | 0 <= j < |l.retirements| ensures keyHash !in RetirementRow(l.retirements[j]).claims {
        assert Apart(RecordRow(l.records[i]), RetirementRow(l.retirements[j]));
      }
    } else {
      var j :| 0 <= j < |l.retirements| && l.retirements[j].creationKeyHash == keyHash
               && l.retirements[j].launchId == id && l.retirements[j].request == request;
      assert keyHash in RetirementRow(l.retirements[j]).claims;
      forall k | 0 <= k < |l.retirements| && k != j ensures keyHash !in RetirementRow(l.retirements[k]).claims {
        assert Apart(RetirementRow(l.retirements[k]), RetirementRow(l.retirements[j]))
            || Apart(RetirementRow(l.retirements[j]), RetirementRow(l.retirements[k]));
      }
      forall i | 0 <= i < |l.records| ensures keyHash !in RecordRow(l.records[i]).claims {
        assert Apart(RecordRow(l.records[i]), RetirementRow(l.retirements[j]));
      }
    }
  }

  lemma OneHolder(l: Ledger, keyHash: string, a: string, p: Request, b: string, q: Request)
    requires Sound(l) && Held(l, keyHash, a, p) && Held(l, keyHash, b, q)
    ensures a == b && p == q
  {
    hide Sound, Held;
    HolderIsFound(l, keyHash, a, p);
    HolderIsFound(l, keyHash, b, q);
  }

  lemma HeldRequestIsValid(l: Ledger, keyHash: string, id: string, request: Request)
    requires Sound(l) && Held(l, keyHash, id, request)
    ensures ValidRequest(request)
  {
    hide ValidRequest, Apart, CleanupsSound, CleanupsFitRetirements, CleanupsFitRecords;
  }

  // ----- idempotent replay

  lemma ReplayAnswers(payload: Payload, id: string, request: Request, signature: string, sign: Signer)
    requires ValidRequest(request) && signature == sign(request)
    ensures Replay(payload, id, request, signature, sign)
            == if Spells(payload, request) then Accepted(id, true) else Refused(CONFLICT)
  {
    hide ValidRequest, Spells, Normalize, CapabilitiesFor;
    ReplayResolvesToTheRecord(payload, request);
  }

  /** While a record or tombstone holds the key, a submission is answered with that launch when it spells
      out the same request, and is refused otherwise, whatever is advertised now; but as long as the key
      fences an unreleased retirement it is refused even then. */
  lemma HeldKeyIsReplayed(
      l: Ledger, fences: Fences, capabilities: Capabilities, payload: Payload, keyHash: string, sign: Signer,
      id: string, request: Request)
    requires Sound(l) && Signed(l, sign) && Held(l, keyHash, id, request)
    ensures Consider(l, fences, capabilities, payload, keyHash, sign)
            == Settled(if keyHash !in fences && Spells(payload, request) then Accepted(id, true) else Refused(CONFLICT))
  {
    HolderIsFound(l, keyHash, id, request);
    HeldRequestIsValid(l, keyHash, id, request);
    hide Sound, Held, Spells, Replay, KeyOnRecord, KeyOnRetirement, ValidRequest;
    ReplayAnswers(payload, id, request, sign(request), sign);
  }

  /** A submission that another one has overtaken concludes with the same launch exactly when it resolved
      to the same request, and never writes. */
  lemma OvertakenIsReplayed(
      l: Ledger, keyHash: string, sign: Signer, id: string, request: Request, mine: Request, drawn: string,
      attempt: string, now: Stamp)
    requires Sound(l) && Signed(l, sign) && Injective(sign) && Held(l, keyHash, id, request)
    ensures var answer := Reserve(l, drawn, attempt, keyHash, sign(mine), mine, now);
            && answer.Reply?
            && Conclude(answer, sign(mine), drawn) == if mine == request then Accepted(id, true) else Refused(CONFLICT)
  {
    HolderIsFound(l, keyHash, id, request);
    HolderIsSigned(l, sign, keyHash);
    SignsApart(sign, mine, request);
    ReserveAnswers(l, drawn, attempt, keyHash, sign(mine), mine, now);
    hide *;
    ConcludeAnswers(Reserve(l, drawn, attempt, keyHash, sign(mine), mine, now), sign(mine), drawn, id, sign(request));
  }

  lemma HolderIsSigned(l: Ledger, sign: Signer, keyHash: string)
    requires Signed(l, sign)
    ensures var k := FindByKey(l.records, keyHash); k < |l.records| ==>
              l.records[k].signature == sign(l.records[k].request)
    ensures var j := FindRetiredByKey(l.retirements, keyHash);
            j < |l.retirements| ==> l.retirements[j].signature == sign(l.retirements[j].request)
  {
  }

  lemma ConcludeAnswers(answer: Verdict, signature: string, drawn: string, id: string, held: string)
    requires answer.Reply? && (answer.answer.Unchanged? || answer.answer.Retired?)
    requires answer.answer.Unchanged? ==> answer.answer.record.id == id && answer.answer.record.signature == held
    requires answer.answer.Retired? ==>
              answer.answer.retirement.launchId == id && answer.answer.retirement.signature == held
    ensures Conclude(answer, signature, drawn) == if signature == held then Accepted(id, true) else Refused(CONFLICT)
  {
  }

  lemma ReserveAnswers(
      l: Ledger, id: string, attempt: string, keyHash: string, signature: string, request: Request, now: Stamp)
    ensures var k := FindByKey(l.records, keyHash);
            var j := FindRetiredByKey(l.retirements, keyHash);
            var answer := Reserve(l, id, attempt, keyHash, signature, request, now);
            && (k < |l.records| ==> answer == Reply(Unchanged(l.records[k])))
            && (k == |l.records| && j < |l.retirements| ==> answer == Reply(Retired(l.retirements[j])))
  {
    hide KeyOnRecord, KeyOnRetirement, ValidRecord, PendingCount;
  }

  lemma SignsApart(sign: Signer, p: Request, q: Request)
    requires Injective(sign)
    ensures sign(p) == sign(q) <==> p == q
  {
  }

  /** A submission that is accepted as new holds its key from then on, for a request its payload spells out. */
  lemma AcceptedIsHeld(
      before: Ledger, fences: Fences, capabilities: Capabilities, payload: Payload, keyHash: string, sign: Signer,
      l: Ledger, id: string, attempt: string, now: Stamp)
    requires Consider(before, fences, capabilities, payload, keyHash, sign).Proceed?
    ensures var c := Consider(before, fences, capabilities, payload, keyHash, sign);
            var answer := Reserve(l, id, attempt, keyHash, c.signature, c.request, now);
            && Spells(payload, c.request)
            && (answer.Write? ==> Held(answer.next, keyHash, id, c.request))
  {
    var c := Consider(before, fences, capabilities, payload, keyHash, sign);
    var answer := Reserve(l, id, attempt, keyHash, c.signature, c.request, now);
    ResolutionIsSpelled(payload, capabilities);
    if answer.Write? {
      assert answer.next.records[|l.records|].keyHash == keyHash;
    }
  }

  // ----- a key that is held and fenced at once

  lemma {:induction false} FoundBefore(records: seq<Record>, r: Record, id: string)
    ensures FindRecord(records, id) < |records| ==> FindRecord(records + [r], id) == FindRecord(records, id)
  {
    if records != [] {
      assert (records + [r])[1..] == records[1..] + [r];
      FoundBefore(records[1..], r, id);
    }
  }

  /** A retirement is admitted under a key that nobody holds; before the ledger is asked to begin it, a submission
      reserves the same key. The ledger then refuses the retirement, the key is fenced until the provider releases
      its part, and the submission that holds the key is refused when it is repeated word for word. Once the
      provider has released it, it is replayed. */
  lemma FencedWhileHeld(
      l: Ledger, fences: Fences, retired: string, capabilities: Capabilities, payload: Payload, keyHash: string,
      sign: Signer, id: string, attempt: string, now: Stamp, later: Stamp)
    requires Sound(l) && Signed(l, sign) && Fresh(l, id, attempt)
    requires AdmitRetirement(l, fences, retired, keyHash).Admitted?
    requires AdmitRetirement(l, fences, retired, keyHash).record.state.Owned?
    requires Consider(l, fences, capabilities, payload, keyHash, sign).Proceed?
    requires var c := Consider(l, fences, capabilities, payload, keyHash, sign);
             Reserve(l, id, attempt, keyHash, c.signature, c.request, now).Write?
    ensures var c := Consider(l, fences, capabilities, payload, keyHash, sign);
            var next := Reserve(l, id, attempt, keyHash, c.signature, c.request, now).next;
            var begun := BeginRetirement(next, retired, keyHash, later);
            var fenced := AfterBegin(fences, begun, true, retired, keyHash);
            && begun.Reply? && begun.answer.Failure?
            && Held(next, keyHash, id, c.request) && Spells(payload, c.request)
            && Consider(next, fenced, capabilities, payload, keyHash, sign) == Settled(Refused(CONFLICT))
            && Consider(next, AfterRelease(fenced, retired, keyHash), capabilities, payload, keyHash, sign)
               == Settled(Accepted(id, true))
  {
    var c := Consider(l, fences, capabilities, payload, keyHash, sign);
    var next := Reserve(l, id, attempt, keyHash, c.signature, c.request, now).next;
    ResolutionIsSpelled(payload, capabilities);
    ConsideredIsSigned(l, fences, capabilities, payload, keyHash, sign);
    ReserveKeepsSound(l, id, attempt, keyHash, c.signature, c.request, now);
    AdmittedIsOwned(l, fences, retired, keyHash);
    ReservedIsLast(l, id, attempt, keyHash, c.signature, c.request, now);
    hide Sound, Fresh, Signed, Held, Spells, Consider, Reserve, AdmitRetirement, BeginRetirement;
    BeginIsRefused(l, next, retired, keyHash, later);
    SignedMore(l, next, sign);
    HeldByLast(next, id);
    var fenced := AfterBegin(fences, BeginRetirement(next, retired, keyHash, later), true, retired, keyHash);
    HeldKeyIsReplayed(next, fenced, capabilities, payload, keyHash, sign, id, c.request);
    HeldKeyIsReplayed(next, AfterRelease(fenced, retired, keyHash), capabilities, payload, keyHash, sign, id,
                      c.request);
  }

  lemma SignedMore(l: Ledger, next: Ledger, sign: Signer)
    requires Signed(l, sign) && |next.records| == |l.records| + 1
    requires next == l.(records := l.records + [next.records[|l.records|]])
    requires next.records[|l.records|].signature == sign(next.records[|l.records|].request)
    ensures Signed(next, sign)
  {
  }

  lemma ConsideredIsSigned(
      l: Ledger, fences: Fences, capabilities: Capabilities, payload: Payload, keyHash: string, sign: Signer)
    requires Consider(l, fences, capabilities, payload, keyHash, sign).Proceed?
    ensures var c := Consider(l, fences, capabilities, payload, keyHash, sign);
            Normalize(payload, capabilities) == Ok(c.request) && c.signature == sign(c.request)
  {
  }

  lemma AdmittedIsOwned(l: Ledger, fences: Fences, id: string, keyHash: string)
    requires AdmitRetirement(l, fences, id, keyHash).Admitted?
    ensures FindRecord(l.records, id) < |l.records|
    ensures l.records[FindRecord(l.records, id)] == AdmitRetirement(l, fences, id, keyHash).record
  {
  }

  lemma ReservedIsLast(
      l: Ledger, id: string, attempt: string, keyHash: string, signature: string, request: Request, now: Stamp)
    requires Reserve(l, id, attempt, keyHash, signature, request, now).Write?
    ensures var next := Reserve(l, id, attempt, keyHash, signature, request, now).next;
            && |next.records| == |l.records| + 1 && next == l.(records := l.records + [next.records[|l.records|]])
            && var r := next.records[|l.records|];
            r.id == id && r.keyHash == keyHash && r.signature == signature && r.request == request
  {
  }

  lemma HeldByLast(l: Ledger, id: string)
    requires |l.records| > 0 && l.records[|l.records| - 1].id == id
    ensures Held(l, l.records[|l.records| - 1].keyHash, id, l.records[|l.records| - 1].request)
  {
  }

  lemma BeginIsRefused(l: Ledger, next: Ledger, id: string, keyHash: string, now: Stamp)
    requires |next.records| == |l.records| + 1 && next == l.(records := l.records + [next.records[|l.records|]])
    requires next.records[|l.records|].keyHash == keyHash
    requires FindRecord(l.records, id) < |l.records| && l.records[FindRecord(l.records, id)].state.Owned?
    ensures BeginRetirement(next, id, keyHash, now).Reply? && BeginRetirement(next, id, keyHash, now).answer.Failure?
  {
    FoundBefore(l.records, next.records[|l.records|], id);
  }

  function Repeated(c: char, n: nat): (s: string)
    ensures |s| == n && forall i :: 0 <= i < n ==> s[i] == c
  {
    seq(n, _ => c)
  }

  const SAMPLE := Request("p", "t", "f", "m", Risk(false, false), "v")

  lemma SampleIsValid()
    ensures ValidRequest(SAMPLE)
  {
  }

  function SampleRecord(c: char, sign: Signer, at: Stamp): Record {
    Record("launch:" + Repeated(c, 36), "attempt:" + Repeated(c, 36), Repeated(c, 43), sign(SAMPLE), SAMPLE, Owned,
           Some("g"), Some("n"), None, None, at, at)
  }

  lemma SampleRecordIsValid(c: char, sign: Signer, at: Stamp)
    requires ('0' <= c <= '9' || 'a' <= c <= 'f') && SafeHash(sign(SAMPLE)) && at.ms.Some?
    ensures ValidRecord(SampleRecord(c, sign, at))
  {
    SampleIsValid();
    hide ValidRequest;
    var r := SampleRecord(c, sign, at);
    forall i | 7 <= i < |r.id| ensures r.id[i] == c {
    }
    forall i | 8 <= i < |r.attemptId| ensures r.attemptId[i] == c {
    }
    assert "launch:" <= r.id && "attempt:" <= r.attemptId;
  }

  /** The schedule exists: one launch is owned, and a retirement of it and a submission come under one new key. */
  lemma KeyCanBeHeldAndFenced(sign: Signer, at: Stamp)
    returns (l: Ledger, retired: string, capabilities: Capabilities, payload: Payload, keyHash: string, id: string,
             attempt: string)
    requires SafeHash(sign(SAMPLE)) && at.ms.Some?
    ensures Sound(l) && Signed(l, sign) && Fresh(l, id, attempt)
    ensures AdmitRetirement(l, map[], retired, keyHash).Admitted?
    ensures AdmitRetirement(l, map[], retired, keyHash).record.state.Owned?
    ensures Consider(l, map[], capabilities, payload, keyHash, sign) == Proceed(SAMPLE, sign(SAMPLE))
    ensures Reserve(l, id, attempt, keyHash, sign(SAMPLE), SAMPLE, at).Write?
  {
    var r, other := SampleRecord('a', sign, at), SampleRecord('b', sign, at);
    SampleRecordIsValid('a', sign, at);
    SampleRecordIsValid('b', sign, at);
    l := Ledger([r], [], []);
    retired, keyHash, id, attempt := r.id, other.keyHash, other.id, other.attemptId;
    capabilities := CapabilitiesFor(SAMPLE);
    payload := Payload(false, Some("p"), Some("t"), Some("f"), Some("m"),
                       Confirmations(false, Some(false), Some(false)));
    assert r.id[7] == 'a' && other.id[7] == 'b' && r.attemptId[8] == 'a' && other.attemptId[8] == 'b';
    assert r.keyHash[0] == 'a' && other.keyHash[0] == 'b';
    SampleResolves(payload);
    hide ValidRecord, Normalize, CapabilitiesFor, Sound;
    OneRecordIsSound(r);
    RequestedIsValid(other);
    assert FindRecord([r], r.id) == 0 && FindByKey([r], keyHash) == 1;
    assert PendingCount([r]) == 0;
  }

  lemma OneRecordIsSound(r: Record)
    requires ValidRecord(r) && r.retirementKeyHash.None?
    ensures Sound(Ledger([r], [], []))
  {
    hide ValidRecord;
    assert RetiringCount([r]) <= 1;
  }

  lemma RequestedIsValid(r: Record)
    requires ValidRecord(r) && r.state.Owned?
    ensures ValidRecord(r.(state := Requested, providerAgentId := None, agentId := None))
  {
  }

  lemma SampleResolves(payload: Payload)
    requires payload
            == Payload(false, Some("p"), Some("t"), Some("f"), Some("m"),
                       Confirmations(false, Some(false), Some(false)))
    ensures Normalize(payload, CapabilitiesFor(SAMPLE)) == Ok(SAMPLE)
  {
    SampleIsValid();
  }
}
