/** How many bytes the ledger file takes, and the space `#persist` sets aside for retirements to come. */
module LedgerSize {
  import opened Common
  import opened LaunchContracts
  import opened LedgerState
  import opened LedgerEncoding
  import Texts

  const MAX_LEDGER_BYTES := 1_000_000

  // ----- JSON text lengths; every text in the ledger is printable ASCII that needs no escape

  function Text(s: string): nat {
    |s| + 2
  }

  function Time(t: Stamp): nat {
    t.width + 2
  }

  function Boolean(b: bool): nat {
    if b then 4 else 5
  }

  /** A member with its name, its colon, and the comma or brace that follows it. */
  function Member(name: string, value: nat): nat {
    |name| + 4 + value
  }

  function OptionalText(name: string, value: Option<string>): nat {
    if value.Some? then Member(name, Text(value.value)) else 0
  }

  function RiskBytes(r: Risk): nat {
    1 + Member("localMutation", Boolean(r.localMutation)) + Member("externalBillable", Boolean(r.externalBillable))
  }

  function RequestBytes(q: Request): nat {
    1 + Member("provider", Text(q.provider)) + Member("target", Text(q.target)) + Member("profile", Text(q.profile))
    + Member("mode", Text(q.mode)) + Member("risk", RiskBytes(q.risk))
    + Member("capabilityVersion", Text(q.capabilityVersion))
  }

  function StateText(s: State): string {
    match s
    case Requested => "requested"
    case Creating => "creating"
    case Owned => "owned"
    case Retiring => "retiring"
    case Failed => "failed"
    case Uncertain => "uncertain"
  }

  function ErrorBytes(e: Option<LaunchError>): nat {
    if e.Some? then
      Member("error", 1 + Member("code", Text(e.value.code)) + Member("retryable", Boolean(e.value.retryable)))
    else
      0
  }

  function RecordBytes(r: Record): nat {
    1 + Member("id", Text(r.id)) + Member("attemptId", Text(r.attemptId)) + Member("keyHash", Text(r.keyHash))
    + Member("signature", Text(r.signature)) + Member("request", RequestBytes(r.request))
    + Member("state", Text(StateText(r.state)))
    + OptionalText("providerAgentId", r.providerAgentId) + OptionalText("agentId", r.agentId) + ErrorBytes(r.error)
    + OptionalText("retirementKeyHash", r.retirementKeyHash)
    + Member("requestedAt", Time(r.requestedAt)) + Member("updatedAt", Time(r.updatedAt))
  }

  function RetirementBytes(t: Retirement): nat {
    1 + Member("launchId", Text(t.launchId)) + Member("attemptId", Text(t.attemptId))
    + Member("provider", Text(t.provider))
    + Member("keyHash", Text(t.keyHash)) + Member("creationKeyHash", Text(t.creationKeyHash))
    + Member("signature", Text(t.signature))
    + Member("request", RequestBytes(t.request)) + Member("requestedAt", Time(t.requestedAt))
    + Member("retiredAt", Time(t.retiredAt))
    + OptionalText("cleanupScope", t.cleanupScope)
  }

  function CleanupBytes(c: Cleanup): nat {
    1 + Member("launchId", Text(c.launchId)) + Member("attemptId", Text(c.attemptId))
    + Member("provider", Text(c.provider))
    + Member("keyHash", Text(c.keyHash)) + Member("cleanupScope", Text(c.cleanupScope))
  }

  /** The elements of an array, each with the comma or bracket that follows it. */
  function RecordsBytes(records: seq<Record>): nat {
    if records == [] then 0 else RecordBytes(records[0]) + 1 + RecordsBytes(records[1..])
  }

  function RetirementsBytes(retirements: seq<Retirement>): nat {
    if retirements == [] then 0 else RetirementBytes(retirements[0]) + 1 + RetirementsBytes(retirements[1..])
  }

  function CleanupsBytes(cleanups: seq<Cleanup>): nat {
    if cleanups == [] then 0 else CleanupBytes(cleanups[0]) + 1 + CleanupsBytes(cleanups[1..])
  }

  function Array(count: nat, elements: nat): nat {
    if count == 0 then 2 else 1 + elements
  }

  /** The file: one object, one line. */
  function DocumentBytes(d: Document): nat {
    2 + Member("schemaVersion", 1) + Member("records", Array(|d.records|, RecordsBytes(d.records)))
    + (if d.retirements.Some? then
         Member("retirements", Array(|d.retirements.value|, RetirementsBytes(d.retirements.value)))
       else 0)
    + (if d.cleanups.Some? then
         Member("retirementCleanups", Array(|d.cleanups.value|, CleanupsBytes(d.cleanups.value)))
       else 0)
  }

  // ----- projectRetirementCompletions

  const PLACEHOLDER_SCOPE := "xxxxxxxxxxxxxxxx"

  predicate ToRetire(r: Record) {
    r.state.Retiring? && r.retirementKeyHash.Some?
  }

  function Kept(records: seq<Record>): seq<Record> {
    if records == [] then []
    else if ToRetire(records[0]) then Kept(records[1..])
    else [records[0]] + Kept(records[1..])
  }

  function Completion(r: Record): (t: Retirement)
    requires ToRetire(r)
    ensures t.cleanupScope.Some?
  {
    RetirementEntry(r, r.updatedAt, Some(PLACEHOLDER_SCOPE))
  }

  function Completions(records: seq<Record>): (completions: seq<Retirement>)
    ensures forall i :: 0 <= i < |completions| ==> completions[i].cleanupScope.Some?
  {
    if records == [] then []
    else if ToRetire(records[0]) then [Completion(records[0])] + Completions(records[1..])
    else Completions(records[1..])
  }

  function AddCleanups(cleanups: seq<Cleanup>, completions: seq<Retirement>): seq<Cleanup>
    requires forall i :: 0 <= i < |completions| ==> completions[i].cleanupScope.Some?
    decreases |completions|
  {
    if completions == [] then cleanups
    else AddCleanups(PutCleanup(cleanups, RetirementCleanup(completions[0])), completions[1..])
  }

  predicate LargerFirst(a: Retirement, b: Retirement) {
    RetirementBytes(a) > RetirementBytes(b)
    || (RetirementBytes(a) == RetirementBytes(b) && Texts.Before(a.launchId, b.launchId))
  }

  function Insert(t: Retirement, sorted: seq<Retirement>): seq<Retirement> {
    if sorted == [] || !LargerFirst(sorted[0], t) then [t] + sorted else [sorted[0]] + Insert(t, sorted[1..])
  }

  function BySize(retirements: seq<Retirement>): seq<Retirement> {
    if retirements == [] then [] else Insert(retirements[0], BySize(retirements[1..]))
  }

  function First(retirements: seq<Retirement>, n: nat): seq<Retirement> {
    if |retirements| <= n then retirements else retirements[..n]
  }

  function Projected(l: Ledger): Ledger {
    var completions := Completions(l.records);
    Ledger(Kept(l.records), First(BySize(l.retirements + completions), MAX_RETIREMENTS),
           AddCleanups(l.cleanups, completions))
  }

  // ----- what `#persist` demands of a ledger before it writes

  function Size(l: Ledger, compact: bool): nat {
    DocumentBytes(Encode(l, compact))
  }

  function Peak(l: Ledger, compact: bool): nat {
    Size(Projected(l), compact)
  }

  predicate Fits(l: Ledger, compact: bool) {
    Size(l, compact) <= MAX_LEDGER_BYTES && Peak(l, compact) <= MAX_LEDGER_BYTES
  }
}
