/** Launch requests, records, and what makes them valid. */
module LaunchContracts {
  import opened Common

  /** A timestamp text: its parsed value, if `Date.parse` finds one, and its length. */
  datatype Stamp = Stamp(ms: Option<int>, width: nat)

  datatype Risk = Risk(localMutation: bool, externalBillable: bool)
  datatype Request = Request(
    provider: string, target: string, profile: string, mode: string, risk: Risk, capabilityVersion: string)
  datatype LaunchError = LaunchError(code: string, retryable: bool)
  datatype State = Requested | Creating | Owned | Retiring | Failed | Uncertain

  datatype Record = Record(
    id: string, attemptId: string, keyHash: string, signature: string, request: Request, state: State,
    providerAgentId: Option<string>, agentId: Option<string>, error: Option<LaunchError>,
    retirementKeyHash: Option<string>, requestedAt: Stamp, updatedAt: Stamp)

  // ----- validators

  predicate Alphanumeric(c: char) {
    'A' <= c <= 'Z' || 'a' <= c <= 'z' || '0' <= c <= '9'
  }

  predicate SafeId(s: string) {
    1 <= |s| <= 100 && forall i | 0 <= i < |s| :: Alphanumeric(s[i]) || s[i] in "._:-"
  }

  predicate Base64Url(s: string, length: nat) {
    |s| == length && forall i | 0 <= i < |s| :: Alphanumeric(s[i]) || s[i] in "_-"
  }

  predicate SafeHash(s: string) {
    Base64Url(s, 43)
  }

  predicate TaggedUuid(tag: string, s: string) {
    |s| == |tag| + 36 && tag <= s
    && forall i | |tag| <= i < |s| :: '0' <= s[i] <= '9' || 'a' <= s[i] <= 'f' || s[i] == '-'
  }

  predicate LaunchId(s: string) {
    TaggedUuid("launch:", s)
  }

  predicate AttemptId(s: string) {
    TaggedUuid("attempt:", s)
  }

  predicate ValidRequest(q: Request) {
    SafeId(q.provider) && SafeId(q.target) && SafeId(q.profile) && SafeId(q.mode) && SafeId(q.capabilityVersion)
  }

  predicate SafeIdGiven(s: Option<string>) {
    s.Some? && SafeId(s.value)
  }

  predicate ValidRecord(r: Record) {
    && LaunchId(r.id) && AttemptId(r.attemptId) && SafeHash(r.keyHash) && SafeHash(r.signature)
    && ValidRequest(r.request)
    && r.requestedAt.ms.Some? && r.updatedAt.ms.Some? && r.requestedAt.ms.value <= r.updatedAt.ms.value
    && (if r.state.Owned? || r.state.Retiring? then
          SafeIdGiven(r.providerAgentId) && SafeIdGiven(r.agentId)
        else
          r.providerAgentId.None? && r.agentId.None?)
    && (if r.state.Retiring? then
          r.retirementKeyHash.Some? && SafeHash(r.retirementKeyHash.value)
        else
          r.retirementKeyHash.None?)
    && (if r.state.Failed? || r.state.Uncertain? then
          r.error.Some? && SafeId(r.error.value.code) && r.error.value.retryable == r.state.Uncertain?
        else
          r.error.None?)
  }

  // ----- resolving a payload against advertised capabilities

  datatype Mode = Mode(id: string, enabled: bool, risk: Risk)
  datatype Target = Target(id: string, profiles: seq<string>, modes: seq<Mode>)
  datatype Provider = Provider(provider: string, capabilityVersion: string, targets: seq<Target>)
  datatype Capabilities = Capabilities(providers: seq<Provider>)

  /** A JSON payload as far as the resolver looks: a field that is absent or not of its type is `None`. */
  datatype Confirmations =
    | NoConfirmations | Confirmations(unknownKeys: bool, localMutation: Option<bool>, externalBillable: Option<bool>)
  datatype Payload =
    | NotAnObject
    | Payload(unknownKeys: bool, provider: Option<string>, target: Option<string>, profile: Option<string>,
              mode: Option<string>, confirmations: Confirmations)

  function FindProvider(providers: seq<Provider>, name: string): Option<Provider> {
    if providers == [] then None
    else if providers[0].provider == name then Some(providers[0])
    else FindProvider(providers[1..], name)
  }

  function FindTarget(targets: seq<Target>, id: string): Option<Target> {
    if targets == [] then None
    else if targets[0].id == id then Some(targets[0])
    else FindTarget(targets[1..], id)
  }

  function FindMode(modes: seq<Mode>, id: string): Option<Mode> {
    if modes == [] then None
    else if modes[0].id == id && modes[0].enabled then Some(modes[0])
    else FindMode(modes[1..], id)
  }

  predicate ConfirmationsGiven(c: Confirmations) {
    c.Confirmations? && !c.unknownKeys && c.localMutation.Some? && c.externalBillable.Some?
  }

  function Normalize(p: Payload, capabilities: Capabilities): Result<Request, string> {
    if p.NotAnObject? || p.unknownKeys then Err("invalid_launch_request")
    else if !SafeIdGiven(p.provider) || !SafeIdGiven(p.target) || !SafeIdGiven(p.profile) || !SafeIdGiven(p.mode) then
      Err("invalid_launch_request")
    else if !ConfirmationsGiven(p.confirmations) then Err("invalid_launch_confirmations")
    else
      var provider := FindProvider(capabilities.providers, p.provider.value);
      var target := if provider.Some? then FindTarget(provider.value.targets, p.target.value) else None;
      var mode := if target.Some? then FindMode(target.value.modes, p.mode.value) else None;
      if target.None? || p.profile.value !in target.value.profiles || mode.None? then Err("launch_option_not_found")
      else if p.confirmations.localMutation.value != mode.value.risk.localMutation
           || p.confirmations.externalBillable.value != mode.value.risk.externalBillable then
        Err("launch_confirmation_mismatch")
      else
        Ok(Request(provider.value.provider, target.value.id, p.profile.value, mode.value.id, mode.value.risk,
                   provider.value.capabilityVersion))
  }

  /** `capabilitiesForRecord`: what was advertised for exactly this request, rebuilt from the request. */
  function CapabilitiesFor(q: Request): Capabilities {
    Capabilities([Provider(q.provider, q.capabilityVersion,
                           [Target(q.target, [q.profile], [Mode(q.mode, true, q.risk)])])])
  }

  /** The payload spells out this request: every field, and confirmations equal to its risks. It does not
      mention the capability version. */
  predicate Spells(p: Payload, q: Request) {
    && p.Payload? && !p.unknownKeys
    && p.provider == Some(q.provider) && p.target == Some(q.target) && p.profile == Some(q.profile)
    && p.mode == Some(q.mode)
    && ConfirmationsGiven(p.confirmations)
    && p.confirmations.localMutation.value == q.risk.localMutation
    && p.confirmations.externalBillable.value == q.risk.externalBillable
  }

  lemma FoundMode(modes: seq<Mode>, id: string)
    ensures FindMode(modes, id).Some? ==> FindMode(modes, id).value.id == id
  {
  }

  lemma FoundTarget(targets: seq<Target>, id: string)
    ensures FindTarget(targets, id).Some? ==> FindTarget(targets, id).value.id == id
  {
  }

  lemma FoundProvider(providers: seq<Provider>, name: string)
    ensures FindProvider(providers, name).Some? ==> FindProvider(providers, name).value.provider == name
  {
  }

  /** Against the capabilities rebuilt from a request, a payload resolves to that very request or fails. */
  lemma ReplayResolvesToTheRecord(p: Payload, q: Request)
    requires ValidRequest(q)
    ensures Normalize(p, CapabilitiesFor(q)).Ok? <==> Spells(p, q)
    ensures Normalize(p, CapabilitiesFor(q)).Ok? ==> Normalize(p, CapabilitiesFor(q)).value == q
  {
    var providers := CapabilitiesFor(q).providers;
    var targets := providers[0].targets;
    assert providers[1..] == [] && targets[1..] == [] && targets[0].modes[1..] == [];
    if p.Payload? && p.provider.Some? && p.target.Some? && p.mode.Some? {
      assert FindProvider(providers, p.provider.value).Some? <==> p.provider.value == q.provider;
      assert FindTarget(targets, p.target.value).Some? <==> p.target.value == q.target;
      assert FindMode(targets[0].modes, p.mode.value).Some? <==> p.mode.value == q.mode;
    }
  }

  /** Whatever was advertised when a payload resolved, the payload spells the request it resolved to. */
  lemma ResolutionIsSpelled(p: Payload, capabilities: Capabilities)
    requires Normalize(p, capabilities).Ok?
    ensures Spells(p, Normalize(p, capabilities).value)
  {
    var provider := FindProvider(capabilities.providers, p.provider.value);
    FoundProvider(capabilities.providers, p.provider.value);
    FoundTarget(provider.value.targets, p.target.value);
    FoundMode(FindTarget(provider.value.targets, p.target.value).value.modes, p.mode.value);
  }
}
