/** One launch from its reservation to its tombstone, as a step relation over everything that can
    disagree: the ledger record, the provenance record, the external agent, the provider calls that are
    in flight, and the volatile bookkeeping of the coordinator and the adapter. A crash is enabled between
    any two durable writes and forgets only the volatile part; a provider call may time out and settle
    later; a request that was sent may take effect long after its sender is gone. Everything another
    launch can do to this one is to make a write fail or a start wait, and both are already choices here. */
module LaunchProtocol {
  import opened Common
  import P = Provenance

  type Key = P.Key
  type RunId = P.RunId

  // ----- durable state and the third party

  datatype Ledger =
    | Requested | Creating | Uncertain | Failed
    | Owned
    | Retiring(key: Key)
    | Tombstone(key: Key)
    | Evicted(key: Key)  // the tombstone was dropped to keep the newest hundred

  datatype Agent = Absent | Alive | Deleted

  // ----- volatile: the create or reconcile job and its provider call

  datatype Kind = Create | Reconcile
  datatype Outcome = FoundOwned | FoundFailed | FoundUncertain
  datatype Job = NoJob | Waiting(kind: Kind) | Fenced | Calling | Settling(outcome: Outcome) | Held
  datatype ProviderOp =
    | NoOp
    | LaunchReserve | LaunchCreate | LaunchAwait
    | ReconcileRead | ReconcileGet(seenOwned: bool)
    | MarkOwned

  // ----- volatile: one retirement at a time, and its late handlers

  datatype Preparation = Prepared | Unsupported | Unknown | UnknownThenBlocked
  datatype Flow =
    | NoFlow
    | Preparing(key: Key)
    | Fencing(key: Key, how: Preparation)
    | Releasing(key: Key)
    | Deactivating(key: Key, recovered: bool)
    | Deleting(key: Key, recovered: bool)
    | TimedOut(key: Key)
    | Completing(key: Key)
    | Cancelling(key: Key)

  // ----- volatile: the operation inside the agent's exclusive section

  datatype RetireAt =
    | Reading | Reserving | Gating | Unwinding | Beginning | Marking
    | Sending(replay: bool) | Awaiting(replay: bool) | Rejected | Confirmed
  datatype PromptAt = PromptBegin | PromptInvoke | PromptAwait | PromptCommit(run: RunId) | PromptRestore
  datatype CancelAt = CancelBegin | CancelInvoke | CancelAwait | CancelRestore
  datatype Action =
    | Free
    | Retirement(key: Key, at: RetireAt, seen: Option<P.Record>)
    | Prompt(prompt: PromptAt)
    | Interrupt(target: RunId, interrupt: CancelAt)

  datatype RetireResult = ResultRetired | ResultBlocked | ResultUnsupported | ResultUnknown

  datatype Launch = Launch(
    // durable
    binding: P.Binding,
    ledger: Ledger,
    cleanupDue: bool,
    prov: Option<P.Record>,
    // the agent, and requests that may still take effect on it
    agent: Agent,
    createOutstanding: bool,
    deleteOutstanding: bool,
    // volatile
    up: bool,
    job: Job,
    op: ProviderOp,
    flow: Flow,
    preparation: Option<Key>,      // a prepare call that has not settled
    release: Option<Key>,          // a cancel-preparation call that has not settled
    retireQueued: bool,            // a retire call waiting for the exclusive section
    latePreparation: Option<Key>,  // handler waiting for a timed-out prepare call
    rollingBack: Option<Key>,      // a late rollback between its decision and its write
    action: Action,
    // history
    launches: nat,                 // calls of registry.launch
    openSends: nat,                // sends neither committed nor proved unsent or rejected
    openCancels: map<RunId, nat>,  // per run: cancels not proved unsent or rejected
    committedRuns: set<RunId>)     // ids that a commit put into the provenance record

  function Initial(binding: P.Binding): Launch {
    Launch(binding, Requested, false, None, Absent, false, false,
           true, Waiting(Create), NoOp, NoFlow, None, None, false, None, None, Free, 0, 0, map[], {})
  }

  function Cancels(s: Launch, run: RunId): nat {
    if run in s.openCancels then s.openCancels[run] else 0
  }

  predicate Holds(prov: Option<P.Record>, phase: P.Phase) {
    prov.Some? && prov.value.phase == phase
  }

  predicate ProvIs(s: Launch, phase: P.Phase) {
    Holds(s.prov, phase)
  }

  /** Another owner of this key can no longer appear: the launch is being, or has been, retired under it. */
  predicate Committed(l: Ledger, key: Key) {
    l == Retiring(key) || l == Tombstone(key) || l == Evicted(key)
  }

  // ----- create and reconcile

  /** `#create` up to the provider call: the durable `creating` fence comes before the invocation. */
  ghost predicate StartJob(s: Launch, t: Launch) {
    match s.job
    case Waiting(Create) =>
      || (s.ledger.Requested? && t == s.(ledger := Creating, job := Fenced))
      || (s.ledger.Creating? && t == s.(job := Fenced))  // the transition answers with the current record
      || t == s.(job := NoJob)
    case Waiting(Reconcile) =>
      t == s.(job := Calling, op := ReconcileRead)
    case Fenced =>
      || t == s.(launches := s.launches + 1, job := Calling, op := LaunchReserve)
      || t == s.(launches := s.launches + 1, job := Settling(FoundFailed))  // no adapter for this provider
    case _ => false
  }

  /** The provider call settles: its result is used only while the job still waits for it. */
  ghost predicate OpSettles(s: Launch, owned: bool, t: Launch) {
    var u := s.(op := NoOp);
    match s.job
    case Calling => t == u.(job := Settling(if owned then FoundOwned else FoundUncertain))
      || (!owned && t == u.(job := NoJob))
    case Held => t == u.(job := NoJob)
    case _ => t == u
  }

  ghost predicate OpStep(s: Launch, t: Launch) {
    match s.op
    case NoOp => false
    case LaunchReserve =>
      || (s.prov.None? && t == s.(prov := Some(P.NewIntent(s.binding)), op := LaunchCreate))
      || OpSettles(s, false, t)
    case LaunchCreate =>
      || t == s.(createOutstanding := true, op := LaunchAwait)
      || OpSettles(s, false, t)
    case LaunchAwait =>
      || (s.agent.Alive? && t == s.(op := MarkOwned))
      || OpSettles(s, false, t)
    case ReconcileRead =>
      || (s.prov.Some? && t == s.(op := ReconcileGet(s.prov.value.phase == P.Owned)))
      || OpSettles(s, false, t)
    case ReconcileGet(seenOwned) =>
      || (s.agent.Alive? && !seenOwned && t == s.(op := MarkOwned))
      || (s.agent.Alive? && seenOwned && OpSettles(s, true, t))
      || OpSettles(s, false, t)
    case MarkOwned =>
      || (s.prov.Some? && P.MarkOwned(s.prov.value).Some? && OpSettles(s.(prov := P.MarkOwned(s.prov.value)), true, t))
      || OpSettles(s, false, t)
  }

  /** `#settle` writes the outcome into a record that is still creating or uncertain; a result that came
      too late, or a write that failed, changes nothing. */
  ghost predicate SettleJob(s: Launch, t: Launch) {
    match s.job
    case Calling => s.op != NoOp && t == s.(job := Settling(FoundUncertain))  // the deadline
    case Settling(outcome) =>
      var u := s.(job := if s.op == NoOp then NoJob else Held);
      || t == u
      || ((s.ledger.Creating? || s.ledger.Uncertain?)
          && t == u.(ledger := match outcome
                               case FoundOwned => Owned
                               case FoundFailed => Failed
                               case FoundUncertain => Uncertain))
    case _ => false
  }

  // ----- retirement: coordinator

  ghost predicate RequestRetirement(s: Launch, t: Launch) {
    exists key: Key ::
      && s.flow.NoFlow? && s.rollingBack.None? && s.preparation.None?
      && (|| (s.ledger.Owned? && t == s.(flow := Preparing(key), preparation := Some(key)))
          || (s.ledger == Retiring(key) && t == s.(flow := Deactivating(key, true))))
  }

  ghost predicate Reserves(s: Launch, key: Key, u: Launch) {
    s.prov.Some? && P.ReserveRetirement(s.prov.value, key).Some?
    && u == s.(prov := P.ReserveRetirement(s.prov.value, key))
  }

  ghost predicate PrepareResult(s: Launch, key: Key, how: Preparation, u: Launch) {
    match how
    case Prepared => Reserves(s, key, u)
    case Unknown => u == s || Reserves(s, key, u)
    case Unsupported => u == s
    case UnknownThenBlocked => ProvIs(s, P.Owned) && u == s
  }

  /** The prepare call settles (`UnknownThenBlocked` stands for the plain answer `blocked`). */
  ghost predicate PrepareSettles(s: Launch, t: Launch) {
    s.preparation.Some? &&
    exists how: Preparation, u: Launch :: PrepareResult(s, s.preparation.value, how, u) && PrepareDelivers(u, how, t)
  }

  /** Whoever still waits gets the answer: the flow, or the handler that outlived a timed-out flow. */
  ghost predicate PrepareDelivers(s: Launch, how: Preparation, t: Launch) {
    s.preparation.Some? &&
    var key := s.preparation.value;
    var u := s.(preparation := None);
    if s.flow == Preparing(key) then
      t == u.(flow := if how == UnknownThenBlocked then NoFlow else Fencing(key, how))
    else if s.latePreparation == Some(key) then
      || t == u.(latePreparation := None)
      || (how == UnknownThenBlocked && t == u.(latePreparation := None, rollingBack := Some(key)))
    else if s.flow == Fencing(key, Unknown) && how == UnknownThenBlocked then
      t == u.(flow := Fencing(key, UnknownThenBlocked))
    else
      t == u
  }

  ghost predicate ReleaseSettles(s: Launch, t: Launch) {
    s.release.Some? &&
    var key := s.release.value;
    var u := s.(release := None, flow := if s.flow == Releasing(key) then NoFlow else s.flow);
    || t == u
    || (s.prov.Some? && P.ReleaseReservation(s.prov.value, key).Some?
        && t == u.(prov := P.ReleaseReservation(s.prov.value, key)))
  }

  ghost predicate AdvanceFlow(s: Launch, t: Launch) {
    match s.flow
    case Preparing(key) => t == s.(flow := Fencing(key, Unknown))  // the deadline of the prepare call
    case Fencing(key, how) =>
      || t == (if how == Unsupported then s.(flow := NoFlow) else s.(flow := Releasing(key), release := Some(key)))
      || (s.ledger.Owned? &&
          var u := s.(ledger := Retiring(key));
          match how
          case Prepared => t == u.(flow := Deactivating(key, false))
          case Unsupported => t == u.(flow := Deactivating(key, false))
          case Unknown => t == u.(flow := NoFlow, latePreparation := s.preparation)
          case UnknownThenBlocked => t == u.(flow := NoFlow) || t == u.(flow := NoFlow, rollingBack := Some(key)))
    case Deactivating(key, recovered) =>
      || t == s.(flow := NoFlow)
      || t == s.(flow := Deleting(key, recovered), retireQueued := true)
    case Deleting(key, _) => t == s.(flow := TimedOut(key))
    case Completing(key) =>
      || t == s.(flow := NoFlow)
      || (s.ledger.Retiring? && t == s.(flow := NoFlow, ledger := Tombstone(s.ledger.key), cleanupDue := true))
    case Cancelling(key) =>
      || t == s.(flow := NoFlow)
      || (s.ledger == Retiring(key) && t == s.(flow := NoFlow, ledger := Owned))
    case _ => false
  }

  ghost predicate LateRollback(s: Launch, t: Launch) {
    s.rollingBack.Some? &&
    (|| t == s.(rollingBack := None)
     || (s.ledger == Retiring(s.rollingBack.value) && t == s.(rollingBack := None, ledger := Owned)))
  }

  ghost predicate AfterTombstone(s: Launch, t: Launch) {
    || (s.ledger.Tombstone? && t == s.(ledger := Evicted(s.ledger.key)))
    || ((s.ledger.Tombstone? || s.ledger.Evicted?) && s.cleanupDue && s.prov.Some?
        && P.MayRemove(s.prov.value, s.ledger.key) && t == s.(prov := None))
    || (s.cleanupDue && s.prov.None? && t == s.(cleanupDue := false))
  }

  // ----- retirement: adapter

  ghost predicate RetireSettles(s: Launch, result: RetireResult, t: Launch) {
    var u := s.(action := Free);
    match s.flow
    case Deleting(key, recovered) => (
      match result
      case ResultRetired => t == u.(flow := Completing(key))
      case ResultBlocked => t == u.(flow := Cancelling(key))
      case ResultUnsupported => t == u.(flow := if recovered then NoFlow else Cancelling(key))
      case ResultUnknown => t == u.(flow := NoFlow)
    )
    case TimedOut(key) =>
      || t == u.(flow := NoFlow)
      || (result == ResultBlocked && t == u.(flow := NoFlow, rollingBack := Some(key)))
    case _ => t == u
  }

  function At(s: Launch, at: RetireAt, seen: Option<P.Record>): Launch
    requires s.action.Retirement?
  {
    s.(action := s.action.(at := at, seen := seen))
  }

  /** The answers `retireLaunch` can give, with the provenance write that precedes some of them. An
      exception anywhere is the answer `ResultUnknown`. A deletion can be rejected before its mark is
      written (a request that is too large), or by the bridge. */
  predicate RetireReturns(s: Launch, result: RetireResult, u: Launch)
    requires s.action.Retirement?
  {
    var key := s.action.key;
    match result
    case ResultUnknown => u == s
    case ResultUnsupported => s.action.at.Reading? && u == s
    case ResultRetired =>
      || (s.action.at.Reading? && ProvIs(s, P.Retired) && u == s)
      || (s.action.at.Confirmed? && s.prov.Some? && P.MarkRetired(s.prov.value, key).Some?
          && u == s.(prov := P.MarkRetired(s.prov.value, key)))
    case ResultBlocked =>
      || (s.action.at.Reserving? && u == s)  // the provenance file cannot hold the reservation
      || (s.action.at.Unwinding? && s.action.seen.Some? && s.action.seen.value.retirementKey != Some(key) && u == s)
      || ((s.action.at.Unwinding? || s.action.at.Marking? || s.action.at.Rejected?)
          && s.prov.Some? && P.CancelRetirement(s.prov.value, key).Some?
          && u == s.(prov := P.CancelRetirement(s.prov.value, key)))
  }

  /** `retireLaunch` between its first read and its answer. */
  predicate RetireAdvances(s: Launch, t: Launch)
    requires s.action.Retirement?
  {
    var key := s.action.key;
    var seen := s.action.seen;
    match s.action.at
    case Reading =>
      && s.prov.Some?
      && (|| (ProvIs(s, P.Owned) && !s.prov.value.retirementReserved
              && (s.prov.value.retirementKey.None? || s.prov.value.retirementKey == Some(key))
              && t == At(s, Reserving, s.prov))
          || (((ProvIs(s, P.Owned) && s.prov.value.retirementReserved) || ProvIs(s, P.Retiring))
              && s.prov.value.retirementKey == Some(key) && t == At(s, Gating, s.prov)))
    case Reserving =>
      && s.prov.Some? && P.ReserveRetirement(s.prov.value, key).Some?
      && t == At(s.(prov := P.ReserveRetirement(s.prov.value, key)), Gating, P.ReserveRetirement(s.prov.value, key))
    case Gating => seen.Some? && (
      if seen.value.phase == P.Retiring && seen.value.deleteAttempted == P.Attempted then
        t == At(s, Sending(true), seen)
      else
        || t == At(s, Unwinding, seen)  // a run or cancel is unsettled, or the agent or its last run is not terminal
        || (!seen.value.runPending && seen.value.cancelAttempted.None? && t == At(s, Beginning, seen)))
    case Beginning => seen.Some? && (
      if seen.value.phase == P.Owned then
        && s.prov.Some? && P.BeginRetirement(s.prov.value, key).Some?
        && t == At(s.(prov := P.BeginRetirement(s.prov.value, key)), Marking, seen)
      else
        t == At(s, Marking, seen))
    case Marking =>
      && s.prov.Some? && P.MarkDeleteAttempted(s.prov.value, key).Some?
      && t == At(s.(prov := P.MarkDeleteAttempted(s.prov.value, key)), Sending(false), seen)
    case Sending(replay) =>
      t == At(s.(deleteOutstanding := true), Awaiting(replay), seen)
    case Awaiting(replay) =>
      || (s.agent.Deleted? && t == At(s, Confirmed, seen))
      || (!replay && !s.agent.Deleted? && t == At(s.(deleteOutstanding := false), Rejected, seen))
    case _ => false
  }

  ghost predicate RetireStep(s: Launch, t: Launch) {
    s.action.Retirement? &&
    (|| RetireAdvances(s, t)
     || exists result: RetireResult, u: Launch :: RetireReturns(s, result, u) && RetireSettles(u, result, t))
  }

  // ----- prompt and interrupt

  ghost predicate PromptStep(s: Launch, t: Launch) {
    s.action.Prompt? &&
    match s.action.prompt
    case PromptBegin =>
      || t == s.(action := Free)
      || (s.prov.Some? && P.BeginRun(s.prov.value).Some?
          && t == s.(prov := P.BeginRun(s.prov.value), action := Prompt(PromptInvoke)))
    case PromptInvoke =>
      || t == s.(action := Prompt(PromptRestore))  // the bridge was never invoked
      || t == s.(openSends := s.openSends + 1, action := Prompt(PromptAwait))
    case PromptAwait =>
      || t == s.(action := Free)  // ambiguous
      || (s.openSends > 0
          && t == s.(openSends := s.openSends - 1, action := Prompt(PromptRestore)))  // unsent or rejected
      || (exists run: RunId ::
          t == s.(action := Prompt(PromptCommit(run))))  // any id: the source compares it with nothing
    case PromptCommit(run) =>
      || t == s.(action := Free)
      || (s.openSends > 0 && s.prov.Some? && P.CommitRun(s.prov.value, run).Some?
          && t == s.(prov := P.CommitRun(s.prov.value, run), openSends := s.openSends - 1,
                     committedRuns := s.committedRuns + {run}, action := Free))
    case PromptRestore =>
      || t == s.(action := Free)
      || (s.prov.Some? && P.RestoreRun(s.prov.value).Some?
          && t == s.(prov := P.RestoreRun(s.prov.value), action := Free))
  }

  ghost predicate InterruptStep(s: Launch, t: Launch) {
    s.action.Interrupt? &&
    var run := s.action.target;
    match s.action.interrupt
    case CancelBegin =>
      || t == s.(action := Free)
      || (s.prov.Some? && P.BeginCancel(s.prov.value, run).Some?
          && t == s.(prov := P.BeginCancel(s.prov.value, run), action := Interrupt(run, CancelInvoke)))
    case CancelInvoke =>
      || t == s.(action := Interrupt(run, CancelRestore))
      || t == s.(openCancels := s.openCancels[run := Cancels(s, run) + 1], action := Interrupt(run, CancelAwait))
    case CancelAwait =>
      || t == s.(action := Free)  // accepted or ambiguous
      || (Cancels(s, run) > 0
          && t == s.(openCancels := s.openCancels[run := Cancels(s, run) - 1], action := Interrupt(run, CancelRestore)))
    case CancelRestore =>
      || t == s.(action := Free)
      || (s.prov.Some? && P.RestoreCancel(s.prov.value, run).Some?
          && t == s.(prov := P.RestoreCancel(s.prov.value, run), action := Free))
  }

  /** `#exclusiveAgent` lets one operation in at a time; a prompt or interrupt proves its context first. */
  ghost predicate EnterAction(s: Launch, t: Launch) {
    s.action.Free? &&
    (|| (s.retireQueued && (s.flow.Deleting? || s.flow.TimedOut?)
         && t == s.(retireQueued := false, action := Retirement(s.flow.key, Reading, None)))
     || (ProvIs(s, P.Owned) && !s.prov.value.runPending && t == s.(action := Prompt(PromptBegin)))
     || (ProvIs(s, P.Owned) && !s.prov.value.runPending && s.prov.value.cancelAttempted.None?
         && s.prov.value.runId.Some?
         && t == s.(action := Interrupt(s.prov.value.runId.value, CancelBegin))))
  }

  // ----- environment, crash and start

  ghost predicate Environment(s: Launch, t: Launch) {
    || (s.createOutstanding && s.agent.Absent? && t == s.(agent := Alive, createOutstanding := false))
    || (s.deleteOutstanding && s.agent.Alive? && t == s.(agent := Deleted))
    || (s.up && t == Crashed(s))
    || (!s.up && Starts(s, t))
  }

  function Crashed(s: Launch): Launch {
    s.(up := false, job := NoJob, op := NoOp, flow := NoFlow, preparation := None, release := None,
       retireQueued := false, latePreparation := None, rollingBack := None, action := Free)
  }

  /** `start`: only a launch found `requested` is created; `creating` becomes `uncertain` before anything else. */
  ghost predicate Starts(s: Launch, t: Launch) {
    var u := s.(up := true);
    match s.ledger
    case Requested => t == u.(job := Waiting(Create))
    case Creating => t == u.(ledger := Uncertain, job := Waiting(Reconcile))
    case Uncertain => t == u.(job := Waiting(Reconcile))
    case Retiring(key) => t == u.(flow := Deactivating(key, true))
    case _ => t == u
  }

  /** Start-up releases reservations of owned launches. That call may itself outlive its deadline, so the
      model lets it happen at any time. */
  ghost predicate RecoverReservation(s: Launch, t: Launch) {
    && s.prov.Some? && s.prov.value.retirementKey.Some?
    && P.ReleaseReservation(s.prov.value, s.prov.value.retirementKey.value).Some?
    && t == s.(prov := P.ReleaseReservation(s.prov.value, s.prov.value.retirementKey.value))
  }

  ghost predicate CoordinatorStep(s: Launch, t: Launch) {
    StartJob(s, t) || SettleJob(s, t) || RequestRetirement(s, t) || PrepareSettles(s, t) || ReleaseSettles(s, t)
    || AdvanceFlow(s, t) || LateRollback(s, t) || AfterTombstone(s, t)
  }

  ghost predicate AdapterStep(s: Launch, t: Launch) {
    OpStep(s, t) || EnterAction(s, t) || RetireStep(s, t) || PromptStep(s, t) || InterruptStep(s, t)
    || RecoverReservation(s, t)
  }

  ghost predicate Next(s: Launch, t: Launch) {
    Environment(s, t) || (s.up && (CoordinatorStep(s, t) || AdapterStep(s, t)))
  }
}
