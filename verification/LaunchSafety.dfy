/** What every step of the launch protocol keeps, and what follows for every run. */
module LaunchSafety {
  import opened Common
  import opened LaunchProtocol

  // ----- the invariant, each part over the fields it reads

  predicate Early(l: Ledger) {
    l.Requested? || l.Creating? || l.Uncertain? || l.Failed?
  }

  predicate Over(l: Ledger) {
    l.Tombstone? || l.Evicted?
  }

  /** The two durable records and the agent agree on how far retirement has gone. */
  predicate Linked(ledger: Ledger, cleanupDue: bool, prov: Option<P.Record>, agent: Agent, deleteOutstanding: bool) {
    && (prov.Some? ==> P.ValidRecord(prov.value))
    && (ledger.Owned? || ledger.Retiring? ==> prov.Some? && prov.value.phase != P.Intent && !agent.Absent?)
    && (Holds(prov, P.Retiring) || Holds(prov, P.Retired) ==> Committed(ledger, prov.value.retirementKey.value))
    && (Over(ledger) ==> prov.None? || (Holds(prov, P.Retired) && cleanupDue))
    && (deleteOutstanding || agent.Deleted? ==> DeleteRecorded(ledger, prov))
  }

  /** A deletion that may have reached the agent is on record. */
  predicate DeleteRecorded(ledger: Ledger, prov: Option<P.Record>) {
    || (Holds(prov, P.Retiring) && prov.value.deleteAttempted == P.Attempted)
    || Holds(prov, P.Retired)
    || (prov.None? && Over(ledger))
  }

  predicate JobInv(ledger: Ledger, prov: Option<P.Record>, agent: Agent, createOutstanding: bool,
                   job: Job, op: ProviderOp, launches: nat) {
    && launches <= 1
    && (ledger.Requested? ==>
          launches == 0 && op.NoOp? && prov.None? && agent.Absent? && !createOutstanding
          && (job.NoJob? || job == Waiting(Create)))
    && (job == Waiting(Create) ==> ledger.Requested?)
    && (job == Waiting(Reconcile) ==> ledger.Uncertain?)
    && (job.Waiting? || job.Fenced? ==> op.NoOp?)
    && (job.Fenced? ==> ledger.Creating? && launches == 0)
    && (job.Settling? || !op.NoOp? ==> ledger.Creating? || ledger.Uncertain?)
    && (job == Settling(FoundOwned) ==> op.NoOp? && Holds(prov, P.Owned) && !agent.Absent?)
    && (job == Settling(FoundFailed) ==> op.NoOp?)
    && (job.Held? ==> !op.NoOp?)
    && (op == ReconcileGet(true) ==> Holds(prov, P.Owned))
    && (op.MarkOwned? ==> !agent.Absent?)
  }

  /** One retirement at a time: what the ledger says at each point of the flow, and that no retirement
      holds the agent while a rollback of the ledger record is decided. */
  predicate FlowInv(ledger: Ledger, prov: Option<P.Record>, flow: Flow, preparation: Option<Key>,
                    latePreparation: Option<Key>, rollingBack: Option<Key>) {
    && (Early(ledger) ==> flow.NoFlow? && preparation.None? && rollingBack.None?)
    && (flow.Preparing? || flow.Fencing? || flow.Releasing? ==> ledger.Owned?)
    && (flow.Preparing? ==> preparation == Some(flow.key))
    && (flow.Fencing? && preparation.Some? ==> flow.how.Unknown? && preparation.value == flow.key)
    && (flow.Deactivating? || flow.Deleting? || flow.TimedOut? || flow.Completing? || flow.Cancelling? ==>
          ledger == Retiring(flow.key) && preparation.None?)
    && (preparation.Some? ==> ledger.Owned? || latePreparation.Some?)
    && (latePreparation.Some? ==>
          flow.NoFlow? && preparation == latePreparation && ledger == Retiring(latePreparation.value)
          && Holds(prov, P.Owned))
    && (rollingBack.Some? ==>
          flow.NoFlow? && latePreparation.None? && preparation.None?
          && ledger == Retiring(rollingBack.value) && Holds(prov, P.Owned))
    && (flow.Completing? ==> Holds(prov, P.Retired))
    && (flow.Cancelling? ==> Holds(prov, P.Owned))
    && (flow.Deactivating? && !flow.recovered ==> Holds(prov, P.Owned))
  }

  predicate RetireInv(prov: Option<P.Record>, flow: Flow, retireQueued: bool, action: Action) {
    && (retireQueued ==> flow.Deleting? || flow.TimedOut?)
    && (action.Retirement? ==> (flow.Deleting? || flow.TimedOut?) && flow.key == action.key && !retireQueued)
    && (flow.Deleting? && !flow.recovered && (retireQueued || (action.Retirement? && action.at.Reading?)) ==>
          Holds(prov, P.Owned))
  }

  /** The local variable `provenance` of `retireLaunch` still describes the durable record, up to a
      reservation that start-up recovery may have released meanwhile. */
  predicate SeenInv(prov: Option<P.Record>, agent: Agent, deleteOutstanding: bool, action: Action) {
    action.Retirement? ==>
      match action.at
      case Reading => true
      case Reserving => Holds(prov, P.Owned)
      case Gating => Describes(action.seen, prov, action.key)
      case Unwinding => Describes(action.seen, prov, action.key) && action.seen.value.deleteAttempted != P.Attempted
      case Beginning =>
        && Describes(action.seen, prov, action.key) && action.seen.value.deleteAttempted != P.Attempted
        && !action.seen.value.runPending && action.seen.value.cancelAttempted.None?
      case Marking => Holds(prov, P.Retiring) && prov.value.deleteAttempted != P.Attempted
      case Sending(replay) => DeleteMarked(prov) && (!replay ==> !deleteOutstanding && !agent.Deleted?)
      case Awaiting(_) => DeleteMarked(prov)
      case Rejected => DeleteMarked(prov) && !deleteOutstanding && !agent.Deleted?
      case Confirmed => Holds(prov, P.Retiring) && agent.Deleted?
  }

  predicate DeleteMarked(prov: Option<P.Record>) {
    Holds(prov, P.Retiring) && prov.value.deleteAttempted == P.Attempted
  }

  predicate Describes(seen: Option<P.Record>, prov: Option<P.Record>, key: Key) {
    && seen.Some? && prov.Some? && P.ValidRecord(seen.value)
    && (seen.value.phase == P.Owned || seen.value.phase == P.Retiring)
    && seen.value.phase == prov.value.phase && seen.value.retirementKey == Some(key)
    && seen.value.runPending == prov.value.runPending && seen.value.cancelAttempted == prov.value.cancelAttempted
    && (seen.value.phase == P.Retiring ==> seen == prov)
  }

  /** Prompts: an unresolved send is on record, and a retiring record has neither a run pending nor a
      cancel attempted. */
  predicate RunInv(prov: Option<P.Record>, action: Action, openSends: nat) {
    && openSends <= 1
    && (openSends == 1 ==> prov.Some? && prov.value.runPending)
    && (Holds(prov, P.Retiring) || Holds(prov, P.Retired) ==>
        !prov.value.runPending && prov.value.cancelAttempted.None?)
    && (action.Prompt? ==>
          && Holds(prov, P.Owned)
          && (action.prompt.PromptBegin? ==> !prov.value.runPending)
          && (action.prompt.PromptInvoke? ==> prov.value.runPending)
          && (action.prompt.PromptInvoke? || action.prompt.PromptRestore? ==> openSends == 0)
          && (action.prompt.PromptAwait? || action.prompt.PromptCommit? ==> openSends == 1))
  }

  /** Interrupts: the cancelled run is the one on record, and only recorded runs were ever cancelled. */
  predicate TargetInv(prov: Option<P.Record>, action: Action, openCancels: map<RunId, nat>, committedRuns: set<RunId>) {
    && (prov.Some? && prov.value.runId.Some? ==> prov.value.runId.value in committedRuns)
    && openCancels.Keys <= committedRuns
    && (action.Interrupt? ==>
          && Holds(prov, P.Owned) && prov.value.runId == Some(action.target)
          && (action.interrupt.CancelInvoke? ==> prov.value.cancelAttempted == Some(action.target)))
  }

  predicate Inv(s: Launch) {
    && (!s.up ==> s == Crashed(s))
    && SettledInv(s)
    && SeenInv(s.prov, s.agent, s.deleteOutstanding, s.action)
  }

  predicate SettledInv(s: Launch) {
    && Linked(s.ledger, s.cleanupDue, s.prov, s.agent, s.deleteOutstanding)
    && JobInv(s.ledger, s.prov, s.agent, s.createOutstanding, s.job, s.op, s.launches)
    && FlowInv(s.ledger, s.prov, s.flow, s.preparation, s.latePreparation, s.rollingBack)
    && RetireInv(s.prov, s.flow, s.retireQueued, s.action)
    && RunInv(s.prov, s.action, s.openSends)
    && TargetInv(s.prov, s.action, s.openCancels, s.committedRuns)
  }

  // ----- preservation, one family of steps at a time

  lemma CrashKeeps(s: Launch)
    requires Inv(s)
    ensures Inv(Crashed(s))
  {
  }

  lemma StartKeeps(s: Launch, t: Launch)
    requires Inv(s) && !s.up && Starts(s, t)
    ensures Inv(t)
  {
  }

  lemma EnvironmentKeeps(s: Launch, t: Launch)
    requires Inv(s) && Environment(s, t)
    ensures Inv(t)
  {
    if t == Crashed(s) {
      CrashKeeps(s);
    } else if !s.up && Starts(s, t) {
      StartKeeps(s, t);
    }
  }

  lemma StartJobKeeps(s: Launch, t: Launch)
    requires Inv(s) && s.up && StartJob(s, t)
    ensures Inv(t)
  {
    match s.job
    case Waiting(_) =>
    case Fenced =>
    case Calling =>
    case Settling(_) =>
    case Held =>
    case _ =>
  }

  lemma SettleJobKeeps(s: Launch, t: Launch)
    requires Inv(s) && s.up && SettleJob(s, t)
    ensures Inv(t)
  {
    match s.job
    case Waiting(_) =>
    case Fenced =>
    case Calling =>
    case Settling(_) =>
    case Held =>
    case _ =>
  }

  lemma OpSettlesKeeps(s: Launch, owned: bool, t: Launch)
    requires Inv(s) && s.up && s.op != NoOp && OpSettles(s, owned, t)
    requires owned ==> ProvIs(s, P.Owned) && !s.agent.Absent?
    ensures Inv(t)
  {
    if s.job.Calling? {
      OpAnswersKeeps(s, owned, t);
    } else {
      OpEndsKeeps(s, owned, t);
    }
  }

  lemma OpAnswersKeeps(s: Launch, owned: bool, t: Launch)
    requires Inv(s) && s.up && s.op != NoOp && s.job.Calling? && OpSettles(s, owned, t)
    requires owned ==> ProvIs(s, P.Owned) && !s.agent.Absent?
    ensures Inv(t)
  {
    hide Linked, FlowInv, RetireInv, RunInv, TargetInv, SeenInv;
  }

  lemma OpEndsKeeps(s: Launch, owned: bool, t: Launch)
    requires Inv(s) && s.up && s.op != NoOp && !s.job.Calling? && OpSettles(s, owned, t)
    ensures Inv(t)
  {
    hide Linked, FlowInv, RetireInv, RunInv, TargetInv, SeenInv;
  }

  lemma MarkOwnedKeeps(s: Launch, u: Launch)
    requires Inv(s) && s.up && s.op.MarkOwned? && s.prov.Some? && P.MarkOwned(s.prov.value).Some?
    requires u == s.(prov := P.MarkOwned(s.prov.value))
    ensures Inv(u) && ProvIs(u, P.Owned)
  {
    P.MarkOwnedNeverRevives(s.prov.value);
  }

  lemma OpStepKeeps(s: Launch, t: Launch)
    requires Inv(s) && s.up && OpStep(s, t)
    ensures Inv(t)
  {
    if OpSettles(s, false, t) {
      OpSettlesKeeps(s, false, t);
    } else if s.op.MarkOwned? {
      var u := s.(prov := P.MarkOwned(s.prov.value));
      MarkOwnedKeeps(s, u);
      OpSettlesKeeps(u, true, t);
    } else if s.op.ReconcileGet? && s.op.seenOwned {
      OpSettlesKeeps(s, true, t);
    } else {
      OpAdvanceKeeps(s, t);
    }
  }

  lemma OpAdvanceKeeps(s: Launch, t: Launch)
    requires Inv(s) && s.up && OpStep(s, t) && !OpSettles(s, false, t)
    requires !s.op.MarkOwned? && s.op != ReconcileGet(true)
    ensures Inv(t)
  {
    match s.op
    case LaunchReserve =>
    case LaunchCreate =>
    case LaunchAwait =>
    case ReconcileRead =>
    case ReconcileGet(_) =>
    case MarkOwned =>
    case _ =>
  }

  lemma RequestRetirementKeeps(s: Launch, t: Launch)
    requires Inv(s) && s.up && RequestRetirement(s, t)
    ensures Inv(t)
  {
  }

  lemma PrepareResultKeeps(s: Launch, key: Key, how: Preparation, u: Launch)
    requires Inv(s) && s.up && s.preparation == Some(key) && PrepareResult(s, key, how, u)
    ensures Inv(u) && u.up && u.preparation == Some(key)
    ensures how == UnknownThenBlocked ==> ProvIs(u, P.Owned)
  {
  }

  lemma PrepareDeliversKeeps(s: Launch, how: Preparation, t: Launch)
    requires Inv(s) && s.up && PrepareDelivers(s, how, t)
    requires how == UnknownThenBlocked ==> ProvIs(s, P.Owned)
    ensures Inv(t)
  {
    hide Linked, JobInv, RunInv, TargetInv, SeenInv;
    if s.flow.Preparing? {
    } else if s.latePreparation.Some? {
    } else {
    }
  }

  lemma PrepareSettlesKeeps(s: Launch, t: Launch)
    requires Inv(s) && s.up && PrepareSettles(s, t)
    ensures Inv(t)
  {
    var how: Preparation, u: Launch :| PrepareResult(s, s.preparation.value, how, u) && PrepareDelivers(u, how, t);
    PrepareResultKeeps(s, s.preparation.value, how, u);
    PrepareDeliversKeeps(u, how, t);
  }

  lemma ReleaseSettlesKeeps(s: Launch, t: Launch)
    requires Inv(s) && s.up && ReleaseSettles(s, t)
    ensures Inv(t)
  {
    if t.prov == s.prov {
    } else {
    }
  }

  lemma FenceWrittenKeeps(s: Launch, t: Launch)
    requires Inv(s) && s.up && s.flow.Fencing? && t.ledger.Retiring? && AdvanceFlow(s, t)
    ensures Inv(t)
  {
    hide RunInv, TargetInv, SeenInv;
    match s.flow.how
    case Prepared =>
    case Unsupported =>
    case Unknown =>
    case UnknownThenBlocked =>
  }

  lemma FenceFailedKeeps(s: Launch, t: Launch)
    requires Inv(s) && s.up && s.flow.Fencing? && !t.ledger.Retiring? && AdvanceFlow(s, t)
    ensures Inv(t)
  {
    hide JobInv, RunInv, TargetInv, SeenInv;
  }

  lemma AdvanceFlowKeeps(s: Launch, t: Launch)
    requires Inv(s) && s.up && (s.flow.Preparing? || s.flow.Deactivating? || s.flow.Deleting?) && AdvanceFlow(s, t)
    ensures Inv(t)
  {
    hide RunInv, TargetInv, SeenInv;
  }

  lemma FinishFlowKeeps(s: Launch, t: Launch)
    requires Inv(s) && s.up && (s.flow.Completing? || s.flow.Cancelling?) && AdvanceFlow(s, t)
    ensures Inv(t)
  {
    hide RunInv, TargetInv, SeenInv;
  }

  lemma LateRollbackKeeps(s: Launch, t: Launch)
    requires Inv(s) && s.up && LateRollback(s, t)
    ensures Inv(t)
  {
  }

  lemma AfterTombstoneKeeps(s: Launch, t: Launch)
    requires Inv(s) && s.up && AfterTombstone(s, t)
    ensures Inv(t)
  {
  }

  lemma RecoverReservationKeeps(s: Launch, t: Launch)
    requires Inv(s) && s.up && RecoverReservation(s, t)
    ensures Inv(t)
  {
  }

  lemma EnterActionKeeps(s: Launch, t: Launch)
    requires Inv(s) && s.up && EnterAction(s, t)
    ensures Inv(t)
  {
  }

  lemma AbandonedActionKeeps(s: Launch)
    requires Inv(s) && s.up && (s.action.Prompt? || s.action.Interrupt?)
    ensures Inv(s.(action := Free))
  {
  }

  lemma PromptBeginKeeps(s: Launch, t: Launch)
    requires Inv(s) && s.up && PromptStep(s, t) && s.action.prompt.PromptBegin?
    ensures Inv(t)
  {
  }

  lemma PromptSendKeeps(s: Launch, t: Launch)
    requires Inv(s) && s.up && PromptStep(s, t) && s.action.prompt.PromptInvoke?
    ensures Inv(t)
  {
  }

  lemma PromptAnswerKeeps(s: Launch, t: Launch)
    requires Inv(s) && s.up && PromptStep(s, t) && s.action.prompt.PromptAwait?
    ensures Inv(t)
  {
  }

  lemma PromptCommitKeeps(s: Launch, t: Launch)
    requires Inv(s) && s.up && PromptStep(s, t) && s.action.prompt.PromptCommit?
    ensures Inv(t)
  {
  }

  lemma PromptRestoreKeeps(s: Launch, t: Launch)
    requires Inv(s) && s.up && PromptStep(s, t) && s.action.prompt.PromptRestore?
    ensures Inv(t)
  {
  }

  lemma CancelSentKeeps(s: Launch, t: Launch)
    requires Inv(s) && s.up && InterruptStep(s, t) && s.action.interrupt.CancelInvoke?
    ensures Inv(t)
  {
  }

  lemma CancelRefusedKeeps(s: Launch, t: Launch)
    requires Inv(s) && s.up && InterruptStep(s, t) && s.action.interrupt.CancelAwait? && t != s.(action := Free)
    ensures Inv(t)
  {
  }

  lemma InterruptWriteKeeps(s: Launch, t: Launch)
    requires Inv(s) && s.up && InterruptStep(s, t) && t != s.(action := Free)
    requires s.action.interrupt.CancelBegin? || s.action.interrupt.CancelRestore?
    ensures Inv(t)
  {
  }

  /** Leaving the exclusive section: whatever the answer, the flow may act on it. */
  lemma RetireAnswersKeeps(s: Launch, result: RetireResult, t: Launch)
    requires SettledInv(s) && s.up && s.action.Retirement? && RetireSettles(s, result, t) && s.flow.Deleting?
    requires result == ResultRetired ==> ProvIs(s, P.Retired)
    requires result == ResultBlocked ==> ProvIs(s, P.Owned)
    requires result == ResultUnsupported ==> s.action.at.Reading?
    ensures Inv(t)
  {
    match result
    case ResultRetired =>
    case ResultBlocked =>
    case ResultUnsupported =>
    case ResultUnknown =>
  }

  lemma RetireAnswersLateKeeps(s: Launch, result: RetireResult, t: Launch)
    requires SettledInv(s) && s.up && s.action.Retirement? && RetireSettles(s, result, t) && s.flow.TimedOut?
    requires result == ResultBlocked ==> ProvIs(s, P.Owned)
    ensures Inv(t)
  {
  }

  lemma RetireReadsKeeps(s: Launch, t: Launch)
    requires Inv(s) && s.up && s.action.Retirement? && s.action.at.Reading? && RetireAdvances(s, t)
    ensures Inv(t)
  {
  }

  lemma RetireDecidesKeeps(s: Launch, t: Launch)
    requires Inv(s) && s.up && s.action.Retirement? && s.action.at.Gating? && RetireAdvances(s, t)
    ensures Inv(t)
  {
  }

  lemma RetireWritesKeeps(s: Launch, t: Launch)
    requires Inv(s) && s.up && s.action.Retirement? && RetireAdvances(s, t)
    requires s.action.at.Reserving? || s.action.at.Beginning? || s.action.at.Marking?
    ensures Inv(t)
  {
    match s.action.at
    case Reading =>
    case Reserving =>
    case Gating =>
    case Beginning =>
    case Marking =>
    case Sending(_) =>
    case Awaiting(_) =>
    case _ =>
  }

  lemma RetireRequestsKeeps(s: Launch, t: Launch)
    requires Inv(s) && s.up && s.action.Retirement? && RetireAdvances(s, t)
    requires s.action.at.Sending? || s.action.at.Awaiting?
    ensures Inv(t)
  {
  }

  lemma RetireReturnsKeeps(s: Launch, result: RetireResult, u: Launch)
    requires Inv(s) && s.up && s.action.Retirement? && RetireReturns(s, result, u)
    ensures SettledInv(u) && u.up && u.action == s.action
    ensures result == ResultRetired ==> ProvIs(u, P.Retired)
    ensures result == ResultBlocked ==> ProvIs(u, P.Owned)
    ensures result == ResultUnsupported ==> u.action.at.Reading?
  {
  }

  lemma RetireStepKeeps(s: Launch, t: Launch)
    requires Inv(s) && s.up && RetireStep(s, t)
    ensures Inv(t)
  {
    if RetireAdvances(s, t) {
      match s.action.at
      case Reading => RetireReadsKeeps(s, t);
      case Gating => RetireDecidesKeeps(s, t);
      case Sending(_) => RetireRequestsKeeps(s, t);
      case Awaiting(_) => RetireRequestsKeeps(s, t);
      case _ => RetireWritesKeeps(s, t);
    } else {
      var result: RetireResult, u: Launch :| RetireReturns(s, result, u) && RetireSettles(u, result, t);
      RetireReturnsKeeps(s, result, u);
      if u.flow.Deleting? { RetireAnswersKeeps(u, result, t); } else { RetireAnswersLateKeeps(u, result, t); }
    }
  }

  lemma CoordinatorKeeps(s: Launch, t: Launch)
    requires Inv(s) && s.up && CoordinatorStep(s, t)
    ensures Inv(t)
  {
    if StartJob(s, t) { StartJobKeeps(s, t); }
    else if SettleJob(s, t) { SettleJobKeeps(s, t); }
    else if RequestRetirement(s, t) { RequestRetirementKeeps(s, t); }
    else if PrepareSettles(s, t) { PrepareSettlesKeeps(s, t); }
    else if ReleaseSettles(s, t) { ReleaseSettlesKeeps(s, t); }
    else if LateRollback(s, t) { LateRollbackKeeps(s, t); }
    else if AfterTombstone(s, t) { AfterTombstoneKeeps(s, t); }
    else if s.flow.Completing? || s.flow.Cancelling? { FinishFlowKeeps(s, t); }
    else if !s.flow.Fencing? { AdvanceFlowKeeps(s, t); }
    else if t.ledger.Retiring? { FenceWrittenKeeps(s, t); }
    else { FenceFailedKeeps(s, t); }
  }

  lemma AdapterKeeps(s: Launch, t: Launch)
    requires Inv(s) && s.up && AdapterStep(s, t)
    ensures Inv(t)
  {
    if OpStep(s, t) { OpStepKeeps(s, t); }
    else if EnterAction(s, t) { EnterActionKeeps(s, t); }
    else if RecoverReservation(s, t) { RecoverReservationKeeps(s, t); }
    else if PromptStep(s, t) || InterruptStep(s, t) { ActionKeeps(s, t); }
    else { RetireStepKeeps(s, t); }
  }

  lemma ActionKeeps(s: Launch, t: Launch)
    requires Inv(s) && s.up && (PromptStep(s, t) || InterruptStep(s, t))
    ensures Inv(t)
  {
    if t == s.(action := Free) { AbandonedActionKeeps(s); }
    else if s.action.Prompt? {
      match s.action.prompt
      case PromptBegin => PromptBeginKeeps(s, t);
      case PromptInvoke => PromptSendKeeps(s, t);
      case PromptAwait => PromptAnswerKeeps(s, t);
      case PromptCommit(_) => PromptCommitKeeps(s, t);
      case PromptRestore => PromptRestoreKeeps(s, t);
    } else {
      match s.action.interrupt
      case CancelInvoke => CancelSentKeeps(s, t);
      case CancelAwait => CancelRefusedKeeps(s, t);
      case _ => InterruptWriteKeeps(s, t);
    }
  }

  lemma StepKeeps(s: Launch, t: Launch)
    requires Inv(s) && Next(s, t)
    ensures Inv(t)
  {
    if Environment(s, t) { EnvironmentKeeps(s, t); }
    else if CoordinatorStep(s, t) { CoordinatorKeeps(s, t); }
    else { AdapterKeeps(s, t); }
  }

  function Stage(l: Ledger): nat {
    match l case Requested => 0 case Creating => 1 case _ => 2
  }

  predicate PastLaunching(s: Launch) {
    Stage(s.ledger) > 0 && !s.job.Fenced?
  }

  /** What no step ever undoes. */
  predicate Monotone(s: Launch, t: Launch) {
    && (s.agent.Deleted? ==> t.agent.Deleted?)
    && Stage(s.ledger) <= Stage(t.ledger)
    && s.launches <= t.launches
    && (PastLaunching(s) ==> PastLaunching(t) && s.launches == t.launches)
  }

  ghost predicate Progress(s: Launch, t: Launch) {
    && Monotone(s, t)
    && (t.openSends > s.openSends ==> s.action == Prompt(PromptInvoke))
    && (RunPending(s) && t.prov.Some? && !RunPending(t) ==>
          s.action.Prompt? && (s.action.prompt.PromptRestore? ||
            (s.action.prompt.PromptCommit? && t.prov.value.runId == Some(s.action.prompt.run))))
  }

  predicate RunPending(s: Launch) {
    s.prov.Some? && s.prov.value.runPending
  }

  /** Nothing about requests changes: those that are open, the recorded run and mark, and no interrupt
      moves on. */
  predicate RequestsKept(s: Launch, t: Launch) {
    && t.openSends == s.openSends && t.openCancels == s.openCancels
    && (t.prov.Some? && t.prov.value.runId.Some? ==>
          && s.prov.Some? && t.prov.value.runId == s.prov.value.runId
          && t.prov.value.cancelAttempted == s.prov.value.cancelAttempted)
    && (t.action.Interrupt? ==> t.action == s.action || t.action.interrupt.CancelBegin?)
  }

  predicate SameRuns(before: Option<P.Record>, after: Option<P.Record>) {
    && before.Some? == after.Some?
    && (before.Some? ==>
          && before.value.runId == after.value.runId && before.value.runPending == after.value.runPending
          && before.value.cancelAttempted == after.value.cancelAttempted)
  }

  ghost predicate Quiet(s: Launch, t: Launch) {
    Progress(s, t) && RequestsKept(s, t)
  }

  lemma EnvironmentProgresses(s: Launch, t: Launch)
    requires Inv(s) && Environment(s, t)
    ensures Quiet(s, t)
  {
  }

  lemma StartJobProgresses(s: Launch, t: Launch)
    requires Inv(s) && StartJob(s, t)
    ensures Quiet(s, t)
  {
  }

  lemma SettleJobProgresses(s: Launch, t: Launch)
    requires Inv(s) && SettleJob(s, t)
    ensures Quiet(s, t)
  {
    hide Inv, Linked;
  }

  lemma OpSettlesProgresses(s: Launch, owned: bool, t: Launch)
    requires Inv(s) && !s.op.NoOp? && OpSettles(s, owned, t)
    ensures t == s.(op := NoOp, job := t.job) && !s.job.Fenced? && !t.job.Fenced?
  {
    hide Linked, FlowInv, RetireInv, RunInv, TargetInv, SeenInv;
  }

  lemma SettledProgresses(s: Launch, t: Launch)
    requires s.agent == t.agent && !s.job.Fenced? && !t.job.Fenced? && s.launches == t.launches && s.ledger == t.ledger
    requires s.action == t.action && s.openSends == t.openSends && s.openCancels == t.openCancels
    requires SameRuns(s.prov, t.prov)
    ensures Quiet(s, t)
  {
  }

  lemma OpStepProgresses(s: Launch, t: Launch)
    requires Inv(s) && OpStep(s, t)
    ensures Quiet(s, t)
  {
    hide Quiet, Inv, P.ValidRecord;
    if OpSettles(s, false, t) {
      OpSettlesProgresses(s, false, t);
      SettledProgresses(s, t);
    } else if s.op.MarkOwned? {
      MarkOwnedMayProgress(s, t);
    } else if s.op == ReconcileGet(true) {
      OpSettlesProgresses(s, true, t);
      SettledProgresses(s, t);
    } else {
      OpAdvanceProgresses(s, t);
    }
  }

  lemma MarkOwnedMayProgress(s: Launch, t: Launch)
    requires Inv(s) && s.op.MarkOwned? && OpStep(s, t) && !OpSettles(s, false, t)
    ensures Quiet(s, t)
  {
    hide Linked, FlowInv, RetireInv, RunInv, TargetInv, SeenInv, P.ValidRecord;
  }

  lemma OpAdvanceProgresses(s: Launch, t: Launch)
    requires !s.op.MarkOwned? && s.op != ReconcileGet(true) && OpStep(s, t) && !OpSettles(s, false, t)
    ensures Quiet(s, t)
  {
    hide OpSettles;
  }

  lemma RequestRetirementProgresses(s: Launch, t: Launch)
    requires Inv(s) && RequestRetirement(s, t)
    ensures Quiet(s, t)
  {
  }

  lemma PrepareResultProgresses(s: Launch, key: Key, how: Preparation, u: Launch)
    requires PrepareResult(s, key, how, u)
    ensures u == s.(prov := u.prov) && RunPending(u) == RunPending(s) && RequestsKept(s, u)
  {
  }

  lemma PrepareDeliversProgresses(s: Launch, how: Preparation, t: Launch)
    requires PrepareDelivers(s, how, t)
    ensures t.prov == s.prov && t.agent == s.agent && t.ledger == s.ledger && t.job == s.job
    ensures t.launches == s.launches && t.openSends == s.openSends && RequestsKept(s, t)
  {
    if s.flow.Preparing? {
    } else if s.latePreparation.Some? {
    } else {
    }
  }

  lemma PrepareSettlesProgresses(s: Launch, t: Launch)
    requires PrepareSettles(s, t)
    ensures Quiet(s, t)
  {
    var how: Preparation, u: Launch :| PrepareResult(s, s.preparation.value, how, u) && PrepareDelivers(u, how, t);
    PrepareResultProgresses(s, s.preparation.value, how, u);
    PrepareDeliversProgresses(u, how, t);
  }

  lemma ReleaseSettlesProgresses(s: Launch, t: Launch)
    requires Inv(s) && ReleaseSettles(s, t)
    ensures Quiet(s, t)
  {
  }

  lemma AdvanceFlowProgresses(s: Launch, t: Launch)
    requires AdvanceFlow(s, t)
    ensures Quiet(s, t)
  {
    match s.flow
    case Preparing(_) =>
    case Fencing(_, _) => FenceProgresses(s, t);
    case Deactivating(_, _) =>
    case Deleting(_, _) =>
    case Completing(_) =>
    case Cancelling(_) =>
    case _ =>
  }

  lemma FenceProgresses(s: Launch, t: Launch)
    requires s.flow.Fencing? && AdvanceFlow(s, t)
    ensures Quiet(s, t)
  {
    match s.flow.how
    case Prepared =>
    case Unsupported =>
    case Unknown =>
    case UnknownThenBlocked =>
  }

  lemma LateRollbackProgresses(s: Launch, t: Launch)
    requires Inv(s) && LateRollback(s, t)
    ensures Quiet(s, t)
  {
  }

  lemma AfterTombstoneProgresses(s: Launch, t: Launch)
    requires Inv(s) && AfterTombstone(s, t)
    ensures Quiet(s, t)
  {
  }

  lemma EnterActionProgresses(s: Launch, t: Launch)
    requires Inv(s) && EnterAction(s, t)
    ensures Quiet(s, t)
  {
  }

  /** What a step of `retireLaunch` leaves alone. */
  ghost predicate RetireFrame(s: Launch, t: Launch) {
    && t == s.(prov := t.prov, deleteOutstanding := t.deleteOutstanding, action := t.action)
    && t.action.Retirement? && SameRuns(s.prov, t.prov)
  }

  lemma RetireKeepsFrame(s: Launch, t: Launch)
    requires s.action.Retirement? && RetireAdvances(s, t)
    ensures RetireFrame(s, t)
  {
    hide RetireFrame;
    match s.action.at
    case Reading => RetireReadsFrame(s, t);
    case Gating => RetireDecidesFrame(s, t);
    case Sending(_) => RetireRequestsFrame(s, t);
    case Awaiting(_) => RetireRequestsFrame(s, t);
    case _ => RetireWritesFrame(s, t);
  }

  lemma RetireReadsFrame(s: Launch, t: Launch)
    requires s.action.Retirement? && s.action.at.Reading? && RetireAdvances(s, t)
    ensures RetireFrame(s, t)
  {
    assert t == At(s, t.action.at, s.prov);
  }

  lemma RetireDecidesFrame(s: Launch, t: Launch)
    requires s.action.Retirement? && s.action.at.Gating? && RetireAdvances(s, t)
    ensures RetireFrame(s, t)
  {
    assert t == At(s, t.action.at, s.action.seen);
  }

  lemma RetireRequestsFrame(s: Launch, t: Launch)
    requires s.action.Retirement? && (s.action.at.Sending? || s.action.at.Awaiting?) && RetireAdvances(s, t)
    ensures RetireFrame(s, t)
  {
  }

  lemma RetireWritesFrame(s: Launch, t: Launch)
    requires s.action.Retirement? && RetireAdvances(s, t)
    requires s.action.at.Reserving? || s.action.at.Beginning? || s.action.at.Marking?
    ensures RetireFrame(s, t)
  {
    assert t == At(s.(prov := t.prov), t.action.at, t.action.seen);
  }

  lemma FrameProgresses(s: Launch, t: Launch)
    requires RetireFrame(s, t)
    ensures Quiet(s, t)
  {
  }

  lemma RetireReturnsProgresses(s: Launch, result: RetireResult, u: Launch)
    requires s.action.Retirement? && RetireReturns(s, result, u)
    ensures u == s.(prov := u.prov) && RunPending(u) == RunPending(s) && RequestsKept(s, u)
  {
  }

  lemma RetireSettlesProgresses(s: Launch, result: RetireResult, t: Launch)
    requires RetireSettles(s, result, t)
    ensures t.prov == s.prov && t.agent == s.agent && t.ledger == s.ledger && t.job == s.job
    ensures t.launches == s.launches && t.openSends == s.openSends && RequestsKept(s, t)
  {
    match s.flow
    case Deleting(_, _) =>
    case TimedOut(_) =>
    case _ =>
  }

  lemma RetireStepProgresses(s: Launch, t: Launch)
    requires RetireStep(s, t)
    ensures Quiet(s, t)
  {
    if RetireAdvances(s, t) {
      RetireKeepsFrame(s, t);
      FrameProgresses(s, t);
    } else {
      var result: RetireResult, u: Launch :| RetireReturns(s, result, u) && RetireSettles(u, result, t);
      RetireReturnsProgresses(s, result, u);
      RetireSettlesProgresses(u, result, t);
    }
  }

  lemma PromptStepProgresses(s: Launch, t: Launch)
    requires Inv(s) && PromptStep(s, t)
    ensures Progress(s, t)
  {
    if s.action.Prompt? {
      match s.action.prompt
      case PromptBegin =>
      case PromptInvoke =>
      case PromptAwait =>
      case PromptCommit(_) =>
      case PromptRestore =>
    }
  }

  lemma InterruptStepProgresses(s: Launch, t: Launch)
    requires Inv(s) && InterruptStep(s, t)
    ensures Progress(s, t)
  {
    if s.action.Interrupt? {
      match s.action.interrupt
      case CancelBegin =>
      case CancelInvoke =>
      case CancelAwait =>
      case CancelRestore =>
    }
  }

  lemma RecoverReservationProgresses(s: Launch, t: Launch)
    requires Inv(s) && RecoverReservation(s, t)
    ensures Quiet(s, t)
  {
  }

  lemma StepProgresses(s: Launch, t: Launch)
    requires Inv(s) && Next(s, t)
    ensures Progress(s, t) && (RequestsKept(s, t) || PromptStep(s, t) || InterruptStep(s, t))
  {
    if Environment(s, t) { EnvironmentProgresses(s, t); }
    else if StartJob(s, t) { StartJobProgresses(s, t); }
    else if SettleJob(s, t) { SettleJobProgresses(s, t); }
    else if OpStep(s, t) { OpStepProgresses(s, t); }
    else if RequestRetirement(s, t) { RequestRetirementProgresses(s, t); }
    else if PrepareSettles(s, t) { PrepareSettlesProgresses(s, t); }
    else if ReleaseSettles(s, t) { ReleaseSettlesProgresses(s, t); }
    else if AdvanceFlow(s, t) { AdvanceFlowProgresses(s, t); }
    else if LateRollback(s, t) { LateRollbackProgresses(s, t); }
    else if AfterTombstone(s, t) { AfterTombstoneProgresses(s, t); }
    else if EnterAction(s, t) { EnterActionProgresses(s, t); }
    else if RetireStep(s, t) { RetireStepProgresses(s, t); }
    else if PromptStep(s, t) { PromptStepProgresses(s, t); }
    else if InterruptStep(s, t) { InterruptStepProgresses(s, t); }
    else if RecoverReservation(s, t) { RecoverReservationProgresses(s, t); }
  }

  // ----- every run

  ghost predicate IsRun(run: seq<Launch>) {
    && |run| > 0
    && (exists binding :: run[0] == Initial(binding))
    && (forall i :: 0 <= i < |run| - 1 ==> Next(run[i], run[i + 1]))
  }

  lemma {:induction false} RunKeeps(run: seq<Launch>, i: nat)
    requires IsRun(run) && i < |run|
    ensures Inv(run[i])
  {
    if i > 0 {
      RunKeeps(run, i - 1);
      StepKeeps(run[i - 1], run[i]);
    }
  }

  lemma RunProgresses(run: seq<Launch>, i: nat)
    requires IsRun(run) && i + 1 < |run|
    ensures Progress(run[i], run[i + 1])
  {
    RunKeeps(run, i);
    StepProgresses(run[i], run[i + 1]);
  }

  lemma {:induction false} MonotoneChain(run: seq<Launch>, i: nat, j: nat)
    requires i <= j < |run| && forall k :: i <= k < j ==> Monotone(run[k], run[k + 1])
    ensures Monotone(run[i], run[j])
    decreases j
  {
    if i < j {
      MonotoneChain(run, i, j - 1);
    }
  }

  lemma RunIsMonotone(run: seq<Launch>, i: nat, j: nat)
    requires IsRun(run) && i <= j < |run|
    ensures Monotone(run[i], run[j])
  {
    forall k | i <= k < j ensures Monotone(run[k], run[k + 1]) {
      RunProgresses(run, k);
    }
    MonotoneChain(run, i, j);
  }

  /** Deletion safety. Once the agent has been deleted its ledger record is retiring or tombstoned, and
      so it stays: no crash, timeout or late result brings the launch back to `owned`. */
  lemma DeletedStaysFenced(run: seq<Launch>, i: nat, j: nat)
    requires IsRun(run) && i <= j < |run| && run[i].agent.Deleted?
    ensures run[j].agent.Deleted?
    ensures run[j].ledger.Retiring? || run[j].ledger.Tombstone? || run[j].ledger.Evicted?
  {
    RunIsMonotone(run, i, j);
    RunKeeps(run, j);
  }

  /** The two durable stores never disagree about a retirement: provenance that is retiring or retired has
      its ledger record fenced under the same key, a tombstone has only retired provenance or none, and an
      owned launch has an owned provenance record and a living agent. */
  lemma StoresAgree(run: seq<Launch>, i: nat)
    requires IsRun(run) && i < |run|
    ensures ProvIs(run[i], P.Retiring) || ProvIs(run[i], P.Retired) ==>
              run[i].prov.value.retirementKey.Some? && Committed(run[i].ledger, run[i].prov.value.retirementKey.value)
    ensures run[i].ledger.Tombstone? || run[i].ledger.Evicted? ==> run[i].prov.None? || ProvIs(run[i], P.Retired)
    ensures run[i].ledger.Owned? ==> ProvIs(run[i], P.Owned) && run[i].agent.Alive? && !run[i].deleteOutstanding
  {
    RunKeeps(run, i);
  }

  /** A delete request leaves only when `deleteAttempted` is durable, under the key the ledger is fenced
      with, and with neither a pending run nor an attempted cancel. */
  lemma DeletesAreRecordedFirst(run: seq<Launch>, i: nat)
    requires IsRun(run) && i + 1 < |run|
    requires run[i].action.Retirement? && run[i].action.at.Sending?
    requires run[i + 1].action.Retirement? && run[i + 1].action.at.Awaiting?
    ensures run[i].ledger == Retiring(run[i].action.key)
    ensures ProvIs(run[i], P.Retiring) && run[i].prov.value.retirementKey == Some(run[i].action.key)
    ensures run[i].prov.value.deleteAttempted == P.Attempted
    ensures !run[i].prov.value.runPending && run[i].prov.value.cancelAttempted.None? && run[i].openSends == 0
  {
    RunKeeps(run, i);
  }

  /** No request can reach the agent without that record: whenever a deletion is possible or done, the
      provenance record says so, or has been removed behind a tombstone. */
  lemma DeletionIsNeverForgotten(run: seq<Launch>, i: nat)
    requires IsRun(run) && i < |run| && (run[i].deleteOutstanding || run[i].agent.Deleted?)
    ensures DeleteRecorded(run[i].ledger, run[i].prov) && !run[i].ledger.Owned?
  {
    RunKeeps(run, i);
  }

  // ----- at most one launch

  /** `registry.launch` is called at most once for a record, and no record returns to `requested` or
      `creating`, over every run with crashes and restarts. */
  lemma LaunchedAtMostOnce(run: seq<Launch>, i: nat, j: nat)
    requires IsRun(run) && i <= j < |run|
    ensures run[i].launches <= run[j].launches <= 1
    ensures Stage(run[i].ledger) <= Stage(run[j].ledger)
  {
    RunIsMonotone(run, i, j);
    RunKeeps(run, j);
  }

  /** A record that a restart finds past `requested` is never launched again, only reconciled; so a crash
      between the durable fence and the call costs the launch rather than risking a second one. */
  lemma FoundCreatingIsOnlyReconciled(run: seq<Launch>, i: nat, j: nat)
    requires IsRun(run) && i <= j < |run| && !run[i].up && !run[i].ledger.Requested?
    ensures run[j].launches == run[i].launches && PastLaunching(run[j])
  {
    RunKeeps(run, i);
    RunIsMonotone(run, i, j);
  }

  // ----- prompt and cancel fences

  /** At most one prompt is unresolved, and while one is, the durable record says so. */
  lemma PromptsAreFenced(run: seq<Launch>, i: nat)
    requires IsRun(run) && i < |run|
    ensures run[i].openSends <= 1
    ensures run[i].openSends == 1 ==> ProvIs(run[i], P.Owned) && run[i].prov.value.runPending
    ensures i + 1 < |run| && run[i + 1].openSends > run[i].openSends ==>
              run[i].openSends == 0 && ProvIs(run[i], P.Owned) && run[i].prov.value.runPending
  {
    RunKeeps(run, i);
    if i + 1 < |run| {
      RunProgresses(run, i);
    }
  }

  /** The durable fence of a prompt is lifted only by a committed run or by proof that nothing was sent. */
  lemma FenceIsLiftedByProof(run: seq<Launch>, i: nat)
    requires IsRun(run) && i + 1 < |run|
    requires run[i].prov.Some? && run[i].prov.value.runPending
    requires run[i + 1].prov.Some? && !run[i + 1].prov.value.runPending
    ensures run[i + 1].openSends == 0
    ensures run[i].openSends == 1 ==> run[i].action.Prompt? && run[i].action.prompt.PromptCommit?
                                      && run[i + 1].prov.value.runId == Some(run[i].action.prompt.run)
  {
    RunKeeps(run, i);
    RunKeeps(run, i + 1);
    RunProgresses(run, i);
  }

  /** A run id has at most one cancel request that was not proved unsent or rejected, and the current
      run's is on record. */
  predicate CancelInv(s: Launch) {
    && (forall run :: run in s.openCancels ==> s.openCancels[run] <= 1)
    && (s.prov.Some? && s.prov.value.runId.Some? && Cancels(s, s.prov.value.runId.value) == 1 ==>
          s.prov.value.cancelAttempted == s.prov.value.runId)
    && (s.action.Interrupt? && (s.action.interrupt.CancelInvoke? || s.action.interrupt.CancelRestore?) ==>
          Cancels(s, s.action.target) == 0)
  }

  /** The step writes `run` into the provenance record. */
  predicate Commits(s: Launch, t: Launch, run: RunId) {
    s.action == Prompt(PromptCommit(run)) && t.openSends < s.openSends
  }

  lemma CommitKeepsCancels(s: Launch, t: Launch)
    requires CancelInv(s) && PromptStep(s, t) && s.action.prompt.PromptCommit?
    requires forall run :: Commits(s, t, run) ==> Cancels(s, run) == 0
    ensures CancelInv(t)
  {
    hide P.ValidRecord;
    if t.prov != s.prov {
      assert Commits(s, t, s.action.prompt.run);
    }
  }

  lemma PromptLeavesCancels(s: Launch, t: Launch)
    requires PromptStep(s, t) && !s.action.prompt.PromptCommit?
    ensures t.openCancels == s.openCancels && !t.action.Interrupt? && t.prov.Some? == s.prov.Some?
    ensures t.prov.Some? ==>
              t.prov.value.runId == s.prov.value.runId && t.prov.value.cancelAttempted == s.prov.value.cancelAttempted
  {
    hide P.ValidRecord;
    match s.action.prompt
    case PromptBegin =>
    case PromptInvoke =>
    case PromptAwait =>
    case PromptCommit(_) =>
    case PromptRestore =>
  }

  lemma PromptKeepsCancels(s: Launch, t: Launch)
    requires CancelInv(s) && PromptStep(s, t)
    requires forall run :: Commits(s, t, run) ==> Cancels(s, run) == 0
    ensures CancelInv(t)
  {
    if s.action.prompt.PromptCommit? {
      CommitKeepsCancels(s, t);
    } else {
      PromptLeavesCancels(s, t);
    }
  }

  lemma InterruptKeepsCancels(s: Launch, t: Launch)
    requires Inv(s) && CancelInv(s) && InterruptStep(s, t)
    ensures CancelInv(t)
  {
    match s.action.interrupt
    case CancelInvoke => SentKeepsCancels(s, t);
    case CancelAwait => SentKeepsCancels(s, t);
    case _ => MarkKeepsCancels(s, t);
  }

  lemma SentKeepsCancels(s: Launch, t: Launch)
    requires CancelInv(s) && InterruptStep(s, t)
    requires (s.action.interrupt.CancelInvoke? || s.action.interrupt.CancelAwait?)
    requires TargetInv(s.prov, s.action, s.openCancels, s.committedRuns)
    ensures CancelInv(t)
  {
  }

  lemma MarkKeepsCancels(s: Launch, t: Launch)
    requires CancelInv(s) && InterruptStep(s, t)
    requires (s.action.interrupt.CancelBegin? || s.action.interrupt.CancelRestore?)
    requires TargetInv(s.prov, s.action, s.openCancels, s.committedRuns)
    ensures CancelInv(t)
  {
  }

  lemma KeptCancels(s: Launch, t: Launch)
    requires CancelInv(s) && RequestsKept(s, t)
    ensures CancelInv(t)
  {
  }

  lemma StepKeepsCancels(s: Launch, t: Launch)
    requires Inv(s) && CancelInv(s) && Next(s, t)
    requires forall run :: Commits(s, t, run) ==> Cancels(s, run) == 0
    ensures CancelInv(t)
  {
    hide Inv, CancelInv, RequestsKept, PromptStep, InterruptStep, Progress;
    StepProgresses(s, t);
    if RequestsKept(s, t) {
      KeptCancels(s, t);
    } else if PromptStep(s, t) {
      PromptKeepsCancels(s, t);
    } else {
      InterruptKeepsCancels(s, t);
    }
  }

  lemma {:induction false} RunKeepsCancels(run: seq<Launch>, i: nat)
    requires IsRun(run) && i < |run|
    requires forall j, id :: 0 <= j < i && Commits(run[j], run[j + 1], id) ==> Cancels(run[j], id) == 0
    ensures CancelInv(run[i])
  {
    if i == 0 {
      assert run[0].openCancels == map[] && run[0].prov.None?;
    } else {
      hide Inv, CancelInv, Next, Commits, Cancels;
      RunKeepsCancels(run, i - 1);
      RunKeeps(run, i - 1);
      assert i == i - 1 + 1;
      StepKeepsCancels(run[i - 1], run[i]);
    }
  }

  /** Each run id has at most one cancel request that was not proved unsent or rejected, as long as no
      commit records an id that still has one. `RepeatedIdIsCancelledTwice` shows that the condition
      cannot be dropped: the first commit that breaks it leads to a second request. */
  lemma CancelsAreFenced(run: seq<Launch>, i: nat, id: RunId)
    requires IsRun(run) && i < |run|
    requires forall j, other :: 0 <= j < i && Commits(run[j], run[j + 1], other) ==> Cancels(run[j], other) == 0
    ensures Cancels(run[i], id) <= 1
    ensures Cancels(run[i], id) == 1 && run[i].prov.Some? && run[i].prov.value.runId == Some(id) ==>
              run[i].prov.value.cancelAttempted == Some(id)
  {
    RunKeepsCancels(run, i);
  }

  /** It is met whenever the provider never repeats a run id. */
  lemma FreshIdsAreFenced(run: seq<Launch>, i: nat, id: RunId)
    requires IsRun(run) && i < |run|
    requires forall j, other :: 0 <= j < i && Commits(run[j], run[j + 1], other) ==> other !in run[j].committedRuns
    ensures Cancels(run[i], id) <= 1
  {
    forall j, other | 0 <= j < i && Commits(run[j], run[j + 1], other) ensures Cancels(run[j], other) == 0 {
      RunKeeps(run, j);
    }
    CancelsAreFenced(run, i, id);
  }

  /** The three steps that send one more cancel request for the run on record. */
  function CancelAgain(s: Launch): (next: seq<Launch>)
    requires s.prov.Some? && s.prov.value.runId.Some? && P.BeginCancel(s.prov.value, s.prov.value.runId.value).Some?
    ensures |next| == 3
  {
    var id := s.prov.value.runId.value;
    var entered := s.(action := Interrupt(id, CancelBegin));
    var begun := entered.(prov := P.BeginCancel(s.prov.value, id), action := Interrupt(id, CancelInvoke));
    var sent := begun.(openCancels := begun.openCancels[id := Cancels(begun, id) + 1],
                       action := Interrupt(id, CancelAwait));
    [entered, begun, sent]
  }

  lemma CancelAgainSteps(s: Launch)
    requires s.up && s.action.Free? && ProvIs(s, P.Owned) && P.ValidRecord(s.prov.value)
    requires !s.prov.value.runPending && s.prov.value.cancelAttempted.None? && s.prov.value.runId.Some?
    ensures P.BeginCancel(s.prov.value, s.prov.value.runId.value).Some?
    ensures Leads(s, CancelAgain(s))
    ensures var next := CancelAgain(s);
            Cancels(next[2], s.prov.value.runId.value) == Cancels(s, s.prov.value.runId.value) + 1
  {
    var next := CancelAgain(s);
    assert EnterAction(s, next[0]);
    assert InterruptStep(next[0], next[1]) && InterruptStep(next[1], next[2]);
  }

  lemma CommitClearsTheMark(s: Launch, t: Launch, id: RunId)
    requires Inv(s) && Next(s, t) && Commits(s, t, id)
    ensures t.up && t.action.Free? && ProvIs(t, P.Owned) && t.openCancels == s.openCancels
    ensures t.prov.value.runId == Some(id) && !t.prov.value.runPending && t.prov.value.cancelAttempted.None?
  {
    StepProgresses(s, t);
  }

  /** `next` leads on from `s`, step by step. */
  ghost predicate Leads(s: Launch, next: seq<Launch>) {
    && (|next| > 0 ==> Next(s, next[0]))
    && (forall i :: 0 <= i < |next| - 1 ==> Next(next[i], next[i + 1]))
  }

  lemma Extended(run: seq<Launch>, next: seq<Launch>)
    requires IsRun(run) && Leads(run[|run| - 1], next)
    ensures IsRun(run + next)
  {
    hide Next;
    var longer := run + next;
    forall i | 0 <= i < |longer| - 1 ensures Next(longer[i], longer[i + 1]) {
      if i < |run| - 1 {
        assert Next(run[i], run[i + 1]);
      } else if i > |run| - 1 {
        var k := i - |run|;
        assert Next(next[k], next[k + 1]);
      }
    }
  }

  /** Every commit of an id with an unresolved cancel goes wrong: it clears the mark, and three further steps
      send a second request for the same run. */
  lemma RepeatedIdIsCancelledTwice(run: seq<Launch>, id: RunId) returns (longer: seq<Launch>)
    requires IsRun(run) && |run| > 1
    requires Commits(run[|run| - 2], run[|run| - 1], id) && Cancels(run[|run| - 2], id) > 0
    ensures IsRun(longer) && |longer| == |run| + 3 && longer[..|run|] == run
    ensures Cancels(longer[|longer| - 1], id) > 1
  {
    hide Inv, EnterAction, InterruptStep, Commits;
    var before, s := run[|run| - 2], run[|run| - 1];
    RunKeeps(run, |run| - 2);
    RunKeeps(run, |run| - 1);
    assert |run| - 1 == |run| - 2 + 1;
    CommitClearsTheMark(before, s, id);
    RecordsAreValid(s);
    CancelAgainSteps(s);
    Extended(run, CancelAgain(s));
    longer := run + CancelAgain(s);
  }

  lemma RecordsAreValid(s: Launch)
    requires Inv(s) && s.prov.Some?
    ensures P.ValidRecord(s.prov.value)
  {
  }

  /** A launch that has just been created and is owned. */
  function Launched(binding: P.Binding): (run: seq<Launch>)
    ensures |run| == 9
  {
    var initial := Initial(binding);
    var fenced := initial.(ledger := Creating, job := Fenced);
    var called := fenced.(launches := 1, job := Calling, op := LaunchReserve);
    var reserved := called.(prov := Some(P.NewIntent(binding)), op := LaunchCreate);
    var asked := reserved.(createOutstanding := true, op := LaunchAwait);
    var created := asked.(agent := Alive, createOutstanding := false);
    var answered := created.(op := MarkOwned);
    var owned := answered.(prov := P.MarkOwned(P.NewIntent(binding)), op := NoOp, job := Settling(FoundOwned));
    var settled := owned.(ledger := Owned, job := NoJob);
    [initial, fenced, called, reserved, asked, created, answered, owned, settled]
  }

  lemma LaunchedIsARun(binding: P.Binding)
    ensures IsRun(Launched(binding))
  {
    var run := Launched(binding);
    assert run[0] == Initial(binding);
    assert StartJob(run[0], run[1]);
    assert StartJob(run[1], run[2]);
    assert OpStep(run[2], run[3]) && OpStep(run[3], run[4]) && OpStep(run[5], run[6]);
    assert Environment(run[4], run[5]);
    assert OpSettles(run[6].(prov := run[7].prov), true, run[7]);
    assert OpStep(run[6], run[7]) && SettleJob(run[7], run[8]);
  }

  /** A prompt from the free agent to the committed run `id`. */
  function Prompted(s: Launch, id: RunId): (next: seq<Launch>)
    requires ProvIs(s, P.Owned) && P.ValidRecord(s.prov.value)
    ensures |next| == 5
  {
    var entered := s.(action := Prompt(PromptBegin));
    var begun := entered.(prov := P.BeginRun(s.prov.value), action := Prompt(PromptInvoke));
    var sent := begun.(openSends := begun.openSends + 1, action := Prompt(PromptAwait));
    var answered := sent.(action := Prompt(PromptCommit(id)));
    var committed := answered.(prov := P.CommitRun(begun.prov.value, id), openSends := sent.openSends - 1,
                               committedRuns := sent.committedRuns + {id}, action := Free);
    [entered, begun, sent, answered, committed]
  }

  lemma PromptedLeads(s: Launch, id: RunId)
    requires s.up && s.action.Free? && ProvIs(s, P.Owned) && P.ValidRecord(s.prov.value) && !s.prov.value.runPending
    ensures Leads(s, Prompted(s, id)) && Commits(Prompted(s, id)[3], Prompted(s, id)[4], id)
    ensures var t := Prompted(s, id)[4];
            && t.up && t.action.Free? && ProvIs(t, P.Owned) && P.ValidRecord(t.prov.value) && !t.prov.value.runPending
            && t.prov.value.runId == Some(id) && t.prov.value.cancelAttempted.None?
            && Prompted(s, id)[3].openCancels == s.openCancels && t.openCancels == s.openCancels
  {
    var next := Prompted(s, id);
    assert EnterAction(s, next[0]);
    assert PromptStep(next[0], next[1]) && PromptStep(next[1], next[2]);
    assert PromptStep(next[2], next[3]) && PromptStep(next[3], next[4]);
  }

  lemma CancelMayStayOpen(s: Launch)
    requires s.up && s.action.Interrupt? && s.action.interrupt.CancelAwait?
    ensures Next(s, s.(action := Free))
  {
    assert InterruptStep(s, s.(action := Free));
  }

  /** Nothing in the protocol excludes it: a provider that gives two prompts the same run id is enough. */
  lemma ProviderMayRepeatAnId(binding: P.Binding, id: RunId) returns (run: seq<Launch>)
    ensures IsRun(run) && run[0] == Initial(binding) && Cancels(run[|run| - 1], id) > 1
  {
    hide Inv, Next, Commits;
    run := Launched(binding);
    LaunchedIsARun(binding);
    var owned := run[8];
    PromptedLeads(owned, id);
    Extended(run, Prompted(owned, id));
    run := run + Prompted(owned, id);
    var prompted := run[|run| - 1];
    CancelAgainSteps(prompted);
    Extended(run, CancelAgain(prompted));
    run := run + CancelAgain(prompted);
    var cancelled := run[|run| - 1];
    var ambiguous := cancelled.(action := Free);
    CancelMayStayOpen(cancelled);
    Extended(run, [ambiguous]);
    run := run + [ambiguous];
    PromptedLeads(ambiguous, id);
    Extended(run, Prompted(ambiguous, id));
    run := run + Prompted(ambiguous, id);
    run := RepeatedIdIsCancelledTwice(run, id);
  }
}
