/** The bridge client's prompts and cancels. The launch protocol lifts the durable fence of a prompt or a
    cancel when the bridge says that nothing was sent; here that answer is traced to the calls made. Every
    method is what happens between two waits of the source, so any interleaving of prompts, cancels, late
    answers and deletions is a sequence of calls. */
module BridgeSends {
  import opened Common
  import LaunchContracts

  type Ticket = nat
  type AgentId = string
  type RunId = string

  datatype Stage = Resuming | Opening | Streaming | Over

  datatype Reply = Accepted(run: RunId) | NotSent | Rejected | Ambiguous

  /** One call of `sendLocal`. `called` says that the send method of the bridge has been invoked, `released`
      that the client has been told to forget the prompt (the agent finished, was deleted, or the client was
      closed); `cancelRequested` belongs to the run that came of it. */
  datatype Send = Send(
    agent: AgentId, stage: Stage, called: bool, reply: Option<Reply>, terminal: bool, ended: bool, released: bool,
    cancelRequested: bool)

  datatype CancelReply = Cancelling | CancelNotSent | CancelRejected | CancelAmbiguous

  datatype CancelStage = Inspecting | Cancel | Answered

  /** One call of `cancelLocal`; `through` is the prompt whose run was active. */
  datatype CancelCall = CancelCall(
    agent: AgentId, run: RunId, through: Option<Ticket>, stage: CancelStage, called: bool, reply: Option<CancelReply>)

  /** What arrives on the stream of a prompt. */
  datatype Frame = End(failed: bool) | Data(identity: Option<(AgentId, RunId)>, result: bool)

  predicate SafeRunId(s: string) {
    1 <= |s| <= 200 && forall i | 0 <= i < |s| :: LaunchContracts.Alphanumeric(s[i]) || s[i] in "._:-"
  }

  type Sends = map<Ticket, Send>
  type Cancels = map<Ticket, CancelCall>

  // ----- what holds of each call

  /** The answer of a prompt tells how far it got. */
  predicate SendFits(s: Send) {
    && (s.stage.Resuming? ==> !s.called)
    && (s.stage.Opening? || s.stage.Streaming? ==> s.called)
    && (s.stage.Over? ==> s.reply.Some?)
    && (s.reply.Some? ==>
          match s.reply.value
          case Accepted(_) => s.called && !s.stage.Opening?
          case NotSent => !s.called && s.stage.Over?
          case _ => s.called && s.stage.Over?)
  }

  /** A prompt that is under way, or that may have been received without an answer. */
  predicate Unresolved(s: Send) {
    !s.released && (!s.stage.Over? || s.reply == Some(Ambiguous))
  }

  ghost predicate SendsFit(sends: Sends, next: Ticket) {
    forall t :: t in sends ==> t < next && SendFits(sends[t])
  }

  /** The pending prompt of an agent is its one unresolved prompt. */
  ghost predicate PendingFits(sends: Sends, pending: map<AgentId, Ticket>) {
    && (forall a :: a in pending ==>
        pending[a] in sends && sends[pending[a]].agent == a && Unresolved(sends[pending[a]]))
    && (forall t :: t in sends && Unresolved(sends[t]) ==> sends[t].agent in pending && pending[sends[t].agent] == t)
  }

  /** The active run of an agent came of an accepted prompt. */
  ghost predicate ActiveFits(sends: Sends, active: map<AgentId, Ticket>) {
    forall a :: a in active ==> active[a] in sends && sends[active[a]].agent == a && RunOf(sends[active[a]]).Some?
  }

  function RunOf(s: Send): Option<RunId> {
    if s.reply.Some? && s.reply.value.Accepted? then Some(s.reply.value.run) else None
  }

  predicate CancelFits(c: CancelCall) {
    && (c.stage.Inspecting? ==> !c.called && c.through.None?)
    && (c.stage.Cancel? ==> c.called)
    && (c.stage.Answered? <==> c.reply.Some?)
    && (c.reply.Some? ==> (c.reply.value.CancelNotSent? <==> !c.called))
  }

  /** A cancel request that was not proved unsent or rejected. */
  predicate Open(c: CancelCall) {
    c.called && (c.reply.None? || c.reply.value.Cancelling? || c.reply.value.CancelAmbiguous?)
  }

  predicate BothOpen(c: CancelCall, d: CancelCall) {
    c.through.Some? && c.through == d.through && Open(c) && Open(d)
  }

  /** A run is marked while a cancel request for it is open, and never more than one is. */
  ghost predicate CancelsFit(sends: Sends, cancels: Cancels, next: Ticket) {
    && (forall c :: c in cancels ==>
          c < next && CancelFits(cancels[c]) && (cancels[c].through.Some? ==> cancels[c].through.value in sends))
    && (forall c, d :: c in cancels && d in cancels && BothOpen(cancels[c], cancels[d]) ==> c == d)
    && (forall c :: c in cancels && cancels[c].through.Some? && Open(cancels[c]) ==>
        sends[cancels[c].through.value].cancelRequested)
  }

  // ----- what every step keeps of the calls there are

  /** Answers are final, calls are not undone, and a prompt that is over calls nothing any more. */
  ghost predicate Onward(before: Sends, after: Sends) {
    forall t :: t in before ==>
      && t in after && after[t].agent == before[t].agent && (before[t].called ==> after[t].called)
      && (before[t].reply.Some? ==> after[t].reply == before[t].reply)
      && (before[t].stage.Over? ==> after[t].stage.Over? && after[t].called == before[t].called)
      && (before[t].released ==> after[t].released)
  }

  ghost predicate CancelsOnward(before: Cancels, after: Cancels) {
    forall c :: c in before ==>
      && c in after && after[c].run == before[c].run && after[c].through == before[c].through
      && (before[c].called ==> after[c].called)
      && (before[c].reply.Some? ==> after[c] == before[c])
  }

  lemma {:induction false} OnwardChain(history: seq<Sends>, i: nat, j: nat)
    requires i <= j < |history| && forall k :: 0 <= k < |history| - 1 ==> Onward(history[k], history[k + 1])
    ensures Onward(history[i], history[j])
    decreases j
  {
    if i < j {
      OnwardChain(history, i, j - 1);
      assert j == j - 1 + 1;
    }
  }

  lemma {:induction false} CancelsOnwardChain(history: seq<Cancels>, i: nat, j: nat)
    requires i <= j < |history| && forall k :: 0 <= k < |history| - 1 ==> CancelsOnward(history[k], history[k + 1])
    ensures CancelsOnward(history[i], history[j])
    decreases j
  {
    if i < j {
      CancelsOnwardChain(history, i, j - 1);
      assert j == j - 1 + 1;
    }
  }

  lemma AnswerStands(before: Sends, after: Sends, t: Ticket)
    requires Onward(before, after) && t in before
    ensures t in after && (before[t].reply.Some? ==> after[t].reply == before[t].reply)
    ensures before[t].called ==> after[t].called
    ensures before[t].stage.Over? ==> after[t].called == before[t].called
  {
  }

  // ----- one prompt changes, the others stay

  function With(sends: Sends, t: Ticket, s: Send): Sends {
    sends[t := s]
  }

  /** How a prompt may change in one step. */
  predicate Moves(s: Send, u: Send) {
    && u.agent == s.agent && (s.called ==> u.called) && (s.reply.Some? ==> u.reply == s.reply)
    && (s.stage.Over? ==> u.stage.Over? && u.called == s.called) && (s.released ==> u.released)
  }

  lemma OneMoves(sends: Sends, t: Ticket, u: Send)
    requires t in sends && Moves(sends[t], u)
    ensures Onward(sends, With(sends, t, u))
  {
  }

  /** A prompt that stays unresolved stays pending; one that is resolved is pending no longer. */
  lemma PendingMoves(sends: Sends, pending: map<AgentId, Ticket>, t: Ticket, u: Send)
    requires PendingFits(sends, pending) && t in sends && u.agent == sends[t].agent
    requires (Unresolved(u) ==> Unresolved(sends[t]))
    ensures PendingFits(With(sends, t, u),
                        if Unresolved(sends[t]) && !Unresolved(u) then pending - {u.agent} else pending)
  {
    hide Unresolved;
  }

  lemma ActiveMoves(sends: Sends, active: map<AgentId, Ticket>, t: Ticket, u: Send)
    requires ActiveFits(sends, active) && t in sends && u.agent == sends[t].agent
    requires RunOf(sends[t]).Some? ==> RunOf(u).Some?
    ensures ActiveFits(With(sends, t, u), active)
    ensures RunOf(u).Some? ==> ActiveFits(With(sends, t, u), active[u.agent := t])
  {
    hide RunOf;
  }

  lemma ActiveForgets(sends: Sends, active: map<AgentId, Ticket>, agents: set<AgentId>)
    requires ActiveFits(sends, active)
    ensures ActiveFits(sends, active - agents)
  {
  }

  lemma CancelsStay(sends: Sends, cancels: Cancels, next: Ticket, t: Ticket, u: Send)
    requires CancelsFit(sends, cancels, next) && t in sends && (sends[t].cancelRequested ==> u.cancelRequested)
    ensures CancelsFit(With(sends, t, u), cancels, next)
  {
    hide CancelFits, Open;
  }

  /** The prompt is over; unless it was answered before, this is its answer. */
  function Failed(s: Send, definitive: bool): Send {
    if s.reply.Some? then s.(stage := Over)
    else s.(stage := Over, reply := Some(if !s.called then NotSent else if definitive then Rejected else Ambiguous))
  }

  /** What a frame answers a prompt that has not been answered: nothing yet, the run it has become, or that
      nobody can tell. */
  function AnswerTo(s: Send, f: Frame): Option<Reply> {
    match f
    case End(failed) => if s.ended || failed then Some(Ambiguous) else None
    case Data(None, _) => if s.ended then Some(Ambiguous) else None
    case Data(Some((agent, run)), _) =>
      if !s.ended && agent == s.agent && SafeRunId(run) then Some(Accepted(run)) else Some(Ambiguous)
  }

  lemma FailedFits(s: Send, definitive: bool)
    requires SendFits(s) && !s.stage.Over?
    ensures var u := Failed(s, definitive);
            && SendFits(u) && Moves(s, u) && (Unresolved(u) ==> Unresolved(s)) && u.cancelRequested == s.cancelRequested
            && u.stage.Over?
            && (s.reply.None? ==>
                u.reply == Some(if !s.called then NotSent else if definitive then Rejected else Ambiguous))
  {
  }

  // ----- the client, at one moment and over its history

  datatype Client = Client(
    sends: Sends, cancels: Cancels, pending: map<AgentId, Ticket>, active: map<AgentId, Ticket>, next: Ticket)

  const NewClient := Client(map[], map[], map[], map[], 0)

  ghost predicate ClientFits(c: Client) {
    && SendsFit(c.sends, c.next) && PendingFits(c.sends, c.pending) && ActiveFits(c.sends, c.active)
    && CancelsFit(c.sends, c.cancels, c.next)
  }

  ghost predicate Advances(before: Client, after: Client) {
    Onward(before.sends, after.sends) && CancelsOnward(before.cancels, after.cancels)
  }

  /** The client at successive moments, from its start: every method of `Bridge` leads from one to the next. */
  ghost predicate History(history: seq<Client>) {
    && history != [] && history[0] == NewClient
    && (forall k :: 0 <= k < |history| ==> ClientFits(history[k]))
    && forall k :: 0 <= k < |history| - 1 ==> Advances(history[k], history[k + 1])
  }

  class Bridge {
    var sends: Sends
    var cancels: Cancels
    var pending: map<AgentId, Ticket>
    var active: map<AgentId, Ticket>
    var next: Ticket

    ghost function State(): Client
      reads this
    {
      Client(sends, cancels, pending, active, next)
    }

    ghost predicate Valid()
      reads this
    {
      ClientFits(State())
    }

    constructor ()
      ensures Valid() && State() == NewClient
    {
      sends, cancels, pending, active, next := map[], map[], map[], map[], 0;
    }

    /** `u` is the next state of a prompt under way; the run it brings becomes active. */
    method Move(t: Ticket, u: Send, activate: bool)
      requires Valid() && t in sends && Moves(sends[t], u) && SendFits(u) && (Unresolved(u) ==> Unresolved(sends[t]))
      requires (sends[t].cancelRequested ==> u.cancelRequested) && (activate ==> RunOf(u).Some?)
      modifies this`sends, this`pending, this`active
      ensures Valid() && sends == old(sends)[t := u] && Advances(old(State()), State())
      ensures pending == if Unresolved(old(sends)[t]) && !Unresolved(u) then old(pending) - {u.agent} else old(pending)
      ensures active == if activate then old(active)[u.agent := t] else old(active)
    {
      hide Unresolved, PendingFits, ActiveFits, CancelsFit, Onward, SendFits;
      OneMoves(sends, t, u);
      PendingMoves(sends, pending, t, u);
      ActiveMoves(sends, active, t, u);
      CancelsStay(sends, cancels, next, t, u);
      if Unresolved(sends[t]) && !Unresolved(u) { pending := pending - {u.agent}; }
      if activate { active := active[u.agent := t]; }
      sends := With(sends, t, u);
    }

    method ForgetRun(t: Ticket)
      requires Valid() && t in sends
      modifies this`active
      ensures Valid()
      ensures var a := sends[t].agent;
              active == if a in old(active) && old(active)[a] == t then old(active) - {a} else old(active)
    {
      hide SendsFit, PendingFits, ActiveFits, CancelsFit;
      var a := sends[t].agent;
      if a in active && active[a] == t {
        ActiveForgets(sends, active, {a});
        active := active - {a};
      }
    }

    // ----- prompts

    /** A prompt is refused exactly while the agent has an active run or an unresolved prompt. */
    method SendLocal(agent: AgentId) returns (ticket: Option<Ticket>)
      requires Valid()
      modifies this`sends, this`pending, this`next
      ensures Valid() && Advances(old(State()), State())
      ensures ticket.None?
              <==> agent in old(active)
                   || exists t :: t in old(sends) && old(sends)[t].agent == agent && Unresolved(old(sends)[t])
      ensures ticket.None? ==> sends == old(sends) && pending == old(pending)
      ensures ticket.Some? ==>
                && ticket.value !in old(sends) && pending == old(pending)[agent := ticket.value]
                && sends == old(sends)[ticket.value := Send(agent, Resuming, false, None, false, false, false, false)]
    {
      if agent in active || agent in pending { return None; }
      ticket := Some(next);
      sends := sends[next := Send(agent, Resuming, false, None, false, false, false, false)];
      pending, next := pending[agent := next], next + 1;
    }

    /** The agent has been resumed: the send method is called. */
    method Resumed(t: Ticket)
      requires Valid() && t in sends && sends[t].stage.Resuming?
      modifies this`sends, this`pending, this`active
      ensures Valid() && Advances(old(State()), State())
      ensures sends == old(sends)[t := old(sends)[t].(stage := Opening, called := true)]
    {
      SendThere(sends, next, t);
      Move(t, sends[t].(stage := Opening, called := true), false);
    }

    method Opened(t: Ticket)
      requires Valid() && t in sends && sends[t].stage.Opening?
      modifies this`sends, this`pending, this`active
      ensures Valid() && Advances(old(State()), State()) && sends == old(sends)[t := old(sends)[t].(stage := Streaming)]
    {
      SendThere(sends, next, t);
      Move(t, sends[t].(stage := Streaming), false);
    }

    /** Something throws: the deadline or the caller aborts, the resume fails, the send is refused, the stream
        breaks. `definitive` errors prove that the bridge did not take the prompt; `broken` ones end an accepted
        run. Unless the prompt was answered before, it is answered now. */
    method Fails(t: Ticket, definitive: bool, broken: bool)
      requires Valid() && t in sends && !sends[t].stage.Over?
      modifies this`sends, this`pending, this`active
      ensures Valid() && Advances(old(State()), State()) && sends.Keys == old(sends).Keys && sends[t].stage.Over?
      ensures old(sends)[t].reply.None? ==>
                sends[t].reply
                  == Some(if !old(sends)[t].called then NotSent else if definitive then Rejected else Ambiguous)
    {
      SendThere(sends, next, t);
      var s := sends[t];
      FailedFits(s, definitive);
      hide SendsFit, PendingFits, ActiveFits, CancelsFit, Onward, SendFits, Moves, Unresolved, Failed;
      if s.reply.Some? && broken { ForgetRun(t); }
      Move(t, Failed(s, definitive), false);
    }

    /** The first frame that names the agent and a run answers the prompt; a later one must name the same run. */
    method Arrives(t: Ticket, f: Frame)
      requires Valid() && t in sends && sends[t].stage.Streaming?
      modifies this`sends, this`pending, this`active
      ensures Valid() && Advances(old(State()), State()) && sends.Keys == old(sends).Keys
      ensures old(sends)[t].reply.None? ==> sends[t].reply == AnswerTo(old(sends)[t], f)
      ensures RunOf(sends[t]).Some? && old(sends)[t].reply.None? ==> active == old(active)[sends[t].agent := t]
    {
      SendThere(sends, next, t);
      var s := sends[t];
      if s.ended {
        Fails(t, false, true);
      } else if f.End? {
        EndArrives(t, f.failed);
      } else if f.identity.None? {
        Continues(t, s.reply, f.result);
      } else {
        var (agent, run) := f.identity.value;
        if agent != s.agent || !SafeRunId(run) || (RunOf(s).Some? && RunOf(s) != Some(run)) {
          Fails(t, false, true);
        } else {
          Continues(t, Some(Accepted(run)), f.result);
        }
      }
    }

    method EndArrives(t: Ticket, failed: bool)
      requires Valid() && t in sends && sends[t].stage.Streaming?
      modifies this`sends, this`pending, this`active
      ensures Valid() && Advances(old(State()), State()) && sends.Keys == old(sends).Keys
      ensures sends[t].reply == if failed && old(sends)[t].reply.None? then Some(Ambiguous) else old(sends)[t].reply
    {
      SendThere(sends, next, t);
      hide SendsFit, PendingFits, ActiveFits, CancelsFit, Onward;
      ghost var before := sends;
      Move(t, sends[t].(ended := true), false);
      if failed {
        ghost var between := sends;
        Fails(t, false, false);
        OnwardTwice(before, between, sends);
        AnswerStands(between, sends, t);
      }
    }

    /** The prompt goes on, or is answered by the run it became, which is active from now on. */
    method Continues(t: Ticket, reply: Option<Reply>, result: bool)
      requires Valid() && t in sends && sends[t].stage.Streaming?
      requires sends[t].reply.Some? ==> reply == sends[t].reply
      requires reply.Some? ==> reply.value.Accepted?
      modifies this`sends, this`pending, this`active
      ensures Valid() && Advances(old(State()), State()) && sends.Keys == old(sends).Keys && sends[t].reply == reply
      ensures sends[t].agent == old(sends)[t].agent
      ensures active
              == if old(sends)[t].reply.None? && reply.Some? then old(active)[sends[t].agent := t] else old(active)
    {
      SendThere(sends, next, t);
      hide SendsFit, PendingFits, ActiveFits, CancelsFit, Onward;
      var s := sends[t];
      Move(t, s.(reply := reply, terminal := s.terminal || result), s.reply.None? && reply.Some?);
    }

    method StreamEnds(t: Ticket)
      requires Valid() && t in sends && sends[t].stage.Streaming?
      modifies this`sends, this`pending, this`active
      ensures Valid() && Advances(old(State()), State()) && sends.Keys == old(sends).Keys && sends[t].stage.Over?
      ensures old(sends)[t].reply.None? ==> sends[t].reply == Some(Ambiguous)
    {
      SendThere(sends, next, t);
      var s := sends[t];
      if s.reply.None? || !s.ended {
        Fails(t, false, false);
      } else {
        if s.terminal { ForgetRun(t); }
        Move(t, s.(stage := Over), false);
      }
    }

    // ----- what releases an agent

    /** `getLocal` has read the agent's status. */
    method StatusRead(agent: AgentId, working: bool, finished: bool)
      requires Valid() && !(working && finished)
      modifies this`sends, this`pending, this`active
      ensures Valid() && Advances(old(State()), State())
      // only an agent that has finished releases a prompt, and only an answered one
      ensures forall t :: t in old(sends) && Unresolved(old(sends)[t]) && !Unresolved(sends[t]) ==>
                finished && old(sends)[t].agent == agent && old(sends)[t].reply.Some?
    {
      OnwardItself(sends);
      if !working && agent in active { ForgetRun(active[agent]); }
      if agent in pending && finished {
        var t := pending[agent];
        SendThere(sends, next, t);
        var s := sends[t];
        if s.reply.Some? {
          Move(t, s.(released := true), false);
        }
      }
    }

    method Deleted(agent: AgentId)
      requires Valid()
      modifies this`sends, this`pending, this`active
      ensures Valid() && Advances(old(State()), State())
      ensures agent !in active && agent !in pending
    {
      OnwardItself(sends);
      if agent in active { ForgetRun(active[agent]); }
      if agent in pending {
        var t := pending[agent];
        SendThere(sends, next, t);
        Move(t, sends[t].(released := true), false);
      }
    }

    // ----- cancels

    /** A cancel is refused when there is no run to cancel, another run is active, or one was requested already.
        An active run is marked and the cancel method called at once; any other run is looked up first. */
    method CancelLocal(agent: AgentId, named: Option<RunId>) returns (call: Option<Ticket>)
      requires Valid()
      modifies this`sends, this`cancels, this`next
      ensures Valid() && Advances(old(State()), State())
      ensures agent in active ==>
                var s := old(sends)[active[agent]];
                call.None? <==> s.cancelRequested || (named.Some? && named != RunOf(s))
                                || !SafeRunId(if named.Some? then named.value else RunOf(s).value)
      ensures call.Some? && agent in active ==>
                && call.value in cancels && cancels[call.value].called
                && cancels[call.value].through == Some(active[agent])
                && sends[active[agent]].cancelRequested
    {
      OnwardItself(sends);
      var through := if agent in active then Some(active[agent]) else None;
      var run := if named.Some? then named else if through.Some? then RunOf(sends[through.value]) else None;
      if run.None? || !SafeRunId(run.value) { return None; }
      call := Some(next);
      if through.Some? {
        var t := through.value;
        if RunOf(sends[t]) != run || sends[t].cancelRequested { return None; }
        Requested(sends, cancels, pending, active, next, t, run.value);
        sends := With(sends, t, sends[t].(cancelRequested := true));
        cancels := cancels[next := CancelCall(agent, run.value, through, Cancel, true, None)];
      } else {
        cancels := cancels[next := CancelCall(agent, run.value, None, Inspecting, false, None)];
      }
      next := next + 1;
    }

    /** The run has been looked up; only a run at work is cancelled. */
    method Inspected(c: Ticket, working: bool)
      requires Valid() && c in cancels && cancels[c].stage.Inspecting?
      modifies this`cancels
      ensures Valid() && Advances(old(State()), State())
      ensures cancels == old(cancels)[c := if working then old(cancels)[c].(stage := Cancel, called := true)
                                           else old(cancels)[c].(stage := Answered, reply := Some(CancelNotSent))]
    {
      hide SendsFit, PendingFits, ActiveFits, CancelsFit, CancelsOnward, Onward;
      OnwardItself(sends);
      LookedUp(sends, cancels, next, c, working);
      cancels := cancels[c := if working then cancels[c].(stage := Cancel, called := true)
                              else cancels[c].(stage := Answered, reply := Some(CancelNotSent))];
    }

    /** The cancel method has answered: the mark is taken back only when the bridge proves that it did nothing. */
    method CancelAnswered(c: Ticket, reply: CancelReply)
      requires Valid() && c in cancels && cancels[c].stage.Cancel? && !reply.CancelNotSent?
      modifies this`sends, this`cancels
      ensures Valid() && Advances(old(State()), State())
      ensures cancels == old(cancels)[c := old(cancels)[c].(stage := Answered, reply := Some(reply))]
      ensures forall t :: t in old(sends) && sends[t] != old(sends)[t] ==>
                reply.CancelRejected? && old(cancels)[c].through == Some(t)
                && sends[t] == old(sends)[t].(cancelRequested := false)
    {
      OnwardItself(sends);
      var call := cancels[c];
      Answers(sends, cancels, pending, active, next, c, reply);
      cancels := cancels[c := call.(stage := Answered, reply := Some(reply))];
      if reply.CancelRejected? && call.through.Some? {
        var t := call.through.value;
        sends := With(sends, t, sends[t].(cancelRequested := false));
      }
    }
  }

  lemma SendThere(sends: Sends, next: Ticket, t: Ticket)
    requires SendsFit(sends, next) && t in sends
    ensures SendFits(sends[t])
  {
  }

  lemma OnwardTwice(a: Sends, b: Sends, c: Sends)
    requires Onward(a, b) && Onward(b, c)
    ensures Onward(a, c)
  {
  }

  lemma OnwardItself(sends: Sends)
    ensures Onward(sends, sends)
  {
  }

  /** A call that was inspecting calls the cancel method, or is answered as not sent. */
  lemma LookedUp(sends: Sends, cancels: Cancels, next: Ticket, c: Ticket, working: bool)
    requires CancelsFit(sends, cancels, next) && c in cancels && cancels[c].stage.Inspecting?
    ensures var later := cancels[c := if working then cancels[c].(stage := Cancel, called := true)
                                      else cancels[c].(stage := Answered, reply := Some(CancelNotSent))];
            CancelsFit(sends, later, next) && CancelsOnward(cancels, later)
  {
  }

  /** Marking a run changes nothing else about its prompt. */
  lemma Marked(
      sends: Sends, pending: map<AgentId, Ticket>, active: map<AgentId, Ticket>, next: Ticket, t: Ticket, mark: bool)
    requires SendsFit(sends, next) && PendingFits(sends, pending) && ActiveFits(sends, active) && t in sends
    ensures var later := With(sends, t, sends[t].(cancelRequested := mark));
            SendsFit(later, next + 1) && SendsFit(later, next) && PendingFits(later, pending)
            && ActiveFits(later, active)
            && Onward(sends, later)
  {
    var u := sends[t].(cancelRequested := mark);
    assert Unresolved(u) == Unresolved(sends[t]) && RunOf(u) == RunOf(sends[t]) && SendFits(u) == SendFits(sends[t]);
    PendingMoves(sends, pending, t, u);
    ActiveMoves(sends, active, t, u);
    OneMoves(sends, t, u);
  }

  lemma Requested(
      sends: Sends, cancels: Cancels, pending: map<AgentId, Ticket>, active: map<AgentId, Ticket>, next: Ticket,
      t: Ticket, run: RunId)
    requires SendsFit(sends, next) && PendingFits(sends, pending) && ActiveFits(sends, active)
    requires CancelsFit(sends, cancels, next)
    requires t in sends && !sends[t].cancelRequested
    ensures var later := With(sends, t, sends[t].(cancelRequested := true));
            && SendsFit(later, next + 1) && PendingFits(later, pending) && ActiveFits(later, active)
            && Onward(sends, later)
            && CancelsFit(later, cancels[next := CancelCall(sends[t].agent, run, Some(t), Cancel, true, None)],
                          next + 1)
  {
    Marked(sends, pending, active, next, t, true);
  }

  lemma Answers(
      sends: Sends, cancels: Cancels, pending: map<AgentId, Ticket>, active: map<AgentId, Ticket>, next: Ticket,
      c: Ticket,
      reply: CancelReply)
    requires SendsFit(sends, next) && PendingFits(sends, pending) && ActiveFits(sends, active)
    requires CancelsFit(sends, cancels, next)
    requires c in cancels && cancels[c].stage.Cancel? && !reply.CancelNotSent?
    ensures var later := cancels[c := cancels[c].(stage := Answered, reply := Some(reply))];
            if reply.CancelRejected? && cancels[c].through.Some? then
              var t := cancels[c].through.value;
              && t in sends
              && var marked := With(sends, t, sends[t].(cancelRequested := false));
              && SendsFit(marked, next) && PendingFits(marked, pending) && ActiveFits(marked, active)
              && Onward(sends, marked)
              && CancelsFit(marked, later, next)
            else
              CancelsFit(sends, later, next)
  {
    if reply.CancelRejected? && cancels[c].through.Some? {
      Marked(sends, pending, active, next, cancels[c].through.value, false);
    }
  }

  // ----- what holds at any moment, and over any history

  /** An agent has at most one prompt that is under way or may have been received unanswered. */
  lemma OnePromptAtATime(b: Bridge, t: Ticket, u: Ticket)
    requires b.Valid() && t in b.sends && u in b.sends && b.sends[t].agent == b.sends[u].agent
    requires Unresolved(b.sends[t]) && Unresolved(b.sends[u])
    ensures t == u
  {
    assert b.pending[b.sends[t].agent] == t && b.pending[b.sends[u].agent] == u;
  }

  /** The run of a prompt has at most one cancel request that was not proved unsent or rejected, and is marked while it
      has one. */
  lemma OneCancelAtATime(b: Bridge, c: Ticket, d: Ticket)
    requires b.Valid() && c in b.cancels && d in b.cancels
    requires b.cancels[c].through.Some? && b.cancels[c].through == b.cancels[d].through
    requires Open(b.cancels[c]) && Open(b.cancels[d])
    ensures c == d && b.cancels[c].through.value in b.sends
    ensures b.sends[b.cancels[c].through.value].cancelRequested
  {
    OneOpen(b.State(), c, d);
  }

  lemma OneOpen(client: Client, c: Ticket, d: Ticket)
    requires ClientFits(client) && c in client.cancels && d in client.cancels
    requires BothOpen(client.cancels[c], client.cancels[d])
    ensures c == d && client.cancels[c].through.value in client.sends
    ensures client.sends[client.cancels[c].through.value].cancelRequested
  {
    hide SendsFit, PendingFits, ActiveFits, Open;
  }

  lemma HistoryOnward(history: seq<Client>, i: nat, j: nat)
    requires History(history) && i <= j < |history|
    ensures Onward(history[i].sends, history[j].sends) && CancelsOnward(history[i].cancels, history[j].cancels)
  {
    hide Onward, CancelsOnward, ClientFits;
    var sends := seq(|history|, k requires 0 <= k < |history| => history[k].sends);
    var cancels := seq(|history|, k requires 0 <= k < |history| => history[k].cancels);
    forall k | 0 <= k < |history| - 1
      ensures Onward(sends[k], sends[k + 1]) && CancelsOnward(cancels[k], cancels[k + 1])
    {
      assert Advances(history[k], history[k + 1]);
    }
    OnwardChain(sends, i, j);
    CancelsOnwardChain(cancels, i, j);
  }

  /** Over any history of the client: a prompt is answered once, and one that was answered as not sent had
      not been sent before and is not sent after. */
  lemma NotSentIsTrue(history: seq<Client>, t: Ticket, i: nat, j: nat)
    requires History(history) && i < |history| && j < |history| && t in history[i].sends && t in history[j].sends
    ensures history[i].sends[t].reply.Some? && history[j].sends[t].reply.Some? ==>
              history[i].sends[t].reply == history[j].sends[t].reply
    ensures history[i].sends[t].reply == Some(NotSent) ==> !history[j].sends[t].called
  {
    hide Onward, CancelsOnward, PendingFits, ActiveFits, CancelsFit, Advances;
    if i <= j {
      HistoryOnward(history, i, j);
      AnswerStands(history[i].sends, history[j].sends, t);
    } else {
      HistoryOnward(history, j, i);
      AnswerStands(history[j].sends, history[i].sends, t);
    }
    assert ClientFits(history[i]) && SendFits(history[i].sends[t]);
  }

  /** Over any history of the client: a cancel is answered once, and one that was answered as not sent is at no time
      called. */
  lemma CancelAnswersAreTrue(history: seq<Client>, c: Ticket, i: nat, j: nat)
    requires History(history) && i < |history| && j < |history| && c in history[i].cancels && c in history[j].cancels
    ensures history[i].cancels[c].reply.Some? && history[j].cancels[c].reply.Some? ==>
              history[i].cancels[c].reply == history[j].cancels[c].reply
    ensures history[i].cancels[c].reply == Some(CancelNotSent) ==> !history[j].cancels[c].called
  {
    hide Onward, CancelsOnward, PendingFits, ActiveFits, SendsFit, Advances;
    if i <= j {
      HistoryOnward(history, i, j);
      CancelStands(history[i].cancels, history[j].cancels, c);
    } else {
      HistoryOnward(history, j, i);
      CancelStands(history[j].cancels, history[i].cancels, c);
    }
    assert ClientFits(history[i]) && CancelFits(history[i].cancels[c]);
  }

  lemma CancelStands(before: Cancels, after: Cancels, c: Ticket)
    requires CancelsOnward(before, after) && c in before
    ensures c in after && (before[c].reply.Some? ==> after[c] == before[c]) && (before[c].called ==> after[c].called)
  {
  }
}
