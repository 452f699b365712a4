/** Every queued prompt is accounted for: dispatched in order, cancelled with notice, or reported. */
module PromptLedger {
  import opened Protocol
  import opened BrokerSteps
  import opened BrokerRuns

  // ---------------------------------------------------------------------------
  // What a trace says

  /** The prompts an agent's queue accepted, in order. */
  function AcceptedBy(trace: seq<Action>, agent: AgentId): seq<Prompt> {
    if trace == [] then []
    else
      var last := trace[|trace| - 1];
      AcceptedBy(trace[..|trace| - 1], agent)
      + if last.Accepted? && last.agent == agent then [last.prompt] else []
  }

  predicate Takes(action: Action, agent: AgentId) {
    (action.Dispatched? || action.Undelivered?) && action.agent == agent
  }

  predicate Cancels(action: Action, agent: AgentId) {
    action.Logged? && action.event.agent == agent && action.event.kind.Notice?
  }

  predicate Reports(action: Action, agent: AgentId) {
    action.Logged? && action.event.agent == agent && action.event.kind == BrokerError(ChannelUnavailable)
  }

  /** How many of them were taken from the queue or counted in a cancellation notice. */
  function ResolvedCount(trace: seq<Action>, agent: AgentId): nat {
    if trace == [] then 0
    else
      var last := trace[|trace| - 1];
      ResolvedCount(trace[..|trace| - 1], agent)
      + if Takes(last, agent) then 1 else if Cancels(last, agent) then last.event.kind.cancelled else 0
  }

  /** The action at `j` resolves exactly the prompts that are next in order. */
  ghost predicate ResolvesInOrder(trace: seq<Action>, j: nat, agent: AgentId)
    requires j < |trace|
  {
    var accepted := AcceptedBy(trace[..j], agent);
    var resolved := ResolvedCount(trace[..j], agent);
    && (Takes(trace[j], agent) ==> resolved < |accepted| && trace[j].prompt == accepted[resolved])
    && (Cancels(trace[j], agent) ==> resolved < |accepted| && trace[j].event.kind.cancelled == |accepted| - resolved)
  }

  // ---------------------------------------------------------------------------
  // The ledger

  /** The prompts still waiting, whether a failed dispatch has yet to be reported, and whether
      everything was resolved in order so far. */
  datatype Account = Account(waiting: seq<Prompt>, owed: bool, sound: bool)

  function After(account: Account, action: Action, agent: AgentId): Account {
    match action
    case Accepted(a, prompt) =>
      if a != agent then account
      else Account(account.waiting + [prompt], account.owed, account.sound && !account.owed)
    case Dispatched(a, _, prompt) => if a != agent then account else Taken(account, prompt, false)
    case Undelivered(a, prompt) => if a != agent then account else Taken(account, prompt, true)
    case Logged(event) => if event.agent != agent then account else AfterEvent(account, event.kind)
    case _ => account
  }

  function Taken(account: Account, prompt: Prompt, owed: bool): Account {
    if account.waiting == [] then account.(sound := false)
    else Account(account.waiting[1..], owed, account.sound && !account.owed && account.waiting[0] == prompt)
  }

  function AfterEvent(account: Account, kind: EventKind): Account {
    match kind
    case Notice(cancelled) =>
      Account([], account.owed, account.sound && cancelled == |account.waiting| && cancelled > 0)
    case BrokerError(ChannelUnavailable) => Account(account.waiting, false, account.sound && account.owed)
    case _ => account.(sound := account.sound && !account.owed)
  }

  function Balance(trace: seq<Action>, agent: AgentId): Account {
    if trace == [] then Account([], false, true)
    else After(Balance(trace[..|trace| - 1], agent), trace[|trace| - 1], agent)
  }

  lemma BalanceSnoc(trace: seq<Action>, action: Action, agent: AgentId)
    ensures Balance(trace + [action], agent) == After(Balance(trace, agent), action, agent)
  {
    assert (trace + [action])[..|trace|] == trace;
  }

  // ---------------------------------------------------------------------------
  // Every run keeps the ledger

  /** The queue of an agent in the table is what its ledger says. */
  ghost predicate Accounted(s: State, agent: AgentId) {
    var account := Balance(s.trace, agent);
    && account.sound && !account.owed
    && (agent in s.agents ==>
          agent < s.nextAgent && account.waiting == s.agents[agent].queue && |account.waiting| <= MaxQueuedPrompts)
    && (agent >= s.nextAgent ==> account.waiting == [])
  }

  predicate IsOther(action: Action) {
    !action.Accepted? && !action.Dispatched? && !action.Undelivered? && !action.Logged?
  }

  lemma OtherKeeps(s: State, action: Action, agent: AgentId)
    requires IsOther(action)
    ensures Balance(Record(s, action).trace, agent) == Balance(s.trace, agent)
  {
    BalanceSnoc(s.trace, action, agent);
  }

  lemma AnnouncedBalance(s: State, id: AgentId, kind: EventKind, agent: AgentId)
    ensures Balance(Announced(s, id, kind).trace, agent)
         == if id != agent then Balance(s.trace, agent) else AfterEvent(Balance(s.trace, agent), kind)
  {
    var event := Event(|s.log| + 1, id, kind);
    var logged := Record(s.(log := s.log + [event]), Logged(event));
    BalanceSnoc(s.trace, Logged(event), agent);
    BalanceSnoc(logged.trace, Delivered(s.generation, event), agent);
  }

  /** Cancelling clears the queue and announces how many prompts it held. */
  lemma CancelledBalance(s: State, id: AgentId, agent: AgentId)
    requires id in s.agents
    requires id == agent ==> Balance(s.trace, id).waiting == s.agents[id].queue
    ensures var t := Cancelled(s, id);
      && t.agents == s.agents[id := s.agents[id].(queue := [])] && t.nextAgent == s.nextAgent
      && Balance(t.trace, agent) == if id != agent then Balance(s.trace, agent)
                                    else Balance(s.trace, agent).(waiting := [])
  {
    if s.agents[id].queue != [] {
      AnnouncedBalance(WithAgent(s, id, s.agents[id].(queue := [])), id, Notice(|s.agents[id].queue|), agent);
    }
  }

  /** A failure clears the queue too, and reports a dispatch that could not be made. */
  lemma FailedBalance(s: State, id: AgentId, cause: Cause, agent: AgentId)
    requires id in s.agents
    requires id == agent ==> Balance(s.trace, id) == Account(s.agents[id].queue, cause.ChannelUnavailable?, true)
    ensures var t := FailedWith(s, id, cause);
      && t.agents == s.agents[id := Severed(s.agents[id].(queue := []))] && t.nextAgent == s.nextAgent
      && Balance(t.trace, agent) == if id != agent then Balance(s.trace, agent) else Account([], false, true)
  {
    CancelledBalance(s, id, agent);
    var cancelled := Cancelled(s, id);
    var severed := WithAgent(cancelled, id, Severed(cancelled.agents[id]));
    assert severed.agents == s.agents[id := Severed(s.agents[id].(queue := []))];
    AnnouncedBalance(severed, id, BrokerError(cause), agent);
  }

  lemma PoppedBalance(s: State, id: AgentId, action: Action, agent: AgentId)
    requires id in s.agents && s.agents[id].queue != [] && Accounted(s, agent)
    requires Takes(action, id) && action.prompt == s.agents[id].queue[0]
    ensures Balance(s.trace + [action], agent)
         == if id != agent then Balance(s.trace, agent)
            else Account(s.agents[id].queue[1..], action.Undelivered?, true)
  {
    BalanceSnoc(s.trace, action, agent);
  }

  lemma DispatchAccounted(s: State, id: AgentId, agent: AgentId)
    requires id in s.agents && s.agents[id].queue != [] && Accounted(s, agent)
    ensures Accounted(Launched(Popped(s, id), id, s.agents[id].queue[0], QueuedRequest(s.nextRequest)), agent)
  {
    var prompt, request := s.agents[id].queue[0], QueuedRequest(s.nextRequest);
    PoppedBalance(s, id, Dispatched(id, request, prompt), agent);
    BalanceSnoc(s.trace + [Dispatched(id, request, prompt)], Commanded(id, SendPrompt(request, prompt)), agent);
  }

  lemma AbandonAccounted(s: State, id: AgentId, agent: AgentId)
    requires id in s.agents && s.agents[id].queue != [] && Accounted(s, agent)
    ensures Accounted(Abandoned(Popped(s, id), id, s.agents[id].queue[0]), agent)
  {
    var undelivered := Undelivered(id, s.agents[id].queue[0]);
    PoppedBalance(s, id, undelivered, agent);
    FailedBalance(Record(Popped(s, id), undelivered), id, ChannelUnavailable, agent);
  }

  predicate IsLedger(e: Effect) {
    e.Accept? || e.Dispatch? || e.Abandon? || e.Cancel? || e.Fail? || e.Announce?
  }

  lemma OtherEffect(s: State, e: Effect, agent: AgentId)
    requires Enabled(s, e) && !IsLedger(e)
    ensures Balance(Apply(s, e).trace, agent) == Balance(s.trace, agent)
  {
    match e
    case Open(generation) => OtherKeeps(s, Opened(generation), agent);
    case Close =>
      OtherKeeps(s, Shut(s.generation), agent);
      OtherKeeps(Record(s, Shut(s.generation)), Warned(s.agents.Keys), agent);
    case Finish =>
      if s.connected {
        BalanceBatch(s.trace, s.generation, Replayed(s), agent);
      } else {
        assert Apply(s, e).trace == s.trace;
      }
    case Allocate(publicId) => OtherKeeps(s, Forwarded(s.generation, NextId(s), publicId), agent);
    case Settle(id) =>
      if id in s.pending { OtherKeeps(s, Answered(s.generation, id, s.pending[id].publicId), agent); }
    case Attach(id, context) => OtherKeeps(s, Attached(id, context), agent);
    case Gather(id, _, contexts) => OtherKeeps(s, Gathered(id, contexts), agent);
    case Drop(id) => OtherKeeps(s, Dropped(id), agent);
    case Insert(added, id) => OtherKeeps(s, Spawned(s.nextAgent, id, added.provider, added.contexts), agent);
    case Bury(id, _) => OtherKeeps(s, Released(id), agent);
    case Note(action) => OtherKeeps(s, action, agent);
    case _ =>
  }

  lemma {:induction false} BalanceBatch(trace: seq<Action>, g: nat, events: seq<Event>, agent: AgentId)
    ensures Balance(trace + Deliveries(g, events), agent) == Balance(trace, agent)
  {
    if events == [] {
      assert trace + Deliveries(g, events) == trace;
    } else {
      var n := |events| - 1;
      BalanceBatch(trace, g, events[..n], agent);
      var front := trace + Deliveries(g, events[..n]);
      assert trace + Deliveries(g, events) == front + [Delivered(g, events[n])];
      BalanceSnoc(front, Delivered(g, events[n]), agent);
    }
  }

  lemma OtherAccounted(s: State, e: Effect, agent: AgentId)
    requires Enabled(s, e) && !IsLedger(e) && Accounted(s, agent)
    ensures Accounted(Apply(s, e), agent)
  {
    OtherEffect(s, e, agent);
    if IsLocal(e) {
      LocalTable(s, e, agent);
    } else {
      DistantTable(s, e, agent);
    }
  }

  /** The agent's queue is as it was, or the agent is new or gone. */
  ghost predicate SameQueue(s: State, t: State, agent: AgentId) {
    && t.nextAgent >= s.nextAgent
    && (agent in t.agents ==>
          if agent in s.agents && agent != s.nextAgent then t.agents[agent].queue == s.agents[agent].queue
          else agent == s.nextAgent < t.nextAgent && t.agents[agent].queue == [])
  }

  lemma LocalTable(s: State, e: Effect, agent: AgentId)
    requires Enabled(s, e) && !IsLedger(e) && IsLocal(e) && (agent in s.agents ==> agent < s.nextAgent)
    ensures SameQueue(s, Apply(s, e), agent)
  {
  }

  lemma DistantTable(s: State, e: Effect, agent: AgentId)
    requires Enabled(s, e) && !IsLedger(e) && !IsLocal(e) && (agent in s.agents ==> agent < s.nextAgent)
    ensures SameQueue(s, Apply(s, e), agent)
  {
  }

  lemma CancelAccounted(s: State, id: AgentId, agent: AgentId)
    requires id in s.agents && Accounted(s, agent)
    ensures Accounted(Cancelled(s, id), agent)
  {
    CancelledBalance(s, id, agent);
  }

  lemma FailAccounted(s: State, id: AgentId, cause: Cause, agent: AgentId)
    requires id in s.agents && !cause.ChannelUnavailable? && Accounted(s, agent)
    ensures Accounted(FailedWith(s, id, cause), agent)
  {
    FailedBalance(s, id, cause, agent);
  }

  lemma AcceptAccounted(s: State, id: AgentId, prompt: Prompt, agent: AgentId)
    requires Enabled(s, Accept(id, prompt)) && Accounted(s, agent)
    ensures Accounted(WithPrompt(s, id, prompt), agent)
  {
    BalanceSnoc(s.trace, Accepted(id, prompt), agent);
  }

  lemma AnnounceAccounted(s: State, id: AgentId, kind: EventKind, agent: AgentId)
    requires Enabled(s, Announce(id, kind)) && Accounted(s, agent)
    ensures Accounted(Observed(Announced(s, id, kind), id, kind), agent)
  {
    AnnouncedBalance(s, id, kind, agent);
    if id in s.agents { TrackedKeepsQueue(s.agents[id], kind); }
  }

  lemma AccountsAreKept(agent: AgentId)
    ensures Kept((t: State) => Accounted(t, agent))
  {
    forall s: State, e | Accounted(s, agent) && Enabled(s, e) ensures Accounted(Apply(s, e), agent) {
      if !IsLedger(e) {
        OtherAccounted(s, e, agent);
      } else if e.Cancel? {
        CancelAccounted(s, e.agent, agent);
      } else if e.Fail? {
        FailAccounted(s, e.agent, e.cause, agent);
      } else if e.Accept? {
        AcceptAccounted(s, e.agent, e.prompt, agent);
      } else if e.Announce? {
        AnnounceAccounted(s, e.agent, e.kind, agent);
      } else if e.Dispatch? {
        DispatchAccounted(s, e.agent, agent);
      } else {
        AbandonAccounted(s, e.agent, agent);
      }
    }
  }

  lemma RunAccounted(s: State, turns: seq<Turn>, agent: AgentId)
    requires Initial(s)
    ensures Accounted(Run(s, turns), agent)
  {
    AccountsAreKept(agent);
    RunKeeps((t: State) => Accounted(t, agent), s, turns);
  }

  // ---------------------------------------------------------------------------
  // What a sound ledger means

  lemma {:induction false} SoundPrefix(trace: seq<Action>, n: nat, agent: AgentId)
    requires n <= |trace| && Balance(trace, agent).sound
    ensures Balance(trace[..n], agent).sound
    decreases |trace|
  {
    if n == |trace| {
      assert trace[..n] == trace;
    } else {
      SoundPrefix(trace[..|trace| - 1], n, agent);
      assert trace[..|trace| - 1][..n] == trace[..n];
    }
  }

  lemma SuffixSteps(accepted: seq<Prompt>, resolved: nat, prompt: Prompt)
    requires resolved <= |accepted|
    ensures (accepted + [prompt])[resolved..] == accepted[resolved..] + [prompt]
    ensures resolved < |accepted| ==> accepted[resolved..][1..] == accepted[resolved + 1..]
    ensures accepted[resolved..] == [] <==> resolved == |accepted|
  {
  }

  ghost predicate Unresolved(trace: seq<Action>, agent: AgentId) {
    var accepted, resolved := AcceptedBy(trace, agent), ResolvedCount(trace, agent);
    resolved <= |accepted| && Balance(trace, agent).waiting == accepted[resolved..]
  }

  lemma UnresolvedStep(front: seq<Action>, action: Action, agent: AgentId)
    requires Unresolved(front, agent) && Balance(front + [action], agent).sound
    ensures Unresolved(front + [action], agent)
  {
    BalanceSnoc(front, action, agent);
    CountsSnoc(front, action, agent);
    var prompt := if action.Accepted? then action.prompt else Prompt("", [], "");
    SuffixSteps(AcceptedBy(front, agent), ResolvedCount(front, agent), prompt);
  }

  lemma CountsSnoc(front: seq<Action>, action: Action, agent: AgentId)
    ensures AcceptedBy(front + [action], agent)
         == AcceptedBy(front, agent) + if action.Accepted? && action.agent == agent then [action.prompt] else []
    ensures ResolvedCount(front + [action], agent)
         == ResolvedCount(front, agent)
            + if Takes(action, agent) then 1 else if Cancels(action, agent) then action.event.kind.cancelled else 0
  {
    assert (front + [action])[..|front|] == front;
  }

  /** The waiting prompts are the accepted ones that are not resolved yet. */
  lemma {:induction false} WaitingAreUnresolved(trace: seq<Action>, agent: AgentId)
    requires Balance(trace, agent).sound
    ensures Unresolved(trace, agent)
  {
    if trace != [] {
      var n := |trace| - 1;
      WaitingAreUnresolved(trace[..n], agent);
      assert trace == trace[..n] + [trace[n]];
      UnresolvedStep(trace[..n], trace[n], agent);
    }
  }

  lemma SoundResolvesInOrder(trace: seq<Action>, j: nat, agent: AgentId)
    requires Balance(trace, agent).sound && j < |trace|
    ensures ResolvesInOrder(trace, j, agent)
  {
    SoundPrefix(trace, j, agent);
    SoundPrefix(trace, j + 1, agent);
    assert trace[..j + 1][..j] == trace[..j];
    WaitingAreUnresolved(trace[..j], agent);
  }

  /** Until a failed dispatch is reported, the agent's only other event is a cancellation notice. */
  ghost predicate ReportedAt(trace: seq<Action>, j: nat, k: nat, agent: AgentId) {
    && j < k < |trace| && Reports(trace[k], agent)
    && forall i {:trigger trace[i]} :: j < i < k && trace[i].Logged? && trace[i].event.agent == agent ==>
         Cancels(trace[i], agent)
  }

  /** While something is owed, the last failed dispatch is followed only by notices. */
  lemma {:induction false} OwedSince(trace: seq<Action>, agent: AgentId, j: nat)
    requires Balance(trace, agent).sound && j < |trace|
    requires trace[j].Undelivered? && trace[j].agent == agent
    ensures (exists k :: ReportedAt(trace, j, k, agent))
         || (Balance(trace, agent).owed
             && forall i {:trigger trace[i]} :: j < i < |trace| && trace[i].Logged? && trace[i].event.agent == agent ==>
                  Cancels(trace[i], agent))
  {
    var n := |trace| - 1;
    var front := trace[..n];
    SoundPrefix(trace, n, agent);
    if j < n {
      OwedSince(front, agent, j);
      if k :| ReportedAt(front, j, k, agent) {
        assert ReportedAt(trace, j, k, agent);
      } else if Reports(trace[n], agent) {
        assert ReportedAt(trace, j, n, agent);
      }
    }
  }

  /** In every run, the prompts an agent's queue accepted are a resolved prefix followed by the
      queue; every dispatch, failed dispatch and cancellation notice resolves the next ones in
      order; a failed dispatch is reported; and the queue never holds more than 32. */
  lemma EveryPromptIsAccountedFor(s: State, turns: seq<Turn>, agent: AgentId)
    requires Initial(s)
    ensures var t := Run(s, turns);
      && (forall j :: 0 <= j < |t.trace| ==> ResolvesInOrder(t.trace, j, agent))
      && (agent in t.agents ==>
            && ResolvedCount(t.trace, agent) <= |AcceptedBy(t.trace, agent)|
            && t.agents[agent].queue == AcceptedBy(t.trace, agent)[ResolvedCount(t.trace, agent)..]
            && |t.agents[agent].queue| <= MaxQueuedPrompts)
  {
    RunAccounted(s, turns, agent);
    var t := Run(s, turns);
    WaitingAreUnresolved(t.trace, agent);
    forall j | 0 <= j < |t.trace| ensures ResolvesInOrder(t.trace, j, agent) {
      SoundResolvesInOrder(t.trace, j, agent);
    }
  }

  lemma FailedDispatchIsReported(s: State, turns: seq<Turn>, j: nat)
    requires Initial(s)
    requires j < |Run(s, turns).trace| && Run(s, turns).trace[j].Undelivered?
    ensures exists k :: ReportedAt(Run(s, turns).trace, j, k, Run(s, turns).trace[j].agent)
  {
    var t := Run(s, turns);
    RunAccounted(s, turns, t.trace[j].agent);
    OwedSince(t.trace, t.trace[j].agent, j);
  }
}
