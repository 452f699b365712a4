/** Every editor context a client adds goes out once, in order, with the next input of its agent. */
module ContextLedger {
  import opened Options
  import opened Protocol
  import opened BrokerSteps
  import opened BrokerRuns

  // ---------------------------------------------------------------------------
  // What a trace says

  /** An agent's failure or end, or the loss of its command channel. */
  predicate Discards(action: Action, agent: AgentId) {
    || action == Dropped(agent) || action == Released(agent)
    || (action.Logged? && action.event.agent == agent && action.event.kind.BrokerError?)
  }

  function Next(waiting: seq<string>, action: Action, agent: AgentId): seq<string> {
    if action.Attached? && action.agent == agent then waiting + [action.context]
    else if action.Gathered? && action.agent == agent then []
    else if action.Spawned? && action.agent == agent then action.contexts
    else if Discards(action, agent) then []
    else waiting
  }

  /** The contexts added since an input last took them, or since they were discarded. */
  function Waiting(trace: seq<Action>, agent: AgentId): seq<string> {
    if trace == [] then []
    else Next(Waiting(trace[..|trace| - 1], agent), trace[|trace| - 1], agent)
  }

  lemma WaitingSnoc(trace: seq<Action>, action: Action, agent: AgentId)
    ensures Waiting(trace + [action], agent) == Next(Waiting(trace, agent), action, agent)
  {
    assert (trace + [action])[..|trace|] == trace;
  }

  /** An input takes everything that waits, in order, before its own contexts. */
  ghost predicate TakesAll(trace: seq<Action>, j: nat)
    requires j < |trace|
  {
    trace[j].Gathered? ==>
      Waiting(trace[..j], trace[j].agent) <= trace[j].contexts && ContextsFit(trace[j].contexts)
  }

  /** A prompt that is queued, and a client's prompt or steer that goes out, carries what was taken for it. */
  ghost predicate CarriesTaken(trace: seq<Action>, j: nat)
    requires j < |trace|
  {
    && (trace[j].Accepted? ==> HasGathered(trace[..j], trace[j].agent, trace[j].prompt.contexts))
    && (trace[j].Commanded? && !IsQueued(trace[j].command) ==>
          CarriesGathered(trace[..j], trace[j].agent, trace[j].command))
  }

  predicate IsQueued(command: Command) {
    command.SendPrompt? && command.id.QueuedRequest?
  }

  // ---------------------------------------------------------------------------
  // Every run keeps the ledger

  /** The contexts of an agent in the table are those that wait. */
  ghost predicate Held(s: State, agent: AgentId) {
    agent in s.agents ==> s.agents[agent].contexts == Waiting(s.trace, agent)
  }

  predicate IsIdle(action: Action, agent: AgentId) {
    && !action.Attached? && !action.Gathered? && !action.Spawned?
    && !Discards(action, agent)
  }

  lemma IdleRecord(trace: seq<Action>, action: Action, agent: AgentId)
    requires IsIdle(action, agent)
    ensures Waiting(trace + [action], agent) == Waiting(trace, agent)
  {
    WaitingSnoc(trace, action, agent);
  }

  lemma AnnouncedWaiting(s: State, id: AgentId, kind: EventKind, agent: AgentId)
    ensures Waiting(Announced(s, id, kind).trace, agent)
         == if id == agent && kind.BrokerError? then [] else Waiting(s.trace, agent)
  {
    LoggedWaiting(s.trace, Event(|s.log| + 1, id, kind), s.generation, agent);
    AnnouncedTrace(s, id, kind);
  }

  lemma LoggedWaiting(trace: seq<Action>, event: Event, generation: nat, agent: AgentId)
    ensures var waiting := if event.agent == agent && event.kind.BrokerError? then [] else Waiting(trace, agent);
      && Waiting(trace + [Logged(event)], agent) == waiting
      && Waiting(trace + [Logged(event)] + [Delivered(generation, event)], agent) == waiting
  {
    WaitingSnoc(trace, Logged(event), agent);
    IdleRecord(trace + [Logged(event)], Delivered(generation, event), agent);
  }

  lemma AnnouncedTrace(s: State, id: AgentId, kind: EventKind)
    ensures var event := Event(|s.log| + 1, id, kind);
      Announced(s, id, kind).trace in {s.trace + [Logged(event)],
                                       s.trace + [Logged(event)] + [Delivered(s.generation, event)]}
  {
  }

  lemma CancelledWaiting(s: State, id: AgentId, agent: AgentId)
    requires id in s.agents
    ensures Waiting(Cancelled(s, id).trace, agent) == Waiting(s.trace, agent)
  {
    AnnouncedWaiting(WithAgent(s, id, s.agents[id].(queue := [])), id, Notice(|s.agents[id].queue|), agent);
  }

  lemma FailedWaiting(s: State, id: AgentId, cause: Cause, agent: AgentId)
    requires id in s.agents
    ensures Waiting(FailedWith(s, id, cause).trace, agent) == if id == agent then [] else Waiting(s.trace, agent)
  {
    CancelledWaiting(s, id, agent);
    var cancelled := Cancelled(s, id);
    AnnouncedWaiting(WithAgent(cancelled, id, Severed(cancelled.agents[id])), id, BrokerError(cause), agent);
  }

  lemma {:induction false} DeliveriesWaiting(trace: seq<Action>, g: nat, events: seq<Event>, agent: AgentId)
    ensures Waiting(trace + Deliveries(g, events), agent) == Waiting(trace, agent)
  {
    if events == [] {
      assert trace + Deliveries(g, events) == trace;
    } else {
      var n := |events| - 1;
      DeliveriesWaiting(trace, g, events[..n], agent);
      var front := trace + Deliveries(g, events[..n]);
      assert trace + Deliveries(g, events) == front + [Delivered(g, events[n])];
      IdleRecord(front, Delivered(g, events[n]), agent);
    }
  }

  lemma AnnounceKept(s: State, id: AgentId, kind: EventKind, agent: AgentId)
    requires Enabled(s, Announce(id, kind)) && Held(s, agent)
    ensures Held(Observed(Announced(s, id, kind), id, kind), agent)
  {
    AnnouncedWaiting(s, id, kind, agent);
    if id in s.agents { TrackedKeepsContexts(s.agents[id], kind); }
  }

  lemma TrackedKeepsContexts(agent: Agent, kind: EventKind)
    ensures Tracked(agent, kind).contexts == agent.contexts
  {
  }

  lemma ClearKept(s: State, id: AgentId, cause: Cause, agent: AgentId)
    requires id in s.agents && Held(s, agent)
    ensures Held(Cancelled(s, id), agent) && Held(FailedWith(s, id, cause), agent)
  {
    CancelledWaiting(s, id, agent);
    CancelledAgents(s, id);
    FailedWaiting(s, id, cause, agent);
    FailedAgents(s, id, cause);
  }

  lemma QueueKept(s: State, id: AgentId, agent: AgentId)
    requires id in s.agents && s.agents[id].queue != [] && Held(s, agent)
    ensures Held(Launched(Popped(s, id), id, s.agents[id].queue[0], QueuedRequest(s.nextRequest)), agent)
    ensures Held(Abandoned(Popped(s, id), id, s.agents[id].queue[0]), agent)
  {
    var popped, prompt, request := Popped(s, id), s.agents[id].queue[0], QueuedRequest(s.nextRequest);
    IdleRecord(s.trace, Dispatched(id, request, prompt), agent);
    IdleRecord(s.trace + [Dispatched(id, request, prompt)], Commanded(id, SendPrompt(request, prompt)), agent);
    IdleRecord(s.trace, Undelivered(id, prompt), agent);
    ClearKept(Record(popped, Undelivered(id, prompt)), id, ChannelUnavailable, agent);
  }

  predicate ChangesContexts(e: Effect) {
    e.Attach? || e.Gather? || e.Drop? || e.Insert? || e.Bury?
  }

  lemma InsertKept(s: State, added: Agent, id: RuntimeId, agent: AgentId)
    requires Held(s, agent)
    ensures Held(Record(WithAgent(s, s.nextAgent, added)
                          .(order := s.order + [s.nextAgent], nextAgent := s.nextAgent + 1),
                        Spawned(s.nextAgent, id, added.provider, added.contexts)), agent)
  {
    WaitingSnoc(s.trace, Spawned(s.nextAgent, id, added.provider, added.contexts), agent);
  }

  lemma DropKept(s: State, id: AgentId, changed: Agent, agent: AgentId)
    requires Held(s, agent) && id in s.agents && changed.contexts == []
    ensures Held(ContextsDropped(s, id), agent) && Held(Buried(s, id, changed), agent)
  {
    WaitingSnoc(s.trace, Dropped(id), agent);
    WaitingSnoc(s.trace, Released(id), agent);
  }

  lemma ContextKept(s: State, e: Effect, agent: AgentId)
    requires Enabled(s, e) && ChangesContexts(e) && Held(s, agent)
    ensures Held(Apply(s, e), agent)
  {
    match e
    case Attach(id, context) => WaitingSnoc(s.trace, Attached(id, context), agent);
    case Gather(id, _, contexts) => WaitingSnoc(s.trace, Gathered(id, contexts), agent);
    case Drop(id) => DropKept(s, id, s.agents[id].(contexts := []), agent);
    case Insert(added, id) => InsertKept(s, added, id, agent);
    case Bury(id, changed) => DropKept(s, id, changed, agent);
  }

  lemma FinishKept(s: State, agent: AgentId)
    requires s.phase.AwaitInitialized? && Held(s, agent)
    ensures Held(Apply(s, Finish), agent)
  {
    DeliveriesWaiting(s.trace, s.generation, Replayed(s), agent);
    assert s.trace + [] == s.trace;
  }

  lemma MinorKept(s: State, e: Effect, agent: AgentId)
    requires Enabled(s, e) && !IsMajor(e) && !ChangesContexts(e) && Held(s, agent)
    ensures Held(Apply(s, e), agent)
  {
    match e
    case Open(generation) => IdleRecord(s.trace, Opened(generation), agent);
    case Close =>
      IdleRecord(s.trace, Shut(s.generation), agent);
      IdleRecord(s.trace + [Shut(s.generation)], Warned(s.agents.Keys), agent);
    case Finish => FinishKept(s, agent);
    case Accept(id, prompt) => IdleRecord(s.trace, Accepted(id, prompt), agent);
    case Allocate(publicId) => IdleRecord(s.trace, Forwarded(s.generation, NextId(s), publicId), agent);
    case Settle(id) =>
      if id in s.pending { IdleRecord(s.trace, Answered(s.generation, id, s.pending[id].publicId), agent); }
    case Note(action) => IdleRecord(s.trace, action, agent);
    case _ =>
  }

  lemma EffectKept(s: State, e: Effect, agent: AgentId)
    requires Enabled(s, e) && Held(s, agent)
    ensures Held(Apply(s, e), agent)
  {
    if e.Announce? {
      AnnounceKept(s, e.agent, e.kind, agent);
    } else if e.Cancel? || e.Fail? {
      ClearKept(s, e.agent, if e.Fail? then e.cause else RuntimeFailed, agent);
    } else if e.Dispatch? || e.Abandon? {
      QueueKept(s, e.agent, agent);
    } else if ChangesContexts(e) {
      ContextKept(s, e, agent);
    } else {
      MinorKept(s, e, agent);
    }
  }

  // ---------------------------------------------------------------------------
  // What inputs carry

  ghost predicate InOrder(trace: seq<Action>) {
    forall j :: 0 <= j < |trace| ==> TakesAll(trace, j) && CarriesTaken(trace, j)
  }

  predicate IsNeutral(action: Action) {
    && !action.Gathered? && !action.Accepted?
    && (action.Commanded? ==> IsQueued(action.command) || !IsInput(action.command))
  }

  predicate IsInput(command: Command) {
    command.SendPrompt? || command.SendSteer?
  }

  lemma InOrderSnoc(trace: seq<Action>, action: Action)
    requires InOrder(trace)
    requires TakesAll(trace + [action], |trace|) && CarriesTaken(trace + [action], |trace|)
    ensures InOrder(trace + [action])
  {
    var longer := trace + [action];
    forall j | 0 <= j < |longer| ensures TakesAll(longer, j) && CarriesTaken(longer, j) {
      assert longer[..j] == if j < |trace| then trace[..j] else trace;
      if j < |trace| { assert TakesAll(trace, j) && CarriesTaken(trace, j); }
    }
  }

  lemma NeutralSnoc(trace: seq<Action>, action: Action)
    requires InOrder(trace) && IsNeutral(action)
    ensures InOrder(trace + [action])
  {
    InOrderSnoc(trace, action);
  }

  lemma AnnouncedInOrder(s: State, id: AgentId, kind: EventKind)
    requires InOrder(s.trace)
    ensures InOrder(Announced(s, id, kind).trace)
  {
    var event := Event(|s.log| + 1, id, kind);
    NeutralSnoc(s.trace, Logged(event));
    NeutralSnoc(s.trace + [Logged(event)], Delivered(s.generation, event));
  }

  lemma FailedInOrder(s: State, id: AgentId, cause: Cause)
    requires InOrder(s.trace) && id in s.agents
    ensures InOrder(Cancelled(s, id).trace) && InOrder(FailedWith(s, id, cause).trace)
  {
    AnnouncedInOrder(WithAgent(s, id, s.agents[id].(queue := [])), id, Notice(|s.agents[id].queue|));
    var cancelled := Cancelled(s, id);
    AnnouncedInOrder(WithAgent(cancelled, id, Severed(cancelled.agents[id])), id, BrokerError(cause));
  }

  lemma QueueInOrder(s: State, id: AgentId)
    requires InOrder(s.trace) && id in s.agents && s.agents[id].queue != []
    ensures InOrder(Launched(Popped(s, id), id, s.agents[id].queue[0], QueuedRequest(s.nextRequest)).trace)
    ensures InOrder(Abandoned(Popped(s, id), id, s.agents[id].queue[0]).trace)
  {
    var prompt, request := s.agents[id].queue[0], QueuedRequest(s.nextRequest);
    NeutralSnoc(s.trace, Dispatched(id, request, prompt));
    NeutralSnoc(s.trace + [Dispatched(id, request, prompt)], Commanded(id, SendPrompt(request, prompt)));
    NeutralSnoc(s.trace, Undelivered(id, prompt));
    FailedInOrder(Record(Popped(s, id), Undelivered(id, prompt)), id, ChannelUnavailable);
  }

  lemma {:induction false} DeliveriesInOrder(trace: seq<Action>, g: nat, events: seq<Event>)
    requires InOrder(trace)
    ensures InOrder(trace + Deliveries(g, events))
  {
    if events == [] {
      assert trace + Deliveries(g, events) == trace;
    } else {
      var n := |events| - 1;
      DeliveriesInOrder(trace, g, events[..n]);
      var front := trace + Deliveries(g, events[..n]);
      assert trace + Deliveries(g, events) == front + [Delivered(g, events[n])];
      NeutralSnoc(front, Delivered(g, events[n]));
    }
  }

  /** The three effects that take contexts or carry them on. */
  lemma TakingInOrder(s: State, e: Effect)
    requires Enabled(s, e) && InOrder(s.trace)
    requires e.Gather? || e.Accept? || (e.Note? && e.action.Commanded?)
    requires e.Gather? ==> Held(s, e.agent)
    ensures InOrder(Apply(s, e).trace)
  {
    var action := if e.Gather? then Gathered(e.agent, e.contexts)
                  else if e.Accept? then Accepted(e.agent, e.prompt) else e.action;
    assert (s.trace + [action])[..|s.trace|] == s.trace;
    InOrderSnoc(s.trace, action);
  }

  lemma MinorInOrder(s: State, e: Effect)
    requires Enabled(s, e) && InOrder(s.trace) && !IsMajor(e) && !e.Gather? && !e.Accept?
    requires e.Note? ==> !e.action.Commanded?
    ensures InOrder(Apply(s, e).trace)
  {
    match e
    case Open(generation) => NeutralSnoc(s.trace, Opened(generation));
    case Close =>
      NeutralSnoc(s.trace, Shut(s.generation));
      NeutralSnoc(s.trace + [Shut(s.generation)], Warned(s.agents.Keys));
    case Finish =>
      DeliveriesInOrder(s.trace, s.generation, Replayed(s));
      assert s.trace + [] == s.trace;
    case Attach(id, context) => NeutralSnoc(s.trace, Attached(id, context));
    case Drop(id) => NeutralSnoc(s.trace, Dropped(id));
    case Allocate(publicId) => NeutralSnoc(s.trace, Forwarded(s.generation, NextId(s), publicId));
    case Settle(id) =>
      if id in s.pending { NeutralSnoc(s.trace, Answered(s.generation, id, s.pending[id].publicId)); }
    case Insert(added, id) => NeutralSnoc(s.trace, Spawned(s.nextAgent, id, added.provider, added.contexts));
    case Bury(id, _) => NeutralSnoc(s.trace, Released(id));
    case Note(action) => NeutralSnoc(s.trace, action);
    case _ =>
  }

  lemma EffectInOrder(s: State, e: Effect)
    requires Enabled(s, e) && InOrder(s.trace) && (e.Gather? ==> Held(s, e.agent))
    ensures InOrder(Apply(s, e).trace)
  {
    if e.Announce? {
      AnnouncedInOrder(s, e.agent, e.kind);
    } else if e.Cancel? || e.Fail? {
      FailedInOrder(s, e.agent, if e.Fail? then e.cause else RuntimeFailed);
    } else if e.Dispatch? || e.Abandon? {
      QueueInOrder(s, e.agent);
    } else if e.Gather? || e.Accept? || (e.Note? && e.action.Commanded?) {
      TakingInOrder(s, e);
    } else {
      MinorInOrder(s, e);
    }
  }

  ghost predicate Ledgered(s: State) {
    InOrder(s.trace) && forall a :: Held(s, a)
  }

  lemma RunLedgered(s: State, turns: seq<Turn>)
    requires Initial(s)
    ensures Ledgered(Run(s, turns))
  {
    assert Kept((t: State) => Ledgered(t)) by {
      forall t: State, e | Ledgered(t) && Enabled(t, e) ensures Ledgered(Apply(t, e)) {
        assert e.Gather? ==> Held(t, e.agent);
        EffectInOrder(t, e);
        forall a: AgentId ensures Held(Apply(t, e), a) {
          assert Held(t, a);
          EffectKept(t, e, a);
        }
      }
    }
    RunKeeps((t: State) => Ledgered(t), s, turns);
  }

  /** In every run, an agent's contexts are those added since an input took them or a failure discarded
      them; every input takes all of them, in order, before its own, within the limits; and every prompt
      that is queued, and every prompt or steer of a client that goes out, carries what was taken for it. */
  lemma ContextsAreDelivered(s: State, turns: seq<Turn>, agent: AgentId)
    requires Initial(s)
    ensures var t := Run(s, turns);
      && (agent in t.agents ==> t.agents[agent].contexts == Waiting(t.trace, agent))
      && (forall j :: 0 <= j < |t.trace| ==> TakesAll(t.trace, j) && CarriesTaken(t.trace, j))
  {
    RunLedgered(s, turns);
    assert Held(Run(s, turns), agent);
  }

  // ---------------------------------------------------------------------------
  // The limits

  ghost predicate AllFit(s: State) {
    forall id :: id in s.agents ==> ContextsFit(s.agents[id].contexts)
  }

  lemma FailedFits(s: State, id: AgentId, cause: Cause)
    requires id in s.agents && AllFit(s)
    ensures AllFit(Cancelled(s, id)) && AllFit(FailedWith(s, id, cause))
  {
    assert EncodedSize([]) == 2;
    CancelledAgents(s, id);
    FailedAgents(s, id, cause);
  }

  lemma ObservedFits(s: State, id: AgentId, kind: EventKind)
    requires AllFit(s)
    ensures AllFit(Observed(Announced(s, id, kind), id, kind))
  {
    if id in s.agents { TrackedKeepsContexts(s.agents[id], kind); }
  }

  lemma LocalFits(s: State, e: Effect)
    requires Enabled(s, e) && AllFit(s) && (e.Insert? ==> ContextsFit(e.added.contexts)) && IsLocal(e)
    ensures AllFit(Apply(s, e))
  {
    assert ContextsFit([]) by { assert EncodedSize([]) == 2; }
    var t := Apply(s, e);
    forall id | id in t.agents ensures ContextsFit(t.agents[id].contexts) {
      LocalContexts(s, e, id);
    }
  }

  /** An agent keeps its contexts, loses them, or has the ones the effect checked. */
  lemma LocalContexts(s: State, e: Effect, id: AgentId)
    requires Enabled(s, e) && IsLocal(e) && id in Apply(s, e).agents
    ensures var now := Apply(s, e).agents[id].contexts;
      || now == [] || (id in s.agents && now == s.agents[id].contexts)
      || (e.Attach? && ContextsFit(now)) || (e.Insert? && now == e.added.contexts)
  {
  }

  lemma OtherFits(s: State, e: Effect)
    requires Enabled(s, e) && AllFit(s) && !IsLocal(e)
    requires !e.Announce? && !e.Cancel? && !e.Fail? && !e.Abandon?
    ensures AllFit(Apply(s, e))
  {
  }

  lemma EffectFits(s: State, e: Effect)
    requires Enabled(s, e) && AllFit(s) && (e.Insert? ==> ContextsFit(e.added.contexts))
    ensures AllFit(Apply(s, e))
  {
    if e.Announce? {
      ObservedFits(s, e.agent, e.kind);
    } else if e.Cancel? || e.Fail? {
      FailedFits(s, e.agent, if e.Fail? then e.cause else RuntimeFailed);
    } else if e.Abandon? {
      FailedFits(Record(Popped(s, e.agent), Undelivered(e.agent, s.agents[e.agent].queue[0])), e.agent,
                 ChannelUnavailable);
    } else if IsLocal(e) {
      LocalFits(s, e);
    } else {
      OtherFits(s, e);
    }
  }

  lemma {:induction false} RunFits(s: State, turns: seq<Turn>)
    requires Initial(s)
    ensures AllFit(Run(s, turns))
  {
    assert EncodedSize([]) == 2;
    if turns != [] {
      var last := turns[|turns| - 1];
      var before := Run(s, turns[..|turns| - 1]);
      RunFits(s, turns[..|turns| - 1]);
      var b := Scope(before, last.input);
      assert ContextsFit(b.carried);
      assert KeptWithin((t: State) => AllFit(t), b) by {
        forall t: State, e | AllFit(t) && Enabled(t, e) && Within(e, b) ensures AllFit(Apply(t, e)) {
          EffectFits(t, e);
        }
      }
      StepKeeps((t: State) => AllFit(t), before, last.input, last.ok);
    }
  }

  /** In every run, at most 256 items and 512 KiB of context wait for an agent, and no more is ever
      sent with a prompt or a steer. */
  lemma ContextsAlwaysFit(s: State, turns: seq<Turn>)
    requires Initial(s)
    ensures var t := Run(s, turns);
      && (forall id :: id in t.agents ==> ContextsFit(t.agents[id].contexts))
      && (forall j :: 0 <= j < |t.trace| && t.trace[j].Accepted? ==> ContextsFit(t.trace[j].prompt.contexts))
      && (forall j :: 0 <= j < |t.trace| && t.trace[j].Commanded? && !IsQueued(t.trace[j].command) ==>
            CommandFits(t.trace[j].command))
  {
    RunFits(s, turns);
    RunLedgered(s, turns);
    var trace := Run(s, turns).trace;
    forall j | 0 <= j < |trace| && trace[j].Accepted? ensures ContextsFit(trace[j].prompt.contexts) {
      assert CarriesTaken(trace, j) && TakesAll(trace, j - 1);
    }
    forall j | 0 <= j < |trace| && trace[j].Commanded? && !IsQueued(trace[j].command)
      ensures CommandFits(trace[j].command)
    {
      assert CarriesTaken(trace, j);
      if IsInput(trace[j].command) { assert TakesAll(trace, j - 2); }
    }
  }

  predicate CommandFits(command: Command) {
    && (command.SendPrompt? ==> ContextsFit(command.prompt.contexts))
    && (command.SendSteer? ==> ContextsFit(command.contexts))
  }

  // ---------------------------------------------------------------------------
  // Steering

  predicate MaySteer(s: State, call: Call)
    requires call.SteerAgent?
  {
    && call.text != "" && call.agent in s.agents && s.agents[call.agent].state.Running?
    && (call.options.Some? ==> call.options.value == s.agents[call.agent].options)
    && ContextsFit(s.agents[call.agent].contexts + call.contexts)
  }

  ghost predicate Sent(s: State, t: State, agent: AgentId, command: Command) {
    |t.trace| == |s.trace| + 3 && t.trace[|t.trace| - 1] == Commanded(agent, command)
  }

  /** What a steer may change: the contexts it takes, and the state when the channel is gone. */
  ghost predicate OnlySteered(s: State, t: State, agent: AgentId, ok: bool) {
    && t.agents.Keys == s.agents.Keys
    && (forall id :: id in s.agents && id != agent ==> t.agents[id] == s.agents[id])
    && (agent in s.agents ==>
          var was, now := s.agents[agent], t.agents[agent];
          && now == was.(state := now.state, contexts := now.contexts)
          && (now.state != was.state ==> !ok && now.state.Disconnected?))
  }

  lemma AllowedSteer(s: State, publicId: string, call: Call, ok: bool)
    requires call.SteerAgent? && MaySteer(s, call)
    ensures var t := OnSteer(s, publicId, call, ok);
      var command := SendSteer(NextId(s), call.text, s.agents[call.agent].contexts + call.contexts);
      (Sent(s, t, call.agent, command) <==> ok) && OnlySteered(s, t, call.agent, ok)
  {
    var agent := s.agents[call.agent];
    var taken := Gathering(s, call.agent, agent.(contexts := []), agent.contexts + call.contexts);
    var u := Allocated(taken, publicId);
    assert u.agents == s.agents[call.agent := agent.(contexts := [])];
    assert |u.trace| == |s.trace| + 2;
  }

  /** A steer goes out with everything that waits if and only if its agent is running, its options are
      the turn's, its contexts fit and the channel takes it; and it leaves the turn, the queue, the
      counters and every other agent alone. */
  lemma SteersReachRunningTurns(s: State, publicId: string, call: Call, ok: bool)
    requires call.SteerAgent?
    ensures var t := OnSteer(s, publicId, call, ok);
      && OnlySteered(s, t, call.agent, ok)
      && ((exists command :: Sent(s, t, call.agent, command)) <==> MaySteer(s, call) && ok)
      && (MaySteer(s, call) && ok ==>
            Sent(s, t, call.agent,
                 SendSteer(NextId(s), call.text, s.agents[call.agent].contexts + call.contexts)))
  {
    if MaySteer(s, call) { AllowedSteer(s, publicId, call, ok); }
  }
}
