/** The broker core: one object, updated in place by client inputs and runtime events. */
module Embedded {
  import opened Options
  import opened Protocol
  import opened Replay
  import opened BrokerSteps

  class Broker {
    const mode: Mode
    const replay: ReplayBuffer
    var running: bool
    var phase: Phase
    var connectionGeneration: nat
    var reconnectCursor: nat
    /** The connection whose writer receives what is sent. */
    var output: Option<nat>
    var agents: map<AgentId, Agent>
    var agentOrder: seq<AgentId>
    var nextAgent: AgentId
    var nextRuntimeRequest: nat
    var pendingRuntimeRequests: map<RuntimeId, Pending>
    var queuedRuntimeRequests: set<RuntimeId>
    /** Everything sent, forwarded and accepted so far. */
    ghost var trace: seq<Action>

    ghost predicate Valid()
      reads this, replay
    {
      && replay.Valid()
      && (output.Some? ==> output.value == connectionGeneration)
    }

    ghost function View(): State
      reads this, replay
    {
      State(mode, replay.capacity, running, phase, connectionGeneration, output.Some?, reconnectCursor, agents,
            agentOrder, nextAgent, replay.log, nextRuntimeRequest, pendingRuntimeRequests, queuedRuntimeRequests, trace)
    }

    constructor (mode: Mode, capacity: nat, restored: map<AgentId, Agent>, order: seq<AgentId>,
                 nextAgent: AgentId)
      requires capacity > 0
      requires forall id :: id in restored ==> id < nextAgent && IsRestored(restored[id])
      ensures Valid() && fresh(replay)
      ensures Initial(View()) && agents == restored && agentOrder == order
      ensures View().capacity == capacity && this.mode == mode
    {
      this.mode := mode;
      replay := new ReplayBuffer(capacity);
      running, phase, connectionGeneration, reconnectCursor := true, AwaitInitialize, 0, 0;
      output, agents, agentOrder, this.nextAgent := None, restored, order, nextAgent;
      nextRuntimeRequest, pendingRuntimeRequests, queuedRuntimeRequests, trace := 1, map[], {}, [];
    }

    // -------------------------------------------------------------------------
    // Connections

    method Connect(generation: nat)
      requires Valid()
      modifies this
      ensures Valid()
      ensures View() == if generation <= old(connectionGeneration) then old(View())
                        else Apply(old(View()), Open(generation))
    {
      if generation <= connectionGeneration {
        return;
      }
      connectionGeneration := generation;
      phase := AwaitInitialize;
      reconnectCursor := 0;
      output := Some(generation);
      trace := trace + [Opened(generation)];
    }

    method Disconnect(generation: nat)
      requires Valid()
      modifies this
      ensures Valid()
      ensures View() == if generation != old(connectionGeneration) then old(View())
                        else Apply(old(View()), Close)
    {
      if generation != connectionGeneration {
        return;
      }
      output := None;
      phase := AwaitInitialize;
      reconnectCursor := 0;
      pendingRuntimeRequests :=
        map id | id in pendingRuntimeRequests && pendingRuntimeRequests[id].generation != generation
            :: pendingRuntimeRequests[id];
      trace := trace + [Shut(generation)] + [Warned(agents.Keys)];
    }

    method HandleInitialized()
      requires Valid()
      modifies this
      ensures Valid()
      ensures View() == if old(phase).AwaitInitialized? then Apply(old(View()), Finish) else old(View())
    {
      if phase != AwaitInitialized {
        return;
      }
      phase := Ready;
      if mode == Durable {
        var result := replay.ReplayAfter(reconnectCursor);
        if result.Events? {
          SendEvents(result.events);
        }
      }
    }

    method SendEvents(events: seq<Event>)
      requires Valid()
      modifies this`trace
      ensures trace == old(trace) + if output.Some? then Deliveries(connectionGeneration, events) else []
    {
      var i := 0;
      ghost var sent := Deliveries(connectionGeneration, events);
      while i < |events|
        invariant 0 <= i <= |events|
        invariant trace == old(trace) + if output.Some? then sent[..i] else []
      {
        SendEventNow(events[i]);
        i := i + 1;
        assert sent[..i] == sent[..i - 1] + [Delivered(connectionGeneration, events[i - 1])];
      }
      assert sent[..i] == sent;
    }

    method SendEventNow(event: Event)
      requires Valid()
      modifies this`trace
      ensures trace == if output.Some? then old(trace) + [Delivered(connectionGeneration, event)] else old(trace)
    {
      if output.Some? {
        trace := trace + [Delivered(output.value, event)];
      }
    }

    // -------------------------------------------------------------------------
    // Events

    method Reply(publicId: string)
      requires Valid()
      modifies this`trace
      ensures View() == BrokerSteps.Reply(old(View()), publicId)
    {
      if output.Some? {
        trace := trace + [Replied(output.value, publicId)];
      }
    }

    /** Assigns a sequence, keeps the event for replay and sends it when the client is ready. */
    method Announce(agent: AgentId, kind: EventKind)
      requires Valid()
      modifies this, replay
      ensures Valid()
      ensures View() == Announced(old(View()), agent, kind)
    {
      var event := replay.Push(agent, kind);
      trace := trace + [Logged(event)];
      if phase == Ready {
        SendEventNow(event);
      }
    }

    method ApplyEventState(agent: AgentId, kind: EventKind)
      requires Valid()
      modifies this
      ensures Valid()
      ensures View() == Observed(old(View()), agent, kind)
    {
      if agent !in agents {
        return;
      }
      var changed := agents[agent];
      match kind {
        case TurnStarted(turn) =>
          changed := changed.(state := Running, turn := turn);
        case TurnCompleted(interrupted) =>
          changed := changed.(state := if interrupted then Interrupted else Completed, turn := None);
        case TurnFailed =>
          changed := changed.(state := Failed, turn := None);
        case Requested(Approval, _) =>
          changed := changed.(approvals := changed.approvals + 1);
          changed := changed.(state := WaitingApproval);
        case Requested(Question, _) =>
          changed := changed.(questions := changed.questions + 1);
          if changed.approvals == 0 {
            changed := changed.(state := WaitingInput);
          }
        case Resolved(Approval, _) =>
          changed := Restored(changed.(approvals := Less(changed.approvals)));
        case Resolved(Question, _) =>
          changed := Restored(changed.(questions := Less(changed.questions)));
        case _ =>
      }
      agents := agents[agent := changed];
    }

    /** Publication without its consequences for the prompt queue. */
    method Observe(agent: AgentId, kind: EventKind)
      requires Valid() && !kind.BrokerError?
      modifies this, replay
      ensures Valid()
      ensures View() == Observed(Announced(Guarded(old(View()), agent, kind), agent, kind), agent, kind)
    {
      if mode == Durable && phase != Ready && kind.Requested? && agent in agents {
        trace := trace + [Warned({agent})];
      }
      Announce(agent, kind);
      ApplyEventState(agent, kind);
    }

    method HandleProviderEvent(agent: AgentId, kind: EventKind, ok: bool)
      requires Valid() && !kind.BrokerError?
      modifies this, replay
      ensures Valid()
      ensures View() == if kind.Notice? then Announced(old(View()), agent, kind)
                        else Publish(old(View()), agent, kind, ok)
      decreases if kind.TurnCompleted? || kind.TurnFailed? then 1 else 0, 0
    {
      NoticeIsOnlyAnnounced(View(), agent, kind);
      Observe(agent, kind);
      if kind.TurnCompleted? {
        if agent in agents && agents[agent].state == Completed
           && agents[agent].approvals == 0 && agents[agent].questions == 0 {
          DispatchQueuedPrompt(agent, ok);
        } else {
          CancelQueuedPrompts(agent);
        }
      } else if kind.TurnFailed? {
        CancelQueuedPrompts(agent);
      }
    }

    method TakeQueuedPrompt(id: AgentId) returns (prompt: Prompt, requestId: RuntimeId)
      requires Valid() && id in agents && agents[id].queue != []
      modifies this
      ensures Valid()
      ensures View() == Popped(old(View()), id)
      ensures prompt == old(agents)[id].queue[0] && requestId == QueuedRequest(old(nextRuntimeRequest))
    {
      prompt := agents[id].queue[0];
      agents := agents[id := agents[id].(queue := agents[id].queue[1..])];
      requestId := QueuedRequest(nextRuntimeRequest);
      nextRuntimeRequest := nextRuntimeRequest + 1;
    }

    method DispatchQueuedPrompt(id: AgentId, ok: bool)
      requires Valid()
      modifies this, replay
      ensures Valid()
      ensures View() == DispatchNext(old(View()), id, ok)
      decreases 0, 4
    {
      if id !in agents || agents[id].queue == [] {
        return;
      }
      var prompt, requestId := TakeQueuedPrompt(id);
      if !ok {
        AbandonQueuedPrompt(id, prompt);
        return;
      }
      StartQueuedPrompt(id, prompt, requestId);
    }

    method AbandonQueuedPrompt(id: AgentId, prompt: Prompt)
      requires Valid() && id in agents
      modifies this, replay
      ensures Valid()
      ensures View() == Abandoned(old(View()), id, prompt)
      decreases 0, 3
    {
      trace := trace + [Undelivered(id, prompt)];
      HandleProviderFailure(id, ChannelUnavailable);
    }

    method StartQueuedPrompt(id: AgentId, prompt: Prompt, requestId: RuntimeId)
      requires Valid() && id in agents
      modifies this
      ensures Valid()
      ensures View() == Launched(old(View()), id, prompt, requestId)
    {
      trace := trace + [Dispatched(id, requestId, prompt)] + [Commanded(id, SendPrompt(requestId, prompt))];
      queuedRuntimeRequests := queuedRuntimeRequests + {requestId};
      agents := agents[id := agents[id].(state := Running, options := prompt.options)];
    }

    method CancelQueuedPrompts(id: AgentId)
      requires Valid()
      modifies this, replay
      ensures Valid()
      ensures View() == CancelAny(old(View()), id)
      decreases 0, 1
    {
      if id !in agents {
        return;
      }
      var count := |agents[id].queue|;
      agents := agents[id := agents[id].(queue := [])];
      if count > 0 {
        HandleProviderEvent(id, Notice(count), true);
      }
    }

    method HandleProviderFailure(id: AgentId, cause: Cause)
      requires Valid()
      modifies this, replay
      ensures Valid()
      ensures View() == if id in old(agents) then FailedWith(old(View()), id, cause) else old(View())
      decreases 0, 2
    {
      CancelQueuedPrompts(id);
      if id !in agents {
        return;
      }
      agents := agents[id := agents[id].(state := Disconnected, turn := None, approvals := 0,
                                         questions := 0, contexts := [])];
      Announce(id, BrokerError(cause));
    }

    // -------------------------------------------------------------------------
    // Runtime events

    method SendRuntimeResponse(id: RuntimeId)
      requires Valid()
      modifies this
      ensures Valid()
      ensures View() == Settled(old(View()), id)
    {
      if id !in pendingRuntimeRequests {
        return;
      }
      var pending := pendingRuntimeRequests[id];
      pendingRuntimeRequests := pendingRuntimeRequests - {id};
      if pending.generation == connectionGeneration && output.Some? {
        trace := trace + [Answered(output.value, id, pending.publicId)];
      }
    }

    method SetAgent(id: AgentId, changed: Agent)
      requires Valid() && id in agents
      modifies this`agents
      ensures View() == WithAgent(old(View()), id, changed)
    {
      agents := agents[id := changed];
    }

    method RecordStarted(id: RuntimeId, agent: AgentId, session: string)
      requires Valid()
      modifies this
      ensures Valid()
      ensures View() == OnStarted(old(View()), id, agent, session)
    {
      ghost var before := View();
      var stale := set other | other in agents && other != agent && agent in agents
        && !agents[other].live && agents[other].state == Disconnected
        && agents[other].provider == agents[agent].provider && agents[other].session == Some(session);
      assert stale == Stale(before, agent, session);
      RemoveAgents(stale);
      if agent !in agents {
        return;
      }
      SetAgent(agent, agents[agent].(session := Some(session), state := Idle));
      SendRuntimeResponse(id);
    }

    /** A request failure the provider cannot survive. */
    method Condemn(agent: AgentId, ok: bool)
      requires Valid()
      modifies this, replay
      ensures Valid()
      ensures View() == Condemned(old(View()), agent, ok)
    {
      CancelQueuedPrompts(agent);
      if agent in agents {
        SetAgent(agent, agents[agent].(state := Failed, turn := None));
        if ok {
          trace := trace + [Commanded(agent, Shutdown)];
        }
      }
    }

    method HandleRequestFailed(id: RuntimeId, agent: AgentId, failAgent: bool, ok: bool)
      requires Valid()
      modifies this, replay
      ensures Valid()
      ensures View() == OnRequestFailed(old(View()), id, agent, failAgent, ok)
    {
      if id in queuedRuntimeRequests {
        queuedRuntimeRequests := queuedRuntimeRequests - {id};
        HandleProviderFailure(agent, QueuedPromptFailed);
        return;
      }
      if failAgent {
        Condemn(agent, ok);
      }
      SendRuntimeResponse(id);
    }

    method HandleStopped(agent: AgentId)
      requires Valid()
      modifies this, replay
      ensures Valid()
      ensures View() == OnStopped(old(View()), agent)
    {
      CancelQueuedPrompts(agent);
      if agent in agents {
        var ended := agents[agent].(live := false, contexts := []);
        if ended.state != Disconnected {
          ended := ended.(state := Disconnected, turn := None);
        }
        SetAgent(agent, ended);
        trace := trace + [Released(agent)];
      }
    }

    method HandleRuntimeResponse(id: RuntimeId)
      requires Valid()
      modifies this
      ensures Valid()
      ensures View() == OnRuntime(old(View()), Response(id), true)
    {
      queuedRuntimeRequests := queuedRuntimeRequests - {id};
      SendRuntimeResponse(id);
    }

    method HandleRuntimeEvent(event: RuntimeEvent, ok: bool)
      requires Valid()
      modifies this, replay
      ensures Valid()
      ensures View() == OnRuntime(old(View()), event, ok)
    {
      match event {
        case Started(id, agent, session) => RecordStarted(id, agent, session);
        case Response(id) => HandleRuntimeResponse(id);
        case RequestFailed(id, agent, failAgent) => HandleRequestFailed(id, agent, failAgent, ok);
        case ProviderEvent(agent, kind) => HandleProviderEvent(agent, kind, ok);
        case ProviderFailed(agent) => HandleProviderFailure(agent, RuntimeFailed);
        case Stopped(agent) => HandleStopped(agent);
      }
    }

    // -------------------------------------------------------------------------
    // Client requests

    method RuntimeRequest(publicId: string) returns (id: RuntimeId)
      requires Valid()
      modifies this
      ensures Valid()
      ensures id == NextId(old(View())) && View() == Allocated(old(View()), publicId)
    {
      id := BrokerRequest(connectionGeneration, nextRuntimeRequest);
      nextRuntimeRequest := nextRuntimeRequest + 1;
      pendingRuntimeRequests := pendingRuntimeRequests[id := Pending(connectionGeneration, publicId)];
      trace := trace + [Forwarded(connectionGeneration, id, publicId)];
    }

    method ForwardCommand(agent: AgentId, publicId: string, command: Command, dropContexts: bool, ok: bool)
      requires Valid() && agent in agents
      modifies this
      ensures Valid()
      ensures View() == Forward(old(View()), agent, publicId, command, dropContexts, ok)
    {
      var id := RuntimeRequest(publicId);
      if ok {
        trace := trace + [Commanded(agent, command)];
        return;
      }
      if dropContexts {
        DropContexts(agent);
        SendRuntimeResponse(id);
      } else {
        SendRuntimeResponse(id);
        SetAgent(agent, agents[agent].(state := Disconnected));
      }
    }

    method DropContexts(agent: AgentId)
      requires Valid() && agent in agents
      modifies this
      ensures Valid()
      ensures View() == ContextsDropped(old(View()), agent)
    {
      agents := agents[agent := agents[agent].(state := Disconnected, contexts := [])];
      trace := trace + [Dropped(agent)];
    }

    /** An input takes the contexts that wait, with its own. */
    method TakeContexts(agent: AgentId, changed: Agent, contexts: seq<string>)
      requires Valid() && agent in agents
      modifies this
      ensures Valid()
      ensures View() == Gathering(old(View()), agent, changed, contexts)
    {
      agents := agents[agent := changed];
      trace := trace + [Gathered(agent, contexts)];
    }

    method QueuePrompt(agent: AgentId, publicId: string, prompt: Prompt)
      requires Valid() && agent in agents && |agents[agent].queue| < MaxQueuedPrompts
      modifies this
      ensures Valid()
      ensures View() == BrokerSteps.Reply(WithPrompt(old(View()), agent, prompt), publicId)
    {
      SetAgent(agent, agents[agent].(queue := agents[agent].queue + [prompt]));
      trace := trace + [Accepted(agent, prompt)];
      Reply(publicId);
    }

    method PromptAgent(publicId: string, call: Call, ok: bool)
      requires Valid() && call.PromptAgent?
      modifies this
      ensures Valid()
      ensures View() == OnPrompt(old(View()), publicId, call, ok)
    {
      if call.text == "" || call.agent !in agents {
        Reply(publicId);
        return;
      }
      var agent := agents[call.agent];
      var options := if call.options.Some? then call.options.value else agent.options;
      var queueIt := call.queue && Busy(agent.state);
      var prompt := Prompt(call.text, agent.contexts + call.contexts, options);
      if !(queueIt || Resting(agent.state)) || (queueIt && |agent.queue| >= MaxQueuedPrompts)
         || !ContextsFit(prompt.contexts) {
        Reply(publicId);
        return;
      }
      if queueIt {
        TakeContexts(call.agent, agent.(contexts := []), prompt.contexts);
        QueuePrompt(call.agent, publicId, prompt);
        return;
      }
      var command := SendPrompt(BrokerRequest(connectionGeneration, nextRuntimeRequest), prompt);
      TakeContexts(call.agent, agent.(contexts := [], state := Running, options := options), prompt.contexts);
      ForwardCommand(call.agent, publicId, command, false, ok);
    }

    method SteerAgent(publicId: string, call: Call, ok: bool)
      requires Valid() && call.SteerAgent?
      modifies this
      ensures Valid()
      ensures View() == OnSteer(old(View()), publicId, call, ok)
    {
      if call.text == "" || call.agent !in agents {
        Reply(publicId);
        return;
      }
      var agent := agents[call.agent];
      var contexts := agent.contexts + call.contexts;
      if (call.options.Some? && call.options.value != agent.options) || agent.state != Running
         || !ContextsFit(contexts) {
        Reply(publicId);
        return;
      }
      var command := SendSteer(BrokerRequest(connectionGeneration, nextRuntimeRequest), call.text, contexts);
      TakeContexts(call.agent, agent.(contexts := []), contexts);
      ForwardCommand(call.agent, publicId, command, false, ok);
    }

    method InterruptAgent(publicId: string, agent: AgentId, ok: bool)
      requires Valid()
      modifies this, replay
      ensures Valid()
      ensures View() == OnInterrupt(old(View()), publicId, agent, ok)
    {
      CancelQueuedPrompts(agent);
      if agent !in agents {
        Reply(publicId);
        return;
      }
      var id := BrokerRequest(connectionGeneration, nextRuntimeRequest);
      ForwardCommand(agent, publicId, Command.Interrupt(id), false, ok);
    }

    method AddContext(publicId: string, id: AgentId, context: string)
      requires Valid()
      modifies this
      ensures Valid()
      ensures View() == OnContext(old(View()), publicId, id, context)
    {
      if id in agents && agents[id].live && agents[id].state != Disconnected
         && ContextsFit(agents[id].contexts + [context]) {
        agents := agents[id := agents[id].(contexts := agents[id].contexts + [context])];
        trace := trace + [Attached(id, context)];
      }
      Reply(publicId);
    }

    method LaunchAgent(publicId: string, launch: LaunchSpec, contexts: seq<string>)
      requires Valid()
      modifies this
      ensures Valid()
      ensures View() == OnLaunch(old(View()), publicId, launch, contexts)
    {
      if LaunchIsBlocked(launch.workspace) {
        Reply(publicId);
        return;
      }
      var id := RuntimeRequest(publicId);
      agents := agents[nextAgent :=
        Agent(launch.provider, launch.workspace, None, Starting, None, 0, 0, contexts, [], launch.options, true)];
      trace := trace + [Spawned(nextAgent, id, launch.provider, contexts)];
      agentOrder := agentOrder + [nextAgent];
      nextAgent := nextAgent + 1;
    }

    predicate LaunchIsBlocked(workspace: string)
      reads this, replay
      ensures LaunchIsBlocked(workspace) == LaunchBlocked(View(), workspace)
    {
      || (mode == Embedded && exists id :: id in agents && agents[id].live)
      || (exists id :: id in agents && agents[id].live && agents[id].state != Disconnected
            && agents[id].state != Failed && agents[id].workspace == workspace)
    }

    method RetireAgent(id: AgentId, ok: bool)
      requires Valid() && id in agents
      modifies this
      ensures Valid()
      ensures View() == Retire(old(View()), id, ok)
    {
      if ok {
        trace := trace + [Commanded(id, Shutdown)];
      }
      trace := trace + [Released(id)];
      SetAgent(id, agents[id].(live := false, state := Disconnected, turn := None, approvals := 0,
                               questions := 0, contexts := []));
    }

    method ForkAgent(publicId: string, id: AgentId, ok: bool)
      requires Valid()
      modifies this
      ensures Valid()
      ensures View() == OnFork(old(View()), publicId, id, ok)
    {
      if id !in agents || !Resting(agents[id].state) || agents[id].approvals > 0
         || agents[id].questions > 0 || agents[id].session.None? {
        Reply(publicId);
        return;
      }
      var source := agents[id];
      RetireAgent(id, ok);
      LaunchAgent(publicId, LaunchSpec(source.provider, source.workspace, source.options), source.contexts);
    }

    method ArchiveAgent(publicId: string, id: AgentId, ok: bool)
      requires Valid()
      modifies this
      ensures Valid()
      ensures View() == OnArchive(old(View()), publicId, id, ok)
    {
      if id !in agents || HasWork(agents[id]) {
        Reply(publicId);
        return;
      }
      if agents[id].live {
        RetireAgent(id, ok);
      }
      RemoveAgents({id});
      Reply(publicId);
    }

    method RemoveAgents(gone: set<AgentId>)
      requires Valid()
      modifies this
      ensures Valid()
      ensures View() == Removed(old(View()), gone)
    {
      agents := agents - gone;
      agentOrder := Without(agentOrder, gone);
    }

    method RetireAgents(ids: seq<AgentId>, ok: bool)
      requires Valid()
      modifies this
      ensures Valid()
      ensures View() == RetireAll(old(View()), ids, ok)
    {
      var i := 0;
      while i < |ids|
        invariant 0 <= i <= |ids|
        invariant Valid()
        invariant RetireAll(View(), ids[i..], ok) == RetireAll(old(View()), ids, ok)
      {
        assert ids[i..][1..] == ids[i + 1..];
        if ids[i] in agents && agents[ids[i]].live {
          RetireAgent(ids[i], ok);
        }
        i := i + 1;
      }
    }

    method DeleteSession(publicId: string, provider: Provider, session: string, deleted: bool, ok: bool)
      requires Valid()
      modifies this
      ensures Valid()
      ensures View() == OnDelete(old(View()), publicId, provider, session, deleted, ok)
    {
      var ids := SessionAgents(provider, session);
      if exists i :: 0 <= i < |ids| && ids[i] in agents && HasWork(agents[ids[i]]) {
        Reply(publicId);
      } else {
        DropAgents(publicId, ids, deleted, ok);
      }
    }

    method DropAgents(publicId: string, ids: seq<AgentId>, deleted: bool, ok: bool)
      requires Valid()
      modifies this
      ensures Valid()
      ensures View() == OnDeleted(old(View()), publicId, ids, deleted, ok)
    {
      RetireAgents(ids, ok);
      if deleted {
        RemoveAgents(set i | 0 <= i < |ids| :: ids[i]);
      }
      Reply(publicId);
    }

    method SessionAgents(provider: Provider, session: string) returns (ids: seq<AgentId>)
      requires Valid()
      ensures ids == OfSession(agents, agentOrder, provider, session)
    {
      ids := [];
      var i := 0;
      while i < |agentOrder|
        invariant 0 <= i <= |agentOrder|
        invariant ids + OfSession(agents, agentOrder[i..], provider, session)
               == OfSession(agents, agentOrder, provider, session)
      {
        var rest := agentOrder[i..];
        assert rest[0] == agentOrder[i] && rest[1..] == agentOrder[i + 1..];
        if Holds(agents, agentOrder[i], provider, session) {
          ids := ids + [agentOrder[i]];
        }
        i := i + 1;
      }
    }

    method HandleInitialize(publicId: string, valid: bool, lastSequence: Option<nat>)
      requires Valid() && phase == AwaitInitialize
      modifies this
      ensures Valid()
      ensures View() == OnInitialize(old(View()), publicId, valid, lastSequence)
    {
      if valid {
        phase := AwaitInitialized;
        reconnectCursor := if lastSequence.Some? then lastSequence.value else 0;
        var bounds := replay.Bounds();
        var result := replay.ReplayAfter(reconnectCursor);
        if mode == Durable && result.ResyncRequired? && bounds.Some? {
          reconnectCursor := bounds.value.1;
        }
      }
      Reply(publicId);
    }

    method HandleRequest(publicId: string, call: Call, ok: bool)
      requires Valid()
      modifies this, replay
      ensures Valid()
      ensures View() == OnCall(old(View()), publicId, call, ok)
    {
      if phase == AwaitInitialize && call.Initialize? {
        HandleInitialize(publicId, call.valid, call.lastSequence);
        return;
      }
      if phase != Ready {
        Reply(publicId);
        return;
      }
      if IsCommand(call) {
        HandleCommandRequest(publicId, call, ok);
      } else {
        HandleLifecycleRequest(publicId, call, ok);
      }
    }

    method HandleCommandRequest(publicId: string, call: Call, ok: bool)
      requires Valid()
      modifies this, replay
      ensures Valid()
      ensures View() == OnCommand(old(View()), publicId, call, ok)
    {
      var next := BrokerRequest(connectionGeneration, nextRuntimeRequest);
      match call {
        case PromptAgent(_, _, _, _, _) => PromptAgent(publicId, call, ok);
        case SteerAgent(_, _, _, _) => SteerAgent(publicId, call, ok);
        case InterruptAgent(agent) => InterruptAgent(publicId, agent, ok);
        case RespondTo(agent, human, action, decision) =>
          OfferCommand(agent, publicId, Answer(next, human, action, decision), agent in agents, ok);
        case ReadHistory(agent) =>
          OfferCommand(agent, publicId, History(next), agent in agents && agents[agent].live, ok);
        case _ => Reply(publicId);
      }
    }

    /** Forwards a command that may be sent, and refuses any other. */
    method OfferCommand(agent: AgentId, publicId: string, command: Command, allowed: bool, ok: bool)
      requires Valid() && (allowed ==> agent in agents)
      modifies this
      ensures Valid()
      ensures View() == if allowed then Forward(old(View()), agent, publicId, command, true, ok)
                        else BrokerSteps.Reply(old(View()), publicId)
    {
      if allowed {
        ForwardCommand(agent, publicId, command, true, ok);
      } else {
        Reply(publicId);
      }
    }

    method HandleLifecycleRequest(publicId: string, call: Call, ok: bool)
      requires Valid()
      modifies this
      ensures Valid()
      ensures View() == OnLifecycle(old(View()), publicId, call, ok)
    {
      match call {
        case AddContext(agent, context) => AddContext(publicId, agent, context);
        case Launch(launch) => LaunchAgent(publicId, launch, []);
        case ForkAgent(agent) => ForkAgent(publicId, agent, ok);
        case ArchiveAgent(agent) => ArchiveAgent(publicId, agent, ok);
        case DeleteSession(provider, session, deleted) => DeleteSession(publicId, provider, session, deleted, ok);
        case ShutdownBroker => ShutDown(publicId);
        case _ => Reply(publicId);
      }
    }

    /** Only the embedded broker lets its client shut it down. */
    method ShutDown(publicId: string)
      requires Valid()
      modifies this
      ensures Valid()
      ensures View() == OnShutdown(old(View()), publicId)
    {
      Reply(publicId);
      if mode == Embedded {
        running := false;
      }
    }

    /** One turn of the broker's loop. */
    method Take(input: Input, ok: bool)
      requires Valid()
      modifies this, replay
      ensures Valid()
      ensures View() == Step(old(View()), input, ok)
    {
      if !running {
        return;
      }
      match input {
        case Connected(generation) => Connect(generation);
        case Initialized(generation) =>
          if generation == connectionGeneration {
            HandleInitialized();
          }
        case Request(generation, publicId, call) =>
          if generation == connectionGeneration {
            HandleRequest(publicId, call, ok);
          }
        case Lost(generation) =>
          if generation == connectionGeneration {
            if mode == Embedded {
              running := false;
            } else {
              Disconnect(generation);
            }
          }
        case FromRuntime(event) => HandleRuntimeEvent(event, ok);
      }
    }

    method Serve(turns: seq<Turn>)
      requires Valid()
      modifies this, replay
      ensures Valid()
      ensures View() == Run(old(View()), turns)
    {
      var i := 0;
      while i < |turns|
        invariant 0 <= i <= |turns|
        invariant Valid()
        invariant View() == Run(old(View()), turns[..i])
      {
        Take(turns[i].input, turns[i].ok);
        i := i + 1;
        assert turns[..i][..|turns[..i]| - 1] == turns[..i - 1];
      }
      assert turns[..i] == turns;
    }
  }

  lemma NoticeIsOnlyAnnounced(s: State, agent: AgentId, kind: EventKind)
    ensures kind.Notice? ==>
      Observed(Announced(Guarded(s, agent, kind), agent, kind), agent, kind) == Announced(s, agent, kind)
  {
    var t := Announced(s, agent, kind);
    if kind.Notice? && agent in t.agents {
      assert t.agents[agent := t.agents[agent]] == t.agents;
    }
  }
}
