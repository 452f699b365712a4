/** Every request of a client is either replied to at once or forwarded, exactly once. */
module RequestReplies {
  import opened Options
  import opened Protocol
  import opened BrokerSteps
  import opened BrokerRuns

  /** Whom the broker replied to or forwarded for, in order. */
  function Handled(trace: seq<Action>): seq<(nat, string)> {
    if trace == [] then []
    else
      var last := trace[|trace| - 1];
      Handled(trace[..|trace| - 1])
      + if last.Replied? || last.Forwarded? then [(last.generation, last.publicId)] else []
  }

  lemma HandledSnoc(trace: seq<Action>, action: Action)
    ensures Handled(trace + [action])
         == Handled(trace) + if action.Replied? || action.Forwarded? then [(action.generation, action.publicId)] else []
  {
    assert (trace + [action])[..|trace|] == trace;
  }

  /** The same connection, and nobody was handled in between. */
  ghost predicate Same(s: State, t: State) {
    Handled(t.trace) == Handled(s.trace) && t.connected == s.connected && t.generation == s.generation
  }

  ghost predicate Once(s: State, t: State, publicId: string) {
    Handled(t.trace) == Handled(s.trace) + [(s.generation, publicId)]
  }

  predicate IsOther(action: Action) {
    !action.Replied? && !action.Forwarded?
  }

  lemma OtherRecord(s: State, action: Action)
    requires IsOther(action)
    ensures Same(s, Record(s, action))
  {
    HandledSnoc(s.trace, action);
    assert Handled(s.trace) + [] == Handled(s.trace);
  }

  lemma AnnouncedSame(s: State, id: AgentId, kind: EventKind)
    ensures Same(s, Announced(s, id, kind))
  {
    var event := Event(|s.log| + 1, id, kind);
    var logged := Record(s.(log := s.log + [event]), Logged(event));
    OtherRecord(s.(log := s.log + [event]), Logged(event));
    OtherRecord(logged, Delivered(s.generation, event));
  }

  lemma CancelSame(s: State, id: AgentId)
    ensures Same(s, CancelAny(s, id))
  {
    if id in s.agents {
      AnnouncedSame(WithAgent(s, id, s.agents[id].(queue := [])), id, Notice(|s.agents[id].queue|));
    }
  }

  lemma SettledSame(s: State, id: RuntimeId)
    ensures Same(s, Settled(s, id))
  {
    if id in s.pending {
      OtherRecord(s.(pending := s.pending - {id}), Answered(s.generation, id, s.pending[id].publicId));
    }
  }

  lemma RetireSame(s: State, id: AgentId, ok: bool)
    requires id in s.agents
    ensures Same(s, Retire(s, id, ok))
  {
    var t := if ok then Record(s, Commanded(id, Shutdown)) else s;
    OtherRecord(s, Commanded(id, Shutdown));
    OtherRecord(WithAgent(t, id, Severed(s.agents[id]).(live := false)), Released(id));
  }

  lemma {:induction false} RetireAllSame(s: State, ids: seq<AgentId>, ok: bool)
    ensures Same(s, RetireAll(s, ids, ok))
    decreases |ids|
  {
    if ids != [] {
      if ids[0] in s.agents { RetireSame(s, ids[0], ok); }
      RetireAllSame(if ids[0] in s.agents && s.agents[ids[0]].live then Retire(s, ids[0], ok) else s, ids[1..], ok);
    }
  }

  lemma ReplyOnce(s: State, t: State, publicId: string)
    requires Same(s, t) && s.connected
    ensures Once(s, Reply(t, publicId), publicId)
  {
    HandledSnoc(t.trace, Replied(t.generation, publicId));
  }

  lemma ForwardOnce(s: State, t: State, agent: AgentId, publicId: string, command: Command, drop: bool, ok: bool)
    requires Same(s, t) && agent in t.agents
    ensures Once(s, Forward(t, agent, publicId, command, drop, ok), publicId)
  {
    var u := Allocated(t, publicId);
    HandledSnoc(t.trace, Forwarded(t.generation, NextId(t), publicId));
    OtherRecord(u, Commanded(agent, command));
    OtherRecord(WithAgent(u, agent, u.agents[agent].(state := Disconnected, contexts := [])), Dropped(agent));
    SettledSame(ContextsDropped(u, agent), NextId(t));
    SettledSame(u, NextId(t));
  }

  lemma GatheringSame(s: State, id: AgentId, changed: Agent, contexts: seq<string>)
    ensures Same(s, Gathering(s, id, changed, contexts))
  {
    OtherRecord(WithAgent(s, id, changed), Gathered(id, contexts));
  }

  lemma PromptOnce(s: State, publicId: string, call: Call, ok: bool)
    requires call.PromptAgent? && s.connected
    ensures Once(s, OnPrompt(s, publicId, call, ok), publicId)
  {
    ReplyOnce(s, s, publicId);
    if call.agent in s.agents {
      var agent := s.agents[call.agent];
      var options := if call.options.Some? then call.options.value else agent.options;
      var prompt := Prompt(call.text, agent.contexts + call.contexts, options);
      var kept, running := agent.(contexts := []), agent.(contexts := [], state := Running, options := options);
      GatheringSame(s, call.agent, kept, prompt.contexts);
      GatheringSame(s, call.agent, running, prompt.contexts);
      QueuedOnce(s, Gathering(s, call.agent, kept, prompt.contexts), call.agent, prompt, publicId);
      ForwardOnce(s, Gathering(s, call.agent, running, prompt.contexts), call.agent, publicId,
                  SendPrompt(NextId(s), prompt), false, ok);
    }
  }

  lemma QueuedOnce(s: State, t: State, id: AgentId, prompt: Prompt, publicId: string)
    requires Same(s, t) && id in t.agents && s.connected
    ensures Once(s, Reply(WithPrompt(t, id, prompt), publicId), publicId)
  {
    OtherRecord(WithAgent(t, id, t.agents[id].(queue := t.agents[id].queue + [prompt])), Accepted(id, prompt));
    ReplyOnce(s, WithPrompt(t, id, prompt), publicId);
  }

  lemma SteerOnce(s: State, publicId: string, call: Call, ok: bool)
    requires call.SteerAgent? && s.connected
    ensures Once(s, OnSteer(s, publicId, call, ok), publicId)
  {
    ReplyOnce(s, s, publicId);
    if call.agent in s.agents {
      var agent := s.agents[call.agent];
      var contexts := agent.contexts + call.contexts;
      GatheringSame(s, call.agent, agent.(contexts := []), contexts);
      ForwardOnce(s, Gathering(s, call.agent, agent.(contexts := []), contexts), call.agent, publicId,
                  SendSteer(NextId(s), call.text, contexts), false, ok);
    }
  }

  lemma CommandOnce(s: State, publicId: string, call: Call, ok: bool)
    requires s.connected
    ensures Once(s, OnCommand(s, publicId, call, ok), publicId)
  {
    ReplyOnce(s, s, publicId);
    match call
    case PromptAgent(_, _, _, _, _) => PromptOnce(s, publicId, call, ok);
    case SteerAgent(_, _, _, _) => SteerOnce(s, publicId, call, ok);
    case InterruptAgent(agent) =>
      CancelSame(s, agent);
      var t := CancelAny(s, agent);
      ReplyOnce(s, t, publicId);
      if agent in t.agents { ForwardOnce(s, t, agent, publicId, Command.Interrupt(NextId(t)), false, ok); }
    case RespondTo(agent, human, action, decision) =>
      if agent in s.agents {
        ForwardOnce(s, s, agent, publicId, Answer(NextId(s), human, action, decision), true, ok);
      }
    case ReadHistory(agent) =>
      if agent in s.agents { ForwardOnce(s, s, agent, publicId, History(NextId(s)), true, ok); }
    case _ =>
  }

  lemma LaunchOnce(s: State, t: State, publicId: string, launch: LaunchSpec, contexts: seq<string>)
    requires Same(s, t) && s.connected
    ensures Once(s, OnLaunch(t, publicId, launch, contexts), publicId)
  {
    ReplyOnce(s, t, publicId);
    HandledSnoc(t.trace, Forwarded(t.generation, NextId(t), publicId));
    HandledSnoc(Allocated(t, publicId).trace, Spawned(t.nextAgent, NextId(t), launch.provider, contexts));
  }

  lemma ContextOnce(s: State, publicId: string, id: AgentId, context: string)
    requires s.connected
    ensures Once(s, OnContext(s, publicId, id, context), publicId)
  {
    ReplyOnce(s, s, publicId);
    if id in s.agents {
      OtherRecord(WithAgent(s, id, s.agents[id].(contexts := s.agents[id].contexts + [context])),
                  Attached(id, context));
      ReplyOnce(s, WithContext(s, id, context), publicId);
    }
  }

  lemma ForkOnce(s: State, publicId: string, id: AgentId, ok: bool)
    requires s.connected
    ensures Once(s, OnFork(s, publicId, id, ok), publicId)
  {
    ReplyOnce(s, s, publicId);
    if id in s.agents {
      RetireSame(s, id, ok);
      var source := s.agents[id];
      LaunchOnce(s, Retire(s, id, ok), publicId,
                 LaunchSpec(source.provider, source.workspace, source.options), source.contexts);
    }
  }

  lemma ArchiveOnce(s: State, publicId: string, id: AgentId, ok: bool)
    requires s.connected
    ensures Once(s, OnArchive(s, publicId, id, ok), publicId)
  {
    ReplyOnce(s, s, publicId);
    if id in s.agents {
      RetireSame(s, id, ok);
      RemovedOnce(s, Retire(s, id, ok), {id}, publicId);
      RemovedOnce(s, s, {id}, publicId);
    }
  }

  lemma RemovedOnce(s: State, t: State, gone: set<AgentId>, publicId: string)
    requires Same(s, t) && s.connected
    ensures Once(s, Reply(Removed(t, gone), publicId), publicId)
  {
    ReplyOnce(s, Removed(t, gone), publicId);
  }

  lemma DeleteOnce(s: State, publicId: string, provider: Provider, session: string, deleted: bool, ok: bool)
    requires s.connected
    ensures Once(s, OnDelete(s, publicId, provider, session, deleted, ok), publicId)
  {
    ReplyOnce(s, s, publicId);
    var ids := OfSession(s.agents, s.order, provider, session);
    var t := RetireAll(s, ids, ok);
    RetireAllSame(s, ids, ok);
    ReplyOnce(s, t, publicId);
    RemovedOnce(s, t, set i | 0 <= i < |ids| :: ids[i], publicId);
  }

  lemma LifecycleOnce(s: State, publicId: string, call: Call, ok: bool)
    requires s.connected
    ensures Once(s, OnLifecycle(s, publicId, call, ok), publicId)
  {
    ReplyOnce(s, s, publicId);
    match call
    case AddContext(id, context) => ContextOnce(s, publicId, id, context);
    case Launch(launch) => LaunchOnce(s, s, publicId, launch, []);
    case ForkAgent(id) => ForkOnce(s, publicId, id, ok);
    case ArchiveAgent(id) => ArchiveOnce(s, publicId, id, ok);
    case DeleteSession(provider, session, deleted) => DeleteOnce(s, publicId, provider, session, deleted, ok);
    case _ =>
  }

  lemma CallOnce(s: State, publicId: string, call: Call, ok: bool)
    requires s.connected
    ensures Once(s, OnCall(s, publicId, call, ok), publicId)
  {
    ReplyOnce(s, s, publicId);
    CommandOnce(s, publicId, call, ok);
    LifecycleOnce(s, publicId, call, ok);
    if s.phase.AwaitInitialize? && call.Initialize? {
      InitializeOnce(s, publicId, call.valid, call.lastSequence);
    }
  }

  lemma InitializeOnce(s: State, publicId: string, valid: bool, lastSequence: Option<nat>)
    requires s.connected && s.phase.AwaitInitialize?
    ensures Once(s, OnInitialize(s, publicId, valid, lastSequence), publicId)
  {
    var cursor := if lastSequence.Some? then lastSequence.value else 0;
    ReplyOnce(s, s, publicId);
    ReplyOnce(s, s.(phase := AwaitInitialized, cursor := cursor), publicId);
    ReplyOnce(s, s.(phase := AwaitInitialized, cursor := |s.log|), publicId);
  }

  /** In every state, a request on the current connection is replied to or forwarded, exactly once and
      under its own id; what is forwarded is answered at most once. */
  lemma EveryRequestIsHandledOnce(s: State, publicId: string, call: Call, ok: bool)
    requires s.running && s.connected
    ensures Handled(Step(s, Request(s.generation, publicId, call), ok).trace)
         == Handled(s.trace) + [(s.generation, publicId)]
  {
    CallOnce(s, publicId, call, ok);
    assert Step(s, Request(s.generation, publicId, call), ok) == OnCall(s, publicId, call, ok);
  }
}
