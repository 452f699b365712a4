/** A property that every atomic effect keeps is kept by every run of the broker. */
module BrokerRuns {
  import opened Options
  import opened Protocol
  import opened Replay
  import opened BrokerSteps

  /** An event changes neither the queue nor the task of its agent. */
  lemma TrackedKeepsQueue(agent: Agent, kind: EventKind)
    ensures Tracked(agent, kind).queue == agent.queue && Tracked(agent, kind).live == agent.live
  {
  }

  /** What a local effect records. */
  function LocalMark(s: State, e: Effect): seq<Action> {
    match e
    case Attach(agent, context) => [Attached(agent, context)]
    case Gather(agent, _, contexts) => [Gathered(agent, contexts)]
    case Drop(agent) => [Dropped(agent)]
    case Accept(agent, prompt) => [Accepted(agent, prompt)]
    case Insert(added, id) => [Spawned(s.nextAgent, id, added.provider, added.contexts)]
    case Bury(agent, _) => [Released(agent)]
    case _ => []
  }

  /** A local effect changes the table and records at most one action. */
  lemma LocalShape(s: State, e: Effect)
    requires Enabled(s, e) && IsLocal(e)
    ensures var t := Apply(s, e);
      t == s.(agents := t.agents, order := t.order, nextAgent := t.nextAgent, trace := s.trace + LocalMark(s, e))
  {
    if e.Alter? || e.Remove? { assert s.trace + [] == s.trace; }
  }

  ghost predicate Kept(p: State -> bool) {
    forall s, e {:trigger Apply(s, e)} :: p(s) && Enabled(s, e) ==> p(Apply(s, e))
  }

  lemma CancelledAgents(s: State, id: AgentId)
    requires id in s.agents
    ensures Cancelled(s, id).agents == s.agents[id := s.agents[id].(queue := [])] && Cancelled(s, id).mode == s.mode
  {
  }

  lemma FailedAgents(s: State, id: AgentId, cause: Cause)
    requires id in s.agents
    ensures FailedWith(s, id, cause).agents == s.agents[id := Severed(s.agents[id].(queue := []))]
    ensures FailedWith(s, id, cause).mode == s.mode
  {
    CancelledAgents(s, id);
    var cancelled := Cancelled(s, id);
    assert cancelled.agents[id := Severed(cancelled.agents[id])]
        == s.agents[id := Severed(s.agents[id].(queue := []))];
  }

  /** The agents a step removes and the contexts a step hands on. */
  datatype Bounds = Bounds(gone: set<AgentId>, carried: seq<string>)

  predicate Within(e: Effect, b: Bounds) {
    && (e.Remove? ==> e.agents == b.gone)
    && (e.Insert? ==> e.added.contexts == b.carried)
  }

  /** What goes with the publication of a provider's event: a warning before it, a queued prompt after it. */
  predicate Beside(e: Effect) {
    e.Dispatch? || e.Abandon? || (e.Note? && e.action.Warned?)
  }

  /** The effects that handling a request or a provider failure is made of. */
  predicate Inside(e: Effect) {
    !e.Open? && !e.Close? && !e.Finish? && !e.Announce? && !Beside(e)
  }

  ghost predicate KeptWithin(p: State -> bool, b: Bounds) {
    forall s, e {:trigger Apply(s, e)} :: p(s) && Enabled(s, e) && Within(e, b) ==> p(Apply(s, e))
  }

  ghost predicate KeptInside(p: State -> bool, b: Bounds) {
    forall s, e {:trigger Apply(s, e)} :: p(s) && Enabled(s, e) && Inside(e) && Within(e, b) ==> p(Apply(s, e))
  }

  ghost predicate KeptBeside(p: State -> bool) {
    forall s, e {:trigger Apply(s, e)} :: p(s) && Enabled(s, e) && Beside(e) ==> p(Apply(s, e))
  }

  function CallBounds(s: State, call: Call): Bounds {
    Bounds(Leaving(s, call), Carried(s, call))
  }

  lemma EffectKeeps(p: State -> bool, b: Bounds, s: State, e: Effect)
    requires KeptInside(p, b) && p(s) && Enabled(s, e) && Inside(e) && Within(e, b)
    ensures p(Apply(s, e))
  {
  }

  lemma BesideKeeps(p: State -> bool, s: State, e: Effect)
    requires KeptBeside(p) && p(s) && Enabled(s, e) && Beside(e)
    ensures p(Apply(s, e))
  {
  }

  lemma CancelKeeps(p: State -> bool, b: Bounds, s: State, agent: AgentId)
    requires KeptInside(p, b) && p(s)
    ensures p(CancelAny(s, agent))
  {
    if agent in s.agents { EffectKeeps(p, b, s, Cancel(agent)); }
  }

  lemma FailKeeps(p: State -> bool, b: Bounds, s: State, agent: AgentId, cause: Cause)
    requires KeptInside(p, b) && p(s) && !cause.ChannelUnavailable?
    ensures p(FailAny(s, agent, cause))
  {
    if agent in s.agents { EffectKeeps(p, b, s, Fail(agent, cause)); }
  }

  lemma GuardKeeps(p: State -> bool, s: State, agent: AgentId, kind: EventKind)
    requires KeptBeside(p) && p(s)
    ensures p(Guarded(s, agent, kind))
  {
    if Guarded(s, agent, kind) != s { BesideKeeps(p, s, Note(Warned({agent}))); }
  }

  /** What follows the publication of an event. */
  lemma FollowUpKeeps(p: State -> bool, b: Bounds, s: State, agent: AgentId, kind: ProviderKind, ok: bool)
    requires KeptInside(p, b) && KeptBeside(p) && p(s)
    ensures p(FollowUp(s, agent, kind, ok))
  {
    CancelKeeps(p, b, s, agent);
    if agent in s.agents && s.agents[agent].queue != [] {
      BesideKeeps(p, s, if ok then Dispatch(agent) else Abandon(agent));
    }
  }

  lemma PublishKeeps(p: State -> bool, b: Bounds, s: State, agent: AgentId, kind: ProviderKind, ok: bool)
    requires KeptWithin(p, b) && p(s)
    ensures p(Publish(s, agent, kind, ok))
  {
    GuardKeeps(p, s, agent, kind);
    var t := Apply(Guarded(s, agent, kind), Announce(agent, kind));
    assert p(t);
    FollowUpKeeps(p, b, t, agent, kind, ok);
  }

  lemma StartedKeeps(p: State -> bool, b: Bounds, s: State, id: RuntimeId, agent: AgentId, session: string)
    requires KeptInside(p, b) && p(s) && b.gone == Stale(s, agent, session)
    ensures p(OnStarted(s, id, agent, session))
  {
    EffectKeeps(p, b, s, Remove(Stale(s, agent, session)));
    var t := Apply(s, Remove(Stale(s, agent, session)));
    if agent in t.agents {
      var started := Alter(agent, t.agents[agent].(session := Some(session), state := Idle));
      EffectKeeps(p, b, t, started);
      EffectKeeps(p, b, Apply(t, started), Settle(id));
    }
  }

  lemma CondemnedKeeps(p: State -> bool, b: Bounds, s: State, agent: AgentId, ok: bool)
    requires KeptInside(p, b) && p(s)
    ensures p(Condemned(s, agent, ok))
  {
    CancelKeeps(p, b, s, agent);
    var t := CancelAny(s, agent);
    if agent in t.agents {
      var failed := Alter(agent, t.agents[agent].(state := Failed, turn := None));
      EffectKeeps(p, b, t, failed);
      EffectKeeps(p, b, Apply(t, failed), Note(Commanded(agent, Shutdown)));
    }
  }

  lemma RuntimeKeeps(p: State -> bool, b: Bounds, s: State, event: RuntimeEvent, ok: bool)
    requires KeptInside(p, b) && p(s)
    requires !event.ProviderEvent? && b.gone == DepartingOn(s, event)
    ensures p(OnRuntime(s, event, ok))
  {
    match event
    case Started(id, agent, session) => StartedKeeps(p, b, s, id, agent, session);
    case Response(id) =>
      EffectKeeps(p, b, s, Unqueue(id));
      EffectKeeps(p, b, Apply(s, Unqueue(id)), Settle(id));
    case RequestFailed(id, agent, failAgent) =>
      if id in s.queued {
        EffectKeeps(p, b, s, Unqueue(id));
        FailKeeps(p, b, Apply(s, Unqueue(id)), agent, QueuedPromptFailed);
      } else {
        CondemnedKeeps(p, b, s, agent, ok);
        EffectKeeps(p, b, if failAgent then Condemned(s, agent, ok) else s, Settle(id));
      }
    case ProviderFailed(agent) => FailKeeps(p, b, s, agent, RuntimeFailed);
    case Stopped(agent) =>
      CancelKeeps(p, b, s, agent);
      var t := CancelAny(s, agent);
      if agent in t.agents { EffectKeeps(p, b, t, Bury(agent, Ended(t.agents[agent]))); }
  }

  lemma ReplyKeeps(p: State -> bool, b: Bounds, s: State, publicId: string)
    requires KeptInside(p, b) && p(s)
    ensures p(Reply(s, publicId))
  {
    EffectKeeps(p, b, s, Note(Replied(s.generation, publicId)));
  }

  lemma ForwardKeeps(p: State -> bool, b: Bounds, s: State, agent: AgentId, publicId: string, command: Command,
                     dropContexts: bool, ok: bool)
    requires KeptInside(p, b) && p(s) && agent in s.agents && !command.ClientDisconnected?
    requires CarriesGathered(Allocated(s, publicId).trace, agent, command)
    ensures p(Forward(s, agent, publicId, command, dropContexts, ok))
  {
    var t := Allocated(s, publicId);
    EffectKeeps(p, b, s, Allocate(publicId));
    if ok {
      EffectKeeps(p, b, t, Note(Commanded(agent, command)));
    } else {
      BrokenKeeps(p, b, t, agent, NextId(s));
    }
  }

  lemma BrokenKeeps(p: State -> bool, b: Bounds, s: State, agent: AgentId, id: RuntimeId)
    requires KeptInside(p, b) && p(s) && agent in s.agents
    ensures p(Settled(ContextsDropped(s, agent), id))
    ensures p(WithAgent(Settled(s, id), agent, s.agents[agent].(state := Disconnected)))
  {
    EffectKeeps(p, b, s, Drop(agent));
    EffectKeeps(p, b, ContextsDropped(s, agent), Settle(id));
    EffectKeeps(p, b, s, Settle(id));
    EffectKeeps(p, b, Settled(s, id), Alter(agent, s.agents[agent].(state := Disconnected)));
  }

  lemma InputKeeps(p: State -> bool, b: Bounds, s: State, publicId: string, call: Call, ok: bool)
    requires KeptInside(p, b) && p(s) && (call.PromptAgent? || call.SteerAgent?)
    ensures call.PromptAgent? ==> p(OnPrompt(s, publicId, call, ok))
    ensures call.SteerAgent? ==> p(OnSteer(s, publicId, call, ok))
  {
    ReplyKeeps(p, b, s, publicId);
    if call.agent in s.agents {
      var agent := s.agents[call.agent];
      var contexts := agent.contexts + call.contexts;
      if ContextsFit(contexts) {
        if call.SteerAgent? {
          SteerKeeps(p, b, s, publicId, call.agent, call.text, contexts, ok);
        } else {
          var options := if call.options.Some? then call.options.value else agent.options;
          PromptKeeps(p, b, s, publicId, call.agent, Prompt(call.text, contexts, options), ok);
        }
      }
    }
  }

  lemma GatheringKeeps(p: State -> bool, b: Bounds, s: State, id: AgentId, changed: Agent, contexts: seq<string>)
    requires KeptInside(p, b) && p(s) && Enabled(s, Gather(id, changed, contexts))
    ensures p(Gathering(s, id, changed, contexts))
    ensures forall publicId: string, command: Command {:trigger CarriesGathered(
      Allocated(Gathering(s, id, changed, contexts), publicId).trace, id, command)} ::
      (command.SendPrompt? ==> command.prompt.contexts == contexts && command.id == NextId(s)) &&
      (command.SendSteer? ==> command.contexts == contexts && command.id == NextId(s)) ==>
        CarriesGathered(Allocated(Gathering(s, id, changed, contexts), publicId).trace, id, command)
  {
    EffectKeeps(p, b, s, Gather(id, changed, contexts));
    var t := Gathering(s, id, changed, contexts);
    forall publicId: string ensures var u := Allocated(t, publicId); u.trace[..|u.trace| - 1] == t.trace {}
  }

  lemma SteerKeeps(p: State -> bool, b: Bounds, s: State, publicId: string, id: AgentId, text: string,
                   contexts: seq<string>, ok: bool)
    requires KeptInside(p, b) && p(s) && id in s.agents
    requires s.agents[id].contexts <= contexts && ContextsFit(contexts)
    ensures p(Forward(Gathering(s, id, s.agents[id].(contexts := []), contexts), id, publicId,
                      SendSteer(NextId(s), text, contexts), false, ok))
  {
    GatheringKeeps(p, b, s, id, s.agents[id].(contexts := []), contexts);
    ForwardKeeps(p, b, Gathering(s, id, s.agents[id].(contexts := []), contexts), id, publicId,
                 SendSteer(NextId(s), text, contexts), false, ok);
  }

  lemma PromptKeeps(p: State -> bool, b: Bounds, s: State, publicId: string, id: AgentId, prompt: Prompt, ok: bool)
    requires KeptInside(p, b) && p(s) && id in s.agents
    requires s.agents[id].contexts <= prompt.contexts && ContextsFit(prompt.contexts)
    ensures |s.agents[id].queue| < MaxQueuedPrompts ==>
      p(Reply(WithPrompt(Gathering(s, id, s.agents[id].(contexts := []), prompt.contexts), id, prompt), publicId))
    ensures var running := s.agents[id].(contexts := [], state := Running, options := prompt.options);
      p(Forward(Gathering(s, id, running, prompt.contexts), id, publicId, SendPrompt(NextId(s), prompt), false, ok))
  {
    var kept := s.agents[id].(contexts := []);
    var running := kept.(state := Running, options := prompt.options);
    GatheringKeeps(p, b, s, id, kept, prompt.contexts);
    GatheringKeeps(p, b, s, id, running, prompt.contexts);
    if |s.agents[id].queue| < MaxQueuedPrompts {
      EffectKeeps(p, b, Gathering(s, id, kept, prompt.contexts), Accept(id, prompt));
      ReplyKeeps(p, b, WithPrompt(Gathering(s, id, kept, prompt.contexts), id, prompt), publicId);
    }
    ForwardKeeps(p, b, Gathering(s, id, running, prompt.contexts), id, publicId, SendPrompt(NextId(s), prompt),
                 false, ok);
  }

  lemma LaunchKeeps(p: State -> bool, b: Bounds, s: State, publicId: string, launch: LaunchSpec, contexts: seq<string>)
    requires KeptInside(p, b) && p(s) && (!LaunchBlocked(s, launch.workspace) ==> b.carried == contexts)
    ensures p(OnLaunch(s, publicId, launch, contexts))
  {
    ReplyKeeps(p, b, s, publicId);
    var agent := Agent(launch.provider, launch.workspace, None, Starting, None, 0, 0, contexts, [],
                       launch.options, true);
    var t := Apply(s, Allocate(publicId));
    EffectKeeps(p, b, s, Allocate(publicId));
    if !LaunchBlocked(s, launch.workspace) { EffectKeeps(p, b, t, Insert(agent, NextId(s))); }
  }

  lemma RetireKeeps(p: State -> bool, b: Bounds, s: State, id: AgentId, ok: bool)
    requires KeptInside(p, b) && p(s) && id in s.agents
    ensures p(Retire(s, id, ok))
  {
    var t := if ok then Apply(s, Note(Commanded(id, Shutdown))) else s;
    if ok { EffectKeeps(p, b, s, Note(Commanded(id, Shutdown))); }
    EffectKeeps(p, b, t, Bury(id, Severed(s.agents[id]).(live := false)));
  }

  lemma {:induction false} RetireAllKeeps(p: State -> bool, b: Bounds, s: State, ids: seq<AgentId>, ok: bool)
    requires KeptInside(p, b) && p(s)
    ensures p(RetireAll(s, ids, ok))
    decreases |ids|
  {
    if ids != [] {
      if ids[0] in s.agents { RetireKeeps(p, b, s, ids[0], ok); }
      var next := if ids[0] in s.agents && s.agents[ids[0]].live then Retire(s, ids[0], ok) else s;
      RetireAllKeeps(p, b, next, ids[1..], ok);
    }
  }

  /** Nobody retired is left with a task. */
  lemma {:induction false} RetireAllBuries(s: State, ids: seq<AgentId>, ok: bool)
    ensures var t := RetireAll(s, ids, ok);
      && (forall id :: id in t.agents && !(id in s.agents && s.agents[id].live) ==> !t.agents[id].live)
      && (forall i :: 0 <= i < |ids| && ids[i] in t.agents ==> !t.agents[ids[i]].live)
    decreases |ids|
  {
    if ids != [] {
      var next := if ids[0] in s.agents && s.agents[ids[0]].live then Retire(s, ids[0], ok) else s;
      RetireAllBuries(next, ids[1..], ok);
      assert forall i :: 0 < i < |ids| ==> ids[i] == ids[1..][i - 1];
    }
  }

  lemma DeleteKeeps(p: State -> bool, b: Bounds, s: State, publicId: string, provider: Provider, session: string,
                    deleted: bool, ok: bool)
    requires KeptInside(p, b) && p(s)
    requires b.gone == Leaving(s, DeleteSession(provider, session, deleted))
    ensures p(OnDelete(s, publicId, provider, session, deleted, ok))
  {
    var ids := OfSession(s.agents, s.order, provider, session);
    var gone := set i | 0 <= i < |ids| :: ids[i];
    ReplyKeeps(p, b, s, publicId);
    RetireAllKeeps(p, b, s, ids, ok);
    RetireAllBuries(s, ids, ok);
    var t := RetireAll(s, ids, ok);
    ReplyKeeps(p, b, t, publicId);
    if deleted && !AnyHasWork(s, ids) {
      EffectKeeps(p, b, t, Remove(gone));
      ReplyKeeps(p, b, Removed(t, gone), publicId);
    }
  }

  lemma InterruptKeeps(p: State -> bool, b: Bounds, s: State, publicId: string, agent: AgentId, ok: bool)
    requires KeptInside(p, b) && p(s)
    ensures p(OnInterrupt(s, publicId, agent, ok))
  {
    CancelKeeps(p, b, s, agent);
    var t := CancelAny(s, agent);
    ReplyKeeps(p, b, t, publicId);
    if agent in t.agents { ForwardKeeps(p, b, t, agent, publicId, Command.Interrupt(NextId(t)), false, ok); }
  }

  lemma CommandKeeps(p: State -> bool, b: Bounds, s: State, publicId: string, call: Call, ok: bool)
    requires KeptInside(p, b) && p(s)
    ensures p(OnCommand(s, publicId, call, ok))
  {
    ReplyKeeps(p, b, s, publicId);
    match call
    case PromptAgent(_, _, _, _, _) => InputKeeps(p, b, s, publicId, call, ok);
    case SteerAgent(_, _, _, _) => InputKeeps(p, b, s, publicId, call, ok);
    case InterruptAgent(agent) => InterruptKeeps(p, b, s, publicId, agent, ok);
    case RespondTo(agent, human, action, decision) =>
      if agent in s.agents {
        ForwardKeeps(p, b, s, agent, publicId, Answer(NextId(s), human, action, decision), true, ok);
      }
    case ReadHistory(agent) =>
      if agent in s.agents { ForwardKeeps(p, b, s, agent, publicId, History(NextId(s)), true, ok); }
    case _ =>
  }

  lemma ForkKeeps(p: State -> bool, b: Bounds, s: State, publicId: string, id: AgentId, ok: bool)
    requires KeptInside(p, b) && p(s) && b.carried == Carried(s, ForkAgent(id))
    ensures p(OnFork(s, publicId, id, ok))
  {
    ReplyKeeps(p, b, s, publicId);
    if CanFork(s, id) {
      RetireKeeps(p, b, s, id, ok);
      var source := s.agents[id];
      LaunchKeeps(p, b, Retire(s, id, ok), publicId,
                  LaunchSpec(source.provider, source.workspace, source.options), source.contexts);
    }
  }

  lemma ArchiveKeeps(p: State -> bool, b: Bounds, s: State, publicId: string, id: AgentId, ok: bool)
    requires KeptInside(p, b) && p(s) && b.gone == Leaving(s, ArchiveAgent(id))
    ensures p(OnArchive(s, publicId, id, ok))
  {
    ReplyKeeps(p, b, s, publicId);
    if CanArchive(s, id) {
      RetireKeeps(p, b, s, id, ok);
      var t := if s.agents[id].live then Retire(s, id, ok) else s;
      EffectKeeps(p, b, t, Remove({id}));
      ReplyKeeps(p, b, Removed(t, {id}), publicId);
    }
  }

  lemma LifecycleKeeps(p: State -> bool, b: Bounds, s: State, publicId: string, call: Call, ok: bool)
    requires KeptInside(p, b) && p(s) && b == CallBounds(s, call)
    ensures p(OnLifecycle(s, publicId, call, ok))
  {
    ReplyKeeps(p, b, s, publicId);
    match call
    case AddContext(agent, context) =>
      if agent in s.agents && ContextsFit(s.agents[agent].contexts + [context]) {
        EffectKeeps(p, b, s, Attach(agent, context));
        ReplyKeeps(p, b, WithContext(s, agent, context), publicId);
      }
    case Launch(launch) => LaunchKeeps(p, b, s, publicId, launch, []);
    case ForkAgent(agent) => ForkKeeps(p, b, s, publicId, agent, ok);
    case ArchiveAgent(agent) => ArchiveKeeps(p, b, s, publicId, agent, ok);
    case DeleteSession(provider, session, deleted) => DeleteKeeps(p, b, s, publicId, provider, session, deleted, ok);
    case ShutdownBroker => EffectKeeps(p, b, Reply(s, publicId), Stop);
    case _ =>
  }

  lemma CallKeeps(p: State -> bool, b: Bounds, s: State, publicId: string, call: Call, ok: bool)
    requires KeptInside(p, b) && p(s) && (s.phase.Ready? ==> b == CallBounds(s, call))
    ensures p(OnCall(s, publicId, call, ok))
  {
    ReplyKeeps(p, b, s, publicId);
    CommandKeeps(p, b, s, publicId, call, ok);
    if s.phase.Ready? { LifecycleKeeps(p, b, s, publicId, call, ok); }
    if s.phase.AwaitInitialize? && call.Initialize? {
      var cursor := if call.lastSequence.Some? then call.lastSequence.value else 0;
      var begun := Begin(if s.mode.Durable? && !InWindow(s.log, s.capacity, cursor) then |s.log| else cursor);
      EffectKeeps(p, b, s, begun);
      ReplyKeeps(p, b, Apply(s, begun), publicId);
    }
  }

  /** What a step removes and hands on. */
  function Scope(s: State, input: Input): Bounds {
    Bounds(Departing(s, input), if input.Request? then Carried(s, input.call) else [])
  }

  lemma StepKeeps(p: State -> bool, s: State, input: Input, ok: bool)
    requires KeptWithin(p, Scope(s, input)) && p(s)
    ensures p(Step(s, input, ok))
  {
    var b := Scope(s, input);
    match input
    case Request(generation, publicId, call) =>
      if generation == s.generation { CallKeeps(p, b, s, publicId, call, ok); }
    case FromRuntime(event) =>
      if event.ProviderEvent? {
        PublishKeeps(p, b, s, event.agent, event.kind, ok);
      } else {
        RuntimeKeeps(p, b, s, event, ok);
      }
    case _ =>
  }

  /** What every effect keeps holds after any run. */
  lemma {:induction false} RunKeeps(p: State -> bool, s: State, turns: seq<Turn>)
    requires Kept(p) && p(s)
    ensures p(Run(s, turns))
  {
    if turns != [] {
      var last := turns[|turns| - 1];
      RunKeeps(p, s, turns[..|turns| - 1]);
      StepKeeps(p, Run(s, turns[..|turns| - 1]), last.input, last.ok);
    }
  }
}
