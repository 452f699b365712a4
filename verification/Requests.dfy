/** What each request of a ready client does, in full: when it gets through, and what it leaves alone. */
module Requests {
  import opened Options
  import opened Protocol
  import opened BrokerSteps
  import opened TurnEnds

  /** A step on a request of the client that is connected and ready. */
  function StepFor(s: State, publicId: string, call: Call, ok: bool): State {
    Step(s, Request(s.generation, publicId, call), ok)
  }

  predicate IsServing(s: State) {
    s.running && s.phase.Ready? && s.connected
  }

  function Refused(s: State, publicId: string): State {
    s.(trace := s.trace + [Replied(s.generation, publicId)])
  }

  // ---------------------------------------------------------------------------
  // Forwarding

  /** A request that becomes a command: `marks` come first, `agent` is what becomes of its agent. A closed
      channel answers the client at once and disconnects the agent. */
  function Commanding(s: State, id: AgentId, agent: Agent, marks: seq<Action>, publicId: string, command: Command)
    : State
  {
    s.(agents := s.agents[id := agent],
       nextRequest := s.nextRequest + 1,
       pending := s.pending[NextId(s) := Pending(s.generation, publicId)],
       trace := s.trace + marks + [Forwarded(s.generation, NextId(s), publicId), Commanded(id, command)])
  }

  function ChannelLost(s: State, id: AgentId, agent: Agent, marks: seq<Action>, publicId: string, drops: bool): State {
    s.(agents := s.agents[id := agent.(state := Disconnected, contexts := if drops then [] else agent.contexts)],
       nextRequest := s.nextRequest + 1,
       pending := s.pending - {NextId(s)},
       trace := s.trace + marks + [Forwarded(s.generation, NextId(s), publicId)]
                + (if drops then [Dropped(id)] else []) + [Answered(s.generation, NextId(s), publicId)])
  }

  lemma ForwardIs(s: State, t: State, id: AgentId, agent: Agent, marks: seq<Action>, publicId: string,
                  command: Command, drops: bool, ok: bool)
    requires s.connected && t == s.(agents := s.agents[id := agent], trace := s.trace + marks)
    ensures Forward(t, id, publicId, command, drops, ok)
         == if ok then Commanding(s, id, agent, marks, publicId, command)
            else ChannelLost(s, id, agent, marks, publicId, drops)
  {
    var u := Allocated(t, publicId);
    var mark := Forwarded(s.generation, NextId(s), publicId);
    assert u.trace == s.trace + marks + [mark];
    assert u.trace + [Commanded(id, command)] == s.trace + marks + [mark, Commanded(id, command)];
    assert u.pending - {NextId(s)} == s.pending - {NextId(s)};
    assert u.trace + [] == u.trace;
    var lost := agent.(state := Disconnected, contexts := if drops then [] else agent.contexts);
    assert u.agents[id := lost] == s.agents[id := lost];
  }

  // ---------------------------------------------------------------------------
  // Prompts

  /** Everything about the call itself that a prompt needs. */
  predicate IsFit(s: State, call: Call)
    requires call.PromptAgent?
  {
    && call.text != "" && call.agent in s.agents
    && ContextsFit(s.agents[call.agent].contexts + call.contexts)
  }

  /** The agent rests between turns, and the prompt goes out at once. */
  predicate GoesOut(s: State, call: Call)
    requires call.PromptAgent?
  {
    IsFit(s, call) && s.agents[call.agent].state in {Idle, Completed, Interrupted}
  }

  /** A turn is running or waits for a human, and the prompt may wait for its end. */
  predicate IsQueued(s: State, call: Call)
    requires call.PromptAgent?
  {
    && IsFit(s, call) && call.queue
    && s.agents[call.agent].state in {Running, WaitingInput, WaitingApproval}
    && |s.agents[call.agent].queue| < 32
  }

  /** The text as given, after everything that waits, with the call's options or else the agent's. */
  function PromptOf(s: State, call: Call): Prompt
    requires call.PromptAgent? && call.agent in s.agents
  {
    var agent := s.agents[call.agent];
    Prompt(call.text, agent.contexts + call.contexts, if call.options.Some? then call.options.value else agent.options)
  }

  lemma GoingOut(s: State, publicId: string, call: Call, ok: bool)
    requires s.connected && call.PromptAgent? && GoesOut(s, call)
    ensures var id, prompt := call.agent, PromptOf(s, call);
      var running := s.agents[id].(contexts := [], state := Running, options := prompt.options);
      OnPrompt(s, publicId, call, ok)
      == if ok then Commanding(s, id, running, [Gathered(id, prompt.contexts)], publicId, SendPrompt(NextId(s), prompt))
         else ChannelLost(s, id, running, [Gathered(id, prompt.contexts)], publicId, false)
  {
    var id, prompt := call.agent, PromptOf(s, call);
    var running := s.agents[id].(contexts := [], state := Running, options := prompt.options);
    ForwardIs(s, Gathering(s, id, running, prompt.contexts), id, running, [Gathered(id, prompt.contexts)], publicId,
              SendPrompt(NextId(s), prompt), false, ok);
  }

  lemma BeingQueued(s: State, publicId: string, call: Call, ok: bool)
    requires s.connected && call.PromptAgent? && IsQueued(s, call)
    ensures var id, prompt := call.agent, PromptOf(s, call);
      OnPrompt(s, publicId, call, ok)
      == s.(agents := s.agents[id := s.agents[id].(contexts := [], queue := s.agents[id].queue + [prompt])],
            trace := s.trace + [Gathered(id, prompt.contexts), Accepted(id, prompt), Replied(s.generation, publicId)])
  {
    var id, prompt := call.agent, PromptOf(s, call);
    var marks := [Gathered(id, prompt.contexts), Accepted(id, prompt), Replied(s.generation, publicId)];
    assert s.trace + [marks[0]] + [marks[1]] + [marks[2]] == s.trace + marks;
  }

  /** A prompt goes out if and only if its agent rests between turns; it is queued if and only if that was asked
      for, a turn is open and fewer than 32 are queued; and otherwise nothing but the refusal happens. */
  lemma PromptsReachRestingAgents(s: State, publicId: string, call: Call, ok: bool)
    requires IsServing(s) && call.PromptAgent?
    ensures var t, id := StepFor(s, publicId, call, ok), call.agent;
      if GoesOut(s, call) then
        var prompt := PromptOf(s, call);
        var running := s.agents[id].(contexts := [], state := Running, options := prompt.options);
        t == if ok then Commanding(s, id, running, [Gathered(id, prompt.contexts)], publicId,
                                  SendPrompt(NextId(s), prompt))
             else ChannelLost(s, id, running, [Gathered(id, prompt.contexts)], publicId, false)
      else if IsQueued(s, call) then
        var prompt := PromptOf(s, call);
        t == s.(agents := s.agents[id := s.agents[id].(contexts := [], queue := s.agents[id].queue + [prompt])],
                trace := s.trace + [Gathered(id, prompt.contexts), Accepted(id, prompt),
                                    Replied(s.generation, publicId)])
      else t == Refused(s, publicId)
  {
    assert StepFor(s, publicId, call, ok) == OnPrompt(s, publicId, call, ok);
    if GoesOut(s, call) {
      GoingOut(s, publicId, call, ok);
    } else if IsQueued(s, call) {
      BeingQueued(s, publicId, call, ok);
    }
  }

  // ---------------------------------------------------------------------------
  // Interruptions, answers, histories, contexts

  /** An interruption cancels everything queued, with one notice that counts it, before it goes out. */
  lemma InterruptsCancelFirst(s: State, publicId: string, id: AgentId, ok: bool)
    requires IsServing(s)
    ensures var t := StepFor(s, publicId, InterruptAgent(id), ok);
      if id !in s.agents then t == Refused(s, publicId)
      else
        var n, agent := |s.agents[id].queue|, s.agents[id].(queue := []);
        var notice := Event(|s.log| + 1, id, Notice(n));
        var marks, u := if n > 0 then Shown(s, notice) else [], s.(log := s.log + if n > 0 then [notice] else []);
        t == if ok then Commanding(u, id, agent, marks, publicId, Command.Interrupt(NextId(s)))
             else ChannelLost(u, id, agent, marks, publicId, false)
  {
    if id in s.agents {
      CancelShows(s, id);
      var n, agent := |s.agents[id].queue|, s.agents[id].(queue := []);
      var notice := Event(|s.log| + 1, id, Notice(n));
      ForwardIs(s.(log := s.log + if n > 0 then [notice] else []), Cancelled(s, id), id, agent,
                if n > 0 then Shown(s, notice) else [], publicId, Command.Interrupt(NextId(s)), false, ok);
    }
  }

  /** A human's answer goes to the agent's task as it was given. */
  lemma AnswersAreForwarded(s: State, publicId: string, id: AgentId, human: HumanKind, action: ActionId,
                            decision: string, ok: bool)
    requires IsServing(s)
    ensures var t := StepFor(s, publicId, RespondTo(id, human, action, decision), ok);
      t == if id !in s.agents then Refused(s, publicId)
           else if ok then Commanding(s, id, s.agents[id], [], publicId, Answer(NextId(s), human, action, decision))
           else ChannelLost(s, id, s.agents[id], [], publicId, true)
  {
    if id in s.agents { Unmarked(s, id, publicId, Answer(NextId(s), human, action, decision), ok); }
  }

  /** A history is read from an agent with a task. */
  lemma HistoriesAreForwarded(s: State, publicId: string, id: AgentId, ok: bool)
    requires IsServing(s)
    ensures var t := StepFor(s, publicId, ReadHistory(id), ok);
      t == if id !in s.agents || !s.agents[id].live then Refused(s, publicId)
           else if ok then Commanding(s, id, s.agents[id], [], publicId, History(NextId(s)))
           else ChannelLost(s, id, s.agents[id], [], publicId, true)
  {
    if id in s.agents { Unmarked(s, id, publicId, History(NextId(s)), ok); }
  }

  lemma Unmarked(s: State, id: AgentId, publicId: string, command: Command, ok: bool)
    requires s.connected && id in s.agents
    ensures Forward(s, id, publicId, command, true, ok)
         == if ok then Commanding(s, id, s.agents[id], [], publicId, command)
            else ChannelLost(s, id, s.agents[id], [], publicId, true)
  {
    assert s.agents[id := s.agents[id]] == s.agents && s.trace + [] == s.trace;
    ForwardIs(s, s, id, s.agents[id], [], publicId, command, true, ok);
  }

  /** A context is kept for the next input of an agent that has a task and a channel, if it fits. */
  lemma ContextsAreKept(s: State, publicId: string, id: AgentId, context: string, ok: bool)
    requires IsServing(s)
    ensures StepFor(s, publicId, AddContext(id, context), ok)
         == if id in s.agents && s.agents[id].live && s.agents[id].state != Disconnected
               && ContextsFit(s.agents[id].contexts + [context])
            then s.(agents := s.agents[id := s.agents[id].(contexts := s.agents[id].contexts + [context])],
                    trace := s.trace + [Attached(id, context), Replied(s.generation, publicId)])
            else Refused(s, publicId)
  {
    assert s.trace + [Attached(id, context)] + [Replied(s.generation, publicId)]
        == s.trace + [Attached(id, context), Replied(s.generation, publicId)];
  }

  // ---------------------------------------------------------------------------
  // Starting and ending agents

  /** A task still writes to the checkout. */
  predicate IsWriter(agent: Agent, workspace: string) {
    agent.live && agent.state != Disconnected && agent.state != Failed && agent.workspace == workspace
  }

  /** Nobody writes to the workspace, and an embedded broker has no other agent. */
  predicate IsVacant(s: State, workspace: string) {
    forall id :: id in s.agents ==> !IsWriter(s.agents[id], workspace) && (s.mode.Embedded? ==> !s.agents[id].live)
  }

  function NewAgent(launch: LaunchSpec, contexts: seq<string>): Agent {
    Agent(launch.provider, launch.workspace, None, Starting, None, 0, 0, contexts, [], launch.options, true)
  }

  /** The table with one more agent, whose task is started under the client's request. */
  function Launching(s: State, publicId: string, launch: LaunchSpec, contexts: seq<string>): State {
    s.(agents := s.agents[s.nextAgent := NewAgent(launch, contexts)],
       order := s.order + [s.nextAgent],
       nextAgent := s.nextAgent + 1,
       nextRequest := s.nextRequest + 1,
       pending := s.pending[NextId(s) := Pending(s.generation, publicId)],
       trace := s.trace + [Forwarded(s.generation, NextId(s), publicId),
                           Spawned(s.nextAgent, NextId(s), launch.provider, contexts)])
  }

  lemma LaunchIs(s: State, publicId: string, launch: LaunchSpec, contexts: seq<string>)
    requires s.connected
    ensures OnLaunch(s, publicId, launch, contexts)
         == if IsVacant(s, launch.workspace) then Launching(s, publicId, launch, contexts) else Refused(s, publicId)
  {
    assert LaunchBlocked(s, launch.workspace) <==> !IsVacant(s, launch.workspace);
    var mark := Forwarded(s.generation, NextId(s), publicId);
    var spawn := Spawned(s.nextAgent, NextId(s), launch.provider, contexts);
    assert s.trace + [mark] + [spawn] == s.trace + [mark, spawn];
  }

  /** A launch goes through if and only if it finds no task that still writes to its workspace, and no other
      agent in embedded mode; it then adds one agent, and changes no other. */
  lemma LaunchesFindNoWriter(s: State, publicId: string, launch: LaunchSpec, ok: bool)
    requires IsServing(s)
    ensures StepFor(s, publicId, Launch(launch), ok)
         == if IsVacant(s, launch.workspace) then Launching(s, publicId, launch, []) else Refused(s, publicId)
  {
    LaunchIs(s, publicId, launch, []);
  }

  /** The agent's task is told to shut down, if its channel takes that, and is let go. */
  function Dismissed(s: State, id: AgentId, ok: bool): State
    requires id in s.agents
  {
    s.(agents := s.agents[id := s.agents[id].(state := Disconnected, turn := None, approvals := 0, questions := 0,
                                              contexts := [], live := false)],
       trace := s.trace + (if ok then [Commanded(id, Shutdown)] else []) + [Released(id)])
  }

  lemma RetireIs(s: State, id: AgentId, ok: bool)
    requires id in s.agents
    ensures Retire(s, id, ok) == Dismissed(s, id, ok)
  {
    assert s.trace + [] == s.trace;
  }

  /** Between turns, with nothing asked of a human, and with a session to go on from. */
  predicate IsForkable(s: State, id: AgentId) {
    && id in s.agents && s.agents[id].state in {Idle, Completed, Interrupted}
    && s.agents[id].approvals == 0 && s.agents[id].questions == 0 && s.agents[id].session.Some?
  }

  /** A fork lets go of a resting agent and starts one like it, in its place, with the contexts that waited. */
  lemma ForksReplaceRestingAgents(s: State, publicId: string, id: AgentId, ok: bool)
    requires IsServing(s)
    ensures var t := StepFor(s, publicId, ForkAgent(id), ok);
      if !IsForkable(s, id) then t == Refused(s, publicId)
      else
        var agent, u := s.agents[id], Dismissed(s, id, ok);
        t == if IsVacant(u, agent.workspace)
             then Launching(u, publicId, LaunchSpec(agent.provider, agent.workspace, agent.options), agent.contexts)
             else Refused(u, publicId)
  {
    if IsForkable(s, id) {
      RetireIs(s, id, ok);
      var agent := s.agents[id];
      LaunchIs(Retire(s, id, ok), publicId, LaunchSpec(agent.provider, agent.workspace, agent.options),
               agent.contexts);
    }
  }

  /** Nothing is running, starting, or waiting for a human. */
  predicate IsInactive(agent: Agent) {
    && agent.state !in {Starting, Running, WaitingInput, WaitingApproval}
    && agent.approvals == 0 && agent.questions == 0
  }

  /** An inactive agent is archived: its task is let go and it leaves the table. */
  lemma InactiveAgentsAreArchived(s: State, publicId: string, id: AgentId, ok: bool)
    requires IsServing(s)
    ensures var t := StepFor(s, publicId, ArchiveAgent(id), ok);
      if id !in s.agents || !IsInactive(s.agents[id]) then t == Refused(s, publicId)
      else
        var u := if s.agents[id].live then Dismissed(s, id, ok) else s;
        && t == u.(agents := t.agents, order := t.order,
                   trace := u.trace + [Replied(s.generation, publicId)])
        && t.agents == s.agents - {id} && t.order == Without(s.order, {id})
  {
    if id in s.agents {
      RetireIs(s, id, ok);
      assert Retire(s, id, ok).agents - {id} == s.agents - {id};
    }
  }

  /** An agent of the provider's session, where the table lists it. */
  predicate IsOf(s: State, id: AgentId, provider: Provider, session: string) {
    id in s.order && id in s.agents && s.agents[id].provider == provider && s.agents[id].session == Some(session)
  }

  lemma {:induction false} SessionLists(agents: map<AgentId, Agent>, order: seq<AgentId>, provider: Provider,
                                        session: string, id: AgentId)
    ensures id in OfSession(agents, order, provider, session)
       <==> id in order && id in agents && agents[id].provider == provider && agents[id].session == Some(session)
  {
    if order != [] { SessionLists(agents, order[1..], provider, session, id); }
  }

  /** An agent that is let go, told so if its channel takes that. */
  predicate IsFarewell(action: Action, ids: seq<AgentId>, ok: bool) {
    (action.Released? && action.agent in ids)
    || (ok && action.Commanded? && action.agent in ids && action.command == Shutdown)
  }

  function LetGo(agent: Agent): Agent {
    if agent.live
    then agent.(state := Disconnected, turn := None, approvals := 0, questions := 0, contexts := [], live := false)
    else agent
  }

  /** Of the listed agents those with a task were let go. */
  ghost predicate TableLetsGo(s: State, t: State, ids: seq<AgentId>) {
    && t == s.(agents := t.agents, trace := t.trace)
    && t.agents.Keys == s.agents.Keys
    && forall id :: id in s.agents ==> t.agents[id] == if id in ids then LetGo(s.agents[id]) else s.agents[id]
  }

  /** Each of them was released, and nothing else happened. */
  ghost predicate TraceLetsGo(s: State, t: State, ids: seq<AgentId>, ok: bool) {
    && s.trace <= t.trace
    && (forall j :: |s.trace| <= j < |t.trace| ==> IsFarewell(t.trace[j], ids, ok))
    && (forall id :: id in s.agents && id in ids && s.agents[id].live ==> WasReleased(s, t, id))
  }

  ghost predicate WasReleased(s: State, t: State, id: AgentId) {
    exists j :: |s.trace| <= j < |t.trace| && t.trace[j] == Released(id)
  }

  lemma OneGoes(s: State, id: AgentId, ok: bool)
    ensures var t := if id in s.agents && s.agents[id].live then Retire(s, id, ok) else s;
      TableLetsGo(s, t, [id]) && TraceLetsGo(s, t, [id], ok)
  {
    if id in s.agents && s.agents[id].live {
      RetireIs(s, id, ok);
      var t := Retire(s, id, ok);
      assert t.trace[|t.trace| - 1] == Released(id);
    }
  }

  lemma TableGoesOn(s: State, t: State, u: State, first: AgentId, rest: seq<AgentId>)
    requires TableLetsGo(s, t, [first]) && TableLetsGo(t, u, rest)
    ensures TableLetsGo(s, u, [first] + rest)
  {
  }

  lemma TraceGoesOn(s: State, t: State, u: State, first: AgentId, rest: seq<AgentId>, ok: bool)
    requires TableLetsGo(s, t, [first]) && TraceLetsGo(s, t, [first], ok) && TraceLetsGo(t, u, rest, ok)
    ensures TraceLetsGo(s, u, [first] + rest, ok)
  {
    var ids := [first] + rest;
    forall j | |s.trace| <= j < |u.trace| ensures IsFarewell(u.trace[j], ids, ok) {
      if j < |t.trace| {
        assert u.trace[j] == t.trace[j] && IsFarewell(t.trace[j], [first], ok);
      } else {
        assert IsFarewell(u.trace[j], rest, ok);
      }
    }
    forall id | id in s.agents && id in ids && s.agents[id].live ensures WasReleased(s, u, id) {
      if id == first {
        var j :| |s.trace| <= j < |t.trace| && t.trace[j] == Released(id);
        assert u.trace[j] == Released(id);
      } else {
        var j :| |t.trace| <= j < |u.trace| && u.trace[j] == Released(id);
      }
    }
  }

  lemma {:induction false} AllGo(s: State, ids: seq<AgentId>, ok: bool)
    ensures var t := RetireAll(s, ids, ok); TableLetsGo(s, t, ids) && TraceLetsGo(s, t, ids, ok)
    decreases |ids|
  {
    if ids != [] {
      var next := if ids[0] in s.agents && s.agents[ids[0]].live then Retire(s, ids[0], ok) else s;
      var t := RetireAll(next, ids[1..], ok);
      OneGoes(s, ids[0], ok);
      AllGo(next, ids[1..], ok);
      assert ids == [ids[0]] + ids[1..];
      TableGoesOn(s, next, t, ids[0], ids[1..]);
      TraceGoesOn(s, next, t, ids[0], ids[1..], ok);
    }
  }

  /** The agents of the session, all inactive, were let go, and left the table if they were deleted. */
  ghost predicate IsDeletion(s: State, u: State, t: State, publicId: string, provider: Provider, session: string,
                             deleted: bool, ok: bool)
  {
    var ids := OfSession(s.agents, s.order, provider, session);
    && (forall id :: id in ids <==> IsOf(s, id, provider, session))
    && TableLetsGo(s, u, ids) && TraceLetsGo(s, u, ids, ok)
    && t == u.(agents := t.agents, order := t.order, trace := u.trace + [Replied(s.generation, publicId)])
    && (forall id :: id in t.agents <==> id in s.agents && !(deleted && IsOf(s, id, provider, session)))
    && (forall id :: id in t.agents ==> t.agents[id] == u.agents[id])
    && (!deleted ==> t.order == s.order)
  }

  lemma DeletionIs(s: State, publicId: string, provider: Provider, session: string, deleted: bool, ok: bool)
    requires s.connected
    ensures var ids := OfSession(s.agents, s.order, provider, session);
      IsDeletion(s, RetireAll(s, ids, ok), OnDeleted(s, publicId, ids, deleted, ok), publicId, provider, session,
                 deleted, ok)
  {
    var ids := OfSession(s.agents, s.order, provider, session);
    forall id: AgentId ensures id in ids <==> IsOf(s, id, provider, session) {
      SessionLists(s.agents, s.order, provider, session, id);
    }
    AllGo(s, ids, ok);
    assert forall id :: id in ids <==> id in set i | 0 <= i < |ids| :: ids[i];
  }

  ghost predicate HasActive(s: State, provider: Provider, session: string) {
    exists id :: IsOf(s, id, provider, session) && !IsInactive(s.agents[id])
  }

  lemma ActiveIff(s: State, provider: Provider, session: string)
    ensures AnyHasWork(s, OfSession(s.agents, s.order, provider, session)) <==> HasActive(s, provider, session)
  {
    var ids := OfSession(s.agents, s.order, provider, session);
    if AnyHasWork(s, ids) {
      var i :| 0 <= i < |ids| && ids[i] in s.agents && HasWork(s.agents[ids[i]]);
      SessionLists(s.agents, s.order, provider, session, ids[i]);
      assert IsOf(s, ids[i], provider, session) && !IsInactive(s.agents[ids[i]]);
    }
    if id :| IsOf(s, id, provider, session) && !IsInactive(s.agents[id]) {
      SessionLists(s.agents, s.order, provider, session, id);
    }
  }

  /** A session is deleted if and only if none of its agents is active: those with a task are let go, and if the
      provider deletes its record exactly the agents of the session leave the table. */
  lemma InactiveSessionsAreDeleted(s: State, publicId: string, provider: Provider, session: string, deleted: bool,
                                   ok: bool)
    requires IsServing(s)
    ensures var t := StepFor(s, publicId, DeleteSession(provider, session, deleted), ok);
      if HasActive(s, provider, session) then t == Refused(s, publicId)
      else exists u :: IsDeletion(s, u, t, publicId, provider, session, deleted, ok)
  {
    var ids := OfSession(s.agents, s.order, provider, session);
    ActiveIff(s, provider, session);
    DeletionIs(s, publicId, provider, session, deleted, ok);
    assert StepFor(s, publicId, DeleteSession(provider, session, deleted), ok)
        == OnDelete(s, publicId, provider, session, deleted, ok);
  }

  /** A broker embedded in its client ends with it; a durable one goes on. */
  lemma ShutdownEndsEmbeddedBrokers(s: State, publicId: string, ok: bool)
    requires IsServing(s)
    ensures StepFor(s, publicId, ShutdownBroker, ok) == Refused(s, publicId).(running := s.mode.Durable?)
  {
  }
}
