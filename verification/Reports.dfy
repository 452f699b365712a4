/** What each report of a runtime does, and how connections come and go. */
module Reports {
  import opened Options
  import opened Protocol
  import opened BrokerSteps
  import opened TurnEnds

  function StepAt(s: State, event: RuntimeEvent, ok: bool): State {
    Step(s, FromRuntime(event), ok)
  }

  // ---------------------------------------------------------------------------
  // Answers to clients

  /** A request is forgotten, and its client answered if and only if the request was made on the connection
      that is still there. */
  function Closed(s: State, id: RuntimeId): State {
    s.(pending := s.pending - {id},
       trace := s.trace + if id in s.pending && s.pending[id].generation == s.generation && s.connected
                          then [Answered(s.generation, id, s.pending[id].publicId)] else [])
  }

  lemma SettledIs(s: State, id: RuntimeId)
    ensures Settled(s, id) == Closed(s, id)
  {
    assert id !in s.pending ==> s.pending - {id} == s.pending;
    assert s.trace + [] == s.trace;
  }

  /** Every response reaches the client that waits for it. */
  lemma ResponsesGetThrough(s: State, id: RuntimeId, ok: bool)
    requires s.running
    ensures StepAt(s, Response(id), ok) == Closed(s.(queued := s.queued - {id}), id)
  {
    SettledIs(s.(queued := s.queued - {id}), id);
  }

  // ---------------------------------------------------------------------------
  // Failures

  /** The queue is cancelled with one notice, the agent is cut off, and the cause is published last. */
  function CutOff(s: State, id: AgentId, cause: Cause): State
    requires id in s.agents
  {
    var n := |s.agents[id].queue|;
    var notice := Event(|s.log| + 1, id, Notice(n));
    var error := Event(|s.log| + (if n > 0 then 2 else 1), id, BrokerError(cause));
    s.(agents := s.agents[id := s.agents[id].(state := Disconnected, turn := None, approvals := 0, questions := 0,
                                              contexts := [], queue := [])],
       log := s.log + (if n > 0 then [notice] else []) + [error],
       trace := s.trace + (if n > 0 then Shown(s, notice) else []) + Shown(s, error))
  }

  lemma FailedIs(s: State, id: AgentId, cause: Cause)
    requires id in s.agents
    ensures FailedWith(s, id, cause) == CutOff(s, id, cause)
  {
    FailureShows(s, id, cause);
  }

  /** A provider that failed, and a queued prompt that could not start, cut the agent off. */
  lemma FailuresCutOff(s: State, event: RuntimeEvent, ok: bool)
    requires s.running && (event.ProviderFailed? || (event.RequestFailed? && event.id in s.queued))
    ensures var id := event.agent;
      var u := if event.RequestFailed? then s.(queued := s.queued - {event.id}) else s;
      StepAt(s, event, ok)
      == if id !in s.agents then u
         else CutOff(u, id, if event.RequestFailed? then QueuedPromptFailed else RuntimeFailed)
  {
    var u := if event.RequestFailed? then s.(queued := s.queued - {event.id}) else s;
    if event.agent in s.agents {
      FailedIs(u, event.agent, if event.RequestFailed? then QueuedPromptFailed else RuntimeFailed);
    }
  }

  /** The queue is cancelled, the agent fails, and its task is told to shut down if its channel takes that. */
  function Costs(s: State, id: AgentId, ok: bool): State
    requires id in s.agents
  {
    var n := |s.agents[id].queue|;
    var notice := Event(|s.log| + 1, id, Notice(n));
    s.(agents := s.agents[id := s.agents[id].(state := Failed, turn := None, queue := [])],
       log := s.log + if n > 0 then [notice] else [],
       trace := s.trace + (if n > 0 then Shown(s, notice) else []) + if ok then [Commanded(id, Shutdown)] else [])
  }

  /** A client's request that failed is answered; if it costs the agent, that comes first. */
  lemma FailedRequestsAreAnswered(s: State, id: RuntimeId, agent: AgentId, failAgent: bool, ok: bool)
    requires s.running && id !in s.queued
    ensures StepAt(s, RequestFailed(id, agent, failAgent), ok)
         == Closed(if failAgent && agent in s.agents then Costs(s, agent, ok) else s, id)
  {
    if failAgent && agent in s.agents {
      CancelShows(s, agent);
      var t := Cancelled(s, agent);
      var failed := s.agents[agent].(state := Failed, turn := None, queue := []);
      assert t.agents[agent := failed] == s.agents[agent := failed];
      assert t.trace + [] == t.trace;
      assert Condemned(s, agent, ok) == Costs(s, agent, ok);
    }
    SettledIs(if failAgent then Condemned(s, agent, ok) else s, id);
  }

  // ---------------------------------------------------------------------------
  // The beginning and the end of a task

  /** An older record of the session that `id` has just opened. */
  predicate IsStale(s: State, id: AgentId, session: string, other: AgentId) {
    && id in s.agents && other in s.agents && other != id
    && !s.agents[other].live && s.agents[other].state == Disconnected
    && s.agents[other].provider == s.agents[id].provider && s.agents[other].session == Some(session)
  }

  /** A session that opened makes its agent idle under the session's name, answers the client that launched it,
      and replaces the older records of the session. */
  lemma StartsReplaceOldRecords(s: State, id: RuntimeId, agent: AgentId, session: string, ok: bool)
    requires s.running
    ensures var t := StepAt(s, Started(id, agent, session), ok);
      if agent !in s.agents then t == s.(order := t.order) && t.order == Without(s.order, {})
      else
        && (forall other :: other in t.agents <==> other in s.agents && !IsStale(s, agent, session, other))
        && (forall other :: other in t.agents && other != agent ==> t.agents[other] == s.agents[other])
        && t.agents[agent] == s.agents[agent].(session := Some(session), state := Idle)
        && t == Closed(s.(agents := t.agents, order := t.order), id)
  {
    var stale := Stale(s, agent, session);
    forall other: AgentId ensures other in stale <==> IsStale(s, agent, session, other) {}
    if agent in s.agents {
      var t := Removed(s, stale);
      SettledIs(WithAgent(t, agent, t.agents[agent].(session := Some(session), state := Idle)), id);
    } else {
      assert stale == {} && s.agents - stale == s.agents;
    }
  }

  /** The end of a task cancels the queue, discards the contexts, and leaves its agent disconnected, without
      touching what is asked of a human. */
  lemma EndsDisconnect(s: State, id: AgentId, ok: bool)
    requires s.running
    ensures var t := StepAt(s, Stopped(id), ok);
      if id !in s.agents then t == s
      else
        var n, agent := |s.agents[id].queue|, s.agents[id];
        var notice := Event(|s.log| + 1, id, Notice(n));
        t == s.(agents := s.agents[id := agent.(live := false, contexts := [], queue := [], state := Disconnected,
                                                turn := if agent.state == Disconnected then agent.turn else None)],
                log := s.log + (if n > 0 then [notice] else []),
                trace := s.trace + (if n > 0 then Shown(s, notice) else []) + [Released(id)])
  {
    if id in s.agents {
      CancelShows(s, id);
      var t := Cancelled(s, id);
      assert t.agents[id := Ended(t.agents[id])] == s.agents[id := Ended(t.agents[id])];
    }
  }

  // ---------------------------------------------------------------------------
  // Connections

  /** A newer connection takes over and starts its handshake; an older one changes nothing. */
  lemma NewerConnectionsTakeOver(s: State, g: nat, ok: bool)
    requires s.running
    ensures Step(s, Connected(g), ok)
         == if g > s.generation
            then s.(generation := g, phase := AwaitInitialize, cursor := 0, connected := true,
                    trace := s.trace + [Opened(g)])
            else s
  {
  }

  /** What an older connection still sends is ignored. */
  lemma OldConnectionsAreIgnored(s: State, g: nat, publicId: string, call: Call, ok: bool)
    requires g != s.generation
    ensures Step(s, Request(g, publicId, call), ok) == s && Step(s, Initialized(g), ok) == s
    ensures Step(s, Lost(g), ok) == s
  {
  }

  /** An embedded broker ends with its connection; a durable one forgets the requests of that connection, and
      only those, and waits for the next. */
  lemma LossEndsOrWaits(s: State, ok: bool)
    requires s.running
    ensures var t := Step(s, Lost(s.generation), ok);
      if s.mode.Embedded? then t == s.(running := false)
      else
        && t == s.(connected := false, phase := AwaitInitialize, cursor := 0, pending := t.pending,
                   trace := s.trace + [Shut(s.generation), Warned(s.agents.Keys)])
        && (forall id :: id in t.pending <==> id in s.pending && s.pending[id].generation != s.generation)
        && (forall id :: id in t.pending ==> t.pending[id] == s.pending[id])
  {
    assert s.trace + [Shut(s.generation)] + [Warned(s.agents.Keys)]
        == s.trace + [Shut(s.generation), Warned(s.agents.Keys)];
  }

  /** Until the handshake is complete a client is served nothing but its own `initialize`, once. */
  lemma HandshakeComesFirst(s: State, publicId: string, call: Call, ok: bool)
    requires s.running && s.connected && !s.phase.Ready?
    ensures var t := Step(s, Request(s.generation, publicId, call), ok);
      && t == s.(phase := t.phase, cursor := t.cursor, trace := s.trace + [Replied(s.generation, publicId)])
      && (t.phase != s.phase <==> s.phase.AwaitInitialize? && call.Initialize? && call.valid)
      && (t.phase != s.phase ==> t.phase.AwaitInitialized?)
      && (t.phase == s.phase ==> t.cursor == s.cursor)
      && (t.phase != s.phase ==>
            var requested := if call.lastSequence.Some? then call.lastSequence.value else 0;
            t.cursor == if s.mode.Durable? && |s.log| > requested + s.capacity then |s.log| else requested)
  {
  }
}
