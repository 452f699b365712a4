/** What every run keeps about the states of the agents and their tasks. */
module AgentTable {
  import opened Protocol
  import opened BrokerSteps
  import opened BrokerRuns

  /** An agent waits for an approval or an answer only while one is outstanding. */
  predicate IsJustified(agent: Agent) {
    && (agent.state.WaitingApproval? ==> agent.approvals > 0)
    && (agent.state.WaitingInput? ==> agent.approvals == 0 && agent.questions > 0)
  }

  ghost predicate Justified(s: State, id: AgentId) {
    id in s.agents ==> IsJustified(s.agents[id])
  }

  ghost predicate OneLive(s: State, a: AgentId, b: AgentId) {
    s.mode.Embedded? && a in s.agents && b in s.agents && s.agents[a].live && s.agents[b].live ==> a == b
  }

  lemma TrackedIsJustified(agent: Agent, kind: EventKind)
    requires IsJustified(agent)
    ensures IsJustified(Tracked(agent, kind))
  {
  }

  ghost predicate Orderly(s: State, a: AgentId, b: AgentId) {
    Justified(s, a) && OneLive(s, a, b)
  }

  lemma FailedOrderly(s: State, id: AgentId, cause: Cause, a: AgentId, b: AgentId)
    requires id in s.agents && Orderly(s, a, b)
    ensures Orderly(Cancelled(s, id), a, b) && Orderly(FailedWith(s, id, cause), a, b)
  {
    CancelledAgents(s, id);
    FailedAgents(s, id, cause);
  }

  lemma AnnouncedOrderly(s: State, id: AgentId, kind: EventKind, a: AgentId, b: AgentId)
    requires Orderly(s, a, b)
    ensures Orderly(Observed(Announced(s, id, kind), id, kind), a, b)
  {
    if id in s.agents {
      TrackedKeepsQueue(s.agents[id], kind);
      if id == a { TrackedIsJustified(s.agents[id], kind); }
    }
  }

  lemma EffectOrderly(s: State, e: Effect, a: AgentId, b: AgentId)
    requires Enabled(s, e) && Orderly(s, a, b)
    ensures Orderly(Apply(s, e), a, b)
  {
    if e.Announce? {
      AnnouncedOrderly(s, e.agent, e.kind, a, b);
    } else if e.Cancel? || e.Fail? {
      FailedOrderly(s, e.agent, if e.Fail? then e.cause else RuntimeFailed, a, b);
    } else if e.Abandon? {
      AbandonedOrderly(s, e.agent, a, b);
    } else if IsLocal(e) {
      LocalOrderly(s, e, a, b);
    } else {
      DistantOrderly(s, e, a, b);
    }
  }

  lemma LocalOrderly(s: State, e: Effect, a: AgentId, b: AgentId)
    requires Enabled(s, e) && IsLocal(e) && Orderly(s, a, b)
    ensures Orderly(Apply(s, e), a, b)
  {
    LocalJustified(s, e, a);
    LocalOneLive(s, e, a, b);
  }

  lemma LocalJustified(s: State, e: Effect, a: AgentId)
    requires Enabled(s, e) && IsLocal(e) && Justified(s, a)
    ensures Justified(Apply(s, e), a)
  {
  }

  lemma LocalOneLive(s: State, e: Effect, a: AgentId, b: AgentId)
    requires Enabled(s, e) && IsLocal(e) && OneLive(s, a, b)
    ensures OneLive(Apply(s, e), a, b)
  {
  }

  lemma DistantOrderly(s: State, e: Effect, a: AgentId, b: AgentId)
    requires Enabled(s, e) && !IsLocal(e) && Orderly(s, a, b)
    requires !e.Announce? && !e.Cancel? && !e.Fail? && !e.Abandon?
    ensures Orderly(Apply(s, e), a, b)
  {
  }

  lemma AbandonedOrderly(s: State, id: AgentId, a: AgentId, b: AgentId)
    requires id in s.agents && s.agents[id].queue != [] && Orderly(s, a, b)
    ensures Orderly(Abandoned(Popped(s, id), id, s.agents[id].queue[0]), a, b)
  {
    FailedOrderly(Record(Popped(s, id), Undelivered(id, s.agents[id].queue[0])), id, ChannelUnavailable, a, b);
  }

  lemma RunOrderly(s: State, turns: seq<Turn>, a: AgentId, b: AgentId)
    requires Initial(s)
    ensures Orderly(Run(s, turns), a, b)
  {
    assert Kept((t: State) => Orderly(t, a, b)) by {
      forall t: State, e | Orderly(t, a, b) && Enabled(t, e) ensures Orderly(Apply(t, e), a, b) {
        EffectOrderly(t, e, a, b);
      }
    }
    RunKeeps((t: State) => Orderly(t, a, b), s, turns);
  }

  /** In every run, an agent that waits for a human has something outstanding for the human. */
  lemma WaitingIsJustified(s: State, turns: seq<Turn>, id: AgentId)
    requires Initial(s) && id in Run(s, turns).agents
    ensures IsJustified(Run(s, turns).agents[id])
  {
    RunOrderly(s, turns, id, id);
  }

  /** The embedded broker never has two live agents. */
  lemma EmbeddedHasOneLiveAgent(s: State, turns: seq<Turn>, a: AgentId, b: AgentId)
    requires Initial(s)
    requires var t := Run(s, turns);
      t.mode.Embedded? && a in t.agents && b in t.agents && t.agents[a].live && t.agents[b].live
    ensures a == b
  {
    RunOrderly(s, turns, a, b);
  }
}
