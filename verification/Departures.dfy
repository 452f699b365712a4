/** What becomes of queued prompts when their agent leaves the table. */
module Departures {
  import opened Options
  import opened Protocol
  import opened BrokerSteps
  import opened BrokerRuns
  import opened PromptLedger

  // ---------------------------------------------------------------------------
  // Leaving the table

  ghost predicate Present(s: State, a: AgentId) {
    a in s.agents
  }

  lemma EffectKeepsPresent(s: State, e: Effect, a: AgentId)
    requires Enabled(s, e) && (e.Remove? ==> a !in e.agents) && Present(s, a)
    ensures Present(Apply(s, e), a)
  {
    if e.Abandon? {
      var t := Record(Popped(s, e.agent), Undelivered(e.agent, s.agents[e.agent].queue[0]));
      FailedAgents(t, e.agent, ChannelUnavailable);
    } else if e.Cancel? || e.Fail? {
      CancelledAgents(s, e.agent);
      FailedAgents(s, e.agent, if e.Fail? then e.cause else RuntimeFailed);
    } else if IsLocal(e) {
      LocalKeepsPresent(s, e, a);
    }
  }

  lemma LocalKeepsPresent(s: State, e: Effect, a: AgentId)
    requires Enabled(s, e) && IsLocal(e) && (e.Remove? ==> a !in e.agents) && Present(s, a)
    ensures Present(Apply(s, e), a)
  {
  }

  /** Only a departing agent leaves. */
  lemma OthersStay(s: State, input: Input, ok: bool, a: AgentId)
    requires a in s.agents && a !in Departing(s, input)
    ensures a in Step(s, input, ok).agents
  {
    var b := Scope(s, input);
    assert KeptWithin((t: State) => Present(t, a), b) by {
      forall t: State, e | Present(t, a) && Enabled(t, e) && Within(e, b) ensures Present(Apply(t, e), a) {
        EffectKeepsPresent(t, e, a);
      }
    }
    StepKeeps((t: State) => Present(t, a), s, input, ok);
  }

  ghost predicate UnbornOrPresent(s: State, a: AgentId) {
    a >= s.nextAgent || a in s.agents
  }

  lemma NewcomersStay(s: State, input: Input, ok: bool, a: AgentId)
    requires a !in s.agents && a >= s.nextAgent
    ensures UnbornOrPresent(Step(s, input, ok), a)
  {
    var b := Scope(s, input);
    DepartingArePresent(s, input);
    assert KeptWithin((t: State) => UnbornOrPresent(t, a), b) by {
      forall t: State, e | UnbornOrPresent(t, a) && Enabled(t, e) && Within(e, b)
        ensures UnbornOrPresent(Apply(t, e), a)
      {
        if a in t.agents { EffectKeepsPresent(t, e, a); } else { EffectKeepsUnborn(t, e, a); }
      }
    }
    StepKeeps((t: State) => UnbornOrPresent(t, a), s, input, ok);
  }

  lemma EffectKeepsUnborn(s: State, e: Effect, a: AgentId)
    requires Enabled(s, e) && a >= s.nextAgent
    ensures UnbornOrPresent(Apply(s, e), a)
  {
    FailureKeepsNames(s, e);
  }

  lemma FailureKeepsNames(s: State, e: Effect)
    requires Enabled(s, e)
    ensures e.Cancel? || e.Fail? || e.Abandon? ==> Apply(s, e).nextAgent == s.nextAgent
  {
  }

  lemma {:induction false} SessionMembers(agents: map<AgentId, Agent>, order: seq<AgentId>, provider: Provider,
                                          session: string)
    ensures forall i :: 0 <= i < |OfSession(agents, order, provider, session)| ==>
      OfSession(agents, order, provider, session)[i] in agents
  {
    if order != [] { SessionMembers(agents, order[1..], provider, session); }
  }

  lemma DepartingArePresent(s: State, input: Input)
    ensures Departing(s, input) <= s.agents.Keys
  {
    if input.Request? && input.call.DeleteSession? {
      SessionMembers(s.agents, s.order, input.call.provider, input.call.session);
    }
  }

  // ---------------------------------------------------------------------------
  // The ledger of an agent that leaves

  lemma SettledBalance(s: State, id: RuntimeId, a: AgentId)
    ensures Balance(Settled(s, id).trace, a) == Balance(s.trace, a)
  {
    if id in s.pending { OtherKeeps(s, Answered(s.generation, id, s.pending[id].publicId), a); }
  }

  lemma RetireBalance(s: State, id: AgentId, ok: bool, a: AgentId)
    requires id in s.agents
    ensures Balance(Retire(s, id, ok).trace, a) == Balance(s.trace, a)
  {
    var t := if ok then Record(s, Commanded(id, Shutdown)) else s;
    OtherKeeps(s, Commanded(id, Shutdown), a);
    OtherKeeps(t, Released(id), a);
  }

  lemma {:induction false} RetireAllBalance(s: State, ids: seq<AgentId>, ok: bool, a: AgentId)
    ensures Balance(RetireAll(s, ids, ok).trace, a) == Balance(s.trace, a)
    decreases |ids|
  {
    if ids != [] {
      if ids[0] in s.agents { RetireBalance(s, ids[0], ok, a); }
      RetireAllBalance(if ids[0] in s.agents && s.agents[ids[0]].live then Retire(s, ids[0], ok) else s,
                       ids[1..], ok, a);
    }
  }

  lemma ReplyBalance(s: State, publicId: string, a: AgentId)
    ensures Balance(Reply(s, publicId).trace, a) == Balance(s.trace, a)
  {
    OtherKeeps(s, Replied(s.generation, publicId), a);
  }

  lemma LeavingBalance(s: State, publicId: string, call: Call, ok: bool, a: AgentId)
    requires a in Leaving(s, call)
    ensures var t := OnLifecycle(s, publicId, call, ok);
      a !in t.agents && Balance(t.trace, a) == Balance(s.trace, a)
  {
    match call
    case ArchiveAgent(id) =>
      RetireBalance(s, id, ok, a);
      var u := if s.agents[id].live then Retire(s, id, ok) else s;
      ReplyBalance(Removed(u, {id}), publicId, a);
    case DeleteSession(provider, session, _) =>
      var ids := OfSession(s.agents, s.order, provider, session);
      RetireAllBalance(s, ids, ok, a);
      ReplyBalance(Removed(RetireAll(s, ids, ok), set i | 0 <= i < |ids| :: ids[i]), publicId, a);
  }

  lemma StaleBalance(s: State, id: RuntimeId, agent: AgentId, session: string, a: AgentId)
    requires a in Stale(s, agent, session)
    ensures var t := OnStarted(s, id, agent, session);
      a !in t.agents && Balance(t.trace, a) == Balance(s.trace, a)
  {
    var u := Removed(s, Stale(s, agent, session));
    if agent in u.agents {
      SettledBalance(WithAgent(u, agent, u.agents[agent].(session := Some(session), state := Idle)), id, a);
    }
  }

  lemma RequestIsLifecycle(s: State, input: Input, ok: bool)
    requires s.running && input.Request? && Departing(s, input) != {}
    ensures Step(s, input, ok) == OnLifecycle(s, input.publicId, input.call, ok)
  {
  }

  /** A departing agent leaves, and its prompts are neither dispatched nor cancelled. */
  lemma DepartedUnresolved(s: State, input: Input, ok: bool, a: AgentId)
    requires s.running && a in Departing(s, input)
    ensures a !in Step(s, input, ok).agents
    ensures Balance(Step(s, input, ok).trace, a) == Balance(s.trace, a)
  {
    if input.Request? {
      RequestIsLifecycle(s, input, ok);
      LeavingBalance(s, input.publicId, input.call, ok, a);
    } else {
      assert Step(s, input, ok) == OnStarted(s, input.event.id, input.event.agent, input.event.session);
      StaleBalance(s, input.event.id, input.event.agent, input.event.session, a);
    }
  }

  // ---------------------------------------------------------------------------
  // Once gone, always gone

  ghost predicate Gone(s: State, a: AgentId, account: Account) {
    a !in s.agents && a < s.nextAgent && !account.owed && Balance(s.trace, a) == account
  }

  lemma OtherGone(s: State, e: Effect, a: AgentId, account: Account)
    requires Enabled(s, e) && !IsLedger(e) && Gone(s, a, account)
    ensures Gone(Apply(s, e), a, account)
  {
    OtherEffect(s, e, a);
  }

  lemma AnnouncedGone(s: State, id: AgentId, kind: EventKind, a: AgentId, account: Account)
    requires Enabled(s, Announce(id, kind)) && Gone(s, a, account)
    ensures Gone(Observed(Announced(s, id, kind), id, kind), a, account)
  {
    AnnouncedBalance(s, id, kind, a);
  }

  lemma AcceptedGone(s: State, id: AgentId, prompt: Prompt, a: AgentId, account: Account)
    requires id in s.agents && Gone(s, a, account)
    ensures Gone(WithPrompt(s, id, prompt), a, account)
  {
    BalanceSnoc(s.trace, Accepted(id, prompt), a);
  }

  lemma EffectKeepsGone(s: State, e: Effect, a: AgentId, account: Account)
    requires Enabled(s, e) && Gone(s, a, account)
    ensures Gone(Apply(s, e), a, account)
  {
    if !IsLedger(e) {
      OtherGone(s, e, a, account);
    } else if e.Announce? {
      AnnouncedGone(s, e.agent, e.kind, a, account);
    } else if e.Accept? {
      AcceptedGone(s, e.agent, e.prompt, a, account);
    } else {
      ClearedGone(s, e, a, account);
    }
  }

  lemma DispatchGone(s: State, id: AgentId, a: AgentId, account: Account)
    requires id in s.agents && s.agents[id].queue != [] && Gone(s, a, account)
    ensures Gone(Launched(Popped(s, id), id, s.agents[id].queue[0], QueuedRequest(s.nextRequest)), a, account)
  {
    var prompt, request := s.agents[id].queue[0], QueuedRequest(s.nextRequest);
    BalanceSnoc(s.trace, Dispatched(id, request, prompt), a);
    BalanceSnoc(s.trace + [Dispatched(id, request, prompt)], Commanded(id, SendPrompt(request, prompt)), a);
  }

  lemma AbandonGone(s: State, id: AgentId, a: AgentId, account: Account)
    requires id in s.agents && s.agents[id].queue != [] && Gone(s, a, account)
    ensures Gone(Abandoned(Popped(s, id), id, s.agents[id].queue[0]), a, account)
  {
    var undelivered := Undelivered(id, s.agents[id].queue[0]);
    BalanceSnoc(s.trace, undelivered, a);
    FailedBalance(Record(Popped(s, id), undelivered), id, ChannelUnavailable, a);
  }

  lemma ClearedGone(s: State, e: Effect, a: AgentId, account: Account)
    requires Enabled(s, e) && (e.Cancel? || e.Fail? || e.Dispatch? || e.Abandon?) && Gone(s, a, account)
    ensures Gone(Apply(s, e), a, account)
  {
    if e.Cancel? {
      CancelledBalance(s, e.agent, a);
    } else if e.Fail? {
      FailedBalance(s, e.agent, e.cause, a);
    } else if e.Dispatch? {
      DispatchGone(s, e.agent, a, account);
    } else {
      AbandonGone(s, e.agent, a, account);
    }
  }

  lemma StaysGone(s: State, input: Input, ok: bool, a: AgentId)
    requires a !in s.agents && a < s.nextAgent && !Balance(s.trace, a).owed
    ensures Gone(Step(s, input, ok), a, Balance(s.trace, a))
  {
    var account := Balance(s.trace, a);
    assert Kept((t: State) => Gone(t, a, account)) by {
      forall t: State, e | Gone(t, a, account) && Enabled(t, e) ensures Gone(Apply(t, e), a, account) {
        EffectKeepsGone(t, e, a, account);
      }
    }
    StepKeeps((t: State) => Gone(t, a, account), s, input, ok);
  }

  // ---------------------------------------------------------------------------
  // The exact condition

  /** The agent is about to leave the table, by an archive, by the deletion of its session or as the
      older record of a session that is opened again, while prompts are still queued. */
  predicate LeavesQueued(s: State, input: Input, a: AgentId) {
    s.running && a in Departing(s, input) && a in s.agents && s.agents[a].queue != []
  }

  /** It did so at some turn of the run. */
  predicate HasLeftQueued(s: State, turns: seq<Turn>, a: AgentId) {
    turns != [] &&
    var n := |turns| - 1;
    HasLeftQueued(s, turns[..n], a) || LeavesQueued(Run(s, turns[..n]), turns[n].input, a)
  }

  /** What an agent that left has not resolved was queued when it left. */
  ghost predicate Explained(s: State, turns: seq<Turn>, a: AgentId) {
    var t := Run(s, turns);
    if a in t.agents then !HasLeftQueued(s, turns, a)
    else Balance(t.trace, a).waiting != [] <==> HasLeftQueued(s, turns, a)
  }

  lemma PresentExplained(s: State, turns: seq<Turn>, a: AgentId)
    requires Initial(s) && turns != []
    requires Explained(s, turns[..|turns| - 1], a) && a in Run(s, turns[..|turns| - 1]).agents
    ensures Explained(s, turns, a)
  {
    var n := |turns| - 1;
    var before, last := Run(s, turns[..n]), turns[n];
    RunAccounted(s, turns[..n], a);
    if before.running && a in Departing(before, last.input) {
      DepartedUnresolved(before, last.input, last.ok, a);
    } else if before.running {
      OthersStay(before, last.input, last.ok, a);
    }
  }

  lemma AbsentExplained(s: State, turns: seq<Turn>, a: AgentId)
    requires Initial(s) && turns != []
    requires Explained(s, turns[..|turns| - 1], a) && a !in Run(s, turns[..|turns| - 1]).agents
    ensures Explained(s, turns, a)
  {
    var n := |turns| - 1;
    var before, last := Run(s, turns[..n]), turns[n];
    RunAccounted(s, turns[..n], a);
    RunAccounted(s, turns, a);
    if a < before.nextAgent {
      StaysGone(before, last.input, last.ok, a);
    } else {
      NewcomersStay(before, last.input, last.ok, a);
    }
  }

  lemma {:induction false} EveryLossIsExplained(s: State, turns: seq<Turn>, a: AgentId)
    requires Initial(s)
    ensures Explained(s, turns, a)
  {
    if turns == [] {
      assert Run(s, turns) == s && !HasLeftQueued(s, turns, a);
    } else {
      EveryLossIsExplained(s, turns[..|turns| - 1], a);
      if a in Run(s, turns[..|turns| - 1]).agents {
        PresentExplained(s, turns, a);
      } else {
        AbsentExplained(s, turns, a);
      }
    }
  }

  /** For every agent of every run: some accepted prompt is neither resolved nor still queued if and only
      if the agent left the table while prompts were queued. */
  lemma PromptsAreLostIffAgentLeaves(s: State, turns: seq<Turn>, a: AgentId)
    requires Initial(s)
    ensures HasLeftQueued(s, turns, a) <==>
      var t := Run(s, turns);
      ResolvedCount(t.trace, a) + (if a in t.agents then |t.agents[a].queue| else 0) < |AcceptedBy(t.trace, a)|
  {
    EveryLossIsExplained(s, turns, a);
    RunAccounted(s, turns, a);
    WaitingAreUnresolved(Run(s, turns).trace, a);
  }

  // ---------------------------------------------------------------------------
  // Such a loss happens

  /** The broker is ready and holds one agent. */
  ghost predicate Scene(s: State, agent: Agent) {
    && s.running && s.mode.Durable? && s.phase.Ready? && s.generation == 1 && s.connected
    && s.agents == map[0 := agent] && s.order == [0]
  }

  const Launched0 := Agent(Codex, "", None, Starting, None, 0, 0, [], [], "", true)
  const Started0 := Launched0.(session := Some(""), state := Idle)
  const Prompted0 := Started0.(state := Running)
  const Asked0 := Prompted0.(state := WaitingApproval, approvals := 1)
  const Queued0 := Asked0.(queue := [Prompt("later", [], "")])
  const Rested0 := Queued0.(approvals := 0, state := Idle)

  ghost predicate Empty(s: State) {
    && s.running && s.mode.Durable? && s.agents == map[] && s.order == [] && s.nextAgent == 0 && s.log == []
  }

  function Ask(s: State, call: Call): State {
    Step(s, Request(1, "", call), true)
  }

  function Hear(s: State, event: RuntimeEvent): State {
    Step(s, FromRuntime(event), true)
  }

  lemma SceneOpens(s: State)
    requires Empty(s) && s.generation == 0
    ensures var t := Step(s, Connected(1), true);
      Empty(t) && t.phase.AwaitInitialize? && t.generation == 1 && t.connected
  {
  }

  lemma SceneInitializes(s: State)
    requires Empty(s) && s.phase.AwaitInitialize? && s.generation == 1 && s.connected
    ensures var t := Ask(s, Initialize(true, None));
      Empty(t) && t.phase.AwaitInitialized? && t.generation == 1 && t.connected
  {
  }

  lemma SceneLaunches(s: State)
    requires Empty(s) && s.phase.AwaitInitialized? && s.generation == 1 && s.connected
    ensures Scene(Ask(Step(s, Initialized(1), true), Launch(LaunchSpec(Codex, "", ""))), Launched0)
  {
    var t := Step(s, Initialized(1), true);
    assert Empty(t) && t.phase.Ready? && t.generation == 1 && t.connected;
  }

  lemma SceneStarts(s: State)
    requires Scene(s, Launched0)
    ensures Scene(Hear(s, Started(QueuedRequest(0), 0, "")), Started0)
  {
    assert Stale(s, 0, "") == {} && s.agents - {} == s.agents;
    assert Without([0], {}) == [0] by { assert [0][1..] == []; }
  }

  lemma NoContexts()
    ensures var none: seq<string> := []; none + none == none && ContextsFit(none)
  {
  }

  lemma ScenePrompts(s: State)
    requires Scene(s, Started0)
    ensures Scene(Ask(s, PromptAgent(0, "now", [], None, false)), Prompted0)
  {
    NoContexts();
  }

  lemma SceneAsks(s: State)
    requires Scene(s, Prompted0)
    ensures Scene(Hear(s, ProviderEvent(0, Requested(Approval, 0))), Asked0)
  {
  }

  lemma SceneQueues(s: State)
    requires Scene(s, Asked0)
    ensures Scene(Ask(s, PromptAgent(0, "later", [], None, true)), Queued0)
  {
    NoContexts();
    assert Asked0.queue + [Prompt("later", [], "")] == Queued0.queue;
  }

  lemma SceneRests(s: State)
    requires Scene(s, Queued0)
    ensures Scene(Hear(s, ProviderEvent(0, Resolved(Approval, 0))), Rested0)
  {
  }

  lemma RunSnoc(s: State, turns: seq<Turn>, input: Input)
    ensures Run(s, turns + [Turn(input, true)]) == Step(Run(s, turns), input, true)
  {
    assert (turns + [Turn(input, true)])[..|turns|] == turns;
  }

  lemma LaunchedSceneIsReached(s: State) returns (turns: seq<Turn>)
    requires Initial(s) && Empty(s)
    ensures Scene(Run(s, turns), Launched0)
  {
    SceneOpens(s);
    turns := Extended(s, [], Connected(1));
    SceneInitializes(Run(s, turns));
    turns := Extended(s, turns, Request(1, "", Initialize(true, None)));
    SceneLaunches(Run(s, turns));
    turns := Extended(s, turns, Initialized(1));
    turns := Extended(s, turns, Request(1, "", Launch(LaunchSpec(Codex, "", ""))));
  }

  lemma PromptedSceneIsReached(s: State) returns (turns: seq<Turn>)
    requires Initial(s) && Empty(s)
    ensures Scene(Run(s, turns), Prompted0)
  {
    turns := LaunchedSceneIsReached(s);
    SceneStarts(Run(s, turns));
    turns := Extended(s, turns, FromRuntime(Started(QueuedRequest(0), 0, "")));
    ScenePrompts(Run(s, turns));
    turns := Extended(s, turns, Request(1, "", PromptAgent(0, "now", [], None, false)));
  }

  lemma QueuedSceneIsReached(s: State) returns (turns: seq<Turn>)
    requires Initial(s) && Empty(s)
    ensures Scene(Run(s, turns), Queued0)
  {
    turns := PromptedSceneIsReached(s);
    SceneAsks(Run(s, turns));
    turns := Extended(s, turns, FromRuntime(ProviderEvent(0, Requested(Approval, 0))));
    SceneQueues(Run(s, turns));
    turns := Extended(s, turns, Request(1, "", PromptAgent(0, "later", [], None, true)));
  }

  /** An idle agent with a prompt still queued can be reached. */
  lemma RestedSceneIsReached(s: State) returns (turns: seq<Turn>)
    requires Initial(s) && Empty(s)
    ensures Scene(Run(s, turns), Rested0)
  {
    turns := QueuedSceneIsReached(s);
    SceneRests(Run(s, turns));
    turns := Extended(s, turns, FromRuntime(ProviderEvent(0, Resolved(Approval, 0))));
  }

  lemma Extended(s: State, turns: seq<Turn>, input: Input) returns (longer: seq<Turn>)
    ensures longer == turns + [Turn(input, true)] && Run(s, longer) == Step(Run(s, turns), input, true)
  {
    longer := turns + [Turn(input, true)];
    RunSnoc(s, turns, input);
  }

  /** An approval that is resolved before its turn was announced leaves the agent idle with a prompt still
      queued; archiving it then forgets the prompt without a word. */
  lemma AnArchivedPromptIsForgotten(s: State)
    requires Initial(s) && Empty(s)
    ensures exists turns: seq<Turn> :: HasLeftQueued(s, turns, 0) && 0 !in Run(s, turns).agents
  {
    var turns := RestedSceneIsReached(s);
    var archive := Request(1, "", ArchiveAgent(0));
    var longer := Extended(s, turns, archive);
    var before := Run(s, turns);
    assert longer[..|turns|] == turns;
    assert 0 in Departing(before, archive);
    assert HasLeftQueued(s, longer, 0);
    DepartedUnresolved(before, archive, true, 0);
  }
}
