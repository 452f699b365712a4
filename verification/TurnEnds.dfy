/** What the events of a turn do: its end starts the next queued prompt or cancels them all. */
module TurnEnds {
  import opened Options
  import opened Protocol
  import opened BrokerSteps
  import opened BrokerRuns
  import BrokerTasks

  function NextEvent(s: State, id: AgentId, kind: EventKind): Event {
    Event(|s.log| + 1, id, kind)
  }

  /** How an event appears: it is logged, and delivered while the client is ready. */
  function Shown(s: State, event: Event): seq<Action> {
    [Logged(event)] + if s.phase.Ready? && s.connected then [Delivered(s.generation, event)] else []
  }

  function StepOn(s: State, id: AgentId, kind: ProviderKind, ok: bool): State {
    Step(s, FromRuntime(ProviderEvent(id, kind)), ok)
  }

  // ---------------------------------------------------------------------------
  // The end of a turn

  predicate EndsTurn(kind: EventKind) {
    kind.TurnCompleted? || kind.TurnFailed?
  }

  /** Nothing holds the next prompt back: the turn ran to its end and no human is asked anything. */
  predicate IsFree(agent: Agent, kind: EventKind) {
    kind == TurnCompleted(false) && agent.approvals == 0 && agent.questions == 0
  }

  function EndState(kind: EventKind): AgentState
    requires EndsTurn(kind)
  {
    if kind.TurnFailed? then Failed else if kind.interrupted then Interrupted else Completed
  }

  lemma Appended(s: State, event: Event)
    ensures Send(Record(s.(log := s.log + [event]), Logged(event)), event)
         == s.(log := s.log + [event], trace := s.trace + Shown(s, event))
  {
    assert s.trace + [Logged(event)] + [Delivered(s.generation, event)]
        == s.trace + [Logged(event), Delivered(s.generation, event)];
  }

  function Warning(s: State, id: AgentId, kind: EventKind): seq<Action> {
    if s.mode.Durable? && !s.phase.Ready? && kind.Requested? && id in s.agents then [Warned({id})] else []
  }

  /** The state in which the consequences of an event begin. */
  function AfterEvent(s: State, id: AgentId, kind: EventKind): State {
    var event := NextEvent(s, id, kind);
    s.(agents := if id in s.agents then s.agents[id := Tracked(s.agents[id], kind)] else s.agents,
       log := s.log + [event], trace := s.trace + Warning(s, id, kind) + Shown(s, event))
  }

  lemma StepShows(s: State, id: AgentId, kind: ProviderKind, ok: bool)
    requires s.running
    ensures StepOn(s, id, kind, ok) == FollowUp(AfterEvent(s, id, kind), id, kind, ok)
  {
    var guarded := Guarded(s, id, kind);
    Appended(guarded, NextEvent(s, id, kind));
    assert s.trace + [] == s.trace;
    assert Observed(Announced(guarded, id, kind), id, kind) == AfterEvent(s, id, kind);
  }

  /** A turn that ran to its end starts the next queued prompt at once: under a fresh request, with the
      options captured for it, and with everything else as it was. */
  lemma EndedTurnStartsNext(s: State, id: AgentId, ok: bool)
    requires s.running && id in s.agents && s.agents[id].queue != []
    requires IsFree(s.agents[id], TurnCompleted(false)) && ok
    ensures var queue, request := s.agents[id].queue, QueuedRequest(s.nextRequest);
      var event := NextEvent(s, id, TurnCompleted(false));
      StepOn(s, id, TurnCompleted(false), ok)
      == s.(agents := s.agents[id := s.agents[id].(state := Running, turn := None, queue := queue[1..],
                                                   options := queue[0].options)],
            log := s.log + [event],
            nextRequest := s.nextRequest + 1,
            queued := s.queued + {request},
            trace := s.trace + Shown(s, event)
                     + [Dispatched(id, request, queue[0]), Commanded(id, SendPrompt(request, queue[0]))])
  {
    var kind, queue := TurnCompleted(false), s.agents[id].queue;
    var event, request := NextEvent(s, id, kind), QueuedRequest(s.nextRequest);
    StepShows(s, id, kind, ok);
    var shown := s.trace + [] + Shown(s, event);
    assert shown == s.trace + Shown(s, event);
    assert shown + [Dispatched(id, request, queue[0])] + [Commanded(id, SendPrompt(request, queue[0]))]
        == shown + [Dispatched(id, request, queue[0]), Commanded(id, SendPrompt(request, queue[0]))];
  }

  /** When the channel does not take it, the prompt is reported undelivered, the others are cancelled with
      one notice, and the agent is disconnected. */
  lemma EndedTurnLosesChannel(s: State, id: AgentId, ok: bool)
    requires s.running && id in s.agents && s.agents[id].queue != []
    requires IsFree(s.agents[id], TurnCompleted(false)) && !ok
    ensures var queue := s.agents[id].queue;
      var t := StepOn(s, id, TurnCompleted(false), ok);
      var event := NextEvent(s, id, TurnCompleted(false));
      var notice := Event(|s.log| + 2, id, Notice(|queue| - 1));
      var error := Event(|t.log|, id, BrokerError(ChannelUnavailable));
      && t.agents == s.agents[id := s.agents[id].(state := Disconnected, turn := None, queue := [],
                                                  approvals := 0, questions := 0, contexts := [])]
      && t.log == s.log + [event] + (if |queue| > 1 then [notice] else []) + [error]
      && t.trace == s.trace + Shown(s, event) + [Undelivered(id, queue[0])]
                    + (if |queue| > 1 then Shown(s, notice) else []) + Shown(s, error)
  {
    var after := AfterEvent(s, id, TurnCompleted(false));
    EndedTurnAbandons(s, id, ok);
    LostPrompt(after, id);
    var ended := s.agents[id].(state := Completed, turn := None);
    assert after.agents[id := Severed(ended.(queue := []))] == s.agents[id := Severed(ended.(queue := []))];
  }

  lemma EndedTurnAbandons(s: State, id: AgentId, ok: bool)
    requires s.running && id in s.agents && s.agents[id].queue != []
    requires IsFree(s.agents[id], TurnCompleted(false)) && !ok
    ensures var after := AfterEvent(s, id, TurnCompleted(false));
      && StepOn(s, id, TurnCompleted(false), ok) == Abandoned(Popped(after, id), id, s.agents[id].queue[0])
      && after.agents[id] == s.agents[id].(state := Completed, turn := None)
      && after.trace == s.trace + Shown(s, NextEvent(s, id, TurnCompleted(false)))
  {
    StepShows(s, id, TurnCompleted(false), ok);
    assert s.trace + [] == s.trace;
  }

  lemma LostPrompt(s: State, id: AgentId)
    requires id in s.agents && s.agents[id].queue != []
    ensures var queue := s.agents[id].queue;
      var t := Abandoned(Popped(s, id), id, queue[0]);
      var notice := Event(|s.log| + 1, id, Notice(|queue| - 1));
      var error := Event(|t.log|, id, BrokerError(ChannelUnavailable));
      && t.agents == s.agents[id := Severed(s.agents[id].(queue := []))]
      && t.log == s.log + (if |queue| > 1 then [notice] else []) + [error]
      && t.trace == s.trace + [Undelivered(id, queue[0])]
                    + (if |queue| > 1 then Shown(s, notice) else []) + Shown(s, error)
  {
    var queue := s.agents[id].queue;
    var u := Record(Popped(s, id), Undelivered(id, queue[0]));
    FailureShows(u, id, ChannelUnavailable);
    assert u.agents[id := Severed(u.agents[id].(queue := []))] == s.agents[id := Severed(s.agents[id].(queue := []))];
  }

  /** What cancelling and failing an agent adds to the log and to the trace. */
  lemma FailureShows(s: State, id: AgentId, cause: Cause)
    requires id in s.agents
    ensures var n, t := |s.agents[id].queue|, FailedWith(s, id, cause);
      var notice := Event(|s.log| + 1, id, Notice(n));
      var error := Event(|t.log|, id, BrokerError(cause));
      t == s.(agents := s.agents[id := Severed(s.agents[id].(queue := []))],
              log := s.log + (if n > 0 then [notice] else []) + [error],
              trace := s.trace + (if n > 0 then Shown(s, notice) else []) + Shown(s, error))
  {
    CancelShows(s, id);
    var cancelled := Cancelled(s, id);
    var severed := WithAgent(cancelled, id, Severed(cancelled.agents[id]));
    Appended(severed, Event(|severed.log| + 1, id, BrokerError(cause)));
    assert severed.agents == s.agents[id := Severed(s.agents[id].(queue := []))];
    assert s.log + [] == s.log && s.trace + [] == s.trace;
  }

  lemma CancelShows(s: State, id: AgentId)
    requires id in s.agents
    ensures var n := |s.agents[id].queue|;
      var notice := Event(|s.log| + 1, id, Notice(n));
      Cancelled(s, id)
      == s.(agents := s.agents[id := s.agents[id].(queue := [])],
            log := s.log + (if n > 0 then [notice] else []),
            trace := s.trace + (if n > 0 then Shown(s, notice) else []))
  {
    var cleared := WithAgent(s, id, s.agents[id].(queue := []));
    Appended(cleared, Event(|s.log| + 1, id, Notice(|s.agents[id].queue|)));
    assert s.log + [] == s.log && s.trace + [] == s.trace;
  }

  /** Any other end of a turn starts nothing: the queue is cancelled, with one notice that counts all of
      it, and the agent is left completed, interrupted or failed. */
  lemma OtherEndCancels(s: State, id: AgentId, kind: ProviderKind, ok: bool)
    requires s.running && id in s.agents && EndsTurn(kind)
    requires s.agents[id].queue == [] || !IsFree(s.agents[id], kind)
    ensures var n, event := |s.agents[id].queue|, NextEvent(s, id, kind);
      var notice := Event(|s.log| + 2, id, Notice(n));
      StepOn(s, id, kind, ok)
      == s.(agents := s.agents[id := s.agents[id].(state := EndState(kind), turn := None, queue := [])],
            log := s.log + [event] + (if n > 0 then [notice] else []),
            trace := s.trace + Shown(s, event) + (if n > 0 then Shown(s, notice) else []))
  {
    StepShows(s, id, kind, ok);
    var ended := s.agents[id].(state := EndState(kind), turn := None);
    var after := AfterEvent(s, id, kind);
    assert s.trace + [] == s.trace;
    assert after.agents[id] == ended;
    CancelShows(after, id);
    assert after.agents[id := ended.(queue := [])] == s.agents[id := ended.(queue := [])];
    if ended.queue == [] {
      assert ended.(queue := []) == ended;
      assert after.log + [] == after.log && after.trace + [] == after.trace;
    }
  }

  /** An event that ends no turn changes neither the queue nor what was sent, but for the warning of a
      request that no client sees. */
  lemma OtherEventsOnlyShow(s: State, id: AgentId, kind: ProviderKind, ok: bool)
    requires s.running && (id !in s.agents || !EndsTurn(kind))
    ensures var t, event := StepOn(s, id, kind, ok), NextEvent(s, id, kind);
      && t == s.(agents := t.agents, log := s.log + [event],
                 trace := s.trace + Warning(s, id, kind) + Shown(s, event))
      && t.agents.Keys == s.agents.Keys
      && (forall other :: other in s.agents && other != id ==> t.agents[other] == s.agents[other])
      && (id in s.agents ==>
            && t.agents[id].queue == s.agents[id].queue && t.agents[id].live == s.agents[id].live
            && t.agents[id].contexts == s.agents[id].contexts)
  {
    StepShows(s, id, kind, ok);
    if id in s.agents { TrackedKeeps(s.agents[id], kind); }
  }

  lemma TrackedKeeps(agent: Agent, kind: EventKind)
    ensures var now := Tracked(agent, kind);
      now.queue == agent.queue && now.live == agent.live && now.contexts == agent.contexts
  {
  }

  // ---------------------------------------------------------------------------
  // What the other events leave

  predicate IsOff(agent: Agent) {
    agent.state.Disconnected? || agent.state.Failed?
  }

  /** While a turn goes on, the agent's state says what it waits for: an approval before an answer, an
      answer before the rest of the turn. */
  ghost predicate Tells(agent: Agent) {
    && (agent.approvals > 0 <==> agent.state.WaitingApproval?)
    && (agent.approvals == 0 && agent.questions > 0 <==> agent.state.WaitingInput?)
    && (agent.approvals == 0 && agent.questions == 0 && agent.turn.Some? <==> agent.state.Running?)
    && (agent.approvals == 0 && agent.questions == 0 && agent.turn.None? <==> agent.state.Idle?)
  }

  function Settle(count: nat, one: bool): nat {
    if one && count > 0 then count - 1 else count
  }

  /** A turn that starts runs under its identity, a request makes its agent wait, and a resolution leaves an
      agent that is not off in the state that the counters and the turn tell. */
  ghost predicate Follows(was: Agent, now: Agent, kind: EventKind) {
    && (kind.TurnStarted? ==> now == was.(state := Running, turn := kind.turn))
    && (kind.Requested? && kind.human.Approval? ==>
          now == was.(state := WaitingApproval, approvals := was.approvals + 1))
    && (kind.Requested? && kind.human.Question? ==>
          && now == was.(state := now.state, questions := was.questions + 1)
          && now.state == (if was.approvals > 0 then was.state else WaitingInput))
    && (kind.Resolved? ==>
          && now == was.(state := now.state,
                         approvals := Settle(was.approvals, kind.human.Approval?),
                         questions := Settle(was.questions, kind.human.Question?))
          && (if IsOff(was) then now.state == was.state else Tells(now)))
    && (kind.OtherEvent? ==> now == was)
  }

  lemma TrackedFollows(agent: Agent, kind: ProviderKind)
    requires !EndsTurn(kind)
    ensures Follows(agent, Tracked(agent, kind), kind)
  {
  }

  lemma EventsSetState(s: State, id: AgentId, kind: ProviderKind, ok: bool)
    requires s.running && id in s.agents && !EndsTurn(kind)
    ensures Follows(s.agents[id], StepOn(s, id, kind, ok).agents[id], kind)
  {
    StepShows(s, id, kind, ok);
    TrackedFollows(s.agents[id], kind);
  }

  // ---------------------------------------------------------------------------
  // In every run

  predicate IsTaken(action: Action) {
    action.Dispatched? || action.Undelivered?
  }

  predicate IsWarning(action: Action) {
    action.Warned? || (action.Commanded? && action.command.ClientDisconnected?)
  }

  predicate IsSpecial(action: Action) {
    IsWarning(action) || IsTaken(action)
  }

  ghost predicate Calm(s: State, n: nat) {
    n <= |s.trace| && forall j :: n <= j < |s.trace| ==> !IsSpecial(s.trace[j])
  }

  lemma EffectCalm(s: State, e: Effect, n: nat)
    requires Enabled(s, e) && Inside(e) && Calm(s, n)
    ensures Calm(Apply(s, e), n)
  {
    if e.Cancel? || e.Fail? {
      FailedCalm(s, e.agent, if e.Fail? then e.cause else RuntimeFailed, n);
    } else if IsLocal(e) {
      LocalCalm(s, e, n);
    }
  }

  lemma FailedCalm(s: State, id: AgentId, cause: Cause, n: nat)
    requires id in s.agents && Calm(s, n)
    ensures Calm(Cancelled(s, id), n) && Calm(FailedWith(s, id, cause), n)
  {
    CancelShows(s, id);
    FailureShows(s, id, cause);
  }

  lemma LocalCalm(s: State, e: Effect, n: nat)
    requires Enabled(s, e) && IsLocal(e) && Calm(s, n)
    ensures Calm(Apply(s, e), n)
  {
    LocalShape(s, e);
  }

  lemma CalmIsKept(n: nat, b: Bounds)
    ensures KeptInside((s: State) => Calm(s, n), b)
  {
    forall s: State, e | Calm(s, n) && Enabled(s, e) && Inside(e) && Within(e, b) ensures Calm(Apply(s, e), n) {
      EffectCalm(s, e, n);
    }
  }

  predicate IsProviderEvent(input: Input) {
    input.FromRuntime? && input.event.ProviderEvent?
  }

  /** Only a provider's event, or the loss of the client, warns anybody or takes a queued prompt. */
  lemma OtherStepsAreCalm(s: State, input: Input, ok: bool)
    requires !IsProviderEvent(input) && !input.Lost?
    ensures Calm(Step(s, input, ok), |s.trace|)
  {
    var n := |s.trace|;
    var p := (t: State) => Calm(t, n);
    match input
    case Request(_, publicId, call) =>
      CalmIsKept(n, CallBounds(s, call));
      CallKeeps(p, CallBounds(s, call), s, publicId, call, ok);
    case FromRuntime(event) =>
      CalmIsKept(n, Bounds(DepartingOn(s, event), []));
      RuntimeKeeps(p, Bounds(DepartingOn(s, event), []), s, event, ok);
    case _ =>
  }

  /** The end of a turn of `id` stands right before `j`. */
  ghost predicate FollowsEnd(trace: seq<Action>, j: nat, id: AgentId)
    requires j <= |trace|
  {
    exists event: Event ::
      && event.agent == id && event.kind == TurnCompleted(false)
      && (EndsWith(trace[..j], [Logged(event)])
          || exists g: nat :: EndsWith(trace[..j], [Logged(event), Delivered(g, event)]))
  }

  predicate EndsWith(trace: seq<Action>, last: seq<Action>) {
    |last| <= |trace| && trace[|trace| - |last|..] == last
  }

  /** Of what follows the end of a turn, only the first action takes a prompt. */
  lemma TakenFirst(s: State, event: Event, rest: seq<Action>, trace: seq<Action>, j: nat)
    requires event.kind == TurnCompleted(false) && trace == s.trace + Shown(s, event) + rest
    requires forall k :: 0 < k < |rest| ==> !IsTaken(rest[k])
    requires |s.trace| <= j < |trace| && IsTaken(trace[j])
    ensures FollowsEnd(trace, j, event.agent)
  {
    var front := s.trace + Shown(s, event);
    assert j == |front| && trace[..j] == front;
    assert EndsWith(front, Shown(s, event));
  }

  lemma TakenAfterEnd(s: State, id: AgentId, kind: ProviderKind, ok: bool, j: nat)
    requires s.running && |s.trace| <= j < |StepOn(s, id, kind, ok).trace| && IsTaken(StepOn(s, id, kind, ok).trace[j])
    ensures var trace := StepOn(s, id, kind, ok).trace; FollowsEnd(trace, j, trace[j].agent)
  {
    if id !in s.agents || !EndsTurn(kind) {
      OtherEventsOnlyShow(s, id, kind, ok);
    } else if s.agents[id].queue == [] || !IsFree(s.agents[id], kind) {
      OtherEndCancels(s, id, kind, ok);
    } else if ok {
      DispatchedAfterEnd(s, id, j);
    } else {
      UndeliveredAfterEnd(s, id, j);
    }
  }

  lemma DispatchedAfterEnd(s: State, id: AgentId, j: nat)
    requires s.running && id in s.agents && s.agents[id].queue != [] && IsFree(s.agents[id], TurnCompleted(false))
    requires var trace := StepOn(s, id, TurnCompleted(false), true).trace;
      |s.trace| <= j < |trace| && IsTaken(trace[j])
    ensures var trace := StepOn(s, id, TurnCompleted(false), true).trace; FollowsEnd(trace, j, trace[j].agent)
  {
    var prompt, request := s.agents[id].queue[0], QueuedRequest(s.nextRequest);
    EndedTurnStartsNext(s, id, true);
    TakenFirst(s, NextEvent(s, id, TurnCompleted(false)),
               [Dispatched(id, request, prompt), Commanded(id, SendPrompt(request, prompt))],
               StepOn(s, id, TurnCompleted(false), true).trace, j);
  }

  lemma Regroup(a: seq<Action>, b: seq<Action>, c: seq<Action>, d: seq<Action>)
    ensures a + b + c + d == a + (b + (c + d))
  {
  }

  lemma AfterUndelivered(s: State, id: AgentId) returns (rest: seq<Action>)
    requires s.running && id in s.agents && s.agents[id].queue != []
    requires IsFree(s.agents[id], TurnCompleted(false))
    ensures StepOn(s, id, TurnCompleted(false), false).trace
         == s.trace + Shown(s, NextEvent(s, id, TurnCompleted(false)))
            + ([Undelivered(id, s.agents[id].queue[0])] + rest)
    ensures forall k :: 0 <= k < |rest| ==> !IsTaken(rest[k])
  {
    var queue, t := s.agents[id].queue, StepOn(s, id, TurnCompleted(false), false);
    EndedTurnLosesChannel(s, id, false);
    var notice := Event(|s.log| + 2, id, Notice(|queue| - 1));
    var shown := if |queue| > 1 then Shown(s, notice) else [];
    var error := Shown(s, Event(|t.log|, id, BrokerError(ChannelUnavailable)));
    rest := shown + error;
    Regroup(s.trace + Shown(s, NextEvent(s, id, TurnCompleted(false))), [Undelivered(id, queue[0])], shown, error);
  }

  lemma UndeliveredAfterEnd(s: State, id: AgentId, j: nat)
    requires s.running && id in s.agents && s.agents[id].queue != [] && IsFree(s.agents[id], TurnCompleted(false))
    requires var trace := StepOn(s, id, TurnCompleted(false), false).trace;
      |s.trace| <= j < |trace| && IsTaken(trace[j])
    ensures var trace := StepOn(s, id, TurnCompleted(false), false).trace; FollowsEnd(trace, j, trace[j].agent)
  {
    var rest := AfterUndelivered(s, id);
    TakenFirst(s, NextEvent(s, id, TurnCompleted(false)), [Undelivered(id, s.agents[id].queue[0])] + rest,
               StepOn(s, id, TurnCompleted(false), false).trace, j);
  }

  /** In every run, a queued prompt is only ever taken right after a turn of its agent ran to its end. */
  lemma {:induction false} PromptsFollowEnds(s: State, turns: seq<Turn>, j: nat)
    requires Initial(s) && j < |Run(s, turns).trace|
    requires IsTaken(Run(s, turns).trace[j])
    ensures FollowsEnd(Run(s, turns).trace, j, Run(s, turns).trace[j].agent)
    decreases |turns|
  {
    var n := |turns| - 1;
    var before, input, ok := Run(s, turns[..n]), turns[n].input, turns[n].ok;
    var trace := Run(s, turns).trace;
    BrokerTasks.StepGrows(before, input, ok);
    if j < |before.trace| {
      PromptsFollowEnds(s, turns[..n], j);
      assert trace[..j] == before.trace[..j];
    } else if IsProviderEvent(input) {
      TakenAfterEnd(before, input.event.agent, input.event.kind, ok, j);
    } else if !input.Lost? {
      OtherStepsAreCalm(before, input, ok);
    }
  }
}
