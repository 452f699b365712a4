/** A task is told that its client is gone only when it is: the converse of failing closed. */
module Warnings {
  import opened Protocol
  import opened BrokerSteps
  import opened TurnEnds
  import opened Composition
  import BrokerTasks

  // ---------------------------------------------------------------------------
  // The broker

  /** The client was lost, and every agent is warned. */
  ghost predicate WarnsAll(s: State, input: Input, t: State) {
    && s.running && s.mode.Durable? && input == Lost(s.generation) && !t.phase.Ready?
    && t.trace == s.trace + [Shut(s.generation), Warned(s.agents.Keys)]
  }

  /** A human request arrived while no client was ready, and its agent is warned. */
  ghost predicate WarnsOne(s: State, input: Input, t: State) {
    && s.running && s.mode.Durable? && !s.phase.Ready?
    && IsProviderEvent(input) && input.event.kind.Requested? && input.event.agent in s.agents
    && t.trace == s.trace + [Warned({input.event.agent}), Logged(NextEvent(s, input.event.agent, input.event.kind))]
  }

  lemma EventWarns(s: State, id: AgentId, kind: ProviderKind, ok: bool, j: nat)
    requires s.running && (id !in s.agents || !EndsTurn(kind))
    requires |s.trace| <= j < |StepOn(s, id, kind, ok).trace| && IsWarning(StepOn(s, id, kind, ok).trace[j])
    ensures WarnsOne(s, FromRuntime(ProviderEvent(id, kind)), StepOn(s, id, kind, ok))
  {
    var event := NextEvent(s, id, kind);
    OtherEventsOnlyShow(s, id, kind, ok);
    assert s.trace + [Warned({id})] + [Logged(event)] == s.trace + [Warned({id}), Logged(event)];
  }

  lemma CancellingEndIsQuiet(s: State, id: AgentId, kind: ProviderKind, ok: bool, j: nat)
    requires s.running && id in s.agents && EndsTurn(kind) && (s.agents[id].queue == [] || !IsFree(s.agents[id], kind))
    requires |s.trace| <= j < |StepOn(s, id, kind, ok).trace|
    ensures !IsWarning(StepOn(s, id, kind, ok).trace[j])
  {
    OtherEndCancels(s, id, kind, ok);
  }

  lemma FreeEndIsQuiet(s: State, id: AgentId, ok: bool, j: nat)
    requires s.running && id in s.agents && s.agents[id].queue != [] && IsFree(s.agents[id], TurnCompleted(false))
    requires |s.trace| <= j < |StepOn(s, id, TurnCompleted(false), ok).trace|
    ensures !IsWarning(StepOn(s, id, TurnCompleted(false), ok).trace[j])
  {
    if ok { EndedTurnStartsNext(s, id, ok); } else { EndedTurnLosesChannel(s, id, ok); }
  }

  lemma ProviderWarns(s: State, input: Input, ok: bool, j: nat)
    requires s.running && IsProviderEvent(input)
    requires |s.trace| <= j < |Step(s, input, ok).trace| && IsWarning(Step(s, input, ok).trace[j])
    ensures WarnsOne(s, input, Step(s, input, ok))
  {
    var id, kind := input.event.agent, input.event.kind;
    if id !in s.agents || !EndsTurn(kind) {
      EventWarns(s, id, kind, ok, j);
    } else if s.agents[id].queue == [] || !IsFree(s.agents[id], kind) {
      CancellingEndIsQuiet(s, id, kind, ok, j);
    } else {
      FreeEndIsQuiet(s, id, ok, j);
    }
  }

  /** Nothing else warns anybody. */
  lemma StepWarns(s: State, input: Input, ok: bool, j: nat)
    requires |s.trace| <= j < |Step(s, input, ok).trace| && IsWarning(Step(s, input, ok).trace[j])
    ensures var t := Step(s, input, ok); WarnsAll(s, input, t) || WarnsOne(s, input, t)
  {
    if IsProviderEvent(input) {
      ProviderWarns(s, input, ok, j);
    } else if !input.Lost? {
      OtherStepsAreCalm(s, input, ok);
    } else {
      assert s.trace + [Shut(s.generation)] + [Warned(s.agents.Keys)]
          == s.trace + [Shut(s.generation), Warned(s.agents.Keys)];
    }
  }

  ghost predicate Warns(s: State, input: Input, t: State, a: AgentId) {
    exists j :: |s.trace| <= j < |t.trace| && IsWarning(t.trace[j]) && t.trace[j].Warned? && a in t.trace[j].agents
  }

  /** In durable mode an agent is warned exactly when its client is lost, or when it asks a human something
      that no client sees. */
  lemma WarnedIffUnseen(s: State, input: Input, ok: bool, a: AgentId)
    ensures Warns(s, input, Step(s, input, ok), a)
       <==> && s.running && s.mode.Durable? && a in s.agents
            && (input == Lost(s.generation)
                || (!s.phase.Ready? && IsProviderEvent(input) && input.event.agent == a && input.event.kind.Requested?))
  {
    var t := Step(s, input, ok);
    if Warns(s, input, t, a) {
      var j :| |s.trace| <= j < |t.trace| && IsWarning(t.trace[j]) && t.trace[j].Warned? && a in t.trace[j].agents;
      StepWarns(s, input, ok, j);
    }
    if s.running && s.mode.Durable? && a in s.agents {
      if input == Lost(s.generation) {
        assert IsWarning(t.trace[|s.trace| + 1]);
      } else if !s.phase.Ready? && IsProviderEvent(input) && input.event.agent == a && input.event.kind.Requested? {
        OtherEventsOnlyShow(s, a, input.event.kind, ok);
        assert IsWarning(t.trace[|s.trace|]);
      }
    }
  }

  /** Turn `i` of the run recorded the warning at `j`, and had its reason. */
  ghost predicate HadReason(s: State, turns: seq<Turn>, i: nat, j: nat)
    requires i < |turns|
  {
    var before, after := Run(s, turns[..i]), Run(s, turns[..i + 1]);
    && |before.trace| <= j < |after.trace|
    && (WarnsAll(before, turns[i].input, after) || WarnsOne(before, turns[i].input, after))
  }

  /** In every run, every warning had its reason. */
  lemma {:induction false} WarningsHaveReasons(s: State, turns: seq<Turn>, j: nat)
    requires Initial(s) && j < |Run(s, turns).trace| && IsWarning(Run(s, turns).trace[j])
    ensures exists i :: 0 <= i < |turns| && HadReason(s, turns, i, j)
    decreases |turns|
  {
    var n := |turns| - 1;
    var front := turns[..n];
    var before := Run(s, front);
    BrokerTasks.StepGrows(before, turns[n].input, turns[n].ok);
    if j < |before.trace| {
      WarningsHaveReasons(s, front, j);
      var i :| 0 <= i < |front| && HadReason(s, front, i, j);
      assert front[..i] == turns[..i] && front[..i + 1] == turns[..i + 1];
      assert HadReason(s, turns, i, j);
    } else {
      StepWarns(before, turns[n].input, turns[n].ok, j);
      assert turns[..n + 1] == turns;
      assert HadReason(s, turns, n, j);
    }
  }

  // ---------------------------------------------------------------------------
  // The tasks

  /** The disconnection notices on their way to a task. */
  function Notices(tasks: map<AgentId, Task>, a: AgentId): nat {
    if a in tasks then multiset(tasks[a].commands)[ClientDisconnected] + tasks[a].deferred else 0
  }

  lemma CommandNotices(commands: seq<Command>, command: Command)
    ensures multiset(commands + [command])[ClientDisconnected]
         == multiset(commands)[ClientDisconnected] + if command.ClientDisconnected? then 1 else 0
  {
  }

  lemma ConveyOneQuietly(tasks: map<AgentId, Task>, action: Action, a: AgentId)
    requires !IsWarning(action)
    ensures Notices(ConveyOne(tasks, action), a) == Notices(tasks, a)
  {
    if action.Commanded? && action.agent in tasks { CommandNotices(tasks[action.agent].commands, action.command); }
  }

  lemma {:induction false} ConveyQuietly(tasks: map<AgentId, Task>, actions: seq<Action>, a: AgentId)
    requires forall j :: 0 <= j < |actions| ==> !IsWarning(actions[j])
    ensures Notices(Convey(tasks, actions), a) == Notices(tasks, a)
  {
    if actions != [] {
      var n := |actions| - 1;
      ConveyQuietly(tasks, actions[..n], a);
      ConveyOneQuietly(Convey(tasks, actions[..n]), actions[n], a);
    }
  }

  lemma NobodyIsWarned(s: State, input: Input, ok: bool, j: nat)
    requires s.phase.Ready? && Step(s, input, ok).phase.Ready?
    requires |s.trace| <= j < |Step(s, input, ok).trace|
    ensures !IsWarning(Step(s, input, ok).trace[j])
  {
    if IsWarning(Step(s, input, ok).trace[j]) { StepWarns(s, input, ok, j); }
  }

  lemma ReadyStepIsQuiet(s: State, input: Input, ok: bool, trace: seq<Action>)
    requires s.phase.Ready? && Step(s, input, ok).phase.Ready? && trace == Step(s, input, ok).trace
    ensures forall j :: |s.trace| <= j < |trace| ==> !IsWarning(trace[j])
  {
    forall j | |s.trace| <= j < |trace| ensures !IsWarning(trace[j]) { NobodyIsWarned(s, input, ok, j); }
  }

  lemma TraceQuietly(tasks: map<AgentId, Task>, earlier: seq<Action>, later: seq<Action>, a: AgentId)
    requires forall j :: |earlier| <= j < |later| ==> !IsWarning(later[j])
    ensures Notices(Convey(tasks, Since(earlier, later)), a) == Notices(tasks, a)
  {
    ConveyQuietly(tasks, Since(earlier, later), a);
  }

  lemma ServedQuietly(w: World, input: Input, ok: bool, a: AgentId)
    requires w.broker.phase.Ready? && Step(w.broker, input, ok).phase.Ready?
    ensures Notices(Served(w, input, ok).tasks, a) == Notices(w.tasks, a)
  {
    var trace := Step(w.broker, input, ok).trace;
    ReadyStepIsQuiet(w.broker, input, ok, trace);
    TraceQuietly(w.tasks, w.broker.trace, trace, a);
  }

  lemma TaskRunsQuietly(w: World, move: Move, a: AgentId)
    requires Possible(w, move) && move.RunTask?
    ensures Notices(Go(w, move).tasks, a) <= Notices(w.tasks, a)
  {
    if move.turn.Take? {
      var commands := w.tasks[move.agent].commands;
      assert commands == [commands[0]] + commands[1..];
    }
  }

  lemma ChannelsFillQuietly(w: World, move: Move, a: AgentId)
    requires Possible(w, move) && (move.Undefer? || move.BeginRetire?)
    ensures Notices(Go(w, move).tasks, a) <= Notices(w.tasks, a)
  {
    if move.Undefer? {
      CommandNotices(w.tasks[move.agent].commands, ClientDisconnected);
    } else {
      var x := RetireTargets(w.broker, w.inputs[0])[w.retiring];
      if x in w.tasks { CommandNotices(w.tasks[x].commands, Shutdown); }
    }
  }

  lemma GoQuietly(w: World, move: Move, a: AgentId)
    requires Possible(w, move) && w.broker.phase.Ready? && Go(w, move).broker.phase.Ready?
    ensures Notices(Go(w, move).tasks, a) <= Notices(w.tasks, a)
  {
    if move.ReadInput? || move.EndRetire? {
      ServedQuietly(w.(inputs := w.inputs[1..], retiring := 0), w.inputs[0], move.ok, a);
    } else if move.ReadEvent? {
      ServedQuietly(w.(events := w.events[1..]), FromRuntime(w.events[0]), move.ok, a);
    } else if move.RunTask? {
      TaskRunsQuietly(w, move, a);
    } else if move.Undefer? || move.BeginRetire? {
      ChannelsFillQuietly(w, move, a);
    }
  }

  /** A client is ready throughout. */
  ghost predicate StaysReady(w: World, moves: seq<Move>) {
    forall n :: 0 <= n <= |moves| ==> Play(w, moves[..n]).broker.phase.Ready?
  }

  lemma ReadyBefore(w: World, moves: seq<Move>)
    requires StaysReady(w, moves) && moves != []
    ensures StaysReady(w, moves[..|moves| - 1])
    ensures Play(w, moves[..|moves| - 1]).broker.phase.Ready? && Play(w, moves).broker.phase.Ready?
  {
    var front := moves[..|moves| - 1];
    assert moves[..|moves|] == moves;
    forall k | 0 <= k <= |front| ensures Play(w, front[..k]).broker.phase.Ready? {
      assert front[..k] == moves[..k];
    }
    assert front[..|front|] == front;
  }

  /** The last move of a play. */
  lemma LastQuietly(w: World, moves: seq<Move>, before: World, a: AgentId)
    requires moves != [] && before == Play(w, moves[..|moves| - 1])
    requires before.broker.phase.Ready? && Play(w, moves).broker.phase.Ready?
    ensures Notices(Play(w, moves).tasks, a) <= Notices(before.tasks, a)
  {
    if Possible(before, moves[|moves| - 1]) { GoQuietly(before, moves[|moves| - 1], a); }
  }

  /** As long as a client is ready, no task is told that it is gone: whatever the tasks, the front end and
      the broker do, no task gets a disconnection notice that was not already on its way. */
  lemma {:induction false} NobodyIsWarnedWhileServed(w: World, moves: seq<Move>, a: AgentId)
    requires StaysReady(w, moves)
    ensures Notices(Play(w, moves).tasks, a) <= Notices(w.tasks, a)
    decreases |moves|
  {
    if moves != [] {
      var front := moves[..|moves| - 1];
      ReadyBefore(w, moves);
      NobodyIsWarnedWhileServed(w, front, a);
      LastQuietly(w, moves, Play(w, front), a);
    }
  }
}
