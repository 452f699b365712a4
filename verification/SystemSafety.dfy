/** Human requests across the broker, the tasks and the channels. */
module SystemSafety {
  import opened Options
  import opened Protocol
  import opened BrokerSteps
  import opened RuntimeSteps
  import opened BrokerTasks
  import opened Conservation
  import opened Composition

  // ---------------------------------------------------------------------------
  // Sequences of events

  lemma {:induction false} KindsConcat(a: seq<RuntimeEvent>, b: seq<RuntimeEvent>, agent: AgentId)
    ensures Kinds(a + b, agent) == Kinds(a, agent) + Kinds(b, agent)
  {
    if b == [] {
      assert a + b == a;
    } else {
      var n := |b| - 1;
      KindsConcat(a, b[..n], agent);
      assert a + b == a + b[..n] + [b[n]];
      KindsSnoc(a + b[..n], b[n], agent);
      KindsSnoc(b[..n], b[n], agent);
      assert b == b[..n] + [b[n]];
    }
  }

  lemma {:induction false} TallyConcat(a: seq<EventKind>, b: seq<EventKind>, human: HumanKind)
    ensures Asked(a + b, human) == Asked(a, human) + Asked(b, human)
    ensures Closed(a + b, human) == Closed(a, human) + Closed(b, human)
  {
    if b == [] {
      assert a + b == a;
    } else {
      var n := |b| - 1;
      TallyConcat(a, b[..n], human);
      assert a + b == a + b[..n] + [b[n]];
      assert b == b[..n] + [b[n]];
      TallySnoc(a + b[..n], b[n], human);
      TallySnoc(b[..n], b[n], human);
    }
  }

  lemma SolventPrefix(kinds: seq<EventKind>, rest: seq<EventKind>, human: HumanKind)
    requires Solvent(kinds + rest, human)
    ensures Solvent(kinds, human)
  {
    forall k {:trigger kinds[..k]} | 0 <= k <= |kinds| ensures Closed(kinds[..k], human) <= Asked(kinds[..k], human) {
      assert (kinds + rest)[..k] == kinds[..k];
    }
  }

  // ---------------------------------------------------------------------------
  // The invariant of one agent

  /** A request that the broker has not seen yet: number `n` or later of what the task published. */
  ghost predicate InFlight(kinds: seq<EventKind>, n: nat, id: ActionId) {
    exists i :: n <= i < |kinds| && kinds[i].Requested? && kinds[i].action == id
  }

  /** What the task published is what the broker heard, followed by what is still in the channel. */
  ghost predicate Linked(w: World, a: AgentId) {
    if a in w.tasks then
      && Kinds(w.tasks[a].runtime.emitted, a) == Tell(w.broker.trace, a).heard + Kinds(w.events, a)
      && Books(w.tasks[a].runtime, Approval) && Books(w.tasks[a].runtime, Question)
    else Kinds(w.events, a) == []
  }

  /** While no client is ready, every request a task holds is on its way to the broker, or the
      task is on its way to deny it. */
  ghost predicate Covered(w: World, a: AgentId) {
    a in w.tasks && !w.tasks[a].runtime.stage.Over? && w.broker.mode.Durable? && !w.broker.phase.Ready? ==>
      forall id :: id in w.tasks[a].runtime.pending ==>
        IsWarned(w.tasks[a])
        || InFlight(Kinds(w.tasks[a].runtime.emitted, a), |Tell(w.broker.trace, a).heard|, id)
  }

  ghost predicate Disciplined(w: World) {
    && (w.broker.phase.Ready? ==> w.broker.connected)
    && (w.broker.running ==> EndOfLine(Line(w.broker.connected, w.broker.generation), w.inputs) == Some(w.front))
    && (w.front.live ==> w.serving)
  }

  ghost predicate Safe(w: World, a: AgentId) {
    && Disciplined(w)
    && Faithful(w.broker, a, Approval) && Faithful(w.broker, a, Question)
    && Matches(w.tasks, w.broker.trace, a)
    && Linked(w, a) && Covered(w, a)
  }

  // ---------------------------------------------------------------------------
  // A turn of a task

  /** What a turn of a task keeps: earlier events, and requests that are old or just published. */
  ghost predicate Working(r: Runtime, agent: AgentId, other: AgentId, before: Runtime) {
    && r.agent == agent
    && before.emitted <= r.emitted
    && (other != agent ==> Kinds(r.emitted, other) == Kinds(before.emitted, other))
    && Kinds(before.emitted, agent) <= Kinds(r.emitted, agent)
    && (forall id :: id in r.pending ==>
          id in before.pending || InFlight(Kinds(r.emitted, agent), |Kinds(before.emitted, agent)|, id))
    && (before.stage.Over? ==> r.stage.Over?)
  }

  lemma EmitWorking(r: Runtime, event: RuntimeEvent, agent: AgentId, other: AgentId, before: Runtime)
    requires Working(r, agent, other, before) && (event.ProviderEvent? ==> event.agent == agent)
    ensures Working(Emit(r, event), agent, other, before)
  {
    KindsSnoc(r.emitted, event, agent);
    KindsSnoc(r.emitted, event, other);
    var kinds, later := Kinds(r.emitted, agent), Kinds(Emit(r, event).emitted, agent);
    var n := |Kinds(before.emitted, agent)|;
    forall id | id in r.pending && InFlight(kinds, n, id) ensures InFlight(later, n, id) {
      var i :| n <= i < |kinds| && kinds[i].Requested? && kinds[i].action == id;
      assert later[i] == kinds[i];
    }
  }

  lemma HoldWorking(r: Runtime, frame: Received, agent: AgentId, other: AgentId, before: Runtime)
    requires Working(r, agent, other, before) && frame.kind.Requested?
    ensures Working(Held(r, frame), agent, other, before)
  {
    var asked := Requested(frame.kind.human, r.nextAction);
    EmitWorking(r, ProviderEvent(agent, asked), agent, other, before);
    KindsSnoc(r.emitted, ProviderEvent(agent, asked), agent);
    var kinds := Kinds(Held(r, frame).emitted, agent);
    assert kinds[|kinds| - 1] == asked;
    assert InFlight(kinds, |Kinds(before.emitted, agent)|, r.nextAction);
  }

  lemma EffectWorking(r: Runtime, e: Conservation.Effect, agent: AgentId, other: AgentId, before: Runtime)
    requires Working(r, agent, other, before) && Conservation.Enabled(r, e)
    ensures Working(Conservation.Apply(r, e), agent, other, before)
  {
    match e
    case Say(event) => EmitWorking(r, event, agent, other, before);
    case Hold(frame) => HoldWorking(r, frame, agent, other, before);
    case Report(kind) => EmitWorking(r, ProviderEvent(agent, kind), agent, other, before);
    case Withdraw(id) =>
      EmitWorking(r.(pending := r.pending - {id}), ProviderEvent(agent, Resolved(r.pending[id].human, id)),
                  agent, other, before);
    case Halt => EmitWorking(r, Stopped(agent), agent, other, before);
    case _ =>
  }

  lemma WorkingIsKept(agent: AgentId, other: AgentId, before: Runtime)
    ensures Conservation.Kept((r: Runtime) => Working(r, agent, other, before))
  {
    forall r: Runtime, e | Working(r, agent, other, before) && Conservation.Enabled(r, e)
      ensures Working(Conservation.Apply(r, e), agent, other, before)
    {
      EffectWorking(r, e, agent, other, before);
    }
  }

  lemma TurnWorks(r: Runtime, turn: LoopTurn, o: Oracle, other: AgentId)
    ensures Working(Perform(r, turn, o), r.agent, other, r)
  {
    WorkingIsKept(r.agent, other, r);
    PerformKeeps((t: Runtime) => Working(t, r.agent, other, r), r, turn, o);
  }

  lemma StartWorks(r: Runtime, id: RuntimeId, hello: Exchange, opening: Exchange, o: Oracle, other: AgentId)
    ensures Working(Start(r, id, hello, opening, o), r.agent, other, r)
  {
    WorkingIsKept(r.agent, other, r);
    StartKeeps((t: Runtime) => Working(t, r.agent, other, r), r, id, hello, opening, o);
  }

  lemma TurnBooks(r: Runtime, turn: LoopTurn, o: Oracle, human: HumanKind)
    requires Books(r, human)
    ensures Books(Perform(r, turn, o), human)
  {
    BooksAreKept(human);
    PerformKeeps((t: Runtime) => Books(t, human), r, turn, o);
  }

  lemma StartBooks(r: Runtime, id: RuntimeId, hello: Exchange, opening: Exchange, o: Oracle, human: HumanKind)
    requires Books(r, human)
    ensures Books(Start(r, id, hello, opening, o), human)
  {
    BooksAreKept(human);
    StartKeeps((t: Runtime) => Books(t, human), r, id, hello, opening, o);
  }

  lemma AddedKinds(earlier: seq<RuntimeEvent>, later: seq<RuntimeEvent>, a: AgentId)
    requires earlier <= later
    ensures Kinds(later, a) == Kinds(earlier, a) + Kinds(Since(earlier, later), a)
  {
    assert later == earlier + Since(earlier, later);
    KindsConcat(earlier, Since(earlier, later), a);
  }

  lemma WorkedLinked(w: World, x: AgentId, runtime: Runtime, a: AgentId)
    requires x in w.tasks && Linked(w, a) && w.tasks[x].runtime.agent == x
    requires w.tasks[x].runtime.emitted <= runtime.emitted
    requires a != x ==> Kinds(runtime.emitted, a) == Kinds(w.tasks[x].runtime.emitted, a)
    requires Books(runtime, Approval) && Books(runtime, Question)
    ensures Linked(Worked(w, x, runtime), a)
  {
    WorkedEvents(w, x, runtime, a);
    if a == x {
      WorkedHere(w, x, runtime);
    } else {
      WorkedElsewhere(w, x, runtime, a);
    }
  }

  lemma WorkedHere(w: World, x: AgentId, runtime: Runtime)
    requires x in w.tasks && w.tasks[x].runtime.emitted <= runtime.emitted
    requires Kinds(w.tasks[x].runtime.emitted, x) == Tell(w.broker.trace, x).heard + Kinds(w.events, x)
    ensures Kinds(runtime.emitted, x) == Tell(w.broker.trace, x).heard + Kinds(Worked(w, x, runtime).events, x)
  {
    var earlier, heard := w.tasks[x].runtime.emitted, Tell(w.broker.trace, x).heard;
    var added := Kinds(Since(earlier, runtime.emitted), x);
    AddedKinds(earlier, runtime.emitted, x);
    KindsConcat(w.events, Since(earlier, runtime.emitted), x);
    assert heard + Kinds(w.events, x) + added == heard + (Kinds(w.events, x) + added);
  }

  lemma WorkedElsewhere(w: World, x: AgentId, runtime: Runtime, a: AgentId)
    requires x in w.tasks && w.tasks[x].runtime.emitted <= runtime.emitted
    requires Kinds(runtime.emitted, a) == Kinds(w.tasks[x].runtime.emitted, a)
    ensures Kinds(Worked(w, x, runtime).events, a) == Kinds(w.events, a)
  {
    var earlier := w.tasks[x].runtime.emitted;
    var added := Kinds(Since(earlier, runtime.emitted), a);
    AddedKinds(earlier, runtime.emitted, a);
    KindsConcat(w.events, Since(earlier, runtime.emitted), a);
    NothingAdded(Kinds(earlier, a), added);
    assert Kinds(w.events, a) + [] == Kinds(w.events, a);
  }

  lemma NothingAdded(kinds: seq<EventKind>, added: seq<EventKind>)
    requires kinds + added == kinds
    ensures added == []
  {
    assert |kinds + added| == |kinds| + |added|;
  }

  lemma WorkedEvents(w: World, x: AgentId, runtime: Runtime, a: AgentId)
    requires x in w.tasks
    ensures Worked(w, x, runtime).events == w.events + Since(w.tasks[x].runtime.emitted, runtime.emitted)
    ensures Worked(w, x, runtime).broker == w.broker
    ensures a in Worked(w, x, runtime).tasks <==> a in w.tasks
    ensures a != x && a in w.tasks ==> Worked(w, x, runtime).tasks[a] == w.tasks[a]
    ensures Worked(w, x, runtime).tasks[x].runtime == runtime
  {
  }

  /** A disconnection notice leaves the loop holding nothing. */
  lemma {:induction false} DenyAllEmpties(r: Runtime, ids: seq<ActionId>, failed: bool, ok: nat -> bool)
    ensures var d := DenyAll(r, ids, failed, ok); forall id :: id in d.r.pending ==> id in r.pending && id !in ids
    decreases |ids|
  {
    if ids != [] {
      DenyAllEmpties(Deny(r, ids[0], ok), ids[1..],
                     failed || (ids[0] in r.pending && !Writable(r.pending[ids[0]], ok)), ok);
      assert forall id :: id in ids <==> id == ids[0] || id in ids[1..];
    }
  }

  lemma DisconnectEmpties(r: Runtime, exchange: Exchange, encodes: bool, fits: bool, o: Oracle)
    requires r.stage.Looping? && Lists(o.order)
    ensures var t := Perform(r, Take(ClientDisconnected, exchange, encodes, fits), o);
      t.stage.Over? || t.pending == map[]
  {
    DenyAllEmpties(r, o.order(r.pending.Keys), false, o.ok);
    assert forall id :: id in r.pending ==> id in o.order(r.pending.Keys);
  }

  /** After a turn, every request held is covered as before, or was just published. */
  lemma TurnCovered(task: Task, rest: Task, turn: LoopTurn, o: Oracle, heard: nat, id: ActionId)
    requires Lists(o.order) && task.runtime.stage.Looping?
    requires turn.Take? ==> task.commands != [] && task.commands[0] == turn.command
    requires rest == if turn.Take? then task.(commands := task.commands[1..]) else task
    requires var kinds := Kinds(task.runtime.emitted, task.runtime.agent);
      heard <= |kinds| && forall i :: i in task.runtime.pending ==> IsWarned(task) || InFlight(kinds, heard, i)
    requires var t := Perform(task.runtime, turn, o); !t.stage.Over? && id in t.pending
    ensures var t := Perform(task.runtime, turn, o);
      IsWarned(rest) || InFlight(Kinds(t.emitted, task.runtime.agent), heard, id)
  {
    var r := task.runtime;
    var t := Perform(r, turn, o);
    TurnWorks(r, turn, o, r.agent);
    var before, after := Kinds(r.emitted, r.agent), Kinds(t.emitted, r.agent);
    if turn.Take? && turn.command.ClientDisconnected? {
      DisconnectEmpties(r, turn.exchange, turn.encodes, turn.fits, o);
    } else if InFlight(after, |before|, id) {
      var i :| |before| <= i < |after| && after[i].Requested? && after[i].action == id;
      assert InFlight(after, heard, id);
    } else if IsWarned(task) {
      if turn.Take? { assert task.commands == [task.commands[0]] + task.commands[1..]; }
    } else {
      var i :| heard <= i < |before| && before[i].Requested? && before[i].action == id;
      assert after[i] == before[i];
    }
  }

  lemma StartCovered(r: Runtime, id: RuntimeId, hello: Exchange, opening: Exchange, o: Oracle, warned: bool, heard: nat,
                     action: ActionId)
    requires var kinds := Kinds(r.emitted, r.agent);
      heard <= |kinds| && forall i :: i in r.pending ==> warned || InFlight(kinds, heard, i)
    requires action in Start(r, id, hello, opening, o).pending
    ensures warned || InFlight(Kinds(Start(r, id, hello, opening, o).emitted, r.agent), heard, action)
  {
    var t := Start(r, id, hello, opening, o);
    StartWorks(r, id, hello, opening, o, r.agent);
    var before, after := Kinds(r.emitted, r.agent), Kinds(t.emitted, r.agent);
    if InFlight(after, |before|, action) {
      var i :| |before| <= i < |after| && after[i].Requested? && after[i].action == action;
      assert InFlight(after, heard, action);
    } else if !warned {
      var i :| heard <= i < |before| && before[i].Requested? && before[i].action == action;
      assert after[i] == before[i];
    }
  }

  function Rest(task: Task, turn: LoopTurn): Task {
    if turn.Take? && task.runtime.stage.Looping? && task.commands != []
    then task.(commands := task.commands[1..]) else task
  }

  lemma RunTaskCovered(w: World, a: AgentId, turn: LoopTurn, o: Oracle)
    requires a in w.tasks && Lists(o.order) && Linked(w, a) && Covered(w, a) && w.tasks[a].runtime.agent == a
    requires turn.Take? ==> w.tasks[a].commands != [] && w.tasks[a].commands[0] == turn.command
    requires w.tasks[a].runtime.stage.Looping?
    ensures Covered(Worked(w.(tasks := w.tasks[a := Rest(w.tasks[a], turn)]), a,
                           Perform(w.tasks[a].runtime, turn, o)), a)
  {
    var task, heard := w.tasks[a], |Tell(w.broker.trace, a).heard|;
    var t := Perform(task.runtime, turn, o);
    if !t.stage.Over? && w.broker.mode.Durable? && !w.broker.phase.Ready? {
      forall id | id in t.pending ensures IsWarned(Rest(task, turn)) || InFlight(Kinds(t.emitted, a), heard, id) {
        TurnCovered(task, Rest(task, turn), turn, o, heard, id);
      }
    }
  }

  lemma RunTaskLinked(w: World, x: AgentId, turn: LoopTurn, o: Oracle, a: AgentId)
    requires x in w.tasks && Linked(w, a) && Linked(w, x) && w.tasks[x].runtime.agent == x
    ensures Linked(Worked(w.(tasks := w.tasks[x := Rest(w.tasks[x], turn)]), x,
                          Perform(w.tasks[x].runtime, turn, o)), a)
  {
    var r := w.tasks[x].runtime;
    TurnWorks(r, turn, o, a);
    TurnBooks(r, turn, o, Approval);
    TurnBooks(r, turn, o, Question);
    WorkedLinked(w.(tasks := w.tasks[x := Rest(w.tasks[x], turn)]), x, Perform(r, turn, o), a);
  }

  lemma RunTaskSafe(w: World, move: Move, a: AgentId)
    requires move.RunTask? && Possible(w, move) && IsSane(move)
    requires Safe(w, a) && Safe(w, move.agent)
    ensures Safe(Go(w, move), a)
  {
    var x, r := move.agent, w.tasks[move.agent].runtime;
    var t := Perform(r, move.turn, move.oracle);
    var popped := w.(tasks := w.tasks[x := Rest(w.tasks[x], move.turn)]);
    assert Go(w, move) == Worked(popped, x, t);
    WorkedEvents(popped, x, t, a);
    TurnWorks(r, move.turn, move.oracle, a);
    RunTaskLinked(w, x, move.turn, move.oracle, a);
    if a == x && r.stage.Looping? { RunTaskCovered(w, a, move.turn, move.oracle); }
  }

  lemma StartTaskSafe(w: World, move: Move, a: AgentId)
    requires move.StartTask? && Possible(w, move)
    requires Safe(w, a) && Safe(w, move.agent)
    ensures Safe(Go(w, move), a)
  {
    var x, task := move.agent, w.tasks[move.agent];
    var t := Start(task.runtime, move.id, move.hello, move.opening, move.oracle);
    StartWorks(task.runtime, move.id, move.hello, move.opening, move.oracle, a);
    StartBooks(task.runtime, move.id, move.hello, move.opening, move.oracle, Approval);
    StartBooks(task.runtime, move.id, move.hello, move.opening, move.oracle, Question);
    WorkedLinked(w, x, t, a);
    if a == x && !t.stage.Over? && w.broker.mode.Durable? && !w.broker.phase.Ready? {
      forall id | id in t.pending
        ensures IsWarned(task) || InFlight(Kinds(t.emitted, a), |Tell(w.broker.trace, a).heard|, id)
      {
        StartCovered(task.runtime, move.id, move.hello, move.opening, move.oracle, IsWarned(task),
                     |Tell(w.broker.trace, a).heard|, id);
      }
    }
  }

  // ---------------------------------------------------------------------------
  // A turn of the broker

  /** The input is the next one of the line, or an event. */
  predicate IsNext(s: State, input: Input) {
    input.FromRuntime? || NextLine(Line(s.connected, s.generation), input).Some?
  }

  function LineAfter(s: State, input: Input): Line
    requires IsNext(s, input)
  {
    if input.FromRuntime? then Line(s.connected, s.generation)
    else NextLine(Line(s.connected, s.generation), input).value
  }

  lemma ServedLine(s: State, input: Input, ok: bool)
    requires s.running && IsNext(s, input) && (s.phase.Ready? ==> s.connected)
    ensures var t := Step(s, input, ok);
      && t.mode == s.mode
      && (t.phase.Ready? ==> t.connected)
      && (s.mode.Durable? && s.phase.Ready? && !t.phase.Ready? ==> input == Lost(s.generation))
      && (t.running ==> Line(t.connected, t.generation) == LineAfter(s, input))
  {
    if input.Request? || input.FromRuntime? { StepOnLine(s, input, ok); }
  }

  /** What is left of the channel and what was heard make up what was published. */
  ghost predicate LinkedBut(w: World, input: Input, a: AgentId) {
    if a in w.tasks then
      && Kinds(w.tasks[a].runtime.emitted, a) == Tell(w.broker.trace, a).heard + Brought(input, a) + Kinds(w.events, a)
      && Books(w.tasks[a].runtime, Approval) && Books(w.tasks[a].runtime, Question)
    else Kinds(w.events, a) == []
  }

  lemma GrownMatches(tasks: map<AgentId, Task>, earlier: seq<Action>, later: seq<Action>, a: AgentId)
    requires Matches(tasks, earlier, a) && earlier <= later
    ensures Matches(Convey(tasks, Since(earlier, later)), later, a)
  {
    assert later == earlier + Since(earlier, later);
    ConveyMatches(tasks, earlier, Since(earlier, later), a);
  }

  lemma ServedMatches(w: World, input: Input, ok: bool, a: AgentId)
    requires Matches(w.tasks, w.broker.trace, a)
    ensures Matches(Served(w, input, ok).tasks, Served(w, input, ok).broker.trace, a)
  {
    StepGrows(w.broker, input, ok);
    GrownMatches(w.tasks, w.broker.trace, Step(w.broker, input, ok).trace, a);
  }

  lemma ServedLinked(w: World, input: Input, ok: bool, a: AgentId)
    requires w.broker.running && LinkedBut(w, input, a) && Tabled(w.broker, a)
    requires Matches(w.tasks, w.broker.trace, a)
    ensures Linked(Served(w, input, ok), a)
  {
    var actions := Since(w.broker.trace, Step(w.broker, input, ok).trace);
    StepHears(w.broker, input, ok, a);
    if a in w.tasks {
      ConveyContinues(w.tasks, actions, a);
      LoseBooks(w.tasks[a].runtime, Approval);
      LoseBooks(w.tasks[a].runtime, Question);
    } else {
      ConveyNewBorn(w.tasks, actions, a);
      ServedMatches(w, input, ok, a);
    }
  }

  lemma ServedCovered(w: World, input: Input, ok: bool, a: AgentId)
    requires w.broker.running && IsNext(w.broker, input) && (w.broker.phase.Ready? ==> w.broker.connected)
    requires LinkedBut(w, input, a) && Tabled(w.broker, a) && Matches(w.tasks, w.broker.trace, a) && Covered(w, a)
    ensures Covered(Served(w, input, ok), a)
  {
    var s, t := w.broker, Step(w.broker, input, ok);
    var later := Convey(w.tasks, Since(s.trace, t.trace));
    ServedLine(s, input, ok);
    if a !in w.tasks {
      ConveyNewBorn(w.tasks, Since(s.trace, t.trace), a);
    } else {
      ConveyContinues(w.tasks, Since(s.trace, t.trace), a);
      if !later[a].runtime.stage.Over? && s.mode.Durable? && !t.phase.Ready? {
        if s.phase.Ready? {
          LossIsWarned(w, ok, a);
        } else {
          forall id | id in later[a].runtime.pending
            ensures IsWarned(later[a])
                 || InFlight(Kinds(later[a].runtime.emitted, a), |Tell(t.trace, a).heard|, id)
          {
            HeardIsWarned(w, input, ok, a, id);
          }
        }
      }
    }
  }

  /** Losing the client warns every task. */
  lemma LossIsWarned(w: World, ok: bool, a: AgentId)
    requires w.broker.running && w.broker.mode.Durable? && a in w.tasks && a in w.broker.agents
    ensures var later := Convey(w.tasks, Since(w.broker.trace, Step(w.broker, Lost(w.broker.generation), ok).trace));
      a in later && IsWarned(later[a])
  {
    var s, t := w.broker, Step(w.broker, Lost(w.broker.generation), ok);
    var actions := Since(s.trace, t.trace);
    StepGrows(s, Lost(s.generation), ok);
    LossWarns(s, ok, a);
    assert actions[|actions| - 1].Warned? && a in actions[|actions| - 1].agents;
    ConveyContinues(w.tasks, actions, a);
  }

  /** A request leaves the channel unseen only by warning its task. */
  lemma HeardIsWarned(w: World, input: Input, ok: bool, a: AgentId, id: ActionId)
    requires w.broker.running && w.broker.mode.Durable? && !w.broker.phase.Ready?
    requires LinkedBut(w, input, a) && Tabled(w.broker, a) && Matches(w.tasks, w.broker.trace, a)
    requires a in w.tasks && a in w.broker.agents
    requires IsWarned(w.tasks[a])
          || InFlight(Kinds(w.tasks[a].runtime.emitted, a), |Tell(w.broker.trace, a).heard|, id)
    ensures var t := Step(w.broker, input, ok);
      var later := Convey(w.tasks, Since(w.broker.trace, t.trace));
      a in later && (IsWarned(later[a]) || InFlight(Kinds(w.tasks[a].runtime.emitted, a), |Tell(t.trace, a).heard|, id))
  {
    var s, t := w.broker, Step(w.broker, input, ok);
    var actions := Since(s.trace, t.trace);
    StepGrows(s, input, ok);
    ConveyContinues(w.tasks, actions, a);
    if !IsWarned(w.tasks[a]) {
      var kinds, n := Kinds(w.tasks[a].runtime.emitted, a), |Tell(s.trace, a).heard|;
      var i :| n <= i < |kinds| && kinds[i].Requested? && kinds[i].action == id;
      StepHears(s, input, ok, a);
      if i < |Tell(t.trace, a).heard| {
        assert Brought(input, a) == [kinds[i]];
        RequestWarns(s, a, kinds[i], ok);
        assert actions[0] == Warned({a});
      }
    }
  }

  lemma {:induction false} HeadOfLine(line: Line, inputs: seq<Input>)
    requires inputs != [] && EndOfLine(line, inputs).Some?
    ensures NextLine(line, inputs[0]).Some?
    ensures EndOfLine(NextLine(line, inputs[0]).value, inputs[1..]) == EndOfLine(line, inputs)
    decreases |inputs|
  {
    var n := |inputs| - 1;
    if n > 0 {
      HeadOfLine(line, inputs[..n]);
      assert inputs[1..][..n - 1] == inputs[..n][1..];
    }
  }

  lemma ReadInputSafe(w: World, ok: bool, a: AgentId, retired: World)
    requires w.broker.running && w.inputs != [] && Safe(w, a)
    requires retired == Served(w.(inputs := w.inputs[1..], retiring := 0), w.inputs[0], ok)
    ensures Safe(retired, a)
  {
    var popped := w.(inputs := w.inputs[1..], retiring := 0);
    var input := w.inputs[0];
    HeadOfLine(Line(w.broker.connected, w.broker.generation), w.inputs);
    assert Brought(input, a) == [];
    BrokerServed(popped, input, ok, a);
    ServedLine(w.broker, input, ok);
  }

  /** What a turn of the broker keeps, apart from the line of inputs. */
  lemma BrokerServed(w: World, input: Input, ok: bool, a: AgentId)
    requires w.broker.running && IsNext(w.broker, input) && (w.broker.phase.Ready? ==> w.broker.connected)
    requires Faithful(w.broker, a, Approval) && Faithful(w.broker, a, Question)
    requires Matches(w.tasks, w.broker.trace, a) && LinkedBut(w, input, a) && Covered(w, a)
    ensures var t := Served(w, input, ok);
      && Faithful(t.broker, a, Approval) && Faithful(t.broker, a, Question)
      && Matches(t.tasks, t.broker.trace, a) && Linked(t, a) && Covered(t, a)
  {
    StepFaithful(w.broker, input, ok, a, Approval);
    StepFaithful(w.broker, input, ok, a, Question);
    ServedMatches(w, input, ok, a);
    ServedLinked(w, input, ok, a);
    ServedCovered(w, input, ok, a);
  }

  lemma HeadKinds(events: seq<RuntimeEvent>, a: AgentId)
    requires events != []
    ensures Kinds(events, a) == Brought(FromRuntime(events[0]), a) + Kinds(events[1..], a)
  {
    assert events == [events[0]] + events[1..];
    KindsConcat([events[0]], events[1..], a);
    KindsSnoc([], events[0], a);
    assert [] + [events[0]] == [events[0]];
  }

  lemma PoppedLinked(w: World, a: AgentId)
    requires w.events != [] && Linked(w, a)
    ensures LinkedBut(w.(events := w.events[1..]), FromRuntime(w.events[0]), a)
  {
    HeadKinds(w.events, a);
  }

  lemma ReadEventSafe(w: World, ok: bool, a: AgentId, heard: World)
    requires w.broker.running && w.events != [] && Safe(w, a)
    requires heard == Served(w.(events := w.events[1..]), FromRuntime(w.events[0]), ok)
    ensures Safe(heard, a)
  {
    var popped := w.(events := w.events[1..]);
    var input := FromRuntime(w.events[0]);
    PoppedLinked(w, a);
    BrokerServed(popped, input, ok, a);
    ServedLine(w.broker, input, ok);
  }

  lemma FrontEndSafe(w: World, move: Move, a: AgentId)
    requires move.Accept? || move.Send? || move.HangUp?
    requires Possible(w, move) && Safe(w, a)
    ensures Safe(Go(w, move), a)
  {
    var t := Go(w, move);
    assert t.inputs[..|t.inputs| - 1] == w.inputs;
  }

  lemma WithCommandWarned(task: Task, command: Command)
    ensures IsWarned(task) || command.ClientDisconnected? ==> IsWarned(WithCommand(task, command))
  {
    var later := WithCommand(task, command);
    assert later.commands[..|task.commands|] == task.commands;
    assert later.commands[|task.commands|] == command;
  }

  /** Only the commands of some task changed, and no warning was lost. */
  lemma CommandsSafe(w: World, x: AgentId, task: Task, a: AgentId)
    requires Safe(w, a) && x in w.tasks && task.runtime == w.tasks[x].runtime
    requires IsWarned(w.tasks[x]) ==> IsWarned(task)
    ensures Safe(w.(tasks := w.tasks[x := task]), a)
  {
  }

  lemma ChannelSafe(w: World, move: Move, a: AgentId)
    requires move.BeginRetire? || move.Undefer?
    requires Possible(w, move) && Safe(w, a)
    ensures Safe(Go(w, move), a)
  {
    var t := Go(w, move);
    if move.Undefer? {
      var task := w.tasks[move.agent].(deferred := w.tasks[move.agent].deferred - 1);
      WithCommandWarned(task, ClientDisconnected);
      CommandsSafe(w, move.agent, WithCommand(task, ClientDisconnected), a);
    } else {
      var x := RetireTargets(w.broker, w.inputs[0])[w.retiring];
      if x in w.tasks {
        WithCommandWarned(w.tasks[x], Shutdown);
        CommandsSafe(w, x, WithCommand(w.tasks[x], Shutdown), a);
      }
      assert Safe(t.(retiring := w.retiring), a);
    }
  }

  /** A task that is given up holds nothing any more. */
  lemma JoinedSafe(w: World, x: AgentId, a: AgentId)
    requires Safe(w, a) && x in w.tasks
    ensures Safe(w.(tasks := w.tasks[x := Joined(w.tasks[x])]), a)
  {
    if a == x {
      LoseBooks(w.tasks[x].runtime, Approval);
      LoseBooks(w.tasks[x].runtime, Question);
    }
  }

  lemma GoSafe(w: World, move: Move, a: AgentId)
    requires Possible(w, move) && IsSane(move) && Safe(w, a)
    requires (move.RunTask? || move.StartTask?) ==> Safe(w, move.agent)
    ensures Safe(Go(w, move), a)
  {
    if move.ReadInput? || move.EndRetire? {
      var popped := w.(inputs := w.inputs[1..], retiring := 0);
      ReadInputSafe(w, move.ok, a, Served(popped, w.inputs[0], move.ok));
      assert w.retiring == 0 ==> popped == w.(inputs := w.inputs[1..]);
    } else if move.ReadEvent? {
      ReadEventSafe(w, move.ok, a, Go(w, move));
    } else if move.RunTask? {
      RunTaskSafe(w, move, a);
    } else if move.StartTask? {
      StartTaskSafe(w, move, a);
    } else if move.GiveUp? {
      JoinedSafe(w, RetireTargets(w.broker, w.inputs[0])[w.retiring - 1], a);
    } else if move.BeginRetire? || move.Undefer? {
      ChannelSafe(w, move, a);
    } else {
      FrontEndSafe(w, move, a);
    }
  }

  lemma {:induction false} PlaySafe(w: World, moves: seq<Move>, a: AgentId)
    requires Dawn(w) && Sane(moves)
    ensures Safe(Play(w, moves), a)
    decreases |moves|
  {
    if moves == [] {
      assert Tell(w.broker.trace, a) == Story(false, false, false, []);
    } else {
      var before := Play(w, moves[..|moves| - 1]);
      var move := moves[|moves| - 1];
      PlaySafe(w, moves[..|moves| - 1], a);
      if Possible(before, move) {
        if move.RunTask? || move.StartTask? { PlaySafe(w, moves[..|moves| - 1], move.agent); }
        GoSafe(before, move, a);
      }
    }
  }

  // ---------------------------------------------------------------------------
  // Theorems

  /** Fail closed: in durable mode, whenever no client is ready and the channels of a task have
      drained, a task that is still in its loop holds no human request. */
  lemma NoRequestWaitsForNobody(w: World, moves: seq<Move>, a: AgentId)
    requires Dawn(w) && Sane(moves)
    requires var t := Play(w, moves);
      && t.broker.mode.Durable? && !t.broker.phase.Ready?
      && a in t.tasks && t.tasks[a].runtime.stage.Looping?
      && t.events == [] && t.tasks[a].commands == [] && t.tasks[a].deferred == 0
    ensures Play(w, moves).tasks[a].runtime.pending == map[]
  {
    PlaySafe(w, moves, a);
    var t := Play(w, moves);
    assert forall id :: id in t.tasks[a].runtime.pending ==>
      InFlight(Kinds(t.tasks[a].runtime.emitted, a), |Tell(t.broker.trace, a).heard|, id);
  }

  /** Conservation: until its agent fails or is let go, the broker's counter plus the requests in the
      channel minus the resolutions in the channel is the number of requests the task holds, plus
      the strays nobody can resolve. */
  lemma CountersAgree(w: World, moves: seq<Move>, a: AgentId, human: HumanKind)
    requires Dawn(w) && Sane(moves)
    requires var t := Play(w, moves); a in t.tasks && a in t.broker.agents && Tell(t.broker.trace, a).intact
    ensures var t := Play(w, moves);
      Counter(t.broker.agents[a], human) + Asked(Kinds(t.events, a), human)
      == Closed(Kinds(t.events, a), human) + CountHeld(t.tasks[a].runtime.pending, human)
         + t.tasks[a].runtime.strays[human]
  {
    PlaySafe(w, moves, a);
    var t := Play(w, moves);
    var heard := Tell(t.broker.trace, a).heard;
    SolventPrefix(heard, Kinds(t.events, a), human);
    TallyConcat(heard, Kinds(t.events, a), human);
    assert Faithful(t.broker, a, human);
    assert Books(t.tasks[a].runtime, human);
  }

  /** The broker never subtracts a resolution from a counter that is zero. */
  lemma CountersNeverSaturate(w: World, moves: seq<Move>, a: AgentId, human: HumanKind, action: ActionId)
    requires Dawn(w) && Sane(moves)
    requires var t := Play(w, moves); a in t.tasks && a in t.broker.agents && Tell(t.broker.trace, a).intact
    requires var t := Play(w, moves);
      t.events != [] && t.events[0] == ProviderEvent(a, Resolved(human, action))
    ensures Counter(Play(w, moves).broker.agents[a], human) > 0
  {
    PlaySafe(w, moves, a);
    var t := Play(w, moves);
    var heard, kind := Tell(t.broker.trace, a).heard, Resolved(human, action);
    HeadKinds(t.events, a);
    assert Books(t.tasks[a].runtime, human) && Faithful(t.broker, a, human);
    NextResolutionIsOwed(heard, kind, Kinds(t.events[1..], a), human);
  }

  lemma NextResolutionIsOwed(heard: seq<EventKind>, kind: EventKind, rest: seq<EventKind>, human: HumanKind)
    requires kind.Resolved? && kind.human == human && Solvent(heard + ([kind] + rest), human)
    ensures Solvent(heard, human) && Closed(heard, human) < Asked(heard, human)
  {
    assert heard + ([kind] + rest) == heard + [kind] + rest;
    SolventPrefix(heard + [kind], rest, human);
    SolventFront(heard, kind, human);
    TallySnoc(heard, kind, human);
  }

  // ---------------------------------------------------------------------------
  // A task announces its end last

  /** Since `before`, the task announced its end only by ending. */
  ghost predicate Ending(r: Runtime, before: Runtime) {
    && r.agent == before.agent && before.emitted <= r.emitted
    && (before.stage.Over? ==> r.stage.Over?)
    && (forall i {:trigger r.emitted[i]} :: |before.emitted| <= i < |r.emitted| && r.emitted[i].Stopped? ==>
          r.emitted[i].agent == r.agent && r.stage.Over?)
  }

  lemma EndingIsKept(before: Runtime)
    ensures Conservation.Kept((r: Runtime) => Ending(r, before))
  {
    forall r: Runtime, e | Ending(r, before) && Conservation.Enabled(r, e)
      ensures Ending(Conservation.Apply(r, e), before)
    {
      EffectEnding(r, e, before);
    }
  }

  lemma EffectEnding(r: Runtime, e: Conservation.Effect, before: Runtime)
    requires Ending(r, before) && Conservation.Enabled(r, e)
    ensures Ending(Conservation.Apply(r, e), before)
  {
    var t := Conservation.Apply(r, e);
    assert forall i {:trigger t.emitted[i]} :: 0 <= i < |r.emitted| ==> t.emitted[i] == r.emitted[i];
  }

  ghost predicate EndsLast(w: World, a: AgentId) {
    forall i :: 0 <= i < |w.events| && w.events[i] == Stopped(a) ==> a in w.tasks && w.tasks[a].runtime.stage.Over?
  }

  lemma WorkedEndsLast(w: World, x: AgentId, runtime: Runtime, a: AgentId)
    requires EndsLast(w, a) && x in w.tasks && w.tasks[x].runtime.agent == x && Ending(runtime, w.tasks[x].runtime)
    ensures EndsLast(Worked(w, x, runtime), a)
  {
    var earlier := w.tasks[x].runtime.emitted;
    var t := Worked(w, x, runtime);
    forall i | 0 <= i < |t.events| && t.events[i] == Stopped(a)
      ensures a in t.tasks && t.tasks[a].runtime.stage.Over?
    {
      if i < |w.events| {
        assert w.events[i] == Stopped(a);
      } else {
        assert runtime.emitted[i - |w.events| + |earlier|] == Stopped(a);
      }
    }
  }

  lemma ServedEndsLast(w: World, input: Input, ok: bool, a: AgentId)
    requires EndsLast(w, a)
    ensures EndsLast(Served(w, input, ok), a)
  {
    if a in w.tasks {
      ConveyContinues(w.tasks, Since(w.broker.trace, Step(w.broker, input, ok).trace), a);
    }
  }

  lemma GoEndsLast(w: World, move: Move, a: AgentId)
    requires Possible(w, move) && EndsLast(w, a)
    requires move.RunTask? || move.StartTask? ==> w.tasks[move.agent].runtime.agent == move.agent
    ensures EndsLast(Go(w, move), a)
  {
    match move
    case ReadInput(ok) => ServedEndsLast(w.(inputs := w.inputs[1..]), w.inputs[0], ok, a);
    case EndRetire(ok) => ServedEndsLast(w.(inputs := w.inputs[1..], retiring := 0), w.inputs[0], ok, a);
    case ReadEvent(ok) =>
      var popped := w.(events := w.events[1..]);
      assert forall i :: 0 <= i < |popped.events| ==> popped.events[i] == w.events[i + 1];
      ServedEndsLast(popped, FromRuntime(w.events[0]), ok, a);
    case StartTask(x, id, hello, opening, o) =>
      EndingIsKept(w.tasks[x].runtime);
      StartKeeps((r: Runtime) => Ending(r, w.tasks[x].runtime), w.tasks[x].runtime, id, hello, opening, o);
      WorkedEndsLast(w, x, Start(w.tasks[x].runtime, id, hello, opening, o), a);
    case RunTask(x, turn, o) =>
      var task := w.tasks[x];
      var rest := if turn.Take? && task.runtime.stage.Looping? then task.(commands := task.commands[1..]) else task;
      EndingIsKept(task.runtime);
      PerformKeeps((r: Runtime) => Ending(r, task.runtime), task.runtime, turn, o);
      WorkedEndsLast(w.(tasks := w.tasks[x := rest]), x, Perform(task.runtime, turn, o), a);
    case _ =>
  }

  /** A task whose end is announced is over, so the broker never lets go of a task that still works
      unless it waits for its shutdown. */
  lemma {:induction false} AnnouncedEndsAreReal(w: World, moves: seq<Move>, a: AgentId)
    requires Dawn(w) && Sane(moves)
    ensures EndsLast(Play(w, moves), a)
    decreases |moves|
  {
    if moves != [] {
      var front := moves[..|moves| - 1];
      var before := Play(w, front);
      var move := moves[|moves| - 1];
      AnnouncedEndsAreReal(w, front, a);
      if Possible(before, move) {
        if move.RunTask? || move.StartTask? { PlaySafe(w, front, move.agent); }
        GoEndsLast(before, move, a);
      }
    }
  }
}
