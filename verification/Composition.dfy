/**
 * The broker, the provider tasks, the channels between them and the front end that accepts
 * clients, as one system.
 */
module Composition {
  import opened Options
  import opened Protocol
  import opened BrokerSteps
  import opened RuntimeSteps
  import opened BrokerTasks
  import opened Conservation

  const CommandCapacity: nat := 32

  /** A provider task with its command channel; a disconnection notice that found the channel
      full waits outside. */
  datatype Task = Task(runtime: Runtime, commands: seq<Command>, deferred: nat)

  /** The connection a sequence of inputs leads to. */
  datatype Line = Line(live: bool, generation: nat)

  datatype World = World(
    broker: State,
    tasks: map<AgentId, Task>,
    events: seq<RuntimeEvent>,
    inputs: seq<Input>,
    front: Line,
    serving: bool,
    retiring: nat)

  // ---------------------------------------------------------------------------
  // Channels

  function WithCommand(task: Task, command: Command): Task {
    task.(commands := task.commands + [command])
  }

  function Warn(task: Task): Task {
    if |task.commands| < CommandCapacity then WithCommand(task, ClientDisconnected)
    else task.(deferred := task.deferred + 1)
  }

  /** The task is waited for, and aborted if it does not end by itself. */
  function Joined(task: Task): Task {
    if task.runtime.stage.Over? then task else task.(runtime := Abort(task.runtime))
  }

  function ConveyOne(tasks: map<AgentId, Task>, action: Action): map<AgentId, Task> {
    match action
    case Spawned(a, _, provider, _) =>
      if a in tasks then tasks else tasks[a := Task(Spawn(provider, a), [], 0)]
    case Commanded(a, command) => if a in tasks then tasks[a := WithCommand(tasks[a], command)] else tasks
    case Warned(agents) => map a | a in tasks :: if a in agents then Warn(tasks[a]) else tasks[a]
    case Released(a) => if a in tasks then tasks[a := Joined(tasks[a])] else tasks
    case _ => tasks
  }

  /** What the broker's actions do to the tasks. */
  function Convey(tasks: map<AgentId, Task>, actions: seq<Action>): map<AgentId, Task> {
    if actions == [] then tasks
    else ConveyOne(Convey(tasks, actions[..|actions| - 1]), actions[|actions| - 1])
  }

  function Since<T>(old_: seq<T>, new_: seq<T>): seq<T> {
    if |old_| <= |new_| then new_[|old_|..] else []
  }

  // ---------------------------------------------------------------------------
  // Moves

  /** Connections are served one at a time: the loss of one is queued before the next begins. */
  function NextLine(line: Line, input: Input): Option<Line> {
    match input
    case Connected(g) => if !line.live && g == line.generation + 1 then Some(Line(true, g)) else None
    case Initialized(g) => if line.live && g == line.generation then Some(line) else None
    case Request(g, _, _) => if line.live && g == line.generation then Some(line) else None
    case Lost(g) => if g == line.generation then Some(Line(false, g)) else None
    case FromRuntime(_) => None
  }

  function EndOfLine(line: Line, inputs: seq<Input>): Option<Line> {
    if inputs == [] then Some(line)
    else
      var before := EndOfLine(line, inputs[..|inputs| - 1]);
      if before.None? then None else NextLine(before.value, inputs[|inputs| - 1])
  }

  datatype Move =
    | Accept
    | Send(input: Input)
    | HangUp
    | ReadInput(ok: bool)
    | ReadEvent(ok: bool)
    | BeginRetire
    | GiveUp
    | EndRetire(ok: bool)
    | StartTask(agent: AgentId, id: RuntimeId, hello: Exchange, opening: Exchange, oracle: Oracle)
    | RunTask(agent: AgentId, turn: LoopTurn, oracle: Oracle)
    | Undefer(agent: AgentId)

  /** The agents whose tasks a request shuts down, one after the other, before the broker goes on. */
  function RetireTargets(s: State, input: Input): seq<AgentId> {
    if !input.Request? || input.generation != s.generation || !s.phase.Ready? then []
    else
      match input.call
      case ForkAgent(id) => if CanFork(s, id) then [id] else []
      case ArchiveAgent(id) => if CanArchive(s, id) then LiveOnes(s, [id]) else []
      case DeleteSession(provider, session, _) =>
        var ids := OfSession(s.agents, s.order, provider, session);
        if AnyHasWork(s, ids) then [] else LiveOnes(s, ids)
      case _ => []
  }

  function LiveOnes(s: State, ids: seq<AgentId>): seq<AgentId> {
    if ids == [] then []
    else (if ids[0] in s.agents && s.agents[ids[0]].live then [ids[0]] else []) + LiveOnes(s, ids[1..])
  }

  predicate IsOver(w: World, a: AgentId) {
    a in w.tasks ==> w.tasks[a].runtime.stage.Over?
  }

  /** The broker waits for the task it has told to shut down. */
  predicate IsRetiring(w: World) {
    w.broker.running && w.inputs != [] && 0 < w.retiring <= |RetireTargets(w.broker, w.inputs[0])|
  }

  /** One turn of the broker's loop, with what it sends to the tasks. */
  function Served(w: World, input: Input, ok: bool): World {
    var t := Step(w.broker, input, ok);
    w.(broker := t, tasks := Convey(w.tasks, Since(w.broker.trace, t.trace)))
  }

  /** One turn of a task, with what it sends to the broker. */
  function Worked(w: World, a: AgentId, runtime: Runtime): World
    requires a in w.tasks
  {
    w.(tasks := w.tasks[a := w.tasks[a].(runtime := runtime)],
       events := w.events + Since(w.tasks[a].runtime.emitted, runtime.emitted))
  }

  predicate Possible(w: World, move: Move) {
    match move
    case Accept => !w.serving
    case Send(input) => w.serving && !input.Connected? && NextLine(w.front, input).Some?
    case HangUp => w.serving
    case ReadInput(_) =>
      w.broker.running && w.inputs != [] && w.retiring == 0 && RetireTargets(w.broker, w.inputs[0]) == []
    case ReadEvent(_) => w.broker.running && w.events != [] && w.retiring == 0
    case BeginRetire =>
      && w.broker.running && w.inputs != []
      && var targets := RetireTargets(w.broker, w.inputs[0]);
         w.retiring < |targets| && (w.retiring > 0 ==> IsOver(w, targets[w.retiring - 1]))
    case GiveUp => IsRetiring(w) && RetireTargets(w.broker, w.inputs[0])[w.retiring - 1] in w.tasks
    case EndRetire(_) =>
      && IsRetiring(w)
      && var targets := RetireTargets(w.broker, w.inputs[0]);
         w.retiring == |targets| && IsOver(w, targets[w.retiring - 1])
    case StartTask(a, _, _, _, _) => a in w.tasks
    case RunTask(a, turn, oracle) =>
      && a in w.tasks
      && (turn.Take? ==> w.tasks[a].commands != [] && w.tasks[a].commands[0] == turn.command)
      && (turn.CommandsClosed? ==> a !in w.broker.agents)
    case Undefer(a) => a in w.tasks && w.tasks[a].deferred > 0 && |w.tasks[a].commands| < CommandCapacity
  }

  function Go(w: World, move: Move): World
    requires Possible(w, move)
  {
    match move
    case Accept =>
      var line := Line(true, w.front.generation + 1);
      w.(inputs := w.inputs + [Connected(line.generation)], front := line, serving := true)
    case Send(input) => w.(inputs := w.inputs + [input], front := NextLine(w.front, input).value)
    case HangUp =>
      w.(inputs := w.inputs + [Lost(w.front.generation)], front := Line(false, w.front.generation), serving := false)
    case ReadInput(ok) => Served(w.(inputs := w.inputs[1..]), w.inputs[0], ok)
    case ReadEvent(ok) => Served(w.(events := w.events[1..]), FromRuntime(w.events[0]), ok)
    case BeginRetire =>
      var a := RetireTargets(w.broker, w.inputs[0])[w.retiring];
      w.(retiring := w.retiring + 1,
         tasks := if a in w.tasks then w.tasks[a := WithCommand(w.tasks[a], Shutdown)] else w.tasks)
    case GiveUp =>
      var a := RetireTargets(w.broker, w.inputs[0])[w.retiring - 1];
      w.(tasks := w.tasks[a := Joined(w.tasks[a])])
    case EndRetire(ok) => Served(w.(inputs := w.inputs[1..], retiring := 0), w.inputs[0], ok)
    case StartTask(a, id, hello, opening, oracle) =>
      Worked(w, a, Start(w.tasks[a].runtime, id, hello, opening, oracle))
    case RunTask(a, turn, oracle) =>
      var task := w.tasks[a];
      var rest := if turn.Take? && task.runtime.stage.Looping? then task.(commands := task.commands[1..]) else task;
      Worked(w.(tasks := w.tasks[a := rest]), a, Perform(task.runtime, turn, oracle))
    case Undefer(a) =>
      var task := w.tasks[a];
      w.(tasks := w.tasks[a := WithCommand(task.(deferred := task.deferred - 1), ClientDisconnected)])
  }

  function Play(w: World, moves: seq<Move>): World {
    if moves == [] then w
    else
      var before := Play(w, moves[..|moves| - 1]);
      if Possible(before, moves[|moves| - 1]) then Go(before, moves[|moves| - 1]) else before
  }

  ghost predicate Sane(moves: seq<Move>) {
    forall i :: 0 <= i < |moves| ==> IsSane(moves[i])
  }

  /** A map is listed completely. */
  ghost predicate IsSane(move: Move) {
    && (move.StartTask? ==> Lists(move.oracle.order))
    && (move.RunTask? ==> Lists(move.oracle.order))
  }

  ghost predicate Dawn(w: World) {
    && BrokerSteps.Initial(w.broker) && w.tasks == map[] && w.events == [] && w.inputs == []
    && w.front == Line(false, 0) && !w.serving && w.retiring == 0
  }

  // ---------------------------------------------------------------------------
  // What the broker's actions do to one task

  predicate IsWarned(task: Task) {
    ClientDisconnected in task.commands || task.deferred > 0
  }

  /** The task goes on or is over; a warning is not lost. */
  ghost predicate Continues(task: Task, later: Task) {
    && (later.runtime == task.runtime || later.runtime == Abort(task.runtime))
    && (IsWarned(task) ==> IsWarned(later))
  }

  lemma ConveyOneContinues(tasks: map<AgentId, Task>, action: Action, a: AgentId)
    requires a in tasks
    ensures a in ConveyOne(tasks, action) && Continues(tasks[a], ConveyOne(tasks, action)[a])
    ensures tasks[a].runtime.stage.Over? ==> ConveyOne(tasks, action)[a].runtime == tasks[a].runtime
    ensures action.Warned? && a in action.agents ==> IsWarned(ConveyOne(tasks, action)[a])
  {
    var later := ConveyOne(tasks, action)[a];
    if |later.commands| > |tasks[a].commands| {
      assert later.commands[..|tasks[a].commands|] == tasks[a].commands;
      assert later.commands[|tasks[a].commands|] in later.commands;
    }
  }

  lemma {:induction false} ConveyContinues(tasks: map<AgentId, Task>, actions: seq<Action>, a: AgentId)
    requires a in tasks
    ensures a in Convey(tasks, actions) && Continues(tasks[a], Convey(tasks, actions)[a])
    ensures tasks[a].runtime.stage.Over? ==> Convey(tasks, actions)[a].runtime == tasks[a].runtime
    ensures forall i :: 0 <= i < |actions| && actions[i].Warned? && a in actions[i].agents ==>
      IsWarned(Convey(tasks, actions)[a])
  {
    if actions != [] {
      var n := |actions| - 1;
      ConveyContinues(tasks, actions[..n], a);
      ConveyOneContinues(Convey(tasks, actions[..n]), actions[n], a);
      forall i | 0 <= i < n && actions[i].Warned? && a in actions[i].agents
        ensures IsWarned(Convey(tasks, actions)[a])
      {
        assert actions[..n][i] == actions[i];
      }
    }
  }

  /** A task that has said nothing yet. */
  ghost predicate NewBorn(task: Task) {
    task.runtime.emitted == [] && task.runtime.pending == map[]
    && Books(task.runtime, Approval) && Books(task.runtime, Question)
  }

  lemma {:induction false} ConveyNewBorn(tasks: map<AgentId, Task>, actions: seq<Action>, a: AgentId)
    requires a !in tasks
    ensures a in Convey(tasks, actions) ==> NewBorn(Convey(tasks, actions)[a])
  {
    if actions != [] {
      var n := |actions| - 1;
      ConveyNewBorn(tasks, actions[..n], a);
      var front := Convey(tasks, actions[..n]);
      if a in front {
        ConveyOneContinues(front, actions[n], a);
        LoseBooks(front[a].runtime, Approval);
        LoseBooks(front[a].runtime, Question);
      } else if a in Convey(tasks, actions) {
        assert HeldOf(map[], Approval) == {} && HeldOf(map[], Question) == {};
      }
    }
  }

  /** There is a task for every agent that was started, and it is over once it was let go. */
  ghost predicate Matches(tasks: map<AgentId, Task>, trace: seq<Action>, a: AgentId) {
    var story := Tell(trace, a);
    && (a in tasks <==> story.spawned)
    && (a in tasks ==> tasks[a].runtime.agent == a && (!tasks[a].runtime.stage.Over? ==> !story.released))
  }

  lemma ConveyOneMatches(tasks: map<AgentId, Task>, trace: seq<Action>, action: Action, a: AgentId)
    requires Matches(tasks, trace, a)
    ensures Matches(ConveyOne(tasks, action), trace + [action], a)
  {
    TellSnoc(trace, action, a);
  }

  lemma {:induction false} ConveyMatches(tasks: map<AgentId, Task>, trace: seq<Action>, actions: seq<Action>,
                                         a: AgentId)
    requires Matches(tasks, trace, a)
    ensures Matches(Convey(tasks, actions), trace + actions, a)
  {
    if actions == [] {
      assert trace + actions == trace;
    } else {
      var n := |actions| - 1;
      ConveyMatches(tasks, trace, actions[..n], a);
      assert trace + actions == trace + actions[..n] + [actions[n]];
      ConveyOneMatches(Convey(tasks, actions[..n]), trace + actions[..n], actions[n], a);
    }
  }
}
