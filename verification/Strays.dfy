/** When the balance of human requests is exact: strays come from requests nobody can answer. */
module Strays {
  import opened Options
  import opened Protocol
  import opened RuntimeSteps
  import opened RequestLedger
  import opened Conservation
  import opened Composition
  import opened SystemSafety
  import opened BrokerTasks
  import BrokerSteps

  // ---------------------------------------------------------------------------
  // Requests nobody can answer

  /** A request without identity, or one that a Codex server makes while a request to it is open. */
  predicate IsUnanswerable(provider: Provider, frame: Frame, human: HumanKind, during: bool) {
    && frame.kind.Requested? && frame.kind.human == human
    && (!frame.request || (provider.Codex? && during))
  }

  function CountUnanswerable(provider: Provider, frames: seq<Frame>, human: HumanKind): nat {
    if frames == [] then 0
    else
      (if IsUnanswerable(provider, frames[0], human, true) then 1 else 0)
      + CountUnanswerable(provider, frames[1..], human)
  }

  predicate IsStray(received: Received, human: HumanKind) {
    received.kind.Requested? && received.kind.human == human && !received.required
  }

  function CountStrays(received: seq<Received>, human: HumanKind): nat {
    if received == [] then 0
    else (if IsStray(received[0], human) then 1 else 0) + CountStrays(received[1..], human)
  }

  lemma {:induction false} CountStraysSnoc(received: seq<Received>, last: Received, human: HumanKind)
    ensures CountStrays(received + [last], human)
         == CountStrays(received, human) + if IsStray(last, human) then 1 else 0
    decreases |received|
  {
    var longer := received + [last];
    if received == [] {
      assert longer[1..] == [];
    } else {
      assert longer[1..] == received[1..] + [last];
      CountStraysSnoc(received[1..], last, human);
    }
  }

  /** The strays of the human kind grew by `n`. */
  ghost predicate Grew(r: Runtime, t: Runtime, human: HumanKind, n: nat) {
    t.strays[human] == r.strays[human] + n && t.provider == r.provider
  }

  lemma {:induction false} CollectLoose(r: Runtime, frames: seq<Frame>, got: seq<Received>, ok: nat -> bool,
                                        human: HumanKind)
    ensures var c := Collect(r, frames, got, ok);
      && Grew(r, c.r, human, 0)
      && (c.ok ==>
            CountStrays(c.received, human)
            == CountStrays(got, human) + CountUnanswerable(r.provider, frames, human))
    decreases |frames|
  {
    if frames != [] {
      var n := r.nextFrame;
      var read := ReadFrame(r, frames[0]);
      if r.provider.Codex? && frames[0].request {
        var denied := Received(n, false, frames[0].kind);
        CountStraysSnoc(got, denied, human);
        if ok(n) { CollectLoose(Attempt(read, n, true), frames[1..], got + [denied], ok, human); }
      } else {
        var kept := Received(n, frames[0].request, frames[0].kind);
        CountStraysSnoc(got, kept, human);
        CollectLoose(read, frames[1..], got + [kept], ok, human);
      }
    }
  }

  lemma PublishLoose(r: Runtime, frame: Received, ok: nat -> bool, human: HumanKind)
    ensures var first := Publish(r, frame, ok);
      first.ok ==> Grew(r, first.r, human, if IsStray(frame, human) then 1 else 0)
    ensures Publish(r, frame, ok).r.strays[human] >= r.strays[human]
    ensures Publish(r, frame, ok).r.provider == r.provider
  {
  }

  lemma {:induction false} PublishAllLoose(r: Runtime, frames: seq<Received>, ended: bool, ok: nat -> bool,
                                           human: HumanKind)
    ensures var out := PublishAll(r, frames, ended, ok);
      out.ok ==> Grew(r, out.r, human, CountStrays(frames, human))
    decreases |frames|
  {
    if frames != [] {
      var first := Publish(r, frames[0], ok);
      PublishLoose(r, frames[0], ok, human);
      if first.ok { PublishAllLoose(first.r, frames[1..], ended || first.ended, ok, human); }
    }
  }

  lemma {:induction false} DenyLoose(r: Runtime, ids: seq<ActionId>, failed: bool, ok: nat -> bool, human: HumanKind)
    ensures var d := DenyAll(r, ids, failed, ok);
      Grew(r, d.r, human, 0) && d.r.active == r.active && d.r.stage == r.stage
    decreases |ids|
  {
    if ids != [] {
      DenyLoose(Deny(r, ids[0], ok), ids[1..],
                failed || (ids[0] in r.pending && !Writable(r.pending[ids[0]], ok)), ok, human);
    }
  }

  // ---------------------------------------------------------------------------
  // What a turn brings

  /** The unanswerable requests an exchange brings, when its frames are published. */
  function ExchangeBrings(r: Runtime, exchange: Exchange, needsIdentity: bool, o: Oracle, human: HumanKind): nat {
    if Collect(r, exchange.frames, [], o.ok).ok && exchange.answered
       && (needsIdentity && r.provider.Codex? ==> exchange.identity.Some?)
    then CountUnanswerable(r.provider, exchange.frames, human) else 0
  }

  function CommandBrings(r: Runtime, command: Command, exchange: Exchange, encodes: bool, o: Oracle, human: HumanKind)
    : nat
  {
    match command
    case SendPrompt(_, _) => if r.active || !encodes then 0 else ExchangeBrings(r, exchange, true, o, human)
    case SendSteer(_, _, _) => if !r.active || !encodes then 0 else ExchangeBrings(r, exchange, false, o, human)
    case Interrupt(_) =>
      var denied := DenyEvery(r, o);
      if denied.failed || !r.active then 0 else ExchangeBrings(denied.r, exchange, false, o, human)
    case _ => 0
  }

  /** The unanswerable requests a turn publishes. */
  function Brings(r: Runtime, turn: LoopTurn, o: Oracle, human: HumanKind): nat {
    match turn
    case Take(command, exchange, encodes, _) => CommandBrings(r, command, exchange, encodes, o, human)
    case Receive(frame) => if r.active && IsUnanswerable(r.provider, frame, human, false) then 1 else 0
    case _ => 0
  }

  lemma FollowBrings(r: Runtime, received: seq<Received>, o: Oracle, human: HumanKind)
    ensures var t := Follow(r, received, o); !t.stage.Over? ==> Grew(r, t, human, CountStrays(received, human))
  {
    PublishAllLoose(r, received, false, o.ok, human);
  }

  lemma ActiveBrings(r: Runtime, id: RuntimeId, exchange: Exchange, o: Oracle, human: HumanKind)
    ensures var t := OnActive(r, id, exchange, o);
      !t.stage.Over? ==> Grew(r, t, human, ExchangeBrings(r, exchange, false, o, human))
  {
    CollectLoose(r, exchange.frames, [], o.ok, human);
    var c := Collect(r, exchange.frames, [], o.ok);
    FollowBrings(Emit(c.r, Response(id)), c.received, o, human);
  }

  lemma PromptBrings(r: Runtime, id: RuntimeId, exchange: Exchange, encodes: bool, o: Oracle, human: HumanKind)
    requires !r.active && encodes
    ensures var t := RuntimeSteps.OnPrompt(r, id, exchange, encodes, o);
      !t.stage.Over? ==> Grew(r, t, human, ExchangeBrings(r, exchange, true, o, human))
  {
    CollectLoose(r, exchange.frames, [], o.ok, human);
    var c := Collect(r, exchange.frames, [], o.ok);
    var begun := Emit(c.r, Response(id)).(active := true);
    FollowBrings(begun, c.received, o, human);
    FollowBrings(Emit(begun, ProviderEvent(r.agent, TurnStarted(exchange.identity))), c.received, o, human);
  }

  lemma InterruptBrings(r: Runtime, id: RuntimeId, exchange: Exchange, o: Oracle, human: HumanKind)
    ensures var t := RuntimeSteps.OnInterrupt(r, id, exchange, o);
      !t.stage.Over? ==> Grew(r, t, human, CommandBrings(r, Interrupt(id), exchange, true, o, human))
  {
    DenyLoose(r, o.order(r.pending.Keys), false, o.ok, human);
    ActiveBrings(DenyEvery(r, o).r, id, exchange, o, human);
  }

  lemma CommandsBring(r: Runtime, command: Command, exchange: Exchange, encodes: bool, fits: bool, o: Oracle,
                      human: HumanKind)
    ensures var t := RuntimeSteps.OnCommand(r, command, exchange, encodes, fits, o);
      !t.stage.Over? ==> Grew(r, t, human, CommandBrings(r, command, exchange, encodes, o, human))
  {
    match command
    case SendPrompt(id, _) => if !r.active && encodes { PromptBrings(r, id, exchange, encodes, o, human); }
    case SendSteer(id, _, _) => ActiveBrings(r, id, exchange, o, human);
    case Interrupt(id) => InterruptBrings(r, id, exchange, o, human);
    case History(id) => CollectLoose(r, exchange.frames, [], o.ok, human);
    case ClientDisconnected => DenyLoose(r, o.order(r.pending.Keys), false, o.ok, human);
    case _ =>
  }

  /** A turn that does not end the task adds exactly the unanswerable requests it brings to the strays. */
  lemma TurnBrings(r: Runtime, turn: LoopTurn, o: Oracle, human: HumanKind)
    requires r.stage.Looping?
    ensures var t := Perform(r, turn, o); !t.stage.Over? ==> Grew(r, t, human, Brings(r, turn, o, human))
  {
    match turn
    case Take(command, exchange, encodes, fits) => CommandsBring(r, command, exchange, encodes, fits, o, human);
    case Receive(frame) =>
      var received := Received(r.nextFrame, frame.request, frame.kind);
      CountStraysSnoc([], received, human);
      assert [] + [received] == [received];
      FollowBrings(ReadFrame(r, frame), [received], o, human);
    case Expire(ids) => DenyLoose(r, o.order(ids * r.pending.Keys), false, o.ok, human);
    case _ =>
  }

  lemma StartBrings(r: Runtime, id: RuntimeId, hello: Exchange, opening: Exchange, o: Oracle, human: HumanKind)
    requires r.stage.Opening?
    ensures var t := Start(r, id, hello, opening, o);
      !t.stage.Over? ==> Grew(r, t, human, CountUnanswerable(r.provider, opening.frames, human))
  {
    CollectLoose(r, hello.frames, [], o.ok, human);
    var greeted := Collect(r, hello.frames, [], o.ok).r;
    CollectLoose(greeted, opening.frames, [], o.ok, human);
    var c := Collect(greeted, opening.frames, [], o.ok);
    if opening.identity.Some? {
      PublishAllLoose(Emit(c.r, Started(id, r.agent, opening.identity.value)), c.received, false, o.ok, human);
    }
  }

  // ---------------------------------------------------------------------------
  // In the composed system

  function MoveBrings(w: World, move: Move, a: AgentId, human: HumanKind): nat {
    if a !in w.tasks then 0
    else if move.RunTask? && move.agent == a && w.tasks[a].runtime.stage.Looping? then
      Brings(w.tasks[a].runtime, move.turn, move.oracle, human)
    else if move.StartTask? && move.agent == a && w.tasks[a].runtime.stage.Opening? then
      CountUnanswerable(w.tasks[a].runtime.provider, move.opening.frames, human)
    else 0
  }

  /** The unanswerable requests an agent's provider has made so far. */
  function Brought(w: World, moves: seq<Move>, a: AgentId, human: HumanKind): nat {
    if moves == [] then 0
    else
      var n := |moves| - 1;
      var before := Play(w, moves[..n]);
      Brought(w, moves[..n], a, human)
      + if Possible(before, moves[n]) then MoveBrings(before, moves[n], a, human) else 0
  }

  ghost predicate Tallied(w: World, a: AgentId, human: HumanKind, brought: nat) {
    if a !in w.tasks then brought == 0
    else !w.tasks[a].runtime.stage.Over? ==> w.tasks[a].runtime.strays[human] == brought
  }

  lemma {:induction false} ConveyStarts(tasks: map<AgentId, Task>, actions: seq<BrokerSteps.Action>, a: AgentId)
    requires a !in tasks
    ensures a in Convey(tasks, actions) && !Convey(tasks, actions)[a].runtime.stage.Over? ==>
      Convey(tasks, actions)[a].runtime.strays == multiset{}
  {
    if actions != [] {
      ConveyStarts(tasks, actions[..|actions| - 1], a);
    }
  }

  lemma ServedTallied(w: World, input: BrokerSteps.Input, ok: bool, a: AgentId, human: HumanKind, brought: nat)
    requires Tallied(w, a, human, brought)
    ensures Tallied(Served(w, input, ok), a, human, brought)
  {
    var actions := Since(w.broker.trace, BrokerSteps.Step(w.broker, input, ok).trace);
    if a in w.tasks {
      ConveyContinues(w.tasks, actions, a);
    } else {
      ConveyStarts(w.tasks, actions, a);
    }
  }

  lemma RunTallied(w: World, a: AgentId, turn: LoopTurn, o: Oracle, human: HumanKind, brought: nat)
    requires Possible(w, RunTask(a, turn, o)) && Tallied(w, a, human, brought)
    ensures Tallied(Go(w, RunTask(a, turn, o)), a, human, brought + MoveBrings(w, RunTask(a, turn, o), a, human))
  {
    var r := w.tasks[a].runtime;
    TurnWorks(r, turn, o, a);
    if r.stage.Looping? { TurnBrings(r, turn, o, human); }
  }

  lemma StartTallied(w: World, a: AgentId, id: RuntimeId, hello: Exchange, opening: Exchange, o: Oracle,
                     human: HumanKind, brought: nat)
    requires Possible(w, StartTask(a, id, hello, opening, o)) && Tallied(w, a, human, brought)
    ensures Tallied(Go(w, StartTask(a, id, hello, opening, o)), a, human,
                    brought + MoveBrings(w, StartTask(a, id, hello, opening, o), a, human))
  {
    var r := w.tasks[a].runtime;
    StartWorks(r, id, hello, opening, o, a);
    if r.stage.Opening? { StartBrings(r, id, hello, opening, o, human); }
  }

  lemma BrokerTallied(w: World, move: Move, a: AgentId, human: HumanKind, brought: nat)
    requires move.ReadInput? || move.EndRetire? || move.ReadEvent?
    requires Possible(w, move) && Tallied(w, a, human, brought)
    ensures Tallied(Go(w, move), a, human, brought)
  {
    match move
    case ReadInput(ok) => ServedTallied(w.(inputs := w.inputs[1..]), w.inputs[0], ok, a, human, brought);
    case EndRetire(ok) =>
      ServedTallied(w.(inputs := w.inputs[1..], retiring := 0), w.inputs[0], ok, a, human, brought);
    case ReadEvent(ok) =>
      ServedTallied(w.(events := w.events[1..]), BrokerSteps.FromRuntime(w.events[0]), ok, a, human, brought);
  }

  lemma GoTallied(w: World, move: Move, a: AgentId, human: HumanKind, brought: nat)
    requires Possible(w, move) && Tallied(w, a, human, brought)
    ensures Tallied(Go(w, move), a, human, brought + MoveBrings(w, move, a, human))
  {
    if move.ReadInput? || move.EndRetire? || move.ReadEvent? {
      BrokerTallied(w, move, a, human, brought);
    } else if (move.RunTask? || move.StartTask?) && move.agent == a {
      OwnTallied(w, move, a, human, brought);
    } else if !(move.RunTask? || move.StartTask?) {
      ChannelTallied(w, move, a, human, brought);
    }
  }

  lemma OwnTallied(w: World, move: Move, a: AgentId, human: HumanKind, brought: nat)
    requires (move.RunTask? || move.StartTask?) && move.agent == a
    requires Possible(w, move) && Tallied(w, a, human, brought)
    ensures Tallied(Go(w, move), a, human, brought + MoveBrings(w, move, a, human))
  {
    match move
    case RunTask(_, turn, o) => RunTallied(w, a, turn, o, human, brought);
    case StartTask(_, id, hello, opening, o) => StartTallied(w, a, id, hello, opening, o, human, brought);
  }

  lemma ChannelTallied(w: World, move: Move, a: AgentId, human: HumanKind, brought: nat)
    requires !move.ReadInput? && !move.EndRetire? && !move.ReadEvent? && !move.RunTask? && !move.StartTask?
    requires Possible(w, move) && Tallied(w, a, human, brought)
    ensures Tallied(Go(w, move), a, human, brought)
  {
  }

  lemma {:induction false} PlayTallied(w: World, moves: seq<Move>, a: AgentId, human: HumanKind)
    requires Dawn(w)
    ensures Tallied(Play(w, moves), a, human, Brought(w, moves, a, human))
    decreases |moves|
  {
    if moves != [] {
      var n := |moves| - 1;
      PlayTallied(w, moves[..n], a, human);
      if Possible(Play(w, moves[..n]), moves[n]) {
        GoTallied(Play(w, moves[..n]), moves[n], a, human, Brought(w, moves[..n], a, human));
      }
    }
  }

  // ---------------------------------------------------------------------------
  // Theorems

  /** For an agent of either provider, while its task works and it was neither failed nor let go, the
      broker counts exactly the requests that wait for an answer, up to what is in the channel, if and
      only if the provider made no request that nobody can answer. */
  lemma CountersAreExactIff(w: World, moves: seq<Move>, a: AgentId, human: HumanKind)
    requires Dawn(w) && Sane(moves)
    requires var t := Play(w, moves);
      && a in t.tasks && !t.tasks[a].runtime.stage.Over?
      && a in t.broker.agents && Tell(t.broker.trace, a).intact
    ensures Brought(w, moves, a, human) == 0 <==>
      var t := Play(w, moves);
      Counter(t.broker.agents[a], human) + Asked(Kinds(t.events, a), human)
      == Closed(Kinds(t.events, a), human) + CountHeld(t.tasks[a].runtime.pending, human)
  {
    CountersAgree(w, moves, a, human);
    PlayTallied(w, moves, a, human);
  }

  // ---------------------------------------------------------------------------
  // Claude

  /** A human request carries the identity its answer needs. */
  predicate IsPolite(frame: Frame) {
    frame.kind.Requested? ==> frame.request
  }

  predicate ArePolite(frames: seq<Frame>) {
    forall i :: 0 <= i < |frames| ==> IsPolite(frames[i])
  }

  /** Everything a provider says in the move is polite. */
  predicate IsPoliteMove(move: Move, a: AgentId) {
    && (move.RunTask? && move.agent == a ==>
          && (move.turn.Take? ==> ArePolite(move.turn.exchange.frames))
          && (move.turn.Receive? ==> IsPolite(move.turn.frame)))
    && (move.StartTask? && move.agent == a ==> ArePolite(move.opening.frames))
  }

  ghost predicate AllPolite(moves: seq<Move>, a: AgentId) {
    forall i :: 0 <= i < |moves| ==> IsPoliteMove(moves[i], a)
  }

  lemma {:induction false} PoliteFrames(frames: seq<Frame>, human: HumanKind)
    requires ArePolite(frames)
    ensures CountUnanswerable(Claude, frames, human) == 0
    decreases |frames|
  {
    if frames != [] {
      assert IsPolite(frames[0]);
      PoliteFrames(frames[1..], human);
    }
  }

  lemma PoliteMove(w: World, move: Move, a: AgentId, human: HumanKind)
    requires IsPoliteMove(move, a) && (a in w.tasks ==> w.tasks[a].runtime.provider.Claude?)
    ensures MoveBrings(w, move, a, human) == 0
  {
    if move.RunTask? && move.agent == a && move.turn.Take? && a in w.tasks {
      var r := w.tasks[a].runtime;
      PoliteFrames(move.turn.exchange.frames, human);
      DenyLoose(r, move.oracle.order(r.pending.Keys), false, move.oracle.ok, human);
    }
    if move.StartTask? && move.agent == a { PoliteFrames(move.opening.frames, human); }
  }

  lemma ProviderIsKept(provider: Provider)
    ensures Conservation.Kept((r: Runtime) => r.provider == provider)
  {
  }

  /** A task keeps its provider. */
  lemma GoKeepsProvider(w: World, move: Move, a: AgentId)
    requires Possible(w, move) && a in w.tasks
    ensures a in Go(w, move).tasks && Go(w, move).tasks[a].runtime.provider == w.tasks[a].runtime.provider
  {
    var r := w.tasks[a].runtime;
    ProviderIsKept(r.provider);
    match move
    case ReadInput(ok) => ServedKeepsProvider(w.(inputs := w.inputs[1..]), w.inputs[0], ok, a);
    case EndRetire(ok) => ServedKeepsProvider(w.(inputs := w.inputs[1..], retiring := 0), w.inputs[0], ok, a);
    case ReadEvent(ok) =>
      ServedKeepsProvider(w.(events := w.events[1..]), BrokerSteps.FromRuntime(w.events[0]), ok, a);
    case RunTask(_, turn, o) => PerformKeeps((t: Runtime) => t.provider == r.provider, r, turn, o);
    case StartTask(_, id, hello, opening, o) =>
      StartKeeps((t: Runtime) => t.provider == r.provider, r, id, hello, opening, o);
    case _ =>
  }

  lemma ServedKeepsProvider(w: World, input: BrokerSteps.Input, ok: bool, a: AgentId)
    requires a in w.tasks
    ensures var t := Served(w, input, ok);
      a in t.tasks && t.tasks[a].runtime.provider == w.tasks[a].runtime.provider
  {
    ConveyContinues(w.tasks, Since(w.broker.trace, BrokerSteps.Step(w.broker, input, ok).trace), a);
  }

  lemma {:induction false} PoliteProviderBringsNothing(w: World, moves: seq<Move>, a: AgentId, human: HumanKind)
    requires Dawn(w) && AllPolite(moves, a)
    requires a in Play(w, moves).tasks ==> Play(w, moves).tasks[a].runtime.provider.Claude?
    ensures Brought(w, moves, a, human) == 0
    decreases |moves|
  {
    if moves != [] {
      var n := |moves| - 1;
      var before := Play(w, moves[..n]);
      assert IsPoliteMove(moves[n], a);
      if Possible(before, moves[n]) {
        if a in before.tasks { GoKeepsProvider(before, moves[n], a); }
        PoliteMove(before, moves[n], a, human);
      }
      PoliteProviderBringsNothing(w, moves[..n], a, human);
    }
  }

  /** For a Claude agent whose callbacks carry their identity the balance is exact. */
  lemma ClaudeCountersAreExact(w: World, moves: seq<Move>, a: AgentId, human: HumanKind)
    requires Dawn(w) && Sane(moves) && AllPolite(moves, a)
    requires var t := Play(w, moves);
      && a in t.tasks && t.tasks[a].runtime.provider.Claude? && !t.tasks[a].runtime.stage.Over?
      && a in t.broker.agents && Tell(t.broker.trace, a).intact
    ensures var t := Play(w, moves);
      Counter(t.broker.agents[a], human) + Asked(Kinds(t.events, a), human)
      == Closed(Kinds(t.events, a), human) + CountHeld(t.tasks[a].runtime.pending, human)
  {
    CountersAreExactIff(w, moves, a, human);
    PoliteProviderBringsNothing(w, moves, a, human);
  }

  // ---------------------------------------------------------------------------
  // Codex

  lemma StraysAreKept(human: HumanKind, n: nat)
    ensures Conservation.Kept((r: Runtime) => r.strays[human] >= n)
  {
  }

  /** Whatever happens later, a stray stays one: no later turn resolves it. */
  lemma {:induction false} StraysNeverDecrease(r: Runtime, turns: seq<Timed>, human: HumanKind)
    ensures RunLoop(r, turns).strays[human] >= r.strays[human]
  {
    if turns != [] {
      var last := turns[|turns| - 1];
      StraysNeverDecrease(r, turns[..|turns| - 1], human);
      StraysAreKept(human, r.strays[human]);
      PerformKeeps((t: Runtime) => t.strays[human] >= r.strays[human], RunLoop(r, turns[..|turns| - 1]),
                   last.turn, last.oracle);
    }
  }

  lemma CodexDenialIsPublished(r: Runtime, id: RuntimeId, prompt: Prompt, human: HumanKind, turn: string, o: Oracle)
    requires r.provider.Codex? && r.stage.Looping? && !r.active && o.ok(r.nextFrame)
    ensures var frame := Frame(true, Requested(human, 0));
      var t := Perform(r, Take(SendPrompt(id, prompt), Exchange([frame], true, Some(turn)), true, true), o);
      && t.pending == r.pending && t.strays == r.strays + multiset{human}
      && t.acts == r.acts + [Read(r.nextFrame, true)] + [Wrote(r.nextFrame, true)]
      && t.emitted == r.emitted + [Response(id)] + [ProviderEvent(r.agent, Requested(human, 0))]
  {
    var frame := Frame(true, Requested(human, 0));
    var received := Received(r.nextFrame, false, frame.kind);
    var wrote := Attempt(ReadFrame(r, frame), r.nextFrame, true);
    assert [frame][1..] == [] && [received][1..] == [] && [] + [received] == [received];
    assert Collect(wrote, [], [received], o.ok) == Collected(wrote, [received], true);
    assert Collect(r, [frame], [], o.ok) == Collect(wrote, [frame][1..], [] + [received], o.ok);
    var begun := Emit(wrote, Response(id)).(active := true);
    var told := Told(begun, frame.kind);
    assert PublishAll(told, [], false, o.ok) == Outcome(told, true, false);
    assert PublishAll(begun, [received], false, o.ok) == PublishAll(told, [received][1..], false, o.ok);
  }

  /** A request that a Codex server makes while a prompt is being sent is denied on the spot and published,
      and however the session goes on, the requests published exceed the resolutions published by one more
      than they would without it. */
  lemma CodexDenialIsNeverResolved(r: Runtime, id: RuntimeId, prompt: Prompt, human: HumanKind, turn: string, o: Oracle,
                                   later: seq<Timed>)
    requires r.provider.Codex? && r.stage.Looping? && !r.active && o.ok(r.nextFrame) && Books(r, human)
    ensures var frame := Frame(true, Requested(human, 0));
      var t := Perform(r, Take(SendPrompt(id, prompt), Exchange([frame], true, Some(turn)), true, true), o);
      var kinds := Kinds(RunLoop(t, later).emitted, RunLoop(t, later).agent);
      && t.pending == r.pending && t.emitted == r.emitted + [Response(id)] + [ProviderEvent(r.agent, frame.kind)]
      && Asked(kinds, human) >= Closed(kinds, human) + r.strays[human] + 1
  {
    CodexDenialIsPublished(r, id, prompt, human, turn, o);
    var frame := Frame(true, Requested(human, 0));
    var turn1 := Take(SendPrompt(id, prompt), Exchange([frame], true, Some(turn)), true, true);
    SystemSafety.TurnBooks(r, turn1, o, human);
    RunBooks(Perform(r, turn1, o), later, human);
    StraysNeverDecrease(Perform(r, turn1, o), later, human);
  }
}
