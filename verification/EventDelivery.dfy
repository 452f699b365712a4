/** What a connection receives: consecutive events, from where its replay began. */
module EventDelivery {
  import opened Options
  import opened Protocol
  import opened Replay
  import opened BrokerSteps
  import opened BrokerRuns

  /** The events sent on one connection, in order. */
  function DeliveredOn(trace: seq<Action>, generation: nat): seq<Event> {
    if trace == [] then []
    else
      var last := trace[|trace| - 1];
      DeliveredOn(trace[..|trace| - 1], generation)
      + if last.Delivered? && last.generation == generation then [last.event] else []
  }

  lemma DeliveredSnoc(trace: seq<Action>, action: Action, generation: nat)
    ensures DeliveredOn(trace + [action], generation)
         == DeliveredOn(trace, generation)
            + if action.Delivered? && action.generation == generation then [action.event] else []
  {
    assert (trace + [action])[..|trace|] == trace;
  }

  lemma DeliveriesSnoc(sender: nat, events: seq<Event>)
    requires events != []
    ensures var n := |events| - 1;
      Deliveries(sender, events) == Deliveries(sender, events[..n]) + [Delivered(sender, events[n])]
  {
  }

  lemma {:induction false} DeliveredBatch(trace: seq<Action>, sender: nat, events: seq<Event>, generation: nat)
    ensures DeliveredOn(trace + Deliveries(sender, events), generation)
         == DeliveredOn(trace, generation) + if sender == generation then events else []
  {
    if events == [] {
      assert trace + Deliveries(sender, events) == trace;
    } else {
      var n := |events| - 1;
      var front := trace + Deliveries(sender, events[..n]);
      DeliveredBatch(trace, sender, events[..n], generation);
      DeliveriesSnoc(sender, events);
      DeliveredSnoc(front, Delivered(sender, events[n]), generation);
      assert trace + Deliveries(sender, events) == front + [Delivered(sender, events[n])];
      assert events == events[..n] + [events[n]];
    }
  }

  /** What a connection received is a stretch of the log; a ready client has all the rest of it. */
  ghost predicate Gapless(s: State, generation: nat, base: nat) {
    var received := DeliveredOn(s.trace, generation);
    && base + |received| <= |s.log|
    && received == s.log[base..base + |received|]
    && (s.generation == generation && s.connected && s.phase.Ready? ==> base + |received| == |s.log|)
  }

  /** The log is numbered, and nothing is sent on a connection before its handshake completes. */
  ghost predicate Silent(s: State) {
    && Numbered(s.log)
    && (forall g {:trigger DeliveredOn(s.trace, g)} :: g > s.generation ==> DeliveredOn(s.trace, g) == [])
    && (s.connected && !s.phase.Ready? ==> DeliveredOn(s.trace, s.generation) == [])
  }

  /** Nothing was assigned or delivered between two states of one connection phase. */
  ghost predicate Quiet(s: State, t: State) {
    && t.log == s.log && t.generation == s.generation && t.connected == s.connected && t.phase == s.phase
    && forall g {:trigger DeliveredOn(t.trace, g)} :: DeliveredOn(t.trace, g) == DeliveredOn(s.trace, g)
  }

  /** One event was assigned, and delivered if the connection was ready. */
  ghost predicate Grew(s: State, t: State, event: Event) {
    && t.log == s.log + [event] && event.sequence == |s.log| + 1
    && t.generation == s.generation && t.connected == s.connected && t.phase == s.phase
    && forall g {:trigger DeliveredOn(t.trace, g)} :: DeliveredOn(t.trace, g)
         == DeliveredOn(s.trace, g) + if s.phase.Ready? && s.connected && g == s.generation then [event] else []
  }

  lemma QuietKeeps(s: State, t: State, g: nat, base: nat)
    requires Quiet(s, t)
    ensures Silent(s) ==> Silent(t)
    ensures Gapless(s, g, base) ==> Gapless(t, g, base)
  {
  }

  lemma GrewKeeps(s: State, t: State, event: Event, g: nat, base: nat)
    requires Grew(s, t, event)
    ensures Silent(s) ==> Silent(t)
    ensures Gapless(s, g, base) ==> Gapless(t, g, base)
  {
    if Gapless(s, g, base) {
      var received := DeliveredOn(s.trace, g);
      assert t.log[base..base + |received|] == s.log[base..base + |received|];
      if s.phase.Ready? && s.connected && g == s.generation {
        assert t.log[base..base + |received| + 1] == s.log[base..base + |received|] + [event];
      }
    }
  }

  lemma RecordIsQuiet(s: State, action: Action)
    requires !action.Delivered?
    ensures Quiet(s, Record(s, action))
  {
    forall g: nat {:trigger DeliveredOn(s.trace, g)}
      ensures DeliveredOn(s.trace + [action], g) == DeliveredOn(s.trace, g)
    {
      DeliveredSnoc(s.trace, action, g);
    }
  }

  lemma AnnouncedGrew(s: State, agent: AgentId, kind: EventKind)
    ensures Grew(s, Announced(s, agent, kind), Event(|s.log| + 1, agent, kind))
  {
    var event := Event(|s.log| + 1, agent, kind);
    var logged := s.trace + [Logged(event)];
    forall g: nat {:trigger DeliveredOn(s.trace, g)}
      ensures DeliveredOn(logged, g) == DeliveredOn(s.trace, g)
      ensures DeliveredOn(logged + [Delivered(s.generation, event)], g)
           == DeliveredOn(s.trace, g) + if g == s.generation then [event] else []
    {
      DeliveredSnoc(s.trace, Logged(event), g);
      DeliveredSnoc(logged, Delivered(s.generation, event), g);
    }
  }

  lemma CancelledInOrder(s: State, id: AgentId, g: nat, base: nat)
    requires id in s.agents
    ensures Silent(s) ==> Silent(Cancelled(s, id))
    ensures Gapless(s, g, base) ==> Gapless(Cancelled(s, id), g, base)
  {
    var cleared := WithAgent(s, id, s.agents[id].(queue := []));
    QuietKeeps(s, cleared, g, base);
    if s.agents[id].queue != [] {
      var kind := Notice(|s.agents[id].queue|);
      AnnouncedGrew(cleared, id, kind);
      GrewKeeps(cleared, Announced(cleared, id, kind), Event(|s.log| + 1, id, kind), g, base);
    }
  }

  lemma FailedInOrder(s: State, id: AgentId, cause: Cause, g: nat, base: nat)
    requires id in s.agents
    ensures Silent(s) ==> Silent(FailedWith(s, id, cause))
    ensures Gapless(s, g, base) ==> Gapless(FailedWith(s, id, cause), g, base)
  {
    CancelledInOrder(s, id, g, base);
    var cancelled := Cancelled(s, id);
    var severed := WithAgent(cancelled, id, Severed(cancelled.agents[id]));
    QuietKeeps(cancelled, severed, g, base);
    AnnouncedGrew(severed, id, BrokerError(cause));
    GrewKeeps(severed, Announced(severed, id, BrokerError(cause)),
              Event(|severed.log| + 1, id, BrokerError(cause)), g, base);
  }

  /** The number of events the connection never receives: those before its replay. */
  function Base(s: State): (base: nat)
    ensures base <= |s.log|
  {
    if s.mode.Durable? && InWindow(s.log, s.capacity, s.cursor) && s.cursor <= |s.log| then s.cursor else |s.log|
  }

  lemma FinishDelivers(s: State, g: nat)
    requires s.phase.AwaitInitialized?
    ensures DeliveredOn(Apply(s, Finish).trace, g)
         == DeliveredOn(s.trace, g) + if s.connected && g == s.generation then Replayed(s) else []
  {
    DeliveredBatch(s.trace, s.generation, Replayed(s), g);
    assert s.trace + [] == s.trace;
  }

  lemma FinishInOrder(s: State)
    requires Silent(s) && s.phase.AwaitInitialized?
    ensures Silent(Apply(s, Finish))
    ensures s.connected ==> Gapless(Apply(s, Finish), s.generation, Base(s))
  {
    var t := Apply(s, Finish);
    assert t == s.(phase := Ready, trace := t.trace);
    forall g: nat {:trigger DeliveredOn(t.trace, g)}
      ensures DeliveredOn(t.trace, g)
           == DeliveredOn(s.trace, g) + if s.connected && g == s.generation then Replayed(s) else []
    {
      FinishDelivers(s, g);
    }
    assert s.log[Base(s)..] == Replayed(s);
  }

  lemma FinishElsewhere(s: State, g: nat, base: nat)
    requires s.phase.AwaitInitialized? && Gapless(s, g, base) && !(s.connected && g == s.generation)
    ensures Gapless(Apply(s, Finish), g, base)
  {
    FinishDelivers(s, g);
  }

  lemma OpenInOrder(s: State, generation: nat, g: nat, base: nat)
    requires generation > s.generation && Silent(s) && Gapless(s, g, base)
    ensures Silent(Apply(s, Open(generation))) && Gapless(Apply(s, Open(generation)), g, base)
  {
    RecordIsQuiet(s, Opened(generation));
  }

  lemma CloseInOrder(s: State, g: nat, base: nat)
    requires Silent(s) && Gapless(s, g, base)
    ensures Silent(Apply(s, Close)) && Gapless(Apply(s, Close), g, base)
  {
    var marked := Record(s, Shut(s.generation));
    RecordIsQuiet(s, Shut(s.generation));
    RecordIsQuiet(marked, Warned(s.agents.Keys));
    assert Apply(s, Close).trace == Record(marked, Warned(s.agents.Keys)).trace;
  }

  predicate IsQuiet(e: Effect) {
    e.Begin? || e.Alter? || e.Attach? || e.Gather? || e.Drop? || e.Accept? || e.Dispatch?
    || e.Allocate? || e.Settle? || e.Unqueue?
    || e.Insert? || e.Bury? || e.Remove? || e.Note? || e.Stop?
  }

  lemma QuietEffect(s: State, e: Effect)
    requires Enabled(s, e) && Silent(s)
    requires IsQuiet(e)
    ensures e.Begin? || Quiet(s, Apply(s, e))
  {
    match e
    case Attach(agent, context) => RecordIsQuiet(s, Attached(agent, context));
    case Gather(agent, _, contexts) => RecordIsQuiet(s, Gathered(agent, contexts));
    case Drop(agent) => RecordIsQuiet(s, Dropped(agent));
    case Accept(agent, prompt) => RecordIsQuiet(s, Accepted(agent, prompt));
    case Dispatch(agent) =>
      var id, prompt := QueuedRequest(s.nextRequest), s.agents[agent].queue[0];
      RecordIsQuiet(s, Dispatched(agent, id, prompt));
      RecordIsQuiet(Record(s, Dispatched(agent, id, prompt)), Commanded(agent, SendPrompt(id, prompt)));
    case Allocate(publicId) => RecordIsQuiet(s, Forwarded(s.generation, NextId(s), publicId));
    case Settle(id) =>
      if id in s.pending { RecordIsQuiet(s, Answered(s.generation, id, s.pending[id].publicId)); }
    case Insert(added, id) => RecordIsQuiet(s, Spawned(s.nextAgent, id, added.provider, added.contexts));
    case Bury(agent, _) => RecordIsQuiet(s, Released(agent));
    case Note(action) => RecordIsQuiet(s, action);
    case _ =>
  }

  lemma AbandonInOrder(s: State, id: AgentId, g: nat, base: nat)
    requires id in s.agents && s.agents[id].queue != []
    requires Silent(s) && Gapless(s, g, base)
    ensures var t := Abandoned(Popped(s, id), id, s.agents[id].queue[0]); Silent(t) && Gapless(t, g, base)
  {
    var t := Popped(s, id);
    var undelivered := Undelivered(id, s.agents[id].queue[0]);
    RecordIsQuiet(t, undelivered);
    QuietKeeps(s, Record(t, undelivered), g, base);
    FailedInOrder(Record(t, undelivered), id, ChannelUnavailable, g, base);
  }

  lemma EffectInOrder(s: State, e: Effect, g: nat, base: nat)
    requires Enabled(s, e) && Silent(s) && Gapless(s, g, base)
    requires !e.Finish?
    ensures Silent(Apply(s, e)) && Gapless(Apply(s, e), g, base)
  {
    if IsQuiet(e) {
      QuietEffect(s, e);
      if !e.Begin? { QuietKeeps(s, Apply(s, e), g, base); }
    } else if e.Announce? {
      AnnouncedGrew(s, e.agent, e.kind);
      var announced := Announced(s, e.agent, e.kind);
      GrewKeeps(s, announced, Event(|s.log| + 1, e.agent, e.kind), g, base);
      QuietKeeps(announced, Observed(announced, e.agent, e.kind), g, base);
    } else if e.Abandon? {
      AbandonInOrder(s, e.agent, g, base);
    } else if e.Cancel? {
      CancelledInOrder(s, e.agent, g, base);
    } else if e.Fail? {
      FailedInOrder(s, e.agent, e.cause, g, base);
    } else if e.Open? {
      OpenInOrder(s, e.generation, g, base);
    } else {
      CloseInOrder(s, g, base);
    }
  }

  ghost predicate HasBase(s: State, g: nat) {
    exists base :: Gapless(s, g, base)
  }

  /** Each connection has received a stretch of the log. */
  ghost predicate Ordered(s: State) {
    Silent(s) && forall g :: HasBase(s, g)
  }

  lemma EffectOrdered(s: State, e: Effect, g: nat)
    requires Enabled(s, e) && Silent(s) && HasBase(s, g)
    ensures Silent(Apply(s, e)) && HasBase(Apply(s, e), g)
  {
    var base :| Gapless(s, g, base);
    if e.Finish? {
      FinishInOrder(s);
      if g == s.generation && s.connected {
        assert Gapless(Apply(s, e), g, Base(s));
      } else {
        FinishElsewhere(s, g, base);
      }
    } else {
      EffectInOrder(s, e, g, base);
    }
  }

  lemma OrderedIsKept()
    ensures Kept((s: State) => Ordered(s))
  {
    forall s: State, e | Ordered(s) && Enabled(s, e) ensures Ordered(Apply(s, e)) {
      assert HasBase(s, 0);
      EffectOrdered(s, e, 0);
      forall g: nat ensures HasBase(Apply(s, e), g) {
        EffectOrdered(s, e, g);
      }
    }
  }

  /** On every connection, in every run, the events arrive with consecutive sequence numbers. */
  lemma DeliveriesAreConsecutive(s: State, turns: seq<Turn>, g: nat)
    requires Initial(s)
    ensures HasBase(Run(s, turns), g) && Numbered(Run(s, turns).log)
  {
    assert Ordered(s) by {
      forall g ensures HasBase(s, g) { assert Gapless(s, g, 0); }
    }
    OrderedIsKept();
    RunKeeps((s: State) => Ordered(s), s, turns);
  }

  /** While the handshake is unfinished, the cursor agreed at `initialize` stands. */
  ghost predicate Waiting(s: State, g: nat, cursor: nat, mode: Mode, capacity: nat, length: nat) {
    && Silent(s) && |s.log| >= length && s.mode == mode && s.capacity == capacity
    && s.generation >= g
    && (s.generation == g && s.connected && !s.phase.Ready? ==> s.phase.AwaitInitialized? && s.cursor == cursor)
  }

  /** Once a connection is ready it stays ready until it is gone, and misses nothing. */
  ghost predicate Receiving(s: State, g: nat, base: nat) {
    && Silent(s) && Gapless(s, g, base)
    && s.generation >= g
    && (s.generation == g && s.connected ==> s.phase.Ready?)
  }

  ghost predicate SameShape(s: State, t: State) {
    && t.mode == s.mode && t.capacity == s.capacity
    && t.phase == s.phase && t.cursor == s.cursor
    && t.generation == s.generation && t.connected == s.connected
    && |t.log| >= |s.log|
  }

  lemma FailedShape(s: State, id: AgentId, cause: Cause)
    requires id in s.agents
    ensures SameShape(s, Cancelled(s, id)) && SameShape(s, FailedWith(s, id, cause))
  {
  }

  lemma LocalKeepsShape(s: State, e: Effect)
    requires Enabled(s, e) && IsLocal(e)
    ensures SameShape(s, Apply(s, e))
  {
  }

  lemma MajorKeepsShape(s: State, e: Effect)
    requires Enabled(s, e) && IsMajor(e)
    ensures SameShape(s, Apply(s, e))
  {
    if e.Abandon? {
      var t := Popped(s, e.agent);
      FailedShape(Record(t, Undelivered(e.agent, s.agents[e.agent].queue[0])), e.agent, ChannelUnavailable);
    } else if e.Cancel? || e.Fail? {
      FailedShape(s, e.agent, if e.Fail? then e.cause else RuntimeFailed);
    } else if e.Dispatch? {
      assert SameShape(s, Popped(s, e.agent));
    }
  }

  lemma ApplyKeepsShape(s: State, e: Effect)
    requires Enabled(s, e)
    ensures var t := Apply(s, e);
      && t.mode == s.mode && t.capacity == s.capacity && |t.log| >= |s.log|
      && (!(e.Open? || e.Close? || e.Begin? || e.Finish?) ==> SameShape(s, t))
  {
    if IsMajor(e) {
      MajorKeepsShape(s, e);
    } else if IsLocal(e) {
      LocalKeepsShape(s, e);
    }
  }

  lemma SilentIsKept(s: State, e: Effect)
    requires Enabled(s, e) && Silent(s)
    ensures Silent(Apply(s, e))
  {
    if e.Finish? {
      FinishInOrder(s);
    } else {
      var g := s.generation + 1;
      assert DeliveredOn(s.trace, g) == [];
      assert Gapless(s, g, 0);
      EffectInOrder(s, e, g, 0);
    }
  }

  lemma WaitingIsKept(g: nat, cursor: nat, mode: Mode, capacity: nat, length: nat)
    ensures Kept((s: State) => Waiting(s, g, cursor, mode, capacity, length))
  {
    forall s: State, e | Waiting(s, g, cursor, mode, capacity, length) && Enabled(s, e)
      ensures Waiting(Apply(s, e), g, cursor, mode, capacity, length)
    {
      SilentIsKept(s, e);
      ApplyKeepsShape(s, e);
    }
  }

  lemma ReceivingIsKept(g: nat, base: nat)
    ensures Kept((s: State) => Receiving(s, g, base))
  {
    forall s: State, e | Receiving(s, g, base) && Enabled(s, e) ensures Receiving(Apply(s, e), g, base) {
      SilentIsKept(s, e);
      ApplyKeepsShape(s, e);
      if e.Finish? {
        FinishElsewhere(s, g, base);
      } else {
        EffectInOrder(s, e, g, base);
      }
    }
  }

  /** Where the replay of a connection begins: at the cursor it asked for, as long as nothing
      after that cursor has left the window when the handshake ends; otherwise at the end of
      the log, either as announced at `initialize` or because too much arrived since. */
  function ReplayBase(capacity: nat, requested: nat, atInitialize: nat, atInitialized: nat): nat {
    var cursor := if atInitialize <= requested + capacity then requested else atInitialize;
    if cursor <= atInitialized <= cursor + capacity then cursor else atInitialized
  }

  lemma BeginWaits(s: State, publicId: string, requested: nat, ok: bool)
    requires Silent(s) && s.running && s.mode.Durable? && s.connected && s.phase.AwaitInitialize?
    ensures Waiting(Step(s, Request(s.generation, publicId, Initialize(true, Some(requested))), ok), s.generation,
                    if InWindow(s.log, s.capacity, requested) then requested else |s.log|, Durable, s.capacity, |s.log|)
  {
    RecordIsQuiet(s, Replied(s.generation, publicId));
  }

  lemma FinishReceives(s: State, ok: bool)
    requires Silent(s) && s.running && s.connected && s.phase.AwaitInitialized?
    ensures Receiving(Step(s, Initialized(s.generation), ok), s.generation, Base(s))
  {
    FinishInOrder(s);
  }

  lemma StillWaiting(s: State, publicId: string, requested: nat, during: seq<Turn>, ok: bool)
    requires Silent(s) && s.running && s.mode.Durable? && s.connected && s.phase.AwaitInitialize?
    ensures Waiting(Run(Step(s, Request(s.generation, publicId, Initialize(true, Some(requested))), ok), during),
                    s.generation, if InWindow(s.log, s.capacity, requested) then requested else |s.log|,
                    Durable, s.capacity, |s.log|)
  {
    var g, n := s.generation, |s.log|;
    var begun := Step(s, Request(g, publicId, Initialize(true, Some(requested))), ok);
    var cursor := if InWindow(s.log, s.capacity, requested) then requested else |s.log|;
    BeginWaits(s, publicId, requested, ok);
    WaitingIsKept(g, cursor, Durable, s.capacity, n);
    RunKeeps((t: State) => Waiting(t, g, cursor, Durable, s.capacity, n), begun, during);
  }

  lemma KeepsReceiving(s: State, after: seq<Turn>, ok: bool)
    requires Silent(s) && s.running && s.connected && s.phase.AwaitInitialized?
    ensures Receiving(Run(Step(s, Initialized(s.generation), ok), after), s.generation, Base(s))
  {
    var g, base := s.generation, Base(s);
    FinishReceives(s, ok);
    ReceivingIsKept(g, base);
    RunKeeps((t: State) => Receiving(t, g, base), Step(s, Initialized(g), ok), after);
  }

  /** A reconnecting client receives the log from its replay base on, once and in order, through
      the handshake and for as long as the connection lasts. Nothing after its cursor is missed
      exactly when the cursor is not beyond the log and at most `capacity` events separate it
      from the end of the handshake. */
  lemma ReconnectIsGapFree(s: State, publicId: string, requested: nat, during: seq<Turn>, after: seq<Turn>,
                           ok1: bool, ok2: bool)
    requires Silent(s) && s.running && s.mode.Durable? && s.connected && s.phase.AwaitInitialize?
    requires var g := s.generation;
      var waiting := Run(Step(s, Request(g, publicId, Initialize(true, Some(requested))), ok1), during);
      waiting.running && waiting.generation == g && waiting.connected && waiting.phase.AwaitInitialized?
    ensures var g := s.generation;
      var waiting := Run(Step(s, Request(g, publicId, Initialize(true, Some(requested))), ok1), during);
      var later := Run(Step(waiting, Initialized(g), ok2), after);
      var base := ReplayBase(s.capacity, requested, |s.log|, |waiting.log|);
      && Gapless(later, g, base)
      && (later.generation == g && later.connected ==> DeliveredOn(later.trace, g) == later.log[base..])
      && (base == requested <==> requested <= |waiting.log| <= requested + s.capacity)
  {
    StillWaiting(s, publicId, requested, during, ok1);
    var begun := Step(s, Request(s.generation, publicId, Initialize(true, Some(requested))), ok1);
    KeepsReceiving(Run(begun, during), after, ok2);
  }

  lemma ReachableIsSilent(s: State, turns: seq<Turn>)
    requires Initial(s)
    ensures Silent(Run(s, turns))
  {
    assert Ordered(s) by {
      forall g ensures HasBase(s, g) { assert Gapless(s, g, 0); }
    }
    OrderedIsKept();
    RunKeeps((t: State) => Ordered(t), s, turns);
  }
}
