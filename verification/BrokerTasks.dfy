/** What the broker's trace says about the provider task of one agent. */
module BrokerTasks {
  import opened Protocol
  import opened BrokerSteps
  import opened BrokerRuns
  import opened EventDelivery
  import Conservation

  /** Whether the task was started, whether it was let go, whether its agent has kept its counters
      since, and which of its events were published. */
  datatype Story = Story(spawned: bool, released: bool, intact: bool, heard: seq<EventKind>)

  predicate FromProvider(kind: EventKind) {
    !kind.Notice? && !kind.BrokerError?
  }

  function Next(story: Story, action: Action, agent: AgentId): Story {
    match action
    case Spawned(a, _, _, _) => if a == agent && !story.spawned then Story(true, false, true, []) else story
    case Released(a) => if a == agent then story.(released := true, intact := false) else story
    case Logged(event) =>
      if event.agent != agent || !story.spawned then story
      else if event.kind.BrokerError? then story.(intact := false)
      else if FromProvider(event.kind) then story.(heard := story.heard + [event.kind])
      else story
    case _ => story
  }

  function Tell(trace: seq<Action>, agent: AgentId): Story {
    if trace == [] then Story(false, false, false, [])
    else Next(Tell(trace[..|trace| - 1], agent), trace[|trace| - 1], agent)
  }

  lemma TellSnoc(trace: seq<Action>, action: Action, agent: AgentId)
    ensures Tell(trace + [action], agent) == Next(Tell(trace, agent), action, agent)
  {
    assert (trace + [action])[..|trace|] == trace;
  }

  function Counter(agent: Agent, human: HumanKind): nat {
    if human.Approval? then agent.approvals else agent.questions
  }

  // ---------------------------------------------------------------------------
  // How the story follows the effects

  predicate IsSilent(action: Action) {
    !action.Spawned? && !action.Released? && !action.Logged?
  }

  lemma SilentRecord(s: State, action: Action, agent: AgentId)
    requires IsSilent(action)
    ensures Tell(Record(s, action).trace, agent) == Tell(s.trace, agent)
  {
    TellSnoc(s.trace, action, agent);
  }

  lemma AnnouncedStory(s: State, id: AgentId, kind: EventKind, agent: AgentId)
    ensures Tell(Announced(s, id, kind).trace, agent)
         == Next(Tell(s.trace, agent), Logged(Event(|s.log| + 1, id, kind)), agent)
  {
    var event := Event(|s.log| + 1, id, kind);
    TellSnoc(s.trace, Logged(event), agent);
    TellSnoc(s.trace + [Logged(event)], Delivered(s.generation, event), agent);
  }

  lemma CancelledStory(s: State, id: AgentId, agent: AgentId)
    requires id in s.agents
    ensures var t := Cancelled(s, id);
      && Tell(t.trace, agent) == Tell(s.trace, agent)
      && t.agents == s.agents[id := s.agents[id].(queue := [])] && t.nextAgent == s.nextAgent
  {
    AnnouncedStory(WithAgent(s, id, s.agents[id].(queue := [])), id, Notice(|s.agents[id].queue|), agent);
  }

  lemma FailedStory(s: State, id: AgentId, cause: Cause, agent: AgentId)
    requires id in s.agents
    ensures var t := FailedWith(s, id, cause);
      && Tell(t.trace, agent)
      == (if id == agent && Tell(s.trace, agent).spawned then Tell(s.trace, agent).(intact := false)
          else Tell(s.trace, agent))
      && t.agents == s.agents[id := Severed(s.agents[id].(queue := []))] && t.nextAgent == s.nextAgent
  {
    CancelledStory(s, id, agent);
    var cancelled := Cancelled(s, id);
    var severed := WithAgent(cancelled, id, Severed(cancelled.agents[id]));
    assert severed.agents == s.agents[id := Severed(s.agents[id].(queue := []))];
    AnnouncedStory(severed, id, BrokerError(cause), agent);
  }

  lemma DispatchStory(s: State, id: AgentId, agent: AgentId)
    requires id in s.agents && s.agents[id].queue != []
    ensures Tell(Apply(s, Dispatch(id)).trace, agent) == Tell(s.trace, agent)
  {
    var prompt, request := s.agents[id].queue[0], QueuedRequest(s.nextRequest);
    SilentRecord(s, Dispatched(id, request, prompt), agent);
    SilentRecord(Record(s, Dispatched(id, request, prompt)), Commanded(id, SendPrompt(request, prompt)), agent);
  }

  lemma AbandonStory(s: State, id: AgentId, agent: AgentId)
    requires id in s.agents && s.agents[id].queue != []
    ensures var t := Abandoned(Popped(s, id), id, s.agents[id].queue[0]);
      && Tell(t.trace, agent)
      == (if id == agent && Tell(s.trace, agent).spawned then Tell(s.trace, agent).(intact := false)
          else Tell(s.trace, agent))
      && t.agents == s.agents[id := Severed(s.agents[id].(queue := []))] && t.nextAgent == s.nextAgent
  {
    var undelivered := Undelivered(id, s.agents[id].queue[0]);
    SilentRecord(Popped(s, id), undelivered, agent);
    FailedStory(Record(Popped(s, id), undelivered), id, ChannelUnavailable, agent);
    SamePopped(s.agents, id);
  }

  lemma SamePopped(agents: map<AgentId, Agent>, id: AgentId)
    requires id in agents && agents[id].queue != []
    ensures var popped := agents[id := agents[id].(queue := agents[id].queue[1..])];
      popped[id := Severed(popped[id].(queue := []))] == agents[id := Severed(agents[id].(queue := []))]
  {
  }

  lemma {:induction false} DeliveriesStory(trace: seq<Action>, g: nat, events: seq<Event>, agent: AgentId)
    ensures Tell(trace + Deliveries(g, events), agent) == Tell(trace, agent)
  {
    if events == [] {
      assert trace + Deliveries(g, events) == trace;
    } else {
      var n := |events| - 1;
      DeliveriesStory(trace, g, events[..n], agent);
      var front := trace + Deliveries(g, events[..n]);
      assert trace + Deliveries(g, events) == front + [Delivered(g, events[n])];
      TellSnoc(front, Delivered(g, events[n]), agent);
    }
  }

  /** Effects that neither publish an event nor start or end a task. */
  predicate IsAside(e: Effect) {
    !(e.Announce? || e.Dispatch? || e.Abandon? || e.Cancel? || e.Fail? || e.Insert? || e.Bury?)
  }

  lemma AsideStory(s: State, e: Effect, agent: AgentId)
    requires Enabled(s, e) && IsAside(e)
    ensures Tell(Apply(s, e).trace, agent) == Tell(s.trace, agent)
  {
    match e
    case Open(generation) => SilentRecord(s, Opened(generation), agent);
    case Close =>
      SilentRecord(s, Shut(s.generation), agent);
      SilentRecord(Record(s, Shut(s.generation)), Warned(s.agents.Keys), agent);
    case Finish =>
      if s.connected {
        DeliveriesStory(s.trace, s.generation, Replayed(s), agent);
      } else {
        assert Apply(s, e).trace == s.trace;
      }
    case Attach(id, context) => SilentRecord(s, Attached(id, context), agent);
    case Gather(id, _, contexts) => SilentRecord(s, Gathered(id, contexts), agent);
    case Drop(id) => SilentRecord(s, Dropped(id), agent);
    case Accept(id, prompt) => SilentRecord(s, Accepted(id, prompt), agent);
    case Allocate(publicId) => SilentRecord(s, Forwarded(s.generation, NextId(s), publicId), agent);
    case Settle(id) =>
      if id in s.pending { SilentRecord(s, Answered(s.generation, id, s.pending[id].publicId), agent); }
    case Note(action) => SilentRecord(s, action, agent);
    case _ =>
  }

  // ---------------------------------------------------------------------------
  // What every run keeps

  /** A task that was started and not let go belongs to an agent of the table. */
  ghost predicate Tabled(s: State, agent: AgentId) {
    var story := Tell(s.trace, agent);
    && (agent >= s.nextAgent ==> !story.spawned && agent !in s.agents)
    && (!story.spawned ==> story.heard == [] && !story.intact)
    && (story.spawned && !story.released ==> agent in s.agents && s.agents[agent].live)
  }

  /** Until the agent fails or is let go, its counters are the requests published minus the
      resolutions published, as long as the provider never resolved more than it requested. */
  ghost predicate Counted(s: State, agent: AgentId, human: HumanKind) {
    var story := Tell(s.trace, agent);
    story.spawned && story.intact && agent in s.agents && Conservation.Solvent(story.heard, human) ==>
      Conservation.Asked(story.heard, human)
        == Conservation.Closed(story.heard, human) + Counter(s.agents[agent], human)
  }

  ghost predicate Faithful(s: State, agent: AgentId, human: HumanKind) {
    Tabled(s, agent) && Counted(s, agent, human)
  }

  lemma ObservedCounter(s: State, kind: EventKind, agent: AgentId, human: HumanKind)
    requires Counted(s, agent, human) && agent in s.agents
    ensures var story := Tell(s.trace, agent);
      story.spawned && story.intact && Conservation.Solvent(story.heard + [kind], human) ==>
        Conservation.Asked(story.heard + [kind], human)
          == Conservation.Closed(story.heard + [kind], human) + Counter(Tracked(s.agents[agent], kind), human)
  {
    var story := Tell(s.trace, agent);
    if story.spawned && story.intact && Conservation.Solvent(story.heard + [kind], human) {
      SolventFront(story.heard, kind, human);
      Conservation.TallySnoc(story.heard, kind, human);
      TrackedCounter(s.agents[agent], kind, human);
    }
  }

  lemma AnnouncedTabled(s: State, id: AgentId, kind: EventKind, agent: AgentId)
    requires Tabled(s, agent)
    ensures Tabled(Announced(s, id, kind), agent)
  {
    AnnouncedStory(s, id, kind, agent);
  }

  lemma ObservedTabled(s: State, id: AgentId, kind: EventKind, agent: AgentId)
    requires Tabled(s, agent)
    ensures Tabled(Observed(s, id, kind), agent)
  {
    if id in s.agents { TrackedKeepsQueue(s.agents[id], kind); }
  }

  lemma OwnCounted(s: State, kind: EventKind, agent: AgentId, human: HumanKind)
    requires Counted(s, agent, human) && FromProvider(kind)
    ensures Counted(Observed(Announced(s, agent, kind), agent, kind), agent, human)
  {
    AnnouncedStory(s, agent, kind, agent);
    if agent in s.agents { ObservedCounter(s, kind, agent, human); }
  }

  lemma OtherCounted(s: State, id: AgentId, kind: EventKind, agent: AgentId, human: HumanKind)
    requires Counted(s, agent, human) && id != agent
    ensures Counted(Observed(Announced(s, id, kind), id, kind), agent, human)
  {
    AnnouncedStory(s, id, kind, agent);
  }

  lemma ObservedCounted(s: State, id: AgentId, kind: EventKind, agent: AgentId, human: HumanKind)
    requires Counted(s, agent, human) && FromProvider(kind)
    ensures Counted(Observed(Announced(s, id, kind), id, kind), agent, human)
  {
    if id == agent {
      OwnCounted(s, kind, agent, human);
    } else {
      OtherCounted(s, id, kind, agent, human);
    }
  }

  lemma ObservedTask(s: State, id: AgentId, kind: EventKind, agent: AgentId, human: HumanKind)
    requires Faithful(s, agent, human) && FromProvider(kind)
    ensures Faithful(Observed(Announced(s, id, kind), id, kind), agent, human)
  {
    AnnouncedTabled(s, id, kind, agent);
    ObservedTabled(Announced(s, id, kind), id, kind, agent);
    ObservedCounted(s, id, kind, agent, human);
  }

  lemma SolventFront(kinds: seq<EventKind>, kind: EventKind, human: HumanKind)
    requires Conservation.Solvent(kinds + [kind], human)
    ensures Conservation.Solvent(kinds, human)
    ensures Conservation.Closed(kinds + [kind], human) <= Conservation.Asked(kinds + [kind], human)
  {
    var all := kinds + [kind];
    assert all[..|all|] == all;
    forall k {:trigger kinds[..k]} | 0 <= k <= |kinds|
      ensures Conservation.Closed(kinds[..k], human) <= Conservation.Asked(kinds[..k], human)
    {
      assert all[..k] == kinds[..k];
    }
  }

  lemma TrackedCounter(agent: Agent, kind: EventKind, human: HumanKind)
    ensures Counter(Tracked(agent, kind), human)
         == if kind.Requested? && kind.human == human then Counter(agent, human) + 1
            else if kind.Resolved? && kind.human == human then Less(Counter(agent, human))
            else Counter(agent, human)
  {
  }

  lemma InsertFaithful(s: State, added: Agent, id: RuntimeId, agent: AgentId, human: HumanKind)
    requires Faithful(s, agent, human) && added.live && added.approvals == 0 && added.questions == 0
    ensures Faithful(Record(WithAgent(s, s.nextAgent, added)
                              .(order := s.order + [s.nextAgent], nextAgent := s.nextAgent + 1),
                            Spawned(s.nextAgent, id, added.provider, added.contexts)), agent, human)
  {
    TellSnoc(s.trace, Spawned(s.nextAgent, id, added.provider, added.contexts), agent);
  }

  lemma BuryTask(s: State, id: AgentId, changed: Agent, agent: AgentId, human: HumanKind)
    requires Faithful(s, agent, human) && id in s.agents
    ensures Faithful(Buried(s, id, changed), agent, human)
  {
    TellSnoc(s.trace, Released(id), agent);
  }

  lemma ClearingEffect(s: State, e: Effect, agent: AgentId, human: HumanKind)
    requires Enabled(s, e) && (e.Cancel? || e.Fail?) && Faithful(s, agent, human)
    ensures Faithful(Apply(s, e), agent, human)
  {
    if e.Cancel? {
      CancelledStory(s, e.agent, agent);
    } else {
      FailedStory(s, e.agent, e.cause, agent);
    }
  }

  ghost predicate SameTask(s: State, t: State, agent: AgentId, human: HumanKind) {
    && t.nextAgent == s.nextAgent
    && (agent in t.agents ==> agent in s.agents && Counter(t.agents[agent], human) == Counter(s.agents[agent], human))
    && (agent in s.agents && s.agents[agent].live ==> agent in t.agents && t.agents[agent].live)
  }

  lemma SameStory(s: State, t: State, agent: AgentId, human: HumanKind)
    requires Faithful(s, agent, human) && Tell(t.trace, agent) == Tell(s.trace, agent)
    requires SameTask(s, t, agent, human)
    ensures Faithful(t, agent, human)
  {
  }

  lemma LaunchedShape(s: State, id: AgentId, agent: AgentId, human: HumanKind)
    requires id in s.agents && s.agents[id].queue != []
    ensures var t := Launched(Popped(s, id), id, s.agents[id].queue[0], QueuedRequest(s.nextRequest));
      SameTask(s, t, agent, human)
  {
  }

  lemma DispatchTask(s: State, id: AgentId, agent: AgentId, human: HumanKind)
    requires id in s.agents && s.agents[id].queue != [] && Faithful(s, agent, human)
    ensures Faithful(Apply(s, Dispatch(id)), agent, human)
  {
    DispatchStory(s, id, agent);
    LaunchedShape(s, id, agent, human);
    SameStory(s, Apply(s, Dispatch(id)), agent, human);
  }

  lemma AbandonTask(s: State, id: AgentId, agent: AgentId, human: HumanKind)
    requires id in s.agents && s.agents[id].queue != [] && Faithful(s, agent, human)
    ensures Faithful(Abandoned(Popped(s, id), id, s.agents[id].queue[0]), agent, human)
  {
    AbandonStory(s, id, agent);
  }

  /** An effect aside keeps the counters, and takes no agent whose task is live. */
  lemma AsideShape(s: State, e: Effect, agent: AgentId, human: HumanKind)
    requires Enabled(s, e) && IsAside(e)
    ensures SameTask(s, Apply(s, e), agent, human)
  {
  }

  lemma AsideEffect(s: State, e: Effect, agent: AgentId, human: HumanKind)
    requires Enabled(s, e) && IsAside(e) && Faithful(s, agent, human)
    ensures Faithful(Apply(s, e), agent, human)
  {
    AsideStory(s, e, agent);
    AsideShape(s, e, agent, human);
    SameStory(s, Apply(s, e), agent, human);
  }

  lemma EffectTask(s: State, e: Effect, agent: AgentId, human: HumanKind)
    requires Enabled(s, e) && Faithful(s, agent, human)
    ensures Faithful(Apply(s, e), agent, human)
  {
    if IsAside(e) {
      AsideEffect(s, e, agent, human);
    } else if e.Announce? {
      ObservedTask(s, e.agent, e.kind, agent, human);
    } else if e.Insert? {
      InsertFaithful(s, e.added, e.id, agent, human);
    } else if e.Bury? {
      BuryTask(s, e.agent, e.changed, agent, human);
    } else if e.Cancel? || e.Fail? {
      ClearingEffect(s, e, agent, human);
    } else if e.Dispatch? {
      DispatchTask(s, e.agent, agent, human);
    } else {
      AbandonTask(s, e.agent, agent, human);
    }
  }

  lemma StepFaithful(s: State, input: Input, ok: bool, agent: AgentId, human: HumanKind)
    requires Faithful(s, agent, human)
    ensures Faithful(Step(s, input, ok), agent, human)
  {
    assert Kept((t: State) => Faithful(t, agent, human)) by {
      forall t: State, e | Faithful(t, agent, human) && Enabled(t, e) ensures Faithful(Apply(t, e), agent, human) {
        EffectTask(t, e, agent, human);
      }
    }
    StepKeeps((t: State) => Faithful(t, agent, human), s, input, ok);
  }

  // ---------------------------------------------------------------------------
  // What one step publishes

  /** The event of the agent's provider that an input brings, if any. */
  function Brought(input: Input, agent: AgentId): seq<EventKind> {
    if input.FromRuntime? && input.event.ProviderEvent? && input.event.agent == agent then [input.event.kind] else []
  }

  ghost predicate Hears(s: State, agent: AgentId, heard: seq<EventKind>) {
    Tell(s.trace, agent).heard == heard && (agent < s.nextAgent || heard == [])
  }

  lemma InsideHears(s: State, e: Effect, agent: AgentId, heard: seq<EventKind>)
    requires Enabled(s, e) && (Inside(e) || Beside(e)) && Hears(s, agent, heard)
    ensures Hears(Apply(s, e), agent, heard)
  {
    if IsAside(e) {
      AsideStory(s, e, agent);
    } else if e.Insert? {
      TellSnoc(s.trace, Spawned(s.nextAgent, e.id, e.added.provider, e.added.contexts), agent);
    } else if e.Bury? {
      TellSnoc(s.trace, Released(e.agent), agent);
    } else if e.Cancel? {
      CancelledStory(s, e.agent, agent);
    } else if e.Fail? {
      FailedStory(s, e.agent, e.cause, agent);
    } else {
      QueueHears(s, e, agent, heard);
    }
  }

  lemma QueueHears(s: State, e: Effect, agent: AgentId, heard: seq<EventKind>)
    requires Enabled(s, e) && (e.Dispatch? || e.Abandon?) && Hears(s, agent, heard)
    ensures Hears(Apply(s, e), agent, heard)
  {
    if e.Dispatch? {
      DispatchStory(s, e.agent, agent);
    } else {
      AbandonStory(s, e.agent, agent);
    }
  }

  lemma HearsIsKept(agent: AgentId, heard: seq<EventKind>, b: Bounds)
    ensures KeptInside((s: State) => Hears(s, agent, heard), b)
    ensures KeptBeside((s: State) => Hears(s, agent, heard))
  {
    forall s: State, e | Hears(s, agent, heard) && Enabled(s, e) && (Inside(e) || Beside(e))
      ensures Hears(Apply(s, e), agent, heard)
    {
      InsideHears(s, e, agent, heard);
    }
  }

  lemma OtherEventHears(s: State, event: RuntimeEvent, ok: bool, agent: AgentId)
    requires Tabled(s, agent) && !event.ProviderEvent?
    ensures Tell(OnRuntime(s, event, ok).trace, agent).heard == Tell(s.trace, agent).heard + []
  {
    var heard := Tell(s.trace, agent).heard;
    var b := Bounds(DepartingOn(s, event), []);
    HearsIsKept(agent, heard, b);
    RuntimeKeeps((t: State) => Hears(t, agent, heard), b, s, event, ok);
  }

  lemma CallHears(s: State, publicId: string, call: Call, ok: bool, agent: AgentId)
    requires Tabled(s, agent)
    ensures Tell(OnCall(s, publicId, call, ok).trace, agent).heard == Tell(s.trace, agent).heard + []
  {
    var heard := Tell(s.trace, agent).heard;
    HearsIsKept(agent, heard, CallBounds(s, call));
    CallKeeps((t: State) => Hears(t, agent, heard), CallBounds(s, call), s, publicId, call, ok);
  }

  function Published(s: State, id: AgentId, kind: ProviderKind): State {
    Observed(Announced(Guarded(s, id, kind), id, kind), id, kind)
  }

  lemma PublishedStory(s: State, id: AgentId, kind: ProviderKind, agent: AgentId)
    ensures Tell(Published(s, id, kind).trace, agent).heard
         == Tell(s.trace, agent).heard + if id == agent && Tell(s.trace, agent).spawned then [kind] else []
    ensures Published(s, id, kind).nextAgent == s.nextAgent
  {
    var guarded := Guarded(s, id, kind);
    if guarded != s { SilentRecord(s, Warned({id}), agent); }
    AnnouncedStory(guarded, id, kind, agent);
  }

  lemma PublishHears(s: State, id: AgentId, kind: ProviderKind, ok: bool, agent: AgentId)
    requires Tabled(s, agent)
    ensures Tell(Publish(s, id, kind, ok).trace, agent).heard
         == Tell(s.trace, agent).heard + if id == agent && Tell(s.trace, agent).spawned then [kind] else []
  {
    PublishedStory(s, id, kind, agent);
    var t := Published(s, id, kind);
    var heard := Tell(t.trace, agent).heard;
    HearsIsKept(agent, heard, Bounds({}, []));
    FollowUpKeeps((u: State) => Hears(u, agent, heard), Bounds({}, []), t, id, kind, ok);
  }

  lemma RequestHears(s: State, input: Input, ok: bool, agent: AgentId)
    requires Tabled(s, agent) && s.running && input.Request?
    ensures Tell(Step(s, input, ok).trace, agent).heard == Tell(s.trace, agent).heard + []
  {
    CallHears(s, input.publicId, input.call, ok, agent);
  }

  lemma MarkStory(s: State, t: State, e: Effect, agent: AgentId)
    requires Enabled(s, e) && IsAside(e) && (t == s || t == Apply(s, e))
    ensures Tell(t.trace, agent) == Tell(s.trace, agent)
  {
    AsideStory(s, e, agent);
  }

  lemma LostHears(s: State, input: Input, ok: bool, agent: AgentId)
    requires Tabled(s, agent) && s.running && input.Lost?
    ensures Tell(Step(s, input, ok).trace, agent).heard == Tell(s.trace, agent).heard + []
  {
    MarkStory(s, Step(s, input, ok), if s.mode.Embedded? then Stop else Close, agent);
  }

  lemma ClientHears(s: State, input: Input, ok: bool, agent: AgentId)
    requires Tabled(s, agent) && s.running && !input.FromRuntime?
    ensures Tell(Step(s, input, ok).trace, agent).heard == Tell(s.trace, agent).heard + []
  {
    match input
    case Connected(generation) =>
      MarkStory(s, Step(s, input, ok), if generation > s.generation then Open(generation) else Stop, agent);
    case Initialized(_) =>
      MarkStory(s, Step(s, input, ok), if s.phase.AwaitInitialized? then Finish else Stop, agent);
    case Lost(_) => LostHears(s, input, ok, agent);
    case Request(_, _, _) => RequestHears(s, input, ok, agent);
  }

  /** A step publishes the provider event it is given, and no other. */
  lemma StepHears(s: State, input: Input, ok: bool, agent: AgentId)
    requires Tabled(s, agent) && s.running
    ensures Tell(Step(s, input, ok).trace, agent).heard
         == Tell(s.trace, agent).heard + if Tell(s.trace, agent).spawned then Brought(input, agent) else []
  {
    if !input.FromRuntime? {
      ClientHears(s, input, ok, agent);
    } else {
      var event := input.event;
      assert Step(s, input, ok) == OnRuntime(s, event, ok);
      if event.ProviderEvent? {
        PublishHears(s, event.agent, event.kind, ok, agent);
      } else {
        OtherEventHears(s, event, ok, agent);
      }
    }
  }

  // ---------------------------------------------------------------------------
  // What no request or event can do to the connection

  ghost predicate OnLine(s: State, connected: bool, generation: nat, ready: bool, mode: Mode) {
    s.connected == connected && s.generation == generation && s.phase.Ready? == ready && s.mode == mode
  }

  lemma OnLineIsKept(connected: bool, generation: nat, ready: bool, mode: Mode, b: Bounds)
    ensures KeptInside((s: State) => OnLine(s, connected, generation, ready, mode), b)
    ensures KeptBeside((s: State) => OnLine(s, connected, generation, ready, mode))
  {
    forall s: State, e | OnLine(s, connected, generation, ready, mode) && Enabled(s, e) && (Inside(e) || Beside(e))
      ensures OnLine(Apply(s, e), connected, generation, ready, mode)
    {
      ApplyKeepsShape(s, e);
    }
  }

  /** Requests and runtime events neither connect nor disconnect, and do not complete a handshake. */
  lemma StepOnLine(s: State, input: Input, ok: bool)
    requires input.Request? || input.FromRuntime?
    ensures OnLine(Step(s, input, ok), s.connected, s.generation, s.phase.Ready?, s.mode)
  {
    var p := (t: State) => OnLine(t, s.connected, s.generation, s.phase.Ready?, s.mode);
    var b := if input.Request? then CallBounds(s, input.call) else Bounds(DepartingOn(s, input.event), []);
    OnLineIsKept(s.connected, s.generation, s.phase.Ready?, s.mode, b);
    if input.Request? {
      CallKeeps(p, b, s, input.publicId, input.call, ok);
    } else if input.event.ProviderEvent? {
      var id, kind := input.event.agent, input.event.kind;
      GuardKeeps(p, s, id, kind);
      ApplyKeepsShape(Guarded(s, id, kind), Announce(id, kind));
      FollowUpKeeps(p, b, Published(s, id, kind), id, kind, ok);
    } else {
      RuntimeKeeps(p, b, s, input.event, ok);
    }
  }

  // ---------------------------------------------------------------------------
  // What a step adds to the trace

  ghost predicate Grown(s: State, trace: seq<Action>) {
    trace <= s.trace
  }

  lemma FailedGrown(s: State, id: AgentId, cause: Cause)
    requires id in s.agents
    ensures s.trace <= Cancelled(s, id).trace
    ensures s.trace <= FailedWith(s, id, cause).trace
  {
    var cancelled := Cancelled(s, id);
    var severed := WithAgent(cancelled, id, Severed(cancelled.agents[id]));
    assert cancelled.trace <= Announced(severed, id, BrokerError(cause)).trace;
  }

  lemma MajorGrown(s: State, e: Effect)
    requires Enabled(s, e) && IsMajor(e)
    ensures s.trace <= Apply(s, e).trace
  {
    if e.Cancel? || e.Fail? {
      FailedGrown(s, e.agent, if e.Fail? then e.cause else RuntimeFailed);
    } else if e.Abandon? {
      var t := Record(Popped(s, e.agent), Undelivered(e.agent, s.agents[e.agent].queue[0]));
      FailedGrown(t, e.agent, ChannelUnavailable);
      assert s.trace <= t.trace;
    }
  }

  lemma LocalGrown(s: State, e: Effect)
    requires Enabled(s, e) && IsLocal(e)
    ensures s.trace <= Apply(s, e).trace
  {
  }

  lemma EffectGrown(s: State, e: Effect)
    requires Enabled(s, e)
    ensures s.trace <= Apply(s, e).trace
  {
    if IsMajor(e) {
      MajorGrown(s, e);
    } else if IsLocal(e) {
      LocalGrown(s, e);
    }
  }

  lemma GrownIsKept(trace: seq<Action>)
    ensures Kept((s: State) => Grown(s, trace))
  {
    forall s: State, e | Grown(s, trace) && Enabled(s, e) ensures Grown(Apply(s, e), trace) {
      EffectGrown(s, e);
    }
  }

  lemma StepGrows(s: State, input: Input, ok: bool)
    ensures s.trace <= Step(s, input, ok).trace
  {
    GrownIsKept(s.trace);
    StepKeeps((t: State) => Grown(t, s.trace), s, input, ok);
  }

  /** Losing the client warns every agent of the table. */
  lemma LossWarns(s: State, ok: bool, agent: AgentId)
    requires s.running && s.mode.Durable? && agent in s.agents
    ensures var t := Step(s, Lost(s.generation), ok);
      |t.trace| > |s.trace| && t.trace[|t.trace| - 1].Warned? && agent in t.trace[|t.trace| - 1].agents
  {
  }

  /** A human request that no client sees warns its agent. */
  lemma RequestWarns(s: State, agent: AgentId, kind: ProviderKind, ok: bool)
    requires s.running && s.mode.Durable? && !s.phase.Ready? && kind.Requested? && agent in s.agents
    ensures s.trace + [Warned({agent})] <= Step(s, FromRuntime(ProviderEvent(agent, kind)), ok).trace
  {
  }
}
