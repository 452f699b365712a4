/**
 * The broker as a state machine: every client input and every runtime event is a
 * composition of a few atomic effects on the broker's state.
 */
module BrokerSteps {
  import opened Options
  import opened Utf8
  import opened Protocol
  import opened Replay

  const MaxQueuedPrompts: nat := 32
  const MaxContextItems: nat := 256
  const MaxContextBytes: nat := 512 * 1024

  datatype Mode = Embedded | Durable
  datatype Phase = AwaitInitialize | AwaitInitialized | Ready

  datatype AgentState =
    | Starting | Idle | Running | WaitingInput | WaitingApproval
    | Completed | Interrupted | Failed | Disconnected

  datatype Agent = Agent(
    provider: Provider,
    workspace: string,
    session: Option<string>,
    state: AgentState,
    turn: Option<string>,
    approvals: nat,
    questions: nat,
    contexts: seq<string>,
    queue: seq<Prompt>,
    options: string,
    live: bool)

  datatype Pending = Pending(generation: nat, publicId: string)

  /** What the broker does that can be seen from outside, in order. */
  datatype Action =
    | Opened(generation: nat)
    | Shut(generation: nat)
    | Logged(event: Event)
    | Delivered(generation: nat, event: Event)
    | Replied(generation: nat, publicId: string)
    | Forwarded(generation: nat, id: RuntimeId, publicId: string)
    | Answered(generation: nat, id: RuntimeId, publicId: string)
    | Accepted(agent: AgentId, prompt: Prompt)
    | Dispatched(agent: AgentId, id: RuntimeId, prompt: Prompt)
    | Undelivered(agent: AgentId, prompt: Prompt)
    | Commanded(agent: AgentId, command: Command)
    | Warned(agents: set<AgentId>)
    | Spawned(agent: AgentId, id: RuntimeId, provider: Provider, contexts: seq<string>)
    | Released(agent: AgentId)
    | Attached(agent: AgentId, context: string)
    | Gathered(agent: AgentId, contexts: seq<string>)
    | Dropped(agent: AgentId)

  datatype State = State(
    mode: Mode,
    capacity: nat,
    running: bool,
    phase: Phase,
    generation: nat,
    connected: bool,
    cursor: nat,
    agents: map<AgentId, Agent>,
    order: seq<AgentId>,
    nextAgent: AgentId,
    log: seq<Event>,
    nextRequest: nat,
    pending: map<RuntimeId, Pending>,
    queued: set<RuntimeId>,
    trace: seq<Action>)

  // ---------------------------------------------------------------------------
  // Atomic effects

  datatype Effect =
    | Open(generation: nat)
    | Close
    | Begin(cursor: nat)
    | Finish
    | Announce(agent: AgentId, kind: EventKind)
    | Alter(agent: AgentId, changed: Agent)
    | Attach(agent: AgentId, context: string)
    | Gather(agent: AgentId, changed: Agent, contexts: seq<string>)
    | Drop(agent: AgentId)
    | Accept(agent: AgentId, prompt: Prompt)
    | Dispatch(agent: AgentId)
    | Abandon(agent: AgentId)
    | Cancel(agent: AgentId)
    | Fail(agent: AgentId, cause: Cause)
    | Allocate(publicId: string)
    | Settle(id: RuntimeId)
    | Unqueue(id: RuntimeId)
    | Insert(added: Agent, id: RuntimeId)
    | Bury(agent: AgentId, changed: Agent)
    | Remove(agents: set<AgentId>)
    | Note(action: Action)
    | Stop

  predicate Routine(action: Action) {
    action.Replied? || action.Commanded? || action.Warned?
  }

  /** Neither the queue, nor the counters, nor the contexts, nor the task changed. */
  predicate Resembles(agent: Agent, changed: Agent) {
    && changed.contexts == agent.contexts
    && changed.queue == agent.queue && changed.live == agent.live
    && changed.approvals == agent.approvals && changed.questions == agent.questions
    && (changed.state == agent.state || !IsWaiting(changed.state))
  }

  predicate IsWaiting(state: AgentState) {
    state.WaitingApproval? || state.WaitingInput?
  }

  /** The effects that change agents one at a time. */
  predicate IsLocal(e: Effect) {
    e.Alter? || e.Attach? || e.Gather? || e.Drop? || e.Accept? || e.Insert? || e.Bury? || e.Remove?
  }

  /** The effects that publish events or move queued prompts. */
  predicate IsMajor(e: Effect) {
    e.Announce? || e.Cancel? || e.Fail? || e.Dispatch? || e.Abandon?
  }

  /** When an effect can be applied. */
  predicate Enabled(s: State, e: Effect) {
    match e
    case Open(generation) => generation > s.generation
    case Begin(_) => s.phase.AwaitInitialize?
    case Finish => s.phase.AwaitInitialized?
    case Announce(_, kind) => !kind.Notice? && !kind.BrokerError?
    case Alter(agent, changed) => agent in s.agents && Resembles(s.agents[agent], changed)
    case Attach(agent, context) => agent in s.agents && ContextsFit(s.agents[agent].contexts + [context])
    case Gather(agent, changed, contexts) =>
      && agent in s.agents && Resembles(s.agents[agent].(contexts := []), changed)
      && s.agents[agent].contexts <= contexts && ContextsFit(contexts)
    case Drop(agent) => agent in s.agents
    case Accept(agent, prompt) =>
      && agent in s.agents && |s.agents[agent].queue| < MaxQueuedPrompts
      && HasGathered(s.trace, agent, prompt.contexts)
    case Dispatch(agent) => agent in s.agents && s.agents[agent].queue != []
    case Abandon(agent) => agent in s.agents && s.agents[agent].queue != []
    case Cancel(agent) => agent in s.agents
    case Fail(agent, cause) => agent in s.agents && !cause.ChannelUnavailable?
    case Insert(added, _) =>
      && added.queue == [] && added.live && added.state.Starting? && added.approvals == 0 && added.questions == 0
      && (s.mode.Embedded? ==> forall id :: id in s.agents ==> !s.agents[id].live)
    case Bury(agent, changed) =>
      agent in s.agents && changed.queue == s.agents[agent].queue && !changed.live
      && changed.state.Disconnected? && changed.contexts == []
    case Remove(agents) => forall id :: id in agents && id in s.agents ==> !s.agents[id].live
    case Note(action) =>
      && Routine(action)
      && (action.Commanded? ==>
            !action.command.ClientDisconnected? && CarriesGathered(s.trace, action.agent, action.command))
    case _ => true
  }

  /** The input about to be accepted has just taken the contexts. */
  predicate HasGathered(trace: seq<Action>, agent: AgentId, contexts: seq<string>) {
    trace != [] && trace[|trace| - 1] == Gathered(agent, contexts)
  }

  /** A client's prompt or steer goes out with the contexts it took, right after its request was made. */
  predicate CarriesGathered(trace: seq<Action>, agent: AgentId, command: Command) {
    command.SendPrompt? || command.SendSteer? ==>
      && trace != [] && trace[|trace| - 1].Forwarded? && trace[|trace| - 1].id == command.id
      && HasGathered(trace[..|trace| - 1], agent,
                     if command.SendPrompt? then command.prompt.contexts else command.contexts)
  }

  function EncodedSize(contexts: seq<string>): nat {
    2 + (if |contexts| > 0 then |contexts| - 1 else 0) + TotalBytes(contexts)
  }

  function TotalBytes(contexts: seq<string>): nat {
    if contexts == [] then 0 else TotalBytes(contexts[..|contexts| - 1]) + Bytes(contexts[|contexts| - 1])
  }

  predicate ContextsFit(contexts: seq<string>) {
    |contexts| <= MaxContextItems && EncodedSize(contexts) <= MaxContextBytes
  }

  function Record(s: State, action: Action): State {
    s.(trace := s.trace + [action])
  }

  /** Sends an event to the client when the connection is ready for events. */
  function Send(s: State, event: Event): State {
    if s.phase.Ready? && s.connected then Record(s, Delivered(s.generation, event)) else s
  }

  /** Assigns the next sequence to an event, keeps it for replay, and sends it. */
  function Announced(s: State, agent: AgentId, kind: EventKind): State {
    var event := Event(|s.log| + 1, agent, kind);
    Send(Record(s.(log := s.log + [event]), Logged(event)), event)
  }

  function Without(order: seq<AgentId>, gone: set<AgentId>): seq<AgentId> {
    if order == [] then []
    else (if order[0] in gone then [] else [order[0]]) + Without(order[1..], gone)
  }

  function Removed(s: State, gone: set<AgentId>): State {
    s.(agents := s.agents - gone, order := Without(s.order, gone))
  }

  /** The agent's task is gone: it stopped, or it was shut down. */
  function Buried(s: State, id: AgentId, changed: Agent): State {
    Record(WithAgent(s, id, changed), Released(id))
  }

  function Restored(agent: Agent): Agent {
    if agent.state.Disconnected? || agent.state.Failed? then agent
    else
      agent.(state :=
        if agent.approvals > 0 then WaitingApproval
        else if agent.questions > 0 then WaitingInput
        else if agent.turn.Some? then Running
        else Idle)
  }

  function Less(count: nat): nat {
    if count == 0 then 0 else count - 1
  }

  /** How an event changes its agent's summary. */
  function Tracked(agent: Agent, kind: EventKind): Agent {
    match kind
    case TurnStarted(turn) => agent.(state := Running, turn := turn)
    case TurnCompleted(interrupted) =>
      agent.(state := if interrupted then Interrupted else Completed, turn := None)
    case TurnFailed => agent.(state := Failed, turn := None)
    case Requested(Approval, _) => agent.(approvals := agent.approvals + 1, state := WaitingApproval)
    case Requested(Question, _) =>
      agent.(questions := agent.questions + 1,
             state := if agent.approvals == 0 then WaitingInput else agent.state)
    case Resolved(Approval, _) => Restored(agent.(approvals := Less(agent.approvals)))
    case Resolved(Question, _) => Restored(agent.(questions := Less(agent.questions)))
    case _ => agent
  }

  function Observed(s: State, agent: AgentId, kind: EventKind): State {
    if agent in s.agents then WithAgent(s, agent, Tracked(s.agents[agent], kind)) else s
  }

  function WithAgent(s: State, id: AgentId, agent: Agent): State {
    s.(agents := s.agents[id := agent])
  }

  function Cancelled(s: State, id: AgentId): State
    requires id in s.agents
  {
    var agent := s.agents[id];
    var cleared := WithAgent(s, id, agent.(queue := []));
    if agent.queue == [] then cleared else Announced(cleared, id, Notice(|agent.queue|))
  }

  function Severed(agent: Agent): Agent {
    agent.(state := Disconnected, turn := None, approvals := 0, questions := 0, contexts := [])
  }

  function FailedWith(s: State, id: AgentId, cause: Cause): State
    requires id in s.agents
  {
    var cancelled := Cancelled(s, id);
    Announced(WithAgent(cancelled, id, Severed(cancelled.agents[id])), id, BrokerError(cause))
  }

  /** The first queued prompt is taken and given the next request number. */
  function Popped(s: State, id: AgentId): State
    requires id in s.agents && s.agents[id].queue != []
  {
    WithAgent(s, id, s.agents[id].(queue := s.agents[id].queue[1..])).(nextRequest := s.nextRequest + 1)
  }

  function Launched(s: State, id: AgentId, prompt: Prompt, request: RuntimeId): State
    requires id in s.agents
  {
    Record(Record(WithAgent(s, id, s.agents[id].(state := Running, options := prompt.options))
                    .(queued := s.queued + {request}),
                  Dispatched(id, request, prompt)),
           Commanded(id, SendPrompt(request, prompt)))
  }

  function Abandoned(s: State, id: AgentId, prompt: Prompt): State
    requires id in s.agents
  {
    FailedWith(Record(s, Undelivered(id, prompt)), id, ChannelUnavailable)
  }

  function WithPrompt(s: State, id: AgentId, prompt: Prompt): State
    requires id in s.agents
  {
    Record(WithAgent(s, id, s.agents[id].(queue := s.agents[id].queue + [prompt])), Accepted(id, prompt))
  }

  /** A context waits for the next input. */
  function WithContext(s: State, id: AgentId, context: string): State
    requires id in s.agents
  {
    Record(WithAgent(s, id, s.agents[id].(contexts := s.agents[id].contexts + [context])), Attached(id, context))
  }

  /** An input takes the contexts that wait, with its own. */
  function Gathering(s: State, id: AgentId, changed: Agent, contexts: seq<string>): State {
    Record(WithAgent(s, id, changed), Gathered(id, contexts))
  }

  /** The command channel is gone, and the contexts with it. */
  function ContextsDropped(s: State, id: AgentId): State
    requires id in s.agents
  {
    Record(WithAgent(s, id, s.agents[id].(state := Disconnected, contexts := [])), Dropped(id))
  }

  /** Remembers which client request a runtime request belongs to. */
  function Allocated(s: State, publicId: string): State {
    Record(s.(nextRequest := s.nextRequest + 1,
              pending := s.pending[NextId(s) := Pending(s.generation, publicId)]),
           Forwarded(s.generation, NextId(s), publicId))
  }

  /** Forgets a runtime request, answering the client that is still waiting for it. */
  function Settled(s: State, id: RuntimeId): State {
    if id !in s.pending then s
    else
      var settled := s.(pending := s.pending - {id});
      if s.pending[id].generation == s.generation && s.connected
      then Record(settled, Answered(s.generation, id, s.pending[id].publicId))
      else settled
  }

  function Deliveries(generation: nat, events: seq<Event>): (sent: seq<Action>)
    ensures |sent| == |events|
  {
    seq(|events|, i requires 0 <= i < |events| => Delivered(generation, events[i]))
  }

  /** The replay that `initialized` starts with. */
  function Replayed(s: State): seq<Event> {
    if s.mode.Durable? && InWindow(s.log, s.capacity, s.cursor) then After(s.log, s.cursor) else []
  }

  function Apply(s: State, e: Effect): State
    requires Enabled(s, e)
  {
    match e
    case Open(generation) =>
      Record(s.(generation := generation, phase := AwaitInitialize, cursor := 0, connected := true),
             Opened(generation))
    case Close =>
      Record(Record(s.(connected := false, phase := AwaitInitialize, cursor := 0,
                       pending := map id | id in s.pending && s.pending[id].generation != s.generation
                                    :: s.pending[id]),
                    Shut(s.generation)),
             Warned(s.agents.Keys))
    case Begin(cursor) => s.(phase := AwaitInitialized, cursor := cursor)
    case Finish =>
      s.(phase := Ready,
         trace := s.trace + if s.connected then Deliveries(s.generation, Replayed(s)) else [])
    case Announce(agent, kind) => Observed(Announced(s, agent, kind), agent, kind)
    case Alter(agent, changed) => WithAgent(s, agent, changed)
    case Attach(agent, context) => WithContext(s, agent, context)
    case Gather(agent, changed, contexts) => Gathering(s, agent, changed, contexts)
    case Drop(agent) => ContextsDropped(s, agent)
    case Accept(agent, prompt) => WithPrompt(s, agent, prompt)
    case Dispatch(agent) => Launched(Popped(s, agent), agent, s.agents[agent].queue[0], QueuedRequest(s.nextRequest))
    case Abandon(agent) => Abandoned(Popped(s, agent), agent, s.agents[agent].queue[0])
    case Cancel(agent) => Cancelled(s, agent)
    case Fail(agent, cause) => FailedWith(s, agent, cause)
    case Allocate(publicId) => Allocated(s, publicId)
    case Settle(id) => Settled(s, id)
    case Unqueue(id) => s.(queued := s.queued - {id})
    case Insert(added, id) =>
      Record(WithAgent(s, s.nextAgent, added).(order := s.order + [s.nextAgent], nextAgent := s.nextAgent + 1),
             Spawned(s.nextAgent, id, added.provider, added.contexts))
    case Bury(agent, changed) => Buried(s, agent, changed)
    case Remove(agents) => Removed(s, agents)
    case Note(action) => Record(s, action)
    case Stop => s.(running := false)
  }

  function NextId(s: State): RuntimeId {
    BrokerRequest(s.generation, s.nextRequest)
  }

  // ---------------------------------------------------------------------------
  // Runtime events

  function CancelAny(s: State, agent: AgentId): State {
    if agent in s.agents then Cancelled(s, agent) else s
  }

  function FailAny(s: State, agent: AgentId, cause: Cause): State
    requires !cause.ChannelUnavailable?
  {
    if agent in s.agents then FailedWith(s, agent, cause) else s
  }

  function DispatchNext(s: State, agent: AgentId, ok: bool): State {
    if agent !in s.agents || s.agents[agent].queue == [] then s
    else
      var prompt := s.agents[agent].queue[0];
      if ok then Launched(Popped(s, agent), agent, prompt, QueuedRequest(s.nextRequest))
      else Abandoned(Popped(s, agent), agent, prompt)
  }

  /** Human requests that no client can see are answered by a disconnection notice. */
  function Guarded(s: State, agent: AgentId, kind: EventKind): State {
    if s.mode.Durable? && !s.phase.Ready? && kind.Requested? && agent in s.agents
    then Record(s, Warned({agent})) else s
  }

  predicate ReadyForNext(s: State, agent: AgentId) {
    && agent in s.agents
    && s.agents[agent].state.Completed?
    && s.agents[agent].approvals == 0
    && s.agents[agent].questions == 0
  }

  /** The end of a turn starts the next queued prompt or cancels the queue. */
  function FollowUp(s: State, agent: AgentId, kind: ProviderKind, ok: bool): State {
    if kind.TurnCompleted? then
      if ReadyForNext(s, agent) then DispatchNext(s, agent, ok) else CancelAny(s, agent)
    else if kind.TurnFailed? then CancelAny(s, agent)
    else s
  }

  function Publish(s: State, agent: AgentId, kind: ProviderKind, ok: bool): State {
    FollowUp(Observed(Announced(Guarded(s, agent, kind), agent, kind), agent, kind), agent, kind, ok)
  }

  /** Older records of the session that has just been opened again. */
  function Stale(s: State, agent: AgentId, session: string): set<AgentId> {
    set other | other in s.agents && other != agent && agent in s.agents
                && !s.agents[other].live && s.agents[other].state.Disconnected?
                && s.agents[other].provider == s.agents[agent].provider
                && s.agents[other].session == Some(session)
  }

  function OnStarted(s: State, id: RuntimeId, agent: AgentId, session: string): State {
    var t := Removed(s, Stale(s, agent, session));
    if agent !in t.agents then t
    else Settled(WithAgent(t, agent, t.agents[agent].(session := Some(session), state := Idle)), id)
  }

  function Condemned(s: State, agent: AgentId, ok: bool): State {
    var t := CancelAny(s, agent);
    if agent !in t.agents then t
    else
      var u := WithAgent(t, agent, t.agents[agent].(state := Failed, turn := None));
      if ok then Record(u, Commanded(agent, Shutdown)) else u
  }

  function OnRequestFailed(s: State, id: RuntimeId, agent: AgentId, failAgent: bool, ok: bool): State {
    if id in s.queued then FailAny(s.(queued := s.queued - {id}), agent, QueuedPromptFailed)
    else Settled(if failAgent then Condemned(s, agent, ok) else s, id)
  }

  function Ended(agent: Agent): Agent {
    var idle := agent.(live := false, contexts := []);
    if agent.state.Disconnected? then idle else idle.(state := Disconnected, turn := None)
  }

  function OnStopped(s: State, agent: AgentId): State {
    var t := CancelAny(s, agent);
    if agent in t.agents then Buried(t, agent, Ended(t.agents[agent])) else t
  }

  function OnRuntime(s: State, event: RuntimeEvent, ok: bool): State {
    match event
    case Started(id, agent, session) => OnStarted(s, id, agent, session)
    case Response(id) => Settled(s.(queued := s.queued - {id}), id)
    case RequestFailed(id, agent, failAgent) => OnRequestFailed(s, id, agent, failAgent, ok)
    case ProviderEvent(agent, kind) => Publish(s, agent, kind, ok)
    case ProviderFailed(agent) => FailAny(s, agent, RuntimeFailed)
    case Stopped(agent) => OnStopped(s, agent)
  }

  // ---------------------------------------------------------------------------
  // Client requests

  datatype Call =
    | Initialize(valid: bool, lastSequence: Option<nat>)
    | Query
    | PromptAgent(agent: AgentId, text: string, contexts: seq<string>, options: Option<string>, queue: bool)
    | SteerAgent(agent: AgentId, text: string, contexts: seq<string>, options: Option<string>)
    | InterruptAgent(agent: AgentId)
    | RespondTo(agent: AgentId, human: HumanKind, action: ActionId, decision: string)
    | ReadHistory(agent: AgentId)
    | AddContext(agent: AgentId, context: string)
    | Launch(launch: LaunchSpec)
    | ForkAgent(agent: AgentId)
    | ArchiveAgent(agent: AgentId)
    | DeleteSession(provider: Provider, session: string, deleted: bool)
    | ShutdownBroker

  /** A launch whose workspace was resolved and allowed by the broker's policy. */
  datatype LaunchSpec = LaunchSpec(provider: Provider, workspace: string, options: string)

  function Reply(s: State, publicId: string): State {
    if s.connected then Record(s, Replied(s.generation, publicId)) else s
  }

  /** Hands a request to an agent's command channel; a closed channel answers at once. */
  function Forward(s: State, agent: AgentId, publicId: string, command: Command, dropContexts: bool, ok: bool): State
    requires agent in s.agents
  {
    var t := Allocated(s, publicId);
    if ok then Record(t, Commanded(agent, command))
    else if dropContexts then Settled(ContextsDropped(t, agent), NextId(s))
    else WithAgent(Settled(t, NextId(s)), agent, t.agents[agent].(state := Disconnected))
  }

  predicate Busy(state: AgentState) {
    state.Running? || state.WaitingInput? || state.WaitingApproval?
  }

  predicate Resting(state: AgentState) {
    state.Idle? || state.Completed? || state.Interrupted?
  }

  function OnPrompt(s: State, publicId: string, call: Call, ok: bool): State
    requires call.PromptAgent?
  {
    if call.text == "" || call.agent !in s.agents then Reply(s, publicId)
    else
      var agent := s.agents[call.agent];
      var options := if call.options.Some? then call.options.value else agent.options;
      var queueIt := call.queue && Busy(agent.state);
      var prompt := Prompt(call.text, agent.contexts + call.contexts, options);
      if !(queueIt || Resting(agent.state)) || (queueIt && |agent.queue| >= MaxQueuedPrompts)
         || !ContextsFit(prompt.contexts)
      then Reply(s, publicId)
      else if queueIt then
        Reply(WithPrompt(Gathering(s, call.agent, agent.(contexts := []), prompt.contexts), call.agent, prompt),
              publicId)
      else
        Forward(Gathering(s, call.agent, agent.(contexts := [], state := Running, options := options), prompt.contexts),
                call.agent, publicId, SendPrompt(NextId(s), prompt), false, ok)
  }

  function OnSteer(s: State, publicId: string, call: Call, ok: bool): State
    requires call.SteerAgent?
  {
    if call.text == "" || call.agent !in s.agents then Reply(s, publicId)
    else
      var agent := s.agents[call.agent];
      if (call.options.Some? && call.options.value != agent.options) || !agent.state.Running?
         || !ContextsFit(agent.contexts + call.contexts)
      then Reply(s, publicId)
      else
        Forward(Gathering(s, call.agent, agent.(contexts := []), agent.contexts + call.contexts),
                call.agent, publicId, SendSteer(NextId(s), call.text, agent.contexts + call.contexts), false, ok)
  }

  function OnInterrupt(s: State, publicId: string, agent: AgentId, ok: bool): State {
    var t := CancelAny(s, agent);
    if agent !in t.agents then Reply(t, publicId)
    else Forward(t, agent, publicId, Command.Interrupt(NextId(t)), false, ok)
  }

  function OnContext(s: State, publicId: string, id: AgentId, context: string): State {
    if id !in s.agents || !s.agents[id].live || s.agents[id].state.Disconnected?
       || !ContextsFit(s.agents[id].contexts + [context])
    then Reply(s, publicId)
    else
      Reply(WithContext(s, id, context), publicId)
  }

  predicate LaunchBlocked(s: State, workspace: string) {
    || (s.mode.Embedded? && exists id :: id in s.agents && s.agents[id].live)
    || (exists id :: id in s.agents && s.agents[id].live && !s.agents[id].state.Disconnected?
          && !s.agents[id].state.Failed? && s.agents[id].workspace == workspace)
  }

  function OnLaunch(s: State, publicId: string, launch: LaunchSpec, contexts: seq<string>): State {
    if LaunchBlocked(s, launch.workspace) then Reply(s, publicId)
    else
      var agent := Agent(launch.provider, launch.workspace, None, Starting, None, 0, 0, contexts, [],
                         launch.options, true);
      Record(WithAgent(Allocated(s, publicId), s.nextAgent, agent)
               .(order := s.order + [s.nextAgent], nextAgent := s.nextAgent + 1),
             Spawned(s.nextAgent, NextId(s), launch.provider, contexts))
  }

  function Retire(s: State, id: AgentId, ok: bool): State
    requires id in s.agents
  {
    var t := if ok then Record(s, Commanded(id, Shutdown)) else s;
    Buried(t, id, Severed(s.agents[id]).(live := false))
  }

  predicate CanFork(s: State, id: AgentId) {
    && id in s.agents && Resting(s.agents[id].state)
    && s.agents[id].approvals == 0 && s.agents[id].questions == 0 && s.agents[id].session.Some?
  }

  predicate CanArchive(s: State, id: AgentId) {
    id in s.agents && !HasWork(s.agents[id])
  }

  function OnFork(s: State, publicId: string, id: AgentId, ok: bool): State {
    if !CanFork(s, id) then Reply(s, publicId)
    else
      var source := s.agents[id];
      OnLaunch(Retire(s, id, ok), publicId,
               LaunchSpec(source.provider, source.workspace, source.options), source.contexts)
  }

  function OnArchive(s: State, publicId: string, id: AgentId, ok: bool): State {
    if !CanArchive(s, id) then Reply(s, publicId)
    else
      var t := if s.agents[id].live then Retire(s, id, ok) else s;
      Reply(Removed(t, {id}), publicId)
  }

  /** The agents of one provider session, in the order of the table. */
  function OfSession(agents: map<AgentId, Agent>, order: seq<AgentId>, provider: Provider, session: string)
    : seq<AgentId>
  {
    if order == [] then []
    else
      (if Holds(agents, order[0], provider, session) then [order[0]] else [])
      + OfSession(agents, order[1..], provider, session)
  }

  predicate Holds(agents: map<AgentId, Agent>, id: AgentId, provider: Provider, session: string) {
    id in agents && agents[id].provider == provider && agents[id].session == Some(session)
  }

  predicate HasWork(agent: Agent) {
    agent.state.Starting? || Busy(agent.state) || agent.approvals > 0 || agent.questions > 0
  }

  predicate AnyHasWork(s: State, ids: seq<AgentId>) {
    exists i :: 0 <= i < |ids| && ids[i] in s.agents && HasWork(s.agents[ids[i]])
  }

  /** Shuts down, one after the other, the agents that still have a task. */
  function RetireAll(s: State, ids: seq<AgentId>, ok: bool): State
    decreases |ids|
  {
    if ids == [] then s
    else
      RetireAll(if ids[0] in s.agents && s.agents[ids[0]].live then Retire(s, ids[0], ok) else s, ids[1..], ok)
  }

  /** Deletes a provider's record of a session; `deleted` says whether the workspace was handed off
      and the provider agreed. */
  function OnDelete(s: State, publicId: string, provider: Provider, session: string, deleted: bool, ok: bool): State {
    var ids := OfSession(s.agents, s.order, provider, session);
    if AnyHasWork(s, ids) then Reply(s, publicId) else OnDeleted(s, publicId, ids, deleted, ok)
  }

  function OnDeleted(s: State, publicId: string, ids: seq<AgentId>, deleted: bool, ok: bool): State {
    var t := RetireAll(s, ids, ok);
    Reply(if deleted then Removed(t, set i | 0 <= i < |ids| :: ids[i]) else t, publicId)
  }

  function OnShutdown(s: State, publicId: string): State {
    var t := Reply(s, publicId);
    if s.mode.Durable? then t else t.(running := false)
  }

  function OnInitialize(s: State, publicId: string, valid: bool, lastSequence: Option<nat>): State
    requires s.phase.AwaitInitialize?
  {
    if !valid then Reply(s, publicId)
    else
      var cursor := if lastSequence.Some? then lastSequence.value else 0;
      var resync := s.mode.Durable? && !InWindow(s.log, s.capacity, cursor);
      Reply(Apply(s, Begin(if resync then |s.log| else cursor)), publicId)
  }

  /** Requests that become commands of an agent's runtime. */
  function OnCommand(s: State, publicId: string, call: Call, ok: bool): State {
    match call
    case PromptAgent(_, _, _, _, _) => OnPrompt(s, publicId, call, ok)
    case SteerAgent(_, _, _, _) => OnSteer(s, publicId, call, ok)
    case InterruptAgent(agent) => OnInterrupt(s, publicId, agent, ok)
    case RespondTo(agent, human, action, decision) =>
      if agent !in s.agents then Reply(s, publicId)
      else Forward(s, agent, publicId, Answer(NextId(s), human, action, decision), true, ok)
    case ReadHistory(agent) =>
      if agent !in s.agents || !s.agents[agent].live then Reply(s, publicId)
      else Forward(s, agent, publicId, History(NextId(s)), true, ok)
    case _ => Reply(s, publicId)
  }

  /** Requests about the agents themselves. */
  function OnLifecycle(s: State, publicId: string, call: Call, ok: bool): State {
    match call
    case AddContext(agent, context) => OnContext(s, publicId, agent, context)
    case Launch(launch) => OnLaunch(s, publicId, launch, [])
    case ForkAgent(agent) => OnFork(s, publicId, agent, ok)
    case ArchiveAgent(agent) => OnArchive(s, publicId, agent, ok)
    case DeleteSession(provider, session, deleted) => OnDelete(s, publicId, provider, session, deleted, ok)
    case ShutdownBroker => OnShutdown(s, publicId)
    case _ => Reply(s, publicId)
  }

  predicate IsCommand(call: Call) {
    call.PromptAgent? || call.SteerAgent? || call.InterruptAgent? || call.RespondTo? || call.ReadHistory?
  }

  function OnCall(s: State, publicId: string, call: Call, ok: bool): State {
    if s.phase.AwaitInitialize? && call.Initialize? then
      OnInitialize(s, publicId, call.valid, call.lastSequence)
    else if !s.phase.Ready? then Reply(s, publicId)
    else if IsCommand(call) then OnCommand(s, publicId, call, ok)
    else OnLifecycle(s, publicId, call, ok)
  }

  // ---------------------------------------------------------------------------
  // Inputs

  datatype Input =
    | Connected(generation: nat)
    | Initialized(generation: nat)
    | Request(generation: nat, publicId: string, call: Call)
    | Lost(generation: nat)
    | FromRuntime(event: RuntimeEvent)

  /** One turn of the broker's loop; `ok` says whether a command channel takes a command. */
  function Step(s: State, input: Input, ok: bool): State {
    if !s.running then s
    else
      match input
      case Connected(generation) =>
        if generation <= s.generation then s else Apply(s, Open(generation))
      case Initialized(generation) =>
        if generation != s.generation || !s.phase.AwaitInitialized? then s else Apply(s, Finish)
      case Request(generation, publicId, call) =>
        if generation != s.generation then s else OnCall(s, publicId, call, ok)
      case Lost(generation) =>
        if generation != s.generation then s
        else if s.mode.Embedded? then Apply(s, Stop) else Apply(s, Close)
      case FromRuntime(event) => OnRuntime(s, event, ok)
  }

  /** The agents that a step takes out of the table. */
  function Departing(s: State, input: Input): set<AgentId> {
    if input.FromRuntime? then DepartingOn(s, input.event)
    else if input.Request? && input.generation == s.generation && s.phase.Ready? then Leaving(s, input.call)
    else {}
  }

  function DepartingOn(s: State, event: RuntimeEvent): set<AgentId> {
    if event.Started? then Stale(s, event.agent, event.session) else {}
  }

  /** An inactive agent that is archived, or whose session is deleted, leaves the table. */
  function Leaving(s: State, call: Call): set<AgentId> {
    match call
    case ArchiveAgent(id) => if CanArchive(s, id) then {id} else {}
    case DeleteSession(provider, session, deleted) =>
      var ids := OfSession(s.agents, s.order, provider, session);
      if deleted && !AnyHasWork(s, ids) then set i | 0 <= i < |ids| :: ids[i] else {}
    case _ => {}
  }

  /** The contexts that a fork hands on to its successor. */
  function Carried(s: State, call: Call): seq<string> {
    if call.ForkAgent? && CanFork(s, call.agent) then s.agents[call.agent].contexts else []
  }

  datatype Turn = Turn(input: Input, ok: bool)

  function Run(s: State, turns: seq<Turn>): State {
    if turns == [] then s
    else
      var last := turns[|turns| - 1];
      Step(Run(s, turns[..|turns| - 1]), last.input, last.ok)
  }

  /** An agent restored from the registry: disconnected, without task, queue or request. */
  predicate IsRestored(agent: Agent) {
    && !agent.live && agent.queue == [] && agent.state.Disconnected?
    && agent.approvals == 0 && agent.questions == 0 && agent.contexts == []
  }

  /** A broker that has just started. */
  predicate Initial(s: State) {
    && s.capacity > 0 && s.running
    && s.phase.AwaitInitialize? && s.generation == 0 && !s.connected && s.cursor == 0
    && (forall id :: id in s.agents ==> id < s.nextAgent && IsRestored(s.agents[id]))
    && s.log == [] && s.nextRequest == 1 && s.pending == map[] && s.queued == {} && s.trace == []
  }
}
