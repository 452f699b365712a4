/**
 * A provider runtime: the task that owns one provider process, its human requests that wait
 * for an answer, and the events it publishes.
 */
module RuntimeSteps {
  import opened Options
  import opened Protocol

  /** What a provider may report: never a resolution, which only the runtime publishes. */
  type FrameKind = kind: EventKind | !kind.Notice? && !kind.BrokerError? && !kind.Resolved? witness OtherEvent

  /** One message of the provider; a request carries an identity and expects an answer. */
  datatype Frame = Frame(request: bool, kind: FrameKind)

  /** A frame that was read and still has to be published. */
  datatype Received = Received(number: nat, required: bool, kind: FrameKind)

  /** A human request that waits for its answer. */
  datatype Entry = Entry(human: HumanKind, frame: nat, required: bool)

  /** Traffic with the provider: frames read, and answers written with or without success. */
  datatype Act = Read(frame: nat, request: bool) | Wrote(frame: nat, ok: bool)

  datatype Stage = Opening | Looping | Over

  datatype Runtime = Runtime(
    provider: Provider,
    agent: AgentId,
    stage: Stage,
    active: bool,
    pending: map<ActionId, Entry>,
    nextAction: ActionId,
    nextFrame: nat,
    acts: seq<Act>,
    emitted: seq<RuntimeEvent>,
    strays: multiset<HumanKind>)

  /** What the runtime does not decide: which writes succeed, and in which order a map is listed. */
  datatype Oracle = Oracle(ok: nat -> bool, order: set<ActionId> -> seq<ActionId>)

  ghost predicate Lists(order: set<ActionId> -> seq<ActionId>) {
    forall keys, id {:trigger id in order(keys)} :: id in keys <==> id in order(keys)
  }

  function Emit(r: Runtime, event: RuntimeEvent): Runtime {
    r.(emitted := r.emitted + [event])
  }

  function Attempt(r: Runtime, frame: nat, ok: bool): Runtime {
    r.(acts := r.acts + [Wrote(frame, ok)])
  }

  function ReadFrame(r: Runtime, frame: Frame): Runtime {
    r.(acts := r.acts + [Read(r.nextFrame, frame.request)], nextFrame := r.nextFrame + 1)
  }

  predicate Terminal(kind: EventKind) {
    kind.TurnCompleted? || kind.TurnFailed?
  }

  // ---------------------------------------------------------------------------
  // Requests to the provider

  datatype Collected = Collected(r: Runtime, received: seq<Received>, ok: bool)

  /** Codex requests that arrive before a response are denied on the spot; a Claude worker's
      callbacks are kept for publication. */
  function Collect(r: Runtime, frames: seq<Frame>, got: seq<Received>, ok: nat -> bool): Collected
    decreases |frames|
  {
    if frames == [] then Collected(r, got, true)
    else
      var n := r.nextFrame;
      var read := ReadFrame(r, frames[0]);
      if r.provider.Codex? && frames[0].request then
        if ok(n) then Collect(Attempt(read, n, true), frames[1..], got + [Received(n, false, frames[0].kind)], ok)
        else Collected(Attempt(read, n, false), got, false)
      else Collect(read, frames[1..], got + [Received(n, frames[0].request, frames[0].kind)], ok)
  }

  // ---------------------------------------------------------------------------
  // Publication

  datatype Outcome = Outcome(r: Runtime, ok: bool, ended: bool)

  function Held(r: Runtime, frame: Received): Runtime
    requires frame.kind.Requested?
  {
    Emit(r.(pending := r.pending[r.nextAction := Entry(frame.kind.human, frame.number, true)],
            nextAction := r.nextAction + 1),
         ProviderEvent(r.agent, Requested(frame.kind.human, r.nextAction)))
  }

  /** A request that nobody can resolve any more is published all the same. */
  function Told(r: Runtime, kind: FrameKind): Runtime {
    var counted := if kind.Requested? then r.(strays := r.strays + multiset{kind.human}) else r;
    Emit(counted, ProviderEvent(r.agent, kind))
  }

  function Publish(r: Runtime, frame: Received, ok: nat -> bool): Outcome {
    if frame.required && frame.kind.Requested? then Outcome(Held(r, frame), true, false)
    else if frame.required && !ok(frame.number) then Outcome(Attempt(r, frame.number, false), false, false)
    else
      var denied := if frame.required then Attempt(r, frame.number, true) else r;
      Outcome(Told(denied, frame.kind), true, Terminal(frame.kind))
  }

  function PublishAll(r: Runtime, frames: seq<Received>, ended: bool, ok: nat -> bool): Outcome
    decreases |frames|
  {
    if frames == [] then Outcome(r, true, ended)
    else
      var first := Publish(r, frames[0], ok);
      if first.ok then PublishAll(first.r, frames[1..], ended || first.ended, ok) else first
  }

  // ---------------------------------------------------------------------------
  // Answers

  predicate Writable(entry: Entry, ok: nat -> bool) {
    entry.required && ok(entry.frame)
  }

  /** Removes a request whatever happens to its denial, and publishes the resolution. */
  function Deny(r: Runtime, id: ActionId, ok: nat -> bool): Runtime {
    if id !in r.pending then r
    else
      var entry := r.pending[id];
      var removed := r.(pending := r.pending - {id});
      var denied := if entry.required then Attempt(removed, entry.frame, ok(entry.frame)) else removed;
      Emit(denied, ProviderEvent(r.agent, Resolved(entry.human, id)))
  }

  datatype Denied = Denied(r: Runtime, failed: bool)

  function DenyAll(r: Runtime, ids: seq<ActionId>, failed: bool, ok: nat -> bool): Denied
    decreases |ids|
  {
    if ids == [] then Denied(r, failed)
    else
      DenyAll(Deny(r, ids[0], ok), ids[1..],
              failed || (ids[0] in r.pending && !Writable(r.pending[ids[0]], ok)), ok)
  }

  function DenyEvery(r: Runtime, o: Oracle): Denied {
    DenyAll(r, o.order(r.pending.Keys), false, o.ok)
  }

  function Reject(r: Runtime, id: RuntimeId): Runtime {
    Emit(r, RequestFailed(id, r.agent, false))
  }

  function FailRequest(r: Runtime, id: RuntimeId): Runtime {
    Emit(r, RequestFailed(id, r.agent, true))
  }

  /** A user's answer; `fits` says whether it is one the request can take. */
  function Respond(r: Runtime, id: RuntimeId, human: HumanKind, action: ActionId, fits: bool, ok: nat -> bool)
    : Runtime
  {
    if action !in r.pending || r.pending[action].human != human || !fits then Reject(r, id)
    else
      var entry := r.pending[action];
      if !entry.required then FailRequest(r, id)
      else if !ok(entry.frame) then FailRequest(Attempt(r, entry.frame, false), id)
      else
        Emit(Emit(Attempt(r, entry.frame, true).(pending := r.pending - {action}), Response(id)),
             ProviderEvent(r.agent, Resolved(human, action)))
  }

  // ---------------------------------------------------------------------------
  // The loop

  function Halted(r: Runtime): Runtime {
    Emit(r, Stopped(r.agent)).(stage := Over)
  }

  function Leave(r: Runtime, o: Oracle): Runtime {
    Halted(DenyEvery(r, o).r)
  }

  function Break(r: Runtime, o: Oracle): Runtime {
    Leave(Emit(r, ProviderFailed(r.agent)), o)
  }

  function Follow(r: Runtime, received: seq<Received>, o: Oracle): Runtime {
    var published := PublishAll(r, received, false, o.ok);
    if !published.ok then Break(published.r, o)
    else if published.ended then published.r.(active := false)
    else published.r
  }

  /** How the provider behaves while a request to it is open. */
  datatype Exchange = Exchange(frames: seq<Frame>, answered: bool, identity: Option<string>)

  datatype LoopTurn =
    | Take(command: Command, exchange: Exchange, encodes: bool, fits: bool)
    | Receive(frame: Frame)
    | StreamLost
    | Expire(ids: set<ActionId>)
    | CommandsClosed

  function OnPrompt(r: Runtime, id: RuntimeId, exchange: Exchange, encodes: bool, o: Oracle): Runtime {
    if r.active || !encodes then Reject(r, id)
    else
      var c := Collect(r, exchange.frames, [], o.ok);
      if !c.ok || !exchange.answered || (r.provider.Codex? && exchange.identity.None?) then FailRequest(c.r, id)
      else
        var begun := Emit(c.r, Response(id)).(active := true);
        var announced :=
          if r.provider.Claude? then Emit(begun, ProviderEvent(r.agent, TurnStarted(exchange.identity))) else begun;
        Follow(announced, c.received, o)
  }

  /** A steer or an interruption of the active turn. */
  function OnActive(r: Runtime, id: RuntimeId, exchange: Exchange, o: Oracle): Runtime {
    var c := Collect(r, exchange.frames, [], o.ok);
    if !c.ok || !exchange.answered then FailRequest(c.r, id)
    else Follow(Emit(c.r, Response(id)), c.received, o)
  }

  function OnInterrupt(r: Runtime, id: RuntimeId, exchange: Exchange, o: Oracle): Runtime {
    var denied := DenyEvery(r, o);
    if denied.failed then FailRequest(denied.r, id)
    else if !denied.r.active then Emit(denied.r, Response(id))
    else OnActive(denied.r, id, exchange, o)
  }

  /** Whatever arrives during a history request is dropped. */
  function OnHistory(r: Runtime, id: RuntimeId, exchange: Exchange, o: Oracle): Runtime {
    var c := Collect(r, exchange.frames, [], o.ok);
    if !c.ok || !exchange.answered then Reject(c.r, id) else Emit(c.r, Response(id))
  }

  function OnCommand(r: Runtime, command: Command, exchange: Exchange, encodes: bool, fits: bool, o: Oracle): Runtime {
    match command
    case SendPrompt(id, _) => OnPrompt(r, id, exchange, encodes, o)
    case SendSteer(id, _, _) => if !r.active || !encodes then Reject(r, id) else OnActive(r, id, exchange, o)
    case Interrupt(id) => OnInterrupt(r, id, exchange, o)
    case History(id) => OnHistory(r, id, exchange, o)
    case Answer(id, human, action, _) => Respond(r, id, human, action, fits, o.ok)
    case ClientDisconnected =>
      var denied := DenyEvery(r, o);
      if denied.failed then Break(denied.r, o) else denied.r
    case Shutdown => Leave(DenyEvery(r, o).r, o)
  }

  /** One turn of the runtime's loop. */
  function Perform(r: Runtime, turn: LoopTurn, o: Oracle): Runtime {
    if !r.stage.Looping? then r
    else
      match turn
      case Take(command, exchange, encodes, fits) => OnCommand(r, command, exchange, encodes, fits, o)
      case Receive(frame) =>
        if !r.active then r
        else Follow(ReadFrame(r, frame), [Received(r.nextFrame, frame.request, frame.kind)], o)
      case StreamLost => if !r.active then r else Break(r, o)
      case Expire(ids) =>
        var denied := DenyAll(r, o.order(ids * r.pending.Keys), false, o.ok);
        if denied.failed then Break(denied.r, o) else denied.r
      case CommandsClosed => Leave(r, o)
  }

  // ---------------------------------------------------------------------------
  // The start and the end of the task

  function HeldOf(pending: map<ActionId, Entry>, human: HumanKind): set<ActionId> {
    set id | id in pending && pending[id].human == human
  }

  function CountHeld(pending: map<ActionId, Entry>, human: HumanKind): nat {
    |HeldOf(pending, human)|
  }

  /** The requests still held are lost with the task. */
  function Abort(r: Runtime): Runtime {
    r.(stage := Over, pending := map[],
       strays := r.strays[Approval := r.strays[Approval] + CountHeld(r.pending, Approval)]
                         [Question := r.strays[Question] + CountHeld(r.pending, Question)])
  }

  function StartFailed(r: Runtime, id: RuntimeId): Runtime {
    Halted(FailRequest(r, id))
  }

  /** Opens the session; what arrives before the session is open is published after `Started`. */
  function Start(r: Runtime, id: RuntimeId, hello: Exchange, opening: Exchange, o: Oracle): Runtime {
    if !r.stage.Opening? then r
    else
      var greeted := Collect(r, hello.frames, [], o.ok);
      if !greeted.ok || !hello.answered || (r.provider.Claude? && hello.frames != []) then StartFailed(greeted.r, id)
      else
        var c := Collect(greeted.r, opening.frames, [], o.ok);
        if !c.ok || !opening.answered || opening.identity.None? then StartFailed(c.r, id)
        else
          var published :=
            PublishAll(Emit(c.r, Started(id, r.agent, opening.identity.value)), c.received, false, o.ok);
          if published.ok then published.r.(stage := Looping)
          else Abort(Halted(Emit(published.r, ProviderFailed(published.r.agent))))
  }

  function Spawn(provider: Provider, agent: AgentId): Runtime {
    Runtime(provider, agent, Opening, false, map[], 0, 0, [], [], multiset{})
  }

  datatype Timed = Timed(turn: LoopTurn, oracle: Oracle)

  function RunLoop(r: Runtime, turns: seq<Timed>): Runtime {
    if turns == [] then r
    else
      var last := turns[|turns| - 1];
      Perform(RunLoop(r, turns[..|turns| - 1]), last.turn, last.oracle)
  }
}
