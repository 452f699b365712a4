/** Published requests and resolutions balance the requests a runtime holds. */
module Conservation {
  import opened Options
  import opened Protocol
  import opened RuntimeSteps
  import opened RequestLedger

  // ---------------------------------------------------------------------------
  // Atomic effects of a runtime

  datatype Effect =
    | Traffic(acts: seq<Act>, nextFrame: nat)
    | Say(event: RuntimeEvent)
    | Hold(frame: Received)
    | Report(kind: FrameKind)
    | Withdraw(id: ActionId)
    | Turned(active: bool)
    | Enter
    | Halt
    | Lose

  /** Events that neither raise nor resolve a human request. */
  predicate IsPlain(event: RuntimeEvent) {
    event.ProviderEvent? ==> !event.kind.Requested? && !event.kind.Resolved?
  }

  predicate Enabled(r: Runtime, e: Effect) {
    match e
    case Say(event) => IsPlain(event) && !event.Stopped? && (event.ProviderEvent? ==> event.agent == r.agent)
    case Enter => r.stage.Opening?
    case Hold(frame) => frame.kind.Requested?
    case Withdraw(id) => id in r.pending
    case _ => true
  }

  function Apply(r: Runtime, e: Effect): Runtime
    requires Enabled(r, e)
  {
    match e
    case Traffic(acts, nextFrame) => r.(acts := acts, nextFrame := nextFrame)
    case Say(event) => Emit(r, event)
    case Hold(frame) => Held(r, frame)
    case Report(kind) => Told(r, kind)
    case Withdraw(id) =>
      Emit(r.(pending := r.pending - {id}), ProviderEvent(r.agent, Resolved(r.pending[id].human, id)))
    case Turned(active) => r.(active := active)
    case Enter => r.(stage := Looping)
    case Halt => Halted(r)
    case Lose => Abort(r)
  }

  ghost predicate Kept(p: Runtime -> bool) {
    forall r, e {:trigger Apply(r, e)} :: p(r) && Enabled(r, e) ==> p(Apply(r, e))
  }

  lemma EffectKeeps(p: Runtime -> bool, r: Runtime, e: Effect)
    requires Kept(p) && p(r) && Enabled(r, e)
    ensures p(Apply(r, e))
  {
  }

  lemma {:induction false} CollectKeeps(p: Runtime -> bool, r: Runtime, frames: seq<Frame>, got: seq<Received>,
                                        ok: nat -> bool)
    requires Kept(p) && p(r)
    ensures p(Collect(r, frames, got, ok).r)
    decreases |frames|
  {
    if frames != [] {
      var n := r.nextFrame;
      var read := ReadFrame(r, frames[0]);
      EffectKeeps(p, r, Traffic(read.acts, n + 1));
      if r.provider.Codex? && frames[0].request {
        EffectKeeps(p, read, Traffic(read.acts + [Wrote(n, ok(n))], n + 1));
        if ok(n) {
          CollectKeeps(p, Attempt(read, n, true), frames[1..], got + [Received(n, false, frames[0].kind)], ok);
        }
      } else {
        CollectKeeps(p, read, frames[1..], got + [Received(n, frames[0].request, frames[0].kind)], ok);
      }
    }
  }

  lemma PublishKeeps(p: Runtime -> bool, r: Runtime, frame: Received, ok: nat -> bool)
    requires Kept(p) && p(r)
    ensures p(Publish(r, frame, ok).r)
  {
    if frame.required && frame.kind.Requested? {
      EffectKeeps(p, r, Hold(frame));
    } else {
      var denied := if frame.required then Attempt(r, frame.number, ok(frame.number)) else r;
      EffectKeeps(p, r, Traffic(denied.acts, r.nextFrame));
      EffectKeeps(p, denied, Report(frame.kind));
    }
  }

  lemma {:induction false} PublishAllKeeps(p: Runtime -> bool, r: Runtime, frames: seq<Received>, ended: bool,
                                           ok: nat -> bool)
    requires Kept(p) && p(r)
    ensures p(PublishAll(r, frames, ended, ok).r)
    decreases |frames|
  {
    if frames != [] {
      PublishKeeps(p, r, frames[0], ok);
      var first := Publish(r, frames[0], ok);
      if first.ok { PublishAllKeeps(p, first.r, frames[1..], ended || first.ended, ok); }
    }
  }

  lemma DenyKeeps(p: Runtime -> bool, r: Runtime, id: ActionId, ok: nat -> bool)
    requires Kept(p) && p(r)
    ensures p(Deny(r, id, ok))
  {
    if id in r.pending {
      var entry := r.pending[id];
      var acts := if entry.required then r.acts + [Wrote(entry.frame, ok(entry.frame))] else r.acts;
      EffectKeeps(p, r, Traffic(acts, r.nextFrame));
      EffectKeeps(p, Apply(r, Traffic(acts, r.nextFrame)), Withdraw(id));
    }
  }

  lemma {:induction false} DenyAllKeeps(p: Runtime -> bool, r: Runtime, ids: seq<ActionId>, failed: bool,
                                        ok: nat -> bool)
    requires Kept(p) && p(r)
    ensures p(DenyAll(r, ids, failed, ok).r)
    decreases |ids|
  {
    if ids != [] {
      DenyKeeps(p, r, ids[0], ok);
      DenyAllKeeps(p, Deny(r, ids[0], ok), ids[1..],
                   failed || (ids[0] in r.pending && !Writable(r.pending[ids[0]], ok)), ok);
    }
  }

  lemma SayKeeps(p: Runtime -> bool, r: Runtime, event: RuntimeEvent)
    requires Kept(p) && p(r) && Enabled(r, Say(event))
    ensures p(Emit(r, event))
  {
    EffectKeeps(p, r, Say(event));
  }

  lemma RespondKeeps(p: Runtime -> bool, r: Runtime, id: RuntimeId, human: HumanKind, action: ActionId, fits: bool,
                     ok: nat -> bool)
    requires Kept(p) && p(r)
    ensures p(Respond(r, id, human, action, fits, ok))
  {
    SayKeeps(p, r, RequestFailed(id, r.agent, false));
    SayKeeps(p, r, RequestFailed(id, r.agent, true));
    if action in r.pending {
      var frame := r.pending[action].frame;
      var written := Apply(r, Traffic(r.acts + [Wrote(frame, ok(frame))], r.nextFrame));
      EffectKeeps(p, r, Traffic(r.acts + [Wrote(frame, ok(frame))], r.nextFrame));
      SayKeeps(p, written, RequestFailed(id, r.agent, true));
      SayKeeps(p, written, Response(id));
      EffectKeeps(p, Emit(written, Response(id)), Withdraw(action));
    }
  }

  lemma LeaveKeeps(p: Runtime -> bool, r: Runtime, o: Oracle)
    requires Kept(p) && p(r)
    ensures p(DenyEvery(r, o).r) && p(Leave(r, o)) && p(Break(r, o))
  {
    SayKeeps(p, r, ProviderFailed(r.agent));
    var failed := Emit(r, ProviderFailed(r.agent));
    DenyAllKeeps(p, r, o.order(r.pending.Keys), false, o.ok);
    DenyAllKeeps(p, failed, o.order(failed.pending.Keys), false, o.ok);
    EffectKeeps(p, DenyEvery(r, o).r, Halt);
    EffectKeeps(p, DenyEvery(failed, o).r, Halt);
  }

  lemma FollowKeeps(p: Runtime -> bool, r: Runtime, received: seq<Received>, o: Oracle)
    requires Kept(p) && p(r)
    ensures p(Follow(r, received, o))
  {
    PublishAllKeeps(p, r, received, false, o.ok);
    var out := PublishAll(r, received, false, o.ok);
    LeaveKeeps(p, out.r, o);
    EffectKeeps(p, out.r, Turned(false));
  }

  lemma ActiveKeeps(p: Runtime -> bool, r: Runtime, id: RuntimeId, exchange: Exchange, o: Oracle)
    requires Kept(p) && p(r)
    ensures p(OnActive(r, id, exchange, o))
  {
    CollectKeeps(p, r, exchange.frames, [], o.ok);
    var c := Collect(r, exchange.frames, [], o.ok);
    SayKeeps(p, c.r, RequestFailed(id, c.r.agent, true));
    SayKeeps(p, c.r, Response(id));
    FollowKeeps(p, Emit(c.r, Response(id)), c.received, o);
  }

  lemma {:induction false} CollectAgent(r: Runtime, frames: seq<Frame>, got: seq<Received>, ok: nat -> bool)
    ensures Collect(r, frames, got, ok).r.agent == r.agent
    ensures Collect(r, frames, got, ok).r.stage == r.stage
    decreases |frames|
  {
    if frames != [] {
      var n := r.nextFrame;
      var read := ReadFrame(r, frames[0]);
      CollectAgent(Attempt(read, n, true), frames[1..], got + [Received(n, false, frames[0].kind)], ok);
      CollectAgent(read, frames[1..], got + [Received(n, frames[0].request, frames[0].kind)], ok);
    }
  }

  lemma PromptKeeps(p: Runtime -> bool, r: Runtime, id: RuntimeId, exchange: Exchange, encodes: bool, o: Oracle)
    requires Kept(p) && p(r)
    ensures p(OnPrompt(r, id, exchange, encodes, o))
  {
    SayKeeps(p, r, RequestFailed(id, r.agent, false));
    CollectKeeps(p, r, exchange.frames, [], o.ok);
    CollectAgent(r, exchange.frames, [], o.ok);
    var c := Collect(r, exchange.frames, [], o.ok);
    SayKeeps(p, c.r, RequestFailed(id, c.r.agent, true));
    SayKeeps(p, c.r, Response(id));
    var begun := Emit(c.r, Response(id)).(active := true);
    EffectKeeps(p, Emit(c.r, Response(id)), Turned(true));
    SayKeeps(p, begun, ProviderEvent(r.agent, TurnStarted(exchange.identity)));
    FollowKeeps(p, begun, c.received, o);
    FollowKeeps(p, Emit(begun, ProviderEvent(r.agent, TurnStarted(exchange.identity))), c.received, o);
  }

  lemma InterruptKeeps(p: Runtime -> bool, r: Runtime, id: RuntimeId, exchange: Exchange, o: Oracle)
    requires Kept(p) && p(r)
    ensures p(OnInterrupt(r, id, exchange, o))
  {
    LeaveKeeps(p, r, o);
    var denied := DenyEvery(r, o).r;
    SayKeeps(p, denied, RequestFailed(id, denied.agent, true));
    SayKeeps(p, denied, Response(id));
    ActiveKeeps(p, denied, id, exchange, o);
  }

  lemma CommandKeeps(p: Runtime -> bool, r: Runtime, command: Command, exchange: Exchange, encodes: bool, fits: bool,
                     o: Oracle)
    requires Kept(p) && p(r)
    ensures p(OnCommand(r, command, exchange, encodes, fits, o))
  {
    match command
    case SendPrompt(id, _) => PromptKeeps(p, r, id, exchange, encodes, o);
    case SendSteer(id, _, _) =>
      SayKeeps(p, r, RequestFailed(id, r.agent, false));
      ActiveKeeps(p, r, id, exchange, o);
    case Interrupt(id) => InterruptKeeps(p, r, id, exchange, o);
    case History(id) =>
      CollectKeeps(p, r, exchange.frames, [], o.ok);
      var c := Collect(r, exchange.frames, [], o.ok);
      SayKeeps(p, c.r, RequestFailed(id, c.r.agent, false));
      SayKeeps(p, c.r, Response(id));
    case Answer(id, human, action, _) => RespondKeeps(p, r, id, human, action, fits, o.ok);
    case _ =>
      LeaveKeeps(p, r, o);
      LeaveKeeps(p, DenyEvery(r, o).r, o);
  }

  /** What every atomic effect keeps is kept by a turn of the runtime's loop. */
  lemma PerformKeeps(p: Runtime -> bool, r: Runtime, turn: LoopTurn, o: Oracle)
    requires Kept(p) && p(r)
    ensures p(Perform(r, turn, o))
  {
    match turn
    case Take(command, exchange, encodes, fits) => CommandKeeps(p, r, command, exchange, encodes, fits, o);
    case Receive(frame) =>
      var read := ReadFrame(r, frame);
      EffectKeeps(p, r, Traffic(read.acts, read.nextFrame));
      FollowKeeps(p, read, [Received(r.nextFrame, frame.request, frame.kind)], o);
    case Expire(ids) =>
      DenyAllKeeps(p, r, o.order(ids * r.pending.Keys), false, o.ok);
      LeaveKeeps(p, DenyAll(r, o.order(ids * r.pending.Keys), false, o.ok).r, o);
    case _ => LeaveKeeps(p, r, o);
  }

  lemma StartKeeps(p: Runtime -> bool, r: Runtime, id: RuntimeId, hello: Exchange, opening: Exchange, o: Oracle)
    requires Kept(p) && p(r)
    ensures p(Start(r, id, hello, opening, o))
  {
    CollectKeeps(p, r, hello.frames, [], o.ok);
    var greeted := Collect(r, hello.frames, [], o.ok).r;
    StartFailedKeeps(p, greeted, id);
    CollectKeeps(p, greeted, opening.frames, [], o.ok);
    var c := Collect(greeted, opening.frames, [], o.ok);
    StartFailedKeeps(p, c.r, id);
    if opening.identity.Some? {
      SayKeeps(p, c.r, Started(id, r.agent, opening.identity.value));
      var begun := Emit(c.r, Started(id, r.agent, opening.identity.value));
      PublishAllKeeps(p, begun, c.received, false, o.ok);
      var out := PublishAll(begun, c.received, false, o.ok).r;
      CollectAgent(r, hello.frames, [], o.ok);
      CollectAgent(greeted, opening.frames, [], o.ok);
      PublishAllStage(begun, c.received, false, o.ok);
      if r.stage.Opening? { EffectKeeps(p, out, Enter); }
      SayKeeps(p, out, ProviderFailed(out.agent));
      EffectKeeps(p, Emit(out, ProviderFailed(out.agent)), Halt);
      EffectKeeps(p, Halted(Emit(out, ProviderFailed(out.agent))), Lose);
    }
  }

  lemma StartFailedKeeps(p: Runtime -> bool, r: Runtime, id: RuntimeId)
    requires Kept(p) && p(r)
    ensures p(StartFailed(r, id))
  {
    SayKeeps(p, r, RequestFailed(id, r.agent, true));
    EffectKeeps(p, FailRequest(r, id), Halt);
  }

  // ---------------------------------------------------------------------------
  // The balance

  /** The kinds of one agent's provider events, in order. */
  function Kinds(events: seq<RuntimeEvent>, agent: AgentId): seq<EventKind> {
    if events == [] then []
    else
      var last := events[|events| - 1];
      Kinds(events[..|events| - 1], agent)
      + if last.ProviderEvent? && last.agent == agent then [last.kind] else []
  }

  function Asked(kinds: seq<EventKind>, human: HumanKind): nat {
    if kinds == [] then 0
    else
      var last := kinds[|kinds| - 1];
      Asked(kinds[..|kinds| - 1], human) + if last.Requested? && last.human == human then 1 else 0
  }

  function Closed(kinds: seq<EventKind>, human: HumanKind): nat {
    if kinds == [] then 0
    else
      var last := kinds[|kinds| - 1];
      Closed(kinds[..|kinds| - 1], human) + if last.Resolved? && last.human == human then 1 else 0
  }

  /** At no point were there more resolutions than requests. */
  ghost predicate Solvent(kinds: seq<EventKind>, human: HumanKind) {
    forall k {:trigger kinds[..k]} :: 0 <= k <= |kinds| ==> Closed(kinds[..k], human) <= Asked(kinds[..k], human)
  }

  lemma KindsSnoc(events: seq<RuntimeEvent>, event: RuntimeEvent, agent: AgentId)
    ensures Kinds(events + [event], agent)
         == Kinds(events, agent) + if event.ProviderEvent? && event.agent == agent then [event.kind] else []
  {
    assert (events + [event])[..|events|] == events;
  }

  lemma TallySnoc(kinds: seq<EventKind>, kind: EventKind, human: HumanKind)
    ensures Asked(kinds + [kind], human)
         == Asked(kinds, human) + if kind.Requested? && kind.human == human then 1 else 0
    ensures Closed(kinds + [kind], human)
         == Closed(kinds, human) + if kind.Resolved? && kind.human == human then 1 else 0
    ensures Solvent(kinds, human) && Closed(kinds + [kind], human) <= Asked(kinds + [kind], human)
        ==> Solvent(kinds + [kind], human)
  {
    assert (kinds + [kind])[..|kinds|] == kinds;
    if Solvent(kinds, human) && Closed(kinds + [kind], human) <= Asked(kinds + [kind], human) {
      forall k {:trigger (kinds + [kind])[..k]} | 0 <= k <= |kinds| + 1
        ensures Closed((kinds + [kind])[..k], human) <= Asked((kinds + [kind])[..k], human)
      {
        if k <= |kinds| {
          assert (kinds + [kind])[..k] == kinds[..k];
        } else {
          assert (kinds + [kind])[..k] == kinds + [kind];
        }
      }
    }
  }

  lemma HoldCount(pending: map<ActionId, Entry>, id: ActionId, entry: Entry, human: HumanKind)
    requires id !in pending
    ensures CountHeld(pending[id := entry], human)
         == CountHeld(pending, human) + if entry.human == human then 1 else 0
  {
    var before := HeldOf(pending, human);
    assert HeldOf(pending[id := entry], human) == if entry.human == human then before + {id} else before;
  }

  lemma WithdrawCount(pending: map<ActionId, Entry>, id: ActionId, human: HumanKind)
    requires id in pending
    ensures CountHeld(pending, human)
         == CountHeld(pending - {id}, human) + if pending[id].human == human then 1 else 0
  {
    var rest := pending - {id};
    assert rest[id := pending[id]] == pending;
    HoldCount(rest, id, pending[id], human);
  }

  /** Requests published so far are resolved, held, or strays. */
  ghost predicate Books(r: Runtime, human: HumanKind) {
    var kinds := Kinds(r.emitted, r.agent);
    && Solvent(kinds, human)
    && Asked(kinds, human) == Closed(kinds, human) + CountHeld(r.pending, human) + r.strays[human]
    && (forall id :: id in r.pending ==> id < r.nextAction)
  }

  lemma EmitBooks(r: Runtime, kind: ProviderKind, human: HumanKind)
    ensures var kinds := Kinds(r.emitted, r.agent);
      Kinds(Emit(r, ProviderEvent(r.agent, kind)).emitted, r.agent) == kinds + [kind]
    ensures var kinds := Kinds(r.emitted, r.agent);
      && Asked(kinds + [kind], human) == Asked(kinds, human) + (if kind.Requested? && kind.human == human then 1 else 0)
      && Closed(kinds + [kind], human)
         == Closed(kinds, human) + (if kind.Resolved? && kind.human == human then 1 else 0)
    ensures var kinds := Kinds(r.emitted, r.agent);
      Solvent(kinds, human) && Closed(kinds + [kind], human) <= Asked(kinds + [kind], human) ==>
        Solvent(kinds + [kind], human)
  {
    KindsSnoc(r.emitted, ProviderEvent(r.agent, kind), r.agent);
    TallySnoc(Kinds(r.emitted, r.agent), kind, human);
  }

  lemma SayBooks(r: Runtime, event: RuntimeEvent, human: HumanKind)
    requires Books(r, human) && IsPlain(event) && (event.ProviderEvent? ==> event.agent == r.agent)
    ensures Books(Emit(r, event), human)
  {
    KindsSnoc(r.emitted, event, r.agent);
    if event.ProviderEvent? {
      assert event == ProviderEvent(r.agent, event.kind);
      EmitBooks(r, event.kind, human);
    } else {
      assert Kinds(r.emitted, r.agent) + [] == Kinds(r.emitted, r.agent);
    }
  }

  lemma HoldBooks(r: Runtime, frame: Received, human: HumanKind)
    requires Books(r, human) && frame.kind.Requested?
    ensures Books(Held(r, frame), human)
  {
    assert r.nextAction !in r.pending;
    HoldCount(r.pending, r.nextAction, Entry(frame.kind.human, frame.number, true), human);
    EmitBooks(r, Requested(frame.kind.human, r.nextAction), human);
  }

  lemma WithdrawBooks(r: Runtime, id: ActionId, human: HumanKind)
    requires Books(r, human) && id in r.pending
    ensures Books(Apply(r, Withdraw(id)), human)
  {
    WithdrawCount(r.pending, id, human);
    EmitBooks(r, Resolved(r.pending[id].human, id), human);
  }

  lemma TellBooks(r: Runtime, kind: FrameKind, human: HumanKind)
    requires Books(r, human)
    ensures Books(Told(r, kind), human)
  {
    EmitBooks(r, kind, human);
  }

  lemma LoseBooks(r: Runtime, human: HumanKind)
    requires Books(r, human)
    ensures Books(Abort(r), human)
  {
    assert HeldOf(map[], human) == {};
  }

  lemma BooksAreKept(human: HumanKind)
    ensures Kept((r: Runtime) => Books(r, human))
  {
    forall r: Runtime, e | Books(r, human) && Enabled(r, e) ensures Books(Apply(r, e), human) {
      match e
      case Say(event) => SayBooks(r, event, human);
      case Hold(frame) => HoldBooks(r, frame, human);
      case Report(kind) => TellBooks(r, kind, human);
      case Halt => SayBooks(r, Stopped(r.agent), human);
      case Lose => LoseBooks(r, human);
      case Withdraw(id) => WithdrawBooks(r, id, human);
      case _ =>
    }
  }

  lemma {:induction false} RunBooks(r: Runtime, turns: seq<Timed>, human: HumanKind)
    requires Books(r, human)
    ensures Books(RunLoop(r, turns), human)
  {
    if turns != [] {
      var last := turns[|turns| - 1];
      RunBooks(r, turns[..|turns| - 1], human);
      BooksAreKept(human);
      PerformKeeps((t: Runtime) => Books(t, human), RunLoop(r, turns[..|turns| - 1]), last.turn, last.oracle);
    }
  }

  /** In every session, the human requests published are the ones resolved, the ones still held and
      the strays, and no prefix of the published events resolves more than it requested. */
  lemma RequestsAreConserved(provider: Provider, agent: AgentId, id: RuntimeId, hello: Exchange, opening: Exchange,
                             o: Oracle, turns: seq<Timed>, human: HumanKind)
    ensures Books(RunLoop(Start(Spawn(provider, agent), id, hello, opening, o), turns), human)
  {
    var spawned := Spawn(provider, agent);
    BooksAreKept(human);
    StartKeeps((t: Runtime) => Books(t, human), spawned, id, hello, opening, o);
    RunBooks(Start(spawned, id, hello, opening, o), turns, human);
  }
}
