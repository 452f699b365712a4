/** What a turn of a provider loop comes to: replies, publications, denials, and its end. */
module LoopOutcomes {
  import opened Protocol
  import opened RuntimeSteps
  import opened Answers

  // ---------------------------------------------------------------------------
  // What was published and replied

  /** The replies to one request of the broker, in order. */
  function Replies(events: seq<RuntimeEvent>, id: RuntimeId): seq<RuntimeEvent> {
    if events == [] then []
    else
      var last := events[|events| - 1];
      Replies(events[..|events| - 1], id)
      + if (last.Response? || last.RequestFailed?) && last.id == id then [last] else []
  }

  lemma RepliesSnoc(events: seq<RuntimeEvent>, event: RuntimeEvent, id: RuntimeId)
    ensures Replies(events + [event], id)
         == Replies(events, id) + if (event.Response? || event.RequestFailed?) && event.id == id then [event] else []
  {
    assert (events + [event])[..|events|] == events;
  }

  /** An event, whatever identity a request was published under. */
  function Bare(kind: EventKind): EventKind {
    if kind.Requested? then Requested(kind.human, 0) else kind
  }

  /** What the runtime told the broker about its provider, in order. */
  function Reported(events: seq<RuntimeEvent>, agent: AgentId): seq<EventKind> {
    if events == [] then []
    else
      var last := events[|events| - 1];
      Reported(events[..|events| - 1], agent)
      + if last.ProviderEvent? && last.agent == agent then [Bare(last.kind)] else []
  }

  lemma ReportedSnoc(events: seq<RuntimeEvent>, event: RuntimeEvent, agent: AgentId)
    ensures Reported(events + [event], agent)
         == Reported(events, agent) + if event.ProviderEvent? && event.agent == agent then [Bare(event.kind)] else []
  {
    assert (events + [event])[..|events|] == events;
  }

  /** `t` replied to nothing. */
  ghost predicate Silent(r: Runtime, t: Runtime) {
    && t.agent == r.agent && t.provider == r.provider
    && forall id {:trigger Replies(t.emitted, id)} :: Replies(t.emitted, id) == Replies(r.emitted, id)
  }

  ghost predicate Adds(r: Runtime, t: Runtime, reported: seq<EventKind>) {
    Silent(r, t) && Reported(t.emitted, r.agent) == Reported(r.emitted, r.agent) + reported
  }

  lemma SaysOne(r: Runtime, kind: ProviderKind)
    ensures Adds(r, Emit(r, ProviderEvent(r.agent, kind)), [Bare(kind)])
  {
    ReportedSnoc(r.emitted, ProviderEvent(r.agent, kind), r.agent);
    SaysSilently(r, ProviderEvent(r.agent, kind));
  }

  lemma SaysSilently(r: Runtime, event: RuntimeEvent)
    requires !event.Response? && !event.RequestFailed?
    ensures Silent(r, Emit(r, event))
  {
    forall id: RuntimeId {:trigger Replies(r.emitted, id)}
      ensures Replies(r.emitted + [event], id) == Replies(r.emitted, id)
    {
      RepliesSnoc(r.emitted, event, id);
    }
  }

  lemma AddsMore(r: Runtime, t: Runtime, u: Runtime, first: seq<EventKind>, rest: seq<EventKind>)
    requires Adds(r, t, first) && Adds(t, u, rest)
    ensures Adds(r, u, first + rest)
  {
    assert Reported(r.emitted, r.agent) + first + rest == Reported(r.emitted, r.agent) + (first + rest);
  }

  // ---------------------------------------------------------------------------
  // Reading

  /** Every denial that reading these frames calls for can be written. */
  predicate Readable(r: Runtime, frames: seq<Frame>, ok: nat -> bool) {
    r.provider.Codex? ==> forall i :: 0 <= i < |frames| && frames[i].request ==> ok(r.nextFrame + i)
  }

  /** The frames read one after the other; a Codex server's requests are denied already. */
  function Arrivals(r: Runtime, frames: seq<Frame>): (received: seq<Received>)
    ensures |received| == |frames|
  {
    seq(|frames|, i requires 0 <= i < |frames| =>
      Received(r.nextFrame + i, frames[i].request && r.provider.Claude?, frames[i].kind))
  }

  lemma ReadableMore(r: Runtime, next: Runtime, frames: seq<Frame>, ok: nat -> bool)
    requires frames != [] && next.provider == r.provider && next.nextFrame == r.nextFrame + 1
    ensures Readable(r, frames, ok)
       <==> (r.provider.Codex? && frames[0].request ==> ok(r.nextFrame)) && Readable(next, frames[1..], ok)
  {
    assert forall i :: 0 <= i < |frames[1..]| ==> frames[1..][i] == frames[i + 1];
    assert forall i :: 0 < i < |frames| ==> frames[i] == frames[1..][i - 1];
  }

  lemma ArrivalsMore(r: Runtime, next: Runtime, frames: seq<Frame>, got: seq<Received>, first: Received)
    requires frames != [] && next.provider == r.provider && next.nextFrame == r.nextFrame + 1
    requires first == Received(r.nextFrame, frames[0].request && r.provider.Claude?, frames[0].kind)
    ensures got + [first] + Arrivals(next, frames[1..]) == got + Arrivals(r, frames)
  {
  }

  lemma {:induction false} CollectReads(r: Runtime, frames: seq<Frame>, got: seq<Received>, ok: nat -> bool)
    ensures var c := Collect(r, frames, got, ok);
      && c.r == r.(acts := c.r.acts, nextFrame := c.r.nextFrame)
      && (c.ok <==> Readable(r, frames, ok))
      && (c.ok ==> c.received == got + Arrivals(r, frames) && c.r.nextFrame == r.nextFrame + |frames|)
      && r.acts <= c.r.acts
    decreases |frames|
  {
    var c := Collect(r, frames, got, ok);
    if frames == [] {
      assert got + Arrivals(r, frames) == got;
    } else {
      var n, read := r.nextFrame, ReadFrame(r, frames[0]);
      var required := frames[0].request && r.provider.Claude?;
      var denied := r.provider.Codex? && frames[0].request;
      var first := Received(n, required, frames[0].kind);
      var next := if denied then Attempt(read, n, ok(n)) else read;
      CollectReads(next, frames[1..], got + [first], ok);
      ReadableMore(r, next, frames, ok);
      ArrivalsMore(r, next, frames, got, first);
    }
  }

  // ---------------------------------------------------------------------------
  // Publishing

  /** Every request that is no question to a human can be denied. */
  predicate Publishable(received: seq<Received>, ok: nat -> bool) {
    forall i :: 0 <= i < |received| && received[i].required && !received[i].kind.Requested? ==> ok(received[i].number)
  }

  predicate BringsEnd(received: seq<Received>) {
    exists i :: 0 <= i < |received| && !(received[i].required && received[i].kind.Requested?)
                && Terminal(received[i].kind)
  }

  function KindsOf(received: seq<Received>): (kinds: seq<EventKind>)
    ensures |kinds| == |received|
  {
    seq(|received|, i requires 0 <= i < |received| => Bare(received[i].kind))
  }

  lemma OneMore(frame: Received, rest: seq<Received>, ok: nat -> bool)
    ensures var received := [frame] + rest;
      && (Publishable(received, ok)
          <==> (frame.required && !frame.kind.Requested? ==> ok(frame.number)) && Publishable(rest, ok))
      && (BringsEnd(received)
          <==> (!(frame.required && frame.kind.Requested?) && Terminal(frame.kind)) || BringsEnd(rest))
      && KindsOf(received) == [Bare(frame.kind)] + KindsOf(rest)
  {
    var received := [frame] + rest;
    assert forall i :: 0 <= i < |rest| ==> rest[i] == received[i + 1];
    assert received[0] == frame;
  }

  /** Nothing held before was let go, and new requests have new identities. */
  ghost predicate Holds(r: Runtime, t: Runtime) {
    && t.nextAction >= r.nextAction
    && (forall a :: a in r.pending && a < r.nextAction ==> a in t.pending && t.pending[a] == r.pending[a])
    && (forall a :: a in t.pending && a !in r.pending ==> a >= r.nextAction)
  }

  /** The loop itself is where it was. */
  predicate StaysPut(r: Runtime, t: Runtime) {
    t.stage == r.stage && t.active == r.active && t.agent == r.agent && t.provider == r.provider
  }

  lemma PublishShows(r: Runtime, frame: Received, ok: nat -> bool)
    ensures var out := Publish(r, frame, ok);
      && (out.ok <==> (frame.required && !frame.kind.Requested? ==> ok(frame.number)))
      && (out.ok ==> Adds(r, out.r, [Bare(frame.kind)]))
      && (out.ok ==> (out.ended <==> !(frame.required && frame.kind.Requested?) && Terminal(frame.kind)))
      && StaysPut(r, out.r) && Holds(r, out.r)
  {
    if frame.required && frame.kind.Requested? {
      SaysOne(r, Requested(frame.kind.human, r.nextAction));
    } else {
      SaysOne(r, frame.kind);
    }
  }

  lemma {:induction false} PublishAllShows(r: Runtime, received: seq<Received>, ended: bool, ok: nat -> bool)
    ensures var out := PublishAll(r, received, ended, ok);
      && (out.ok <==> Publishable(received, ok))
      && (out.ok ==> Adds(r, out.r, KindsOf(received)) && (out.ended <==> ended || BringsEnd(received)))
      && StaysPut(r, out.r) && Holds(r, out.r)
    decreases |received|
  {
    if received == [] {
      assert Reported(r.emitted, r.agent) + [] == Reported(r.emitted, r.agent);
    } else {
      var frame, rest := received[0], received[1..];
      var first := Publish(r, frame, ok);
      assert received == [frame] + rest;
      OneMore(frame, rest, ok);
      PublishShows(r, frame, ok);
      if first.ok {
        PublishAllShows(first.r, rest, ended || first.ended, ok);
        if Publishable(rest, ok) {
          AddsMore(r, first.r, PublishAll(first.r, rest, ended || first.ended, ok).r, [Bare(frame.kind)],
                   KindsOf(rest));
        }
      }
    }
  }

  // ---------------------------------------------------------------------------
  // Denying

  /** The denial was attempted and the resolution reported. */
  ghost predicate IsDenied(r: Runtime, t: Runtime, a: ActionId, ok: nat -> bool)
    requires a in r.pending
  {
    && r.acts <= t.acts && r.emitted <= t.emitted
    && ProviderEvent(r.agent, Resolved(r.pending[a].human, a)) in t.emitted[|r.emitted|..]
    && (r.pending[a].required ==> Wrote(r.pending[a].frame, ok(r.pending[a].frame)) in t.acts[|r.acts|..])
  }

  /** Exactly the listed requests were denied. */
  ghost predicate Denies(r: Runtime, t: Runtime, ids: seq<ActionId>, ok: nat -> bool) {
    && Silent(r, t) && StaysPut(r, t) && t.nextFrame == r.nextFrame && t.nextAction == r.nextAction
    && r.acts <= t.acts && r.emitted <= t.emitted
    && (forall a :: a in t.pending <==> a in r.pending && a !in ids)
    && (forall a :: a in t.pending ==> t.pending[a] == r.pending[a])
    && (forall a :: a in r.pending && a in ids ==> IsDenied(r, t, a, ok))
  }

  lemma DenyShows(r: Runtime, id: ActionId, ok: nat -> bool)
    ensures Denies(r, Deny(r, id, ok), [id], ok)
  {
    if id in r.pending {
      var t := Deny(r, id, ok);
      SaysSilently(r, ProviderEvent(r.agent, Resolved(r.pending[id].human, id)));
      assert t.emitted[|r.emitted|..] == [ProviderEvent(r.agent, Resolved(r.pending[id].human, id))];
      if r.pending[id].required {
        assert t.acts[|r.acts|..] == [Wrote(r.pending[id].frame, ok(r.pending[id].frame))];
      }
    }
  }

  lemma DeniedEarlier(r: Runtime, t: Runtime, u: Runtime, a: ActionId, ok: nat -> bool)
    requires a in r.pending && IsDenied(r, t, a, ok) && t.acts <= u.acts && t.emitted <= u.emitted
    ensures IsDenied(r, u, a, ok)
  {
    assert t.emitted[|r.emitted|..] <= u.emitted[|r.emitted|..];
    assert t.acts[|r.acts|..] <= u.acts[|r.acts|..];
  }

  lemma DeniedLater(r: Runtime, t: Runtime, u: Runtime, a: ActionId, ok: nat -> bool)
    requires a in r.pending && a in t.pending && t.pending[a] == r.pending[a] && t.agent == r.agent
    requires IsDenied(t, u, a, ok) && r.acts <= t.acts && r.emitted <= t.emitted
    ensures IsDenied(r, u, a, ok)
  {
    assert u.emitted[|r.emitted|..] == u.emitted[|r.emitted|..|t.emitted|] + u.emitted[|t.emitted|..];
    assert u.acts[|r.acts|..] == u.acts[|r.acts|..|t.acts|] + u.acts[|t.acts|..];
  }

  lemma DeniesMore(r: Runtime, t: Runtime, u: Runtime, first: ActionId, rest: seq<ActionId>, ok: nat -> bool)
    requires Denies(r, t, [first], ok) && Denies(t, u, rest, ok)
    ensures Denies(r, u, [first] + rest, ok)
  {
    var ids := [first] + rest;
    assert forall a :: a in ids <==> a == first || a in rest;
    forall a | a in r.pending && a in ids ensures IsDenied(r, u, a, ok) {
      if a == first {
        assert a in [first] && IsDenied(r, t, a, ok);
        DeniedEarlier(r, t, u, a, ok);
      } else {
        assert a in t.pending && IsDenied(t, u, a, ok);
        DeniedLater(r, t, u, a, ok);
      }
    }
  }

  /** Each listed request that is held can be denied. */
  predicate AllDeniable(r: Runtime, ids: seq<ActionId>, ok: nat -> bool) {
    forall a :: a in ids && a in r.pending ==> Writable(r.pending[a], ok)
  }

  lemma DeniableMore(r: Runtime, t: Runtime, first: ActionId, rest: seq<ActionId>, ok: nat -> bool)
    requires t.pending == r.pending - {first}
    ensures AllDeniable(r, [first] + rest, ok)
       <==> (first in r.pending ==> Writable(r.pending[first], ok)) && AllDeniable(t, rest, ok)
  {
    assert forall a :: a in [first] + rest <==> a == first || a in rest;
  }

  lemma FirstDenied(r: Runtime, first: ActionId, rest: seq<ActionId>, d: Denied, ok: nat -> bool)
    requires Denies(Deny(r, first, ok), d.r, rest, ok)
    ensures Denies(r, d.r, [first] + rest, ok)
    ensures AllDeniable(r, [first] + rest, ok)
       <==> (first in r.pending ==> Writable(r.pending[first], ok)) && AllDeniable(Deny(r, first, ok), rest, ok)
  {
    var next := Deny(r, first, ok);
    DenyShows(r, first, ok);
    DeniesMore(r, next, d.r, first, rest, ok);
    assert next.pending == r.pending - {first};
    DeniableMore(r, next, first, rest, ok);
  }

  lemma {:induction false} DenyAllShows(r: Runtime, ids: seq<ActionId>, failed: bool, ok: nat -> bool)
    ensures var d := DenyAll(r, ids, failed, ok);
      Denies(r, d.r, ids, ok) && (d.failed <==> failed || !AllDeniable(r, ids, ok))
    decreases |ids|
  {
    if ids != [] {
      var first, rest := ids[0], ids[1..];
      var lost := failed || (first in r.pending && !Writable(r.pending[first], ok));
      var d := DenyAll(Deny(r, first, ok), rest, lost, ok);
      DenyAllShows(Deny(r, first, ok), rest, lost, ok);
      assert DenyAll(r, ids, failed, ok) == d && ids == [first] + rest;
      FirstDenied(r, first, rest, d, ok);
    }
  }

  // ---------------------------------------------------------------------------
  // What a turn is asked to do, and whether it can

  predicate IsRequest(command: Command) {
    !command.ClientDisconnected? && !command.Shutdown?
  }

  /** Every held request among `ids` can be denied. */
  predicate Deniable(r: Runtime, ids: set<ActionId>, ok: nat -> bool) {
    forall a :: a in ids && a in r.pending ==> Writable(r.pending[a], ok)
  }

  /** The provider takes the request: its answer arrives, past frames that can all be read. */
  predicate Takes(r: Runtime, exchange: Exchange, ok: nat -> bool) {
    Readable(r, exchange.frames, ok) && exchange.answered
  }

  /** When the broker's request succeeds. */
  predicate Succeeds(r: Runtime, command: Command, exchange: Exchange, encodes: bool, fits: bool, ok: nat -> bool) {
    match command
    case SendPrompt(_, _) =>
      !r.active && encodes && Takes(r, exchange, ok) && (r.provider.Codex? ==> exchange.identity.Some?)
    case SendSteer(_, _, _) => r.active && encodes && Takes(r, exchange, ok)
    case Interrupt(_) => Deniable(r, r.pending.Keys, ok) && (r.active ==> Takes(r, exchange, ok))
    case History(_) => Takes(r, exchange, ok)
    case Answer(_, human, action, _) => IsMatch(r, human, action, fits) && Writable(r.pending[action], ok)
    case _ => false
  }

  /** When a request that does not succeed costs the agent: the provider was asked, and let the runtime down. */
  predicate CostsAgent(r: Runtime, command: Command, encodes: bool, fits: bool) {
    match command
    case SendPrompt(_, _) => !r.active && encodes
    case SendSteer(_, _, _) => r.active && encodes
    case Interrupt(_) => true
    case Answer(_, human, action, _) => IsMatch(r, human, action, fits)
    case _ => false
  }

  /** The frames that a turn publishes, unless it breaks off. */
  function Followed(r: Runtime, turn: LoopTurn, ok: nat -> bool): seq<Received> {
    match turn
    case Take(command, exchange, encodes, fits) =>
      if (command.SendPrompt? || command.SendSteer? || (command.Interrupt? && r.active))
         && Succeeds(r, command, exchange, encodes, fits, ok)
      then Arrivals(r, exchange.frames) else []
    case Receive(frame) => if r.active then [Received(r.nextFrame, frame.request, frame.kind)] else []
    case _ => []
  }

  /** When a turn is the loop's last. */
  predicate Ends(r: Runtime, turn: LoopTurn, ok: nat -> bool) {
    || !Publishable(Followed(r, turn, ok), ok)
    || (match turn
        case Take(command, _, _, _) =>
          command.Shutdown? || (command.ClientDisconnected? && !Deniable(r, r.pending.Keys, ok))
        case StreamLost => r.active
        case Expire(ids) => !Deniable(r, ids, ok)
        case CommandsClosed => true
        case Receive(_) => false)
  }

  /** What a turn makes of the provider's own turn. */
  predicate IsActive(r: Runtime, turn: LoopTurn, ok: nat -> bool) {
    && (r.active || (turn.Take? && turn.command.SendPrompt?
                     && Succeeds(r, turn.command, turn.exchange, turn.encodes, turn.fits, ok)))
    && !BringsEnd(Followed(r, turn, ok))
  }

  // ---------------------------------------------------------------------------
  // The parts of a turn

  lemma Ending(r: Runtime, o: Oracle)
    ensures Silent(r, Leave(r, o)) && Leave(r, o).stage.Over?
    ensures Silent(r, Break(r, o)) && Break(r, o).stage.Over?
  {
    LeavesSilently(r, o);
    var failed := Emit(r, ProviderFailed(r.agent));
    SaysSilently(r, ProviderFailed(r.agent));
    LeavesSilently(failed, o);
  }

  lemma LeavesSilently(r: Runtime, o: Oracle)
    ensures Silent(r, Leave(r, o)) && Leave(r, o).stage.Over?
  {
    DenyAllShows(r, o.order(r.pending.Keys), false, o.ok);
    var d := DenyEvery(r, o).r;
    SaysSilently(d, Stopped(d.agent));
  }

  lemma Following(r: Runtime, received: seq<Received>, o: Oracle)
    ensures var t := Follow(r, received, o);
      && Silent(r, t)
      && (t.stage.Over? <==> r.stage.Over? || !Publishable(received, o.ok))
      && (Publishable(received, o.ok) ==>
            Adds(r, t, KindsOf(received)) && Holds(r, t) && (t.active <==> r.active && !BringsEnd(received)))
  {
    PublishAllShows(r, received, false, o.ok);
    var published := PublishAll(r, received, false, o.ok);
    if !published.ok {
      PublishesSilently(r, received, false, o.ok);
      Ending(published.r, o);
    }
  }

  lemma {:induction false} PublishesSilently(r: Runtime, received: seq<Received>, ended: bool, ok: nat -> bool)
    ensures Silent(r, PublishAll(r, received, ended, ok).r)
    decreases |received|
  {
    if received != [] {
      var first := Publish(r, received[0], ok);
      PublishShows(r, received[0], ok);
      if first.ok { PublishesSilently(first.r, received[1..], ended || first.ended, ok); }
    }
  }

  /** `reply` was made to the request `id`, and nothing else was replied to. */
  ghost predicate Replied(r: Runtime, t: Runtime, id: RuntimeId, reply: RuntimeEvent) {
    forall other {:trigger Replies(t.emitted, other)} ::
      Replies(t.emitted, other) == Replies(r.emitted, other) + if other == id then [reply] else []
  }

  lemma RepliesOnce(r: Runtime, reply: RuntimeEvent)
    requires reply.Response? || reply.RequestFailed?
    ensures Replied(r, Emit(r, reply), reply.id, reply)
  {
    forall other: RuntimeId {:trigger Replies(r.emitted, other)}
      ensures Replies(r.emitted + [reply], other)
           == Replies(r.emitted, other) + if other == reply.id then [reply] else []
    {
      RepliesSnoc(r.emitted, reply, other);
    }
  }

  /** The provider is asked; what it sends meanwhile is followed if it answers. */
  lemma Asking(r: Runtime, exchange: Exchange, id: RuntimeId, o: Oracle)
    ensures var c := Collect(r, exchange.frames, [], o.ok);
      && c.r == r.(acts := c.r.acts, nextFrame := c.r.nextFrame)
      && (c.ok && exchange.answered <==> Takes(r, exchange, o.ok))
      && (c.ok ==> c.received == Arrivals(r, exchange.frames))
    ensures var c := Collect(r, exchange.frames, [], o.ok);
      forall failAgent :: Replied(r, Emit(c.r, RequestFailed(id, r.agent, failAgent)), id,
                                  RequestFailed(id, r.agent, failAgent))
    ensures var c := Collect(r, exchange.frames, [], o.ok);
      Replied(r, Emit(c.r, Response(id)), id, Response(id))
  {
    CollectReads(r, exchange.frames, [], o.ok);
    var c := Collect(r, exchange.frames, [], o.ok);
    assert [] + Arrivals(r, exchange.frames) == Arrivals(r, exchange.frames);
    RepliesOnce(c.r, Response(id));
    forall failAgent: bool
      ensures Replied(r, Emit(c.r, RequestFailed(id, r.agent, failAgent)), id, RequestFailed(id, r.agent, failAgent))
    {
      RepliesOnce(c.r, RequestFailed(id, r.agent, failAgent));
    }
  }

  /** What a successful request to the provider comes to. */
  ghost predicate Followup(r: Runtime, t: Runtime, begun: Runtime, received: seq<Received>, ok: nat -> bool) {
    && (t.stage.Over? <==> !Publishable(received, ok))
    && (Publishable(received, ok) ==>
          && Reported(t.emitted, r.agent) == Reported(begun.emitted, r.agent) + KindsOf(received)
          && Holds(r, t) && (t.active <==> begun.active && !BringsEnd(received)))
  }

  lemma FailureReportsNothing(r: Runtime, reply: RuntimeEvent)
    requires !reply.ProviderEvent?
    ensures Reported(r.emitted + [reply], r.agent) == Reported(r.emitted, r.agent)
  {
    ReportedSnoc(r.emitted, reply, r.agent);
  }

  lemma ActiveOutcome(r: Runtime, id: RuntimeId, exchange: Exchange, o: Oracle)
    requires r.stage.Looping?
    ensures var t, taken := OnActive(r, id, exchange, o), Takes(r, exchange, o.ok);
      && Replied(r, t, id, if taken then Response(id) else RequestFailed(id, r.agent, true))
      && (taken ==> Followup(r, t, r, Arrivals(r, exchange.frames), o.ok))
      && (!taken ==>
            && StaysPut(r, t) && t.pending == r.pending
            && Reported(t.emitted, r.agent) == Reported(r.emitted, r.agent))
  {
    Asking(r, exchange, id, o);
    var c := Collect(r, exchange.frames, [], o.ok);
    FailureReportsNothing(r, RequestFailed(id, r.agent, true));
    if Takes(r, exchange, o.ok) {
      var begun := Emit(c.r, Response(id));
      ReportedSnoc(r.emitted, Response(id), r.agent);
      assert Reported(r.emitted, r.agent) + [] == Reported(r.emitted, r.agent);
      Following(begun, c.received, o);
    }
  }

  /** A Claude turn is announced by the runtime. */
  function Announcing(r: Runtime, exchange: Exchange): Runtime {
    if r.provider.Claude? then Emit(r, ProviderEvent(r.agent, TurnStarted(exchange.identity))) else r
  }

  lemma TurnBegins(r: Runtime, c: Runtime, id: RuntimeId, exchange: Exchange, o: Oracle)
    requires r.stage.Looping? && c == r.(acts := c.acts, nextFrame := c.nextFrame)
    ensures var begun := Announcing(Emit(c, Response(id)).(active := true), exchange);
      var t := Follow(begun, Arrivals(r, exchange.frames), o);
      && Replied(r, t, id, Response(id))
      && Followup(r, t, Announcing(r, exchange).(active := true), Arrivals(r, exchange.frames), o.ok)
  {
    var begun := Emit(c, Response(id)).(active := true);
    RepliesOnce(c, Response(id));
    ReportedSnoc(r.emitted, Response(id), r.agent);
    assert Reported(r.emitted, r.agent) + [] == Reported(r.emitted, r.agent);
    SaysOne(begun, TurnStarted(exchange.identity));
    ReportedSnoc(r.emitted, ProviderEvent(r.agent, TurnStarted(exchange.identity)), r.agent);
    Following(Announcing(begun, exchange), Arrivals(r, exchange.frames), o);
  }

  lemma PromptOutcome(r: Runtime, id: RuntimeId, prompt: Prompt, exchange: Exchange, encodes: bool, fits: bool,
                      o: Oracle)
    requires r.stage.Looping?
    ensures var command := SendPrompt(id, prompt);
      var t, taken := OnPrompt(r, id, exchange, encodes, o), Succeeds(r, command, exchange, encodes, fits, o.ok);
      && Replied(r, t, id, if taken then Response(id)
                           else RequestFailed(id, r.agent, CostsAgent(r, command, encodes, fits)))
      && (taken ==> Followup(r, t, Announcing(r, exchange).(active := true), Arrivals(r, exchange.frames), o.ok))
      && (!taken ==>
            && StaysPut(r, t) && t.pending == r.pending
            && Reported(t.emitted, r.agent) == Reported(r.emitted, r.agent))
  {
    RepliesOnce(r, RequestFailed(id, r.agent, false));
    FailureReportsNothing(r, RequestFailed(id, r.agent, CostsAgent(r, SendPrompt(id, prompt), encodes, fits)));
    Asking(r, exchange, id, o);
    TurnBegins(r, Collect(r, exchange.frames, [], o.ok).r, id, exchange, o);
  }

  lemma EveryShows(r: Runtime, o: Oracle)
    requires Lists(o.order)
    ensures var d := DenyEvery(r, o);
      && Silent(r, d.r) && StaysPut(r, d.r) && d.r.nextFrame == r.nextFrame && d.r.nextAction == r.nextAction
      && d.r.pending == map[] && (d.failed <==> !Deniable(r, r.pending.Keys, o.ok))
      && (forall a :: a in r.pending ==> IsDenied(r, d.r, a, o.ok))
  {
    DenyAllShows(r, o.order(r.pending.Keys), false, o.ok);
    assert forall a :: a in r.pending ==> a in o.order(r.pending.Keys);
  }

  lemma InterruptOutcome(r: Runtime, id: RuntimeId, exchange: Exchange, encodes: bool, fits: bool, o: Oracle)
    requires r.stage.Looping? && Lists(o.order)
    ensures var t, taken := OnInterrupt(r, id, exchange, o),
                            Succeeds(r, Command.Interrupt(id), exchange, encodes, fits, o.ok);
      var denied := DenyEvery(r, o).r;
      && Replied(r, t, id, if taken then Response(id) else RequestFailed(id, r.agent, true))
      && (taken && r.active ==> Followup(denied, t, denied, Arrivals(r, exchange.frames), o.ok))
      && (!(taken && r.active) ==> StaysPut(r, t) && t.pending == map[])
  {
    EveryShows(r, o);
    var denied := DenyEvery(r, o);
    RepliesOnce(denied.r, RequestFailed(id, r.agent, true));
    RepliesOnce(denied.r, Response(id));
    if !denied.failed && r.active {
      ActiveOutcome(denied.r, id, exchange, o);
      assert Takes(denied.r, exchange, o.ok) <==> Takes(r, exchange, o.ok);
      assert Arrivals(denied.r, exchange.frames) == Arrivals(r, exchange.frames);
    }
  }

  lemma HistoryOutcome(r: Runtime, id: RuntimeId, exchange: Exchange, o: Oracle)
    ensures var t, taken := OnHistory(r, id, exchange, o), Takes(r, exchange, o.ok);
      && Replied(r, t, id, if taken then Response(id) else RequestFailed(id, r.agent, false))
      && StaysPut(r, t) && t.pending == r.pending
  {
    Asking(r, exchange, id, o);
  }

  lemma ReportsAnswer(r: Runtime, id: RuntimeId, human: HumanKind, action: ActionId)
    ensures var t := r.(emitted := r.emitted + [Response(id), ProviderEvent(r.agent, Resolved(human, action))]);
      Replied(r, t, id, Response(id))
  {
    var answered := Emit(r, Response(id));
    RepliesOnce(r, Response(id));
    SaysSilently(answered, ProviderEvent(r.agent, Resolved(human, action)));
    assert answered.emitted + [ProviderEvent(r.agent, Resolved(human, action))]
        == r.emitted + [Response(id), ProviderEvent(r.agent, Resolved(human, action))];
  }

  lemma AnswerOutcome(r: Runtime, id: RuntimeId, human: HumanKind, action: ActionId, decision: string,
                      exchange: Exchange, encodes: bool, fits: bool, o: Oracle)
    requires r.stage.Looping?
    ensures var command := Answer(id, human, action, decision);
      var t, taken := OnCommand(r, command, exchange, encodes, fits, o),
                      Succeeds(r, command, exchange, encodes, fits, o.ok);
      && Replied(r, t, id, if taken then Response(id)
                           else RequestFailed(id, r.agent, CostsAgent(r, command, encodes, fits)))
      && StaysPut(r, t) && t.pending == (if taken then r.pending - {action} else r.pending)
  {
    AnswersGetThroughIff(r, id, human, action, decision, exchange, encodes, fits, o);
    RepliesOnce(r, RequestFailed(id, r.agent, IsMatch(r, human, action, fits)));
    ReportsAnswer(r, id, human, action);
  }

  // ---------------------------------------------------------------------------
  // Theorems

  /** Every request of the broker is replied to exactly once: with a response exactly when it succeeds, and
      otherwise with a failure that says whether it costs the agent. */
  lemma RequestsAreAnsweredOnce(r: Runtime, command: Command, exchange: Exchange, encodes: bool, fits: bool, o: Oracle)
    requires r.stage.Looping? && Lists(o.order) && IsRequest(command)
    ensures Replied(r, Perform(r, Take(command, exchange, encodes, fits), o), command.id,
                    if Succeeds(r, command, exchange, encodes, fits, o.ok) then Response(command.id)
                    else RequestFailed(command.id, r.agent, CostsAgent(r, command, encodes, fits)))
  {
    match command
    case SendPrompt(id, prompt) => PromptOutcome(r, id, prompt, exchange, encodes, fits, o);
    case SendSteer(id, _, _) =>
      RepliesOnce(r, RequestFailed(id, r.agent, false));
      ActiveOutcome(r, id, exchange, o);
    case Interrupt(id) => InterruptOutcome(r, id, exchange, encodes, fits, o);
    case History(id) => HistoryOutcome(r, id, exchange, o);
    case Answer(id, human, action, decision) =>
      AnswerOutcome(r, id, human, action, decision, exchange, encodes, fits, o);
  }

  /** The turn ends the loop, or goes on as told and lets go of exactly the requests `gone`. */
  ghost predicate ComesTo(r: Runtime, t: Runtime, turn: LoopTurn, gone: set<ActionId>, ok: nat -> bool) {
    && (t.stage.Over? <==> Ends(r, turn, ok))
    && (!t.stage.Over? ==> (t.active <==> IsActive(r, turn, ok)) && Keeps(r, t, gone))
  }

  ghost predicate Keeps(r: Runtime, t: Runtime, gone: set<ActionId>) {
    && (forall a :: a in r.pending ==> (a in t.pending <==> a !in gone))
    && (forall a :: a in r.pending && a in t.pending ==> t.pending[a] == r.pending[a])
    && (forall a :: a in t.pending && a !in r.pending ==> a >= r.nextAction)
  }

  /** The held requests that a turn lets go. */
  function Gone(r: Runtime, turn: LoopTurn, ok: nat -> bool): set<ActionId> {
    match turn
    case Take(command, exchange, encodes, fits) =>
      if command.Interrupt? || command.ClientDisconnected? then r.pending.Keys
      else if command.Answer? && Succeeds(r, command, exchange, encodes, fits, ok) then {command.action}
      else {}
    case Expire(ids) => ids
    case _ => {}
  }

  ghost predicate Fresh(r: Runtime) {
    forall a :: a in r.pending ==> a < r.nextAction
  }

  lemma NothingFollows()
    ensures forall ok: nat -> bool :: Publishable([], ok)
    ensures !BringsEnd([])
  {
  }

  lemma RequestComesTo(r: Runtime, command: Command, exchange: Exchange, encodes: bool, fits: bool, o: Oracle)
    requires r.stage.Looping? && Lists(o.order) && IsRequest(command) && Fresh(r)
    ensures var turn := Take(command, exchange, encodes, fits);
      ComesTo(r, Perform(r, turn, o), turn, Gone(r, turn, o.ok), o.ok)
  {
    NothingFollows();
    match command
    case SendPrompt(id, prompt) => PromptOutcome(r, id, prompt, exchange, encodes, fits, o);
    case SendSteer(id, _, _) => ActiveOutcome(r, id, exchange, o);
    case Interrupt(id) => InterruptComesTo(r, id, exchange, encodes, fits, o);
    case History(id) => HistoryOutcome(r, id, exchange, o);
    case Answer(id, human, action, decision) =>
      AnswerOutcome(r, id, human, action, decision, exchange, encodes, fits, o);
  }

  lemma InterruptComesTo(r: Runtime, id: RuntimeId, exchange: Exchange, encodes: bool, fits: bool, o: Oracle)
    requires r.stage.Looping? && Lists(o.order) && Fresh(r)
    ensures var turn := Take(Command.Interrupt(id), exchange, encodes, fits);
      ComesTo(r, Perform(r, turn, o), turn, r.pending.Keys, o.ok)
  {
    NothingFollows();
    EveryShows(r, o);
    InterruptOutcome(r, id, exchange, encodes, fits, o);
  }

  lemma OtherComesTo(r: Runtime, turn: LoopTurn, o: Oracle)
    requires r.stage.Looping? && Lists(o.order) && Fresh(r) && !(turn.Take? && IsRequest(turn.command))
    ensures ComesTo(r, Perform(r, turn, o), turn, Gone(r, turn, o.ok), o.ok)
  {
    NothingFollows();
    match turn
    case Take(command, _, _, _) =>
      EveryShows(r, o);
      Ending(DenyEvery(r, o).r, o);
    case Receive(frame) =>
      Following(ReadFrame(r, frame), [Received(r.nextFrame, frame.request, frame.kind)], o);
    case StreamLost => Ending(r, o);
    case Expire(ids) => ExpireComesTo(r, ids, o);
    case CommandsClosed => Ending(r, o);
  }

  lemma ExpireComesTo(r: Runtime, ids: set<ActionId>, o: Oracle)
    requires r.stage.Looping? && Lists(o.order)
    ensures ComesTo(r, Perform(r, Expire(ids), o), Expire(ids), ids, o.ok)
  {
    NothingFollows();
    var listed := o.order(ids * r.pending.Keys);
    DenyAllShows(r, listed, false, o.ok);
    assert forall a :: a in listed <==> a in ids * r.pending.Keys;
    Ending(DenyAll(r, listed, false, o.ok).r, o);
  }

  /** What a turn of the loop comes to. The loop ends exactly when it is told to, when the provider is gone
      during a turn, or when a denial that had to be made could not be written; otherwise the provider's
      turn is open exactly if it was or was just begun and no end of it arrived, and exactly the requests
      answered, interrupted, expired or left without a client are let go. */
  lemma TurnsComeTo(r: Runtime, turn: LoopTurn, o: Oracle)
    requires r.stage.Looping? && Lists(o.order) && Fresh(r)
    ensures ComesTo(r, Perform(r, turn, o), turn, Gone(r, turn, o.ok), o.ok)
  {
    if turn.Take? && IsRequest(turn.command) {
      RequestComesTo(r, turn.command, turn.exchange, turn.encodes, turn.fits, o);
    } else {
      OtherComesTo(r, turn, o);
    }
  }

  /** What arrives during a prompt, a steer or a turn is reported in the order in which it arrived, and
      nothing else is; a Claude turn is announced first. */
  lemma ArrivalsAreReportedInOrder(r: Runtime, turn: LoopTurn, o: Oracle)
    requires r.stage.Looping? && Lists(o.order)
    requires turn.Receive? || (turn.Take? && (turn.command.SendPrompt? || turn.command.SendSteer?))
    requires !Ends(r, turn, o.ok)
    ensures var begins := turn.Take? && turn.command.SendPrompt? && r.provider.Claude?
                          && Succeeds(r, turn.command, turn.exchange, turn.encodes, turn.fits, o.ok);
      Reported(Perform(r, turn, o).emitted, r.agent)
      == Reported(r.emitted, r.agent)
         + (if begins then [TurnStarted(turn.exchange.identity)] else []) + KindsOf(Followed(r, turn, o.ok))
  {
    var before := Reported(r.emitted, r.agent);
    assert before + [] == before && before + [] + [] == before;
    match turn
    case Take(SendPrompt(id, prompt), exchange, encodes, fits) =>
      PromptOutcome(r, id, prompt, exchange, encodes, fits, o);
      ReportedSnoc(r.emitted, ProviderEvent(r.agent, TurnStarted(exchange.identity)), r.agent);
    case Take(SendSteer(id, _, _), exchange, _, _) =>
      ActiveOutcome(r, id, exchange, o);
      FailureReportsNothing(r, RequestFailed(id, r.agent, false));
    case Receive(frame) =>
      Following(ReadFrame(r, frame), [Received(r.nextFrame, frame.request, frame.kind)], o);
    case _ =>
  }

  // ---------------------------------------------------------------------------
  // Denials are made

  ghost predicate Grows(r: Runtime, t: Runtime) {
    r.acts <= t.acts && r.emitted <= t.emitted && t.agent == r.agent
  }

  lemma {:induction false} PublishingGrows(r: Runtime, received: seq<Received>, ended: bool, ok: nat -> bool)
    ensures Grows(r, PublishAll(r, received, ended, ok).r)
    decreases |received|
  {
    if received != [] {
      var first := Publish(r, received[0], ok);
      if first.ok { PublishingGrows(first.r, received[1..], ended || first.ended, ok); }
    }
  }

  lemma LeavingGrows(r: Runtime, o: Oracle)
    ensures Grows(r, Leave(r, o)) && Grows(r, Break(r, o))
  {
    DenyAllShows(r, o.order(r.pending.Keys), false, o.ok);
    var failed := Emit(r, ProviderFailed(r.agent));
    DenyAllShows(failed, o.order(failed.pending.Keys), false, o.ok);
  }

  lemma ActingGrows(r: Runtime, id: RuntimeId, exchange: Exchange, o: Oracle)
    ensures Grows(r, OnActive(r, id, exchange, o))
  {
    Asking(r, exchange, id, o);
    CollectReads(r, exchange.frames, [], o.ok);
    var begun := Emit(Collect(r, exchange.frames, [], o.ok).r, Response(id));
    var received := Collect(r, exchange.frames, [], o.ok).received;
    PublishingGrows(begun, received, false, o.ok);
    LeavingGrows(PublishAll(begun, received, false, o.ok).r, o);
  }

  lemma LeavingDenies(r: Runtime, o: Oracle, a: ActionId)
    requires Lists(o.order) && a in r.pending
    ensures IsDenied(r, Leave(r, o), a, o.ok) && IsDenied(r, Break(r, o), a, o.ok)
  {
    EveryShows(r, o);
    DeniedEarlier(r, DenyEvery(r, o).r, Leave(r, o), a, o.ok);
    var failed := Emit(r, ProviderFailed(r.agent));
    EveryShows(failed, o);
    DeniedEarlier(failed, DenyEvery(failed, o).r, Break(r, o), a, o.ok);
    DeniedLater(r, failed, Break(r, o), a, o.ok);
  }

  /** The turns that deny a held request, rather than leave it to a human. */
  predicate DeniesHeld(r: Runtime, turn: LoopTurn, a: ActionId) {
    match turn
    case Take(command, _, _, _) => command.Interrupt? || !IsRequest(command)
    case Receive(_) => false
    case StreamLost => r.active
    case Expire(ids) => a in ids
    case CommandsClosed => true
  }

  lemma InterruptDenies(r: Runtime, id: RuntimeId, exchange: Exchange, o: Oracle, a: ActionId)
    requires r.stage.Looping? && Lists(o.order) && a in r.pending
    ensures IsDenied(r, OnInterrupt(r, id, exchange, o), a, o.ok)
  {
    EveryShows(r, o);
    var denied := DenyEvery(r, o).r;
    ActingGrows(denied, id, exchange, o);
    DeniedEarlier(r, denied, OnInterrupt(r, id, exchange, o), a, o.ok);
  }

  lemma CommandDenies(r: Runtime, command: Command, exchange: Exchange, encodes: bool, fits: bool, o: Oracle,
                      a: ActionId)
    requires r.stage.Looping? && Lists(o.order) && a in r.pending && !IsRequest(command)
    ensures IsDenied(r, OnCommand(r, command, exchange, encodes, fits, o), a, o.ok)
  {
    EveryShows(r, o);
    var denied := DenyEvery(r, o).r;
    LeavingGrows(denied, o);
    DeniedEarlier(r, denied, OnCommand(r, command, exchange, encodes, fits, o), a, o.ok);
  }

  /** Whoever ends the wait for a human, an interruption, a deadline, a lost client, or the end of the loop,
      the provider is answered for: the denial of every request concerned is attempted, and its resolution
      is published. */
  lemma DenialsAreAttempted(r: Runtime, turn: LoopTurn, o: Oracle, a: ActionId)
    requires r.stage.Looping? && Lists(o.order) && a in r.pending && DeniesHeld(r, turn, a)
    ensures IsDenied(r, Perform(r, turn, o), a, o.ok)
  {
    match turn
    case Take(command, exchange, encodes, fits) =>
      if command.Interrupt? {
        InterruptDenies(r, command.id, exchange, o, a);
      } else {
        CommandDenies(r, command, exchange, encodes, fits, o, a);
      }
    case Expire(ids) =>
      var listed := o.order(ids * r.pending.Keys);
      DenyAllShows(r, listed, false, o.ok);
      assert a in listed;
      LeavingGrows(DenyAll(r, listed, false, o.ok).r, o);
      DeniedEarlier(r, DenyAll(r, listed, false, o.ok).r, Perform(r, turn, o), a, o.ok);
    case _ => LeavingDenies(r, o, a);
  }

  /** A request of the provider that is no question to a human. */
  predicate IsDeniedOnArrival(frame: Received) {
    frame.required && !frame.kind.Requested?
  }

  /** The denial of the frame was written since. */
  ghost predicate WasDenied(r: Runtime, t: Runtime, number: nat) {
    exists k :: |r.acts| <= k < |t.acts| && t.acts[k] == Wrote(number, true)
  }

  lemma {:induction false} PublishingDenies(r: Runtime, received: seq<Received>, ended: bool, ok: nat -> bool, i: nat)
    requires Publishable(received, ok) && i < |received| && IsDeniedOnArrival(received[i])
    ensures WasDenied(r, PublishAll(r, received, ended, ok).r, received[i].number)
    decreases |received|
  {
    var frame, rest := received[0], received[1..];
    var first := Publish(r, frame, ok);
    var t := PublishAll(first.r, rest, ended || first.ended, ok).r;
    assert received == [frame] + rest;
    OneMore(frame, rest, ok);
    assert PublishAll(r, received, ended, ok).r == t;
    PublishingGrows(first.r, rest, ended || first.ended, ok);
    if i == 0 {
      assert t.acts[|r.acts|] == first.r.acts[|r.acts|] == Wrote(frame.number, true);
    } else {
      PublishingDenies(first.r, rest, ended || first.ended, ok, i - 1);
      var k :| |first.r.acts| <= k < |t.acts| && t.acts[k] == Wrote(received[i].number, true);
    }
  }

  /** Requests that no human is asked about are denied as they arrive. */
  lemma ArrivalsAreDenied(r: Runtime, frame: Frame, o: Oracle)
    requires r.stage.Looping? && r.active && frame.request && !frame.kind.Requested? && o.ok(r.nextFrame)
    ensures WasDenied(r, Perform(r, Receive(frame), o), r.nextFrame)
  {
    var read, received := ReadFrame(r, frame), [Received(r.nextFrame, true, frame.kind)];
    PublishAllShows(read, received, false, o.ok);
    PublishingDenies(read, received, false, o.ok, 0);
    var t := PublishAll(read, received, false, o.ok).r;
    var k :| |read.acts| <= k < |t.acts| && t.acts[k] == Wrote(r.nextFrame, true);
    assert Perform(r, Receive(frame), o).acts[k] == Wrote(r.nextFrame, true);
  }

  // ---------------------------------------------------------------------------
  // The start

  /** The handshake with the provider succeeds; a Claude worker says nothing before it is greeted. */
  predicate Greets(r: Runtime, hello: Exchange, ok: nat -> bool) {
    Takes(r, hello, ok) && (r.provider.Claude? ==> hello.frames == [])
  }

  /** The provider opens the session and names it. */
  predicate Opens(r: Runtime, hello: Exchange, opening: Exchange, ok: nat -> bool) {
    var greeted := r.(nextFrame := r.nextFrame + |hello.frames|);
    Greets(r, hello, ok) && Takes(greeted, opening, ok) && opening.identity.Some?
  }

  lemma Refusing(r: Runtime, c: Runtime, id: RuntimeId)
    requires c == r.(acts := c.acts, nextFrame := c.nextFrame)
    ensures Replied(r, StartFailed(c, id), id, RequestFailed(id, r.agent, true))
  {
    var reply := RequestFailed(id, r.agent, true);
    RepliesOnce(c, reply);
    SaysSilently(Emit(c, reply), Stopped(r.agent));
  }

  /** The session is reported, and the loop entered if what arrived meanwhile can be published. */
  function Entered(r: Runtime, id: RuntimeId, session: string, received: seq<Received>, o: Oracle): Runtime {
    var published := PublishAll(Emit(r, Started(id, r.agent, session)), received, false, o.ok);
    if published.ok then published.r.(stage := Looping)
    else Abort(Halted(Emit(published.r, ProviderFailed(published.r.agent))))
  }

  /** What an opened session comes to. */
  ghost predicate IsOpen(r: Runtime, t: Runtime, id: RuntimeId, session: string, received: seq<Received>,
                         ok: nat -> bool)
  {
    && (t.stage.Looping? <==> Publishable(received, ok))
    && (!t.stage.Looping? ==> t.stage.Over?)
    && r.emitted + [Started(id, r.agent, session)] <= t.emitted
    && (t.stage.Looping? ==> Reported(t.emitted, r.agent) == Reported(r.emitted, r.agent) + KindsOf(received))
  }

  lemma SessionOpens(r: Runtime, c: Runtime, id: RuntimeId, session: string, received: seq<Received>, o: Oracle)
    requires c == r.(acts := c.acts, nextFrame := c.nextFrame) && r.stage.Opening?
    ensures IsOpen(r, Entered(c, id, session, received, o), id, session, received, o.ok)
  {
    var begun := Emit(c, Started(id, r.agent, session));
    PublishAllShows(begun, received, false, o.ok);
    PublishingGrows(begun, received, false, o.ok);
    ReportedSnoc(r.emitted, Started(id, r.agent, session), r.agent);
    assert Reported(r.emitted, r.agent) + [] == Reported(r.emitted, r.agent);
  }

  lemma OpeningAsks(r: Runtime, first: Runtime, id: RuntimeId, opening: Exchange, o: Oracle)
    requires first == r.(acts := first.acts, nextFrame := first.nextFrame)
    ensures var c := Collect(first, opening.frames, [], o.ok);
      && c.r == r.(acts := c.r.acts, nextFrame := c.r.nextFrame)
      && (c.ok && opening.answered <==> Takes(r.(nextFrame := first.nextFrame), opening, o.ok))
      && (c.ok ==> c.received == Arrivals(r.(nextFrame := first.nextFrame), opening.frames))
      && Replied(r, StartFailed(c.r, id), id, RequestFailed(id, r.agent, true))
  {
    Asking(first, opening, id, o);
    Refusing(r, Collect(first, opening.frames, [], o.ok).r, id);
    assert Arrivals(first, opening.frames) == Arrivals(r.(nextFrame := first.nextFrame), opening.frames);
  }

  lemma NotGreeted(r: Runtime, id: RuntimeId, hello: Exchange, opening: Exchange, o: Oracle)
    requires r.stage.Opening? && !Greets(r, hello, o.ok)
    ensures var t := Start(r, id, hello, opening, o);
      t.stage.Over? && Replied(r, t, id, RequestFailed(id, r.agent, true))
  {
    Asking(r, hello, id, o);
    Refusing(r, Collect(r, hello.frames, [], o.ok).r, id);
  }

  /** How a greeted session goes on. */
  lemma Greeted(r: Runtime, id: RuntimeId, hello: Exchange, opening: Exchange, o: Oracle)
    requires r.stage.Opening? && Greets(r, hello, o.ok)
    ensures var first := Collect(r, hello.frames, [], o.ok).r;
      var c := Collect(first, opening.frames, [], o.ok);
      && first == r.(acts := first.acts, nextFrame := r.nextFrame + |hello.frames|)
      && (!c.ok || !opening.answered || opening.identity.None? ==>
            Start(r, id, hello, opening, o) == StartFailed(c.r, id))
      && (c.ok && opening.answered && opening.identity.Some? ==>
            Start(r, id, hello, opening, o) == Entered(c.r, id, opening.identity.value, c.received, o))
  {
    Asking(r, hello, id, o);
    CollectReads(r, hello.frames, [], o.ok);
    CollectReads(Collect(r, hello.frames, [], o.ok).r, opening.frames, [], o.ok);
  }

  lemma NotOpened(r: Runtime, id: RuntimeId, hello: Exchange, opening: Exchange, o: Oracle)
    requires r.stage.Opening? && Greets(r, hello, o.ok) && !Opens(r, hello, opening, o.ok)
    ensures var t := Start(r, id, hello, opening, o);
      t.stage.Over? && Replied(r, t, id, RequestFailed(id, r.agent, true))
  {
    var first := Collect(r, hello.frames, [], o.ok).r;
    Greeted(r, id, hello, opening, o);
    OpeningAsks(r, first, id, opening, o);
  }

  /** Where publication begins in an opened session. */
  function AtOpening(r: Runtime, hello: Exchange, opening: Exchange, ok: nat -> bool): Runtime {
    Collect(Collect(r, hello.frames, [], ok).r, opening.frames, [], ok).r
  }

  lemma EntersFrom(r: Runtime, id: RuntimeId, hello: Exchange, opening: Exchange, o: Oracle, t: Runtime, c: Runtime)
    requires r.stage.Opening? && Opens(r, hello, opening, o.ok) && t == Start(r, id, hello, opening, o)
    requires c == AtOpening(r, hello, opening, o.ok)
    ensures c == r.(acts := c.acts, nextFrame := c.nextFrame)
    ensures t == Entered(c, id, opening.identity.value,
                         Arrivals(r.(nextFrame := r.nextFrame + |hello.frames|), opening.frames), o)
  {
    Greeted(r, id, hello, opening, o);
    OpeningAsks(r, Collect(r, hello.frames, [], o.ok).r, id, opening, o);
  }

  lemma IsOpened(r: Runtime, id: RuntimeId, hello: Exchange, opening: Exchange, o: Oracle, t: Runtime)
    requires r.stage.Opening? && Opens(r, hello, opening, o.ok) && t == Start(r, id, hello, opening, o)
    ensures IsOpen(r, t, id, opening.identity.value,
                   Arrivals(r.(nextFrame := r.nextFrame + |hello.frames|), opening.frames), o.ok)
  {
    var c := AtOpening(r, hello, opening, o.ok);
    EntersFrom(r, id, hello, opening, o, t, c);
    SessionOpens(r, c, id, opening.identity.value,
                 Arrivals(r.(nextFrame := r.nextFrame + |hello.frames|), opening.frames), o);
  }

  /** A task gets into its loop exactly when the provider greets it, opens its session, and everything that
      arrived meanwhile can be published, which then follows the news of the session in order. A session
      that does not open is reported once, as a failure that costs the agent. */
  lemma StartsIff(r: Runtime, id: RuntimeId, hello: Exchange, opening: Exchange, o: Oracle)
    requires r.stage.Opening?
    ensures var t, greeted := Start(r, id, hello, opening, o), r.(nextFrame := r.nextFrame + |hello.frames|);
      var opens, received := Opens(r, hello, opening, o.ok), Arrivals(greeted, opening.frames);
      && (t.stage.Looping? <==> opens && Publishable(received, o.ok))
      && (!t.stage.Looping? ==> t.stage.Over?)
      && (!opens ==> Replied(r, t, id, RequestFailed(id, r.agent, true)))
      && (opens ==> r.emitted + [Started(id, r.agent, opening.identity.value)] <= t.emitted)
      && (t.stage.Looping? ==> Reported(t.emitted, r.agent) == Reported(r.emitted, r.agent) + KindsOf(received))
  {
    if !Greets(r, hello, o.ok) {
      NotGreeted(r, id, hello, opening, o);
    } else if !Opens(r, hello, opening, o.ok) {
      NotOpened(r, id, hello, opening, o);
    } else {
      IsOpened(r, id, hello, opening, o, Start(r, id, hello, opening, o));
    }
  }
}
