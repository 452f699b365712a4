/** Every request of a provider is pending, answered once, or was attempted in vain. */
module RequestLedger {
  import opened Options
  import opened Protocol
  import opened RuntimeSteps

  // ---------------------------------------------------------------------------
  // What the traffic says about one frame

  function Attempts(acts: seq<Act>, frame: nat): nat {
    if acts == [] then 0
    else
      var last := acts[|acts| - 1];
      Attempts(acts[..|acts| - 1], frame) + if last.Wrote? && last.frame == frame then 1 else 0
  }

  function Successes(acts: seq<Act>, frame: nat): nat {
    if acts == [] then 0
    else
      var last := acts[|acts| - 1];
      Successes(acts[..|acts| - 1], frame) + if last.Wrote? && last.frame == frame && last.ok then 1 else 0
  }

  function IsRequest(acts: seq<Act>, frame: nat): bool {
    exists i :: 0 <= i < |acts| && acts[i] == Read(frame, true)
  }

  predicate IsPending(r: Runtime, frame: nat) {
    exists id :: id in r.pending && r.pending[id].frame == frame
  }

  lemma ActSnoc(acts: seq<Act>, act: Act, frame: nat)
    ensures var after := acts + [act];
      && Attempts(after, frame) == Attempts(acts, frame) + (if act.Wrote? && act.frame == frame then 1 else 0)
      && Successes(after, frame) == Successes(acts, frame)
           + (if act.Wrote? && act.frame == frame && act.ok then 1 else 0)
      && (IsRequest(after, frame) <==> IsRequest(acts, frame) || act == Read(frame, true))
  {
    var after := acts + [act];
    assert after[..|acts|] == acts;
    if IsRequest(acts, frame) {
      var i :| 0 <= i < |acts| && acts[i] == Read(frame, true);
      assert after[i] == Read(frame, true);
    }
    if act == Read(frame, true) { assert after[|acts|] == act; }
  }

  // ---------------------------------------------------------------------------
  // The ledger of one frame

  /** No two held requests stand for this frame. */
  ghost predicate HeldOnce(r: Runtime, n: nat) {
    forall id, other :: id in r.pending && other in r.pending ==>
      r.pending[id].frame == n ==> r.pending[other].frame == n ==> id == other
  }

  /** `loose` says that the frame was read as a request and is about to be published. */
  ghost predicate Settled(r: Runtime, n: nat, loose: bool) {
    && Successes(r.acts, n) <= 1
    && HeldOnce(r, n)
    && (IsPending(r, n) ==> Successes(r.acts, n) == 0 && !loose && IsRequest(r.acts, n))
    && (loose ==> Successes(r.acts, n) == 0 && IsRequest(r.acts, n))
    && (n >= r.nextFrame ==> Successes(r.acts, n) == 0 && !IsPending(r, n) && !loose && !IsRequest(r.acts, n))
    && (r.provider.Codex? && IsRequest(r.acts, n) ==> Attempts(r.acts, n) >= 1 || IsPending(r, n) || loose)
  }

  /** Every held request still owes its answer, and action ids are fresh. */
  ghost predicate Owing(r: Runtime) {
    forall id :: id in r.pending ==> r.pending[id].required && id < r.nextAction
  }

  /** Whether the frame is among those still to be published. */
  predicate IsLoose(received: seq<Received>, n: nat) {
    exists i :: 0 <= i < |received| && received[i].required && received[i].number == n
  }

  ghost predicate Distinct(received: seq<Received>) {
    forall i, j {:trigger received[i], received[j]} :: 0 <= i < j < |received| ==>
      received[i].number < received[j].number
  }

  ghost predicate Below(received: seq<Received>, next: nat) {
    forall i :: 0 <= i < |received| ==> received[i].number < next
  }

  ghost predicate NoneRequired(received: seq<Received>) {
    forall i :: 0 <= i < |received| ==> !received[i].required
  }

  lemma LooseSnoc(received: seq<Received>, frame: Received, n: nat)
    ensures IsLoose(received + [frame], n) <==> IsLoose(received, n) || (frame.required && frame.number == n)
  {
    if IsLoose(received, n) {
      var i :| 0 <= i < |received| && received[i].required && received[i].number == n;
      assert (received + [frame])[i] == received[i];
    }
    assert (received + [frame])[|received|] == frame;
  }

  lemma LooseRest(received: seq<Received>, n: nat)
    requires received != [] && Distinct(received)
    ensures IsLoose(received, n) <==>
      IsLoose(received[1..], n) || (received[0].required && received[0].number == n)
    ensures received[0].number == n ==> !IsLoose(received[1..], n)
  {
    if IsLoose(received[1..], n) {
      var i :| 0 <= i < |received[1..]| && received[1..][i].required && received[1..][i].number == n;
      assert received[i + 1] == received[1..][i];
    }
    if i :| 0 <= i < |received| && received[i].required && received[i].number == n {
      if i > 0 { assert received[1..][i - 1] == received[i]; }
    }
  }

  // ---------------------------------------------------------------------------
  // Single steps

  ghost predicate SameTraffic(r: Runtime, t: Runtime) {
    && t.acts == r.acts && t.pending == r.pending && t.nextFrame == r.nextFrame && t.provider == r.provider
    && t.nextAction == r.nextAction
  }

  lemma SameTrafficKeeps(r: Runtime, t: Runtime, n: nat, loose: bool)
    requires SameTraffic(r, t) && Settled(r, n, loose)
    ensures Settled(t, n, loose)
  {
    assert IsPending(r, n) <==> IsPending(t, n);
  }

  lemma ReadSettled(r: Runtime, frame: Frame, n: nat, loose: bool)
    requires Settled(r, n, loose)
    ensures Settled(ReadFrame(r, frame), n, loose || (n == r.nextFrame && frame.request))
  {
    ActSnoc(r.acts, Read(r.nextFrame, frame.request), n);
    assert IsPending(ReadFrame(r, frame), n) <==> IsPending(r, n);
  }

  /** A frame about to be published is answered, successfully or not. */
  lemma AttemptSettled(r: Runtime, frame: nat, ok: bool, n: nat, loose: bool)
    requires Settled(r, n, loose) && (frame == n ==> loose)
    ensures Settled(Attempt(r, frame, ok), n, loose && frame != n)
  {
    ActSnoc(r.acts, Wrote(frame, ok), n);
    assert IsPending(Attempt(r, frame, ok), n) <==> IsPending(r, n);
  }

  /** A held request is answered and removed, whether or not the write succeeds. */
  lemma RemoveSettled(r: Runtime, id: ActionId, ok: bool, n: nat, loose: bool)
    requires Settled(r, n, loose) && id in r.pending
    ensures Settled(Attempt(r.(pending := r.pending - {id}), r.pending[id].frame, ok), n, loose)
  {
    var frame := r.pending[id].frame;
    var t := Attempt(r.(pending := r.pending - {id}), frame, ok);
    ActSnoc(r.acts, Wrote(frame, ok), n);
    if frame == n {
      assert IsPending(r, n);
    } else if IsPending(r, n) {
      var other :| other in r.pending && r.pending[other].frame == n;
      assert other in t.pending;
    }
    if IsPending(t, n) {
      var other :| other in t.pending && t.pending[other].frame == n;
      assert other in r.pending && r.pending[other].frame == n;
    }
  }

  lemma RetrySettled(r: Runtime, id: ActionId, n: nat, loose: bool)
    requires Settled(r, n, loose) && id in r.pending
    ensures Settled(Attempt(r, r.pending[id].frame, false), n, loose)
  {
    ActSnoc(r.acts, Wrote(r.pending[id].frame, false), n);
    assert IsPending(Attempt(r, r.pending[id].frame, false), n) <==> IsPending(r, n);
  }

  lemma HeldSettled(r: Runtime, frame: Received, n: nat, loose: bool)
    requires Settled(r, n, loose) && Owing(r) && frame.kind.Requested?
    requires frame.number == n ==> loose
    ensures Settled(Held(r, frame), n, loose && frame.number != n) && Owing(Held(r, frame))
  {
    var t := Held(r, frame);
    assert r.nextAction !in r.pending;
    assert t.pending[r.nextAction].frame == frame.number;
    if IsPending(r, n) {
      var id :| id in r.pending && r.pending[id].frame == n;
      assert id in t.pending && t.pending[id].frame == n;
    }
    if IsPending(t, n) {
      var id :| id in t.pending && t.pending[id].frame == n;
      assert id == r.nextAction || (id in r.pending && r.pending[id].frame == n);
    }
  }

  // ---------------------------------------------------------------------------
  // Batches

  lemma {:induction false} CollectSettled(r: Runtime, frames: seq<Frame>, got: seq<Received>, ok: nat -> bool, n: nat)
    requires Settled(r, n, IsLoose(got, n)) && Distinct(got) && Below(got, r.nextFrame)
    requires r.provider.Codex? ==> NoneRequired(got)
    ensures var c := Collect(r, frames, got, ok);
      && Settled(c.r, n, IsLoose(c.received, n)) && Distinct(c.received)
      && (r.provider.Codex? ==> NoneRequired(c.received))
      && c.r == r.(acts := c.r.acts, nextFrame := c.r.nextFrame)
    decreases |frames|
  {
    if frames != [] {
      var number := r.nextFrame;
      var read := ReadFrame(r, frames[0]);
      ReadSettled(r, frames[0], n, IsLoose(got, n));
      if r.provider.Codex? && frames[0].request {
        AttemptSettled(read, number, ok(number), n, IsLoose(got, n) || n == number);
        var denied := Received(number, false, frames[0].kind);
        LooseSnoc(got, denied, n);
        if ok(number) { CollectSettled(Attempt(read, number, true), frames[1..], got + [denied], ok, n); }
      } else {
        var kept := Received(number, frames[0].request, frames[0].kind);
        LooseSnoc(got, kept, n);
        CollectSettled(read, frames[1..], got + [kept], ok, n);
      }
    }
  }

  lemma PublishSettled(r: Runtime, frames: seq<Received>, ok: nat -> bool, n: nat)
    requires frames != [] && Distinct(frames)
    requires Settled(r, n, IsLoose(frames, n)) && Owing(r)
    ensures var first := Publish(r, frames[0], ok);
      Settled(first.r, n, IsLoose(frames[1..], n)) && Owing(first.r) && first.r.provider == r.provider
  {
    var frame := frames[0];
    var loose := IsLoose(frames, n);
    LooseRest(frames, n);
    if frame.required && frame.kind.Requested? {
      HeldSettled(r, frame, n, loose);
    } else if frame.required {
      AttemptSettled(r, frame.number, ok(frame.number), n, loose);
      if ok(frame.number) {
        SameTrafficKeeps(Attempt(r, frame.number, true), Publish(r, frame, ok).r, n, loose && frame.number != n);
      }
    } else {
      SameTrafficKeeps(r, Publish(r, frame, ok).r, n, loose);
    }
  }

  /** A Claude worker's callback may be dropped; a Codex request may not. */
  lemma DropLoose(r: Runtime, n: nat, loose: bool)
    requires Settled(r, n, loose) && (loose ==> r.provider.Claude?)
    ensures Settled(r, n, false)
  {
  }

  lemma {:induction false} PublishAllSettled(r: Runtime, frames: seq<Received>, ended: bool, ok: nat -> bool, n: nat)
    requires Distinct(frames) && (r.provider.Codex? ==> NoneRequired(frames) || |frames| == 1)
    requires Settled(r, n, IsLoose(frames, n)) && Owing(r)
    ensures var out := PublishAll(r, frames, ended, ok);
      Settled(out.r, n, false) && Owing(out.r) && out.r.provider == r.provider
    decreases |frames|
  {
    if frames != [] {
      PublishSettled(r, frames, ok, n);
      var first := Publish(r, frames[0], ok);
      if first.ok {
        PublishAllSettled(first.r, frames[1..], ended || first.ended, ok, n);
      } else {
        DropLoose(first.r, n, IsLoose(frames[1..], n));
      }
    }
  }

  lemma DenySettled(r: Runtime, id: ActionId, ok: nat -> bool, n: nat)
    requires Settled(r, n, false) && Owing(r)
    ensures Settled(Deny(r, id, ok), n, false) && Owing(Deny(r, id, ok))
  {
    if id in r.pending {
      RemoveSettled(r, id, ok(r.pending[id].frame), n, false);
      SameTrafficKeeps(Attempt(r.(pending := r.pending - {id}), r.pending[id].frame, ok(r.pending[id].frame)),
                       Deny(r, id, ok), n, false);
    }
  }

  lemma {:induction false} DenyAllSettled(r: Runtime, ids: seq<ActionId>, failed: bool, ok: nat -> bool, n: nat)
    requires Settled(r, n, false) && Owing(r)
    ensures var d := DenyAll(r, ids, failed, ok);
      && Settled(d.r, n, false) && Owing(d.r)
      && d.r.provider == r.provider
      && (forall id :: id in d.r.pending <==> id in r.pending && id !in ids)
    decreases |ids|
  {
    if ids != [] {
      DenySettled(r, ids[0], ok, n);
      var rest := DenyAll(r, ids, failed, ok);
      DenyAllSettled(Deny(r, ids[0], ok), ids[1..],
                     failed || (ids[0] in r.pending && !Writable(r.pending[ids[0]], ok)), ok, n);
      assert forall id :: id in ids <==> id == ids[0] || id in ids[1..];
    }
  }

  lemma DenyEverySettled(r: Runtime, o: Oracle, n: nat)
    requires Settled(r, n, false) && Owing(r) && Lists(o.order)
    ensures Settled(DenyEvery(r, o).r, n, false) && Owing(DenyEvery(r, o).r) && DenyEvery(r, o).r.pending == map[]
    ensures DenyEvery(r, o).r.provider == r.provider
  {
    DenyAllSettled(r, o.order(r.pending.Keys), false, o.ok, n);
    assert forall id :: id in r.pending ==> id in o.order(r.pending.Keys);
  }

  lemma RespondSettled(r: Runtime, id: RuntimeId, human: HumanKind, action: ActionId, fits: bool,
                       ok: nat -> bool, n: nat)
    requires Settled(r, n, false) && Owing(r)
    ensures Settled(Respond(r, id, human, action, fits, ok), n, false) && Owing(Respond(r, id, human, action, fits, ok))
    ensures Respond(r, id, human, action, fits, ok).stage == r.stage
    ensures Respond(r, id, human, action, fits, ok).provider == r.provider
  {
    var t := Respond(r, id, human, action, fits, ok);
    if action !in r.pending || r.pending[action].human != human || !fits {
      SameTrafficKeeps(r, t, n, false);
    } else if ok(r.pending[action].frame) {
      RemoveSettled(r, action, true, n, false);
      SameTrafficKeeps(Attempt(r.(pending := r.pending - {action}), r.pending[action].frame, true), t, n, false);
    } else {
      RetrySettled(r, action, n, false);
      SameTrafficKeeps(Attempt(r, r.pending[action].frame, false), t, n, false);
    }
  }

  // ---------------------------------------------------------------------------
  // The loop

  ghost predicate Good(r: Runtime, n: nat) {
    && Settled(r, n, false) && Owing(r)
    && (r.stage.Over? ==> r.pending == map[])
  }

  lemma LeaveGood(r: Runtime, o: Oracle, n: nat)
    requires Settled(r, n, false) && Owing(r) && Lists(o.order)
    ensures Good(Leave(r, o), n) && Good(Break(r, o), n)
    ensures Leave(r, o).provider == r.provider == Break(r, o).provider
  {
    DenyEverySettled(r, o, n);
    SameTrafficKeeps(DenyEvery(r, o).r, Leave(r, o), n, false);
    var failed := Emit(r, ProviderFailed(r.agent));
    SameTrafficKeeps(r, failed, n, false);
    DenyEverySettled(failed, o, n);
    SameTrafficKeeps(DenyEvery(failed, o).r, Leave(failed, o), n, false);
  }

  lemma FollowGood(r: Runtime, received: seq<Received>, o: Oracle, n: nat)
    requires Distinct(received) && (r.provider.Codex? ==> NoneRequired(received) || |received| == 1)
    requires Settled(r, n, IsLoose(received, n)) && Owing(r) && !r.stage.Over? && Lists(o.order)
    ensures Good(Follow(r, received, o), n) && Follow(r, received, o).provider == r.provider
  {
    PublishAllSettled(r, received, false, o.ok, n);
    PublishAllStage(r, received, false, o.ok);
    var out := PublishAll(r, received, false, o.ok);
    if !out.ok {
      LeaveGood(out.r, o, n);
    } else {
      SameTrafficKeeps(out.r, Follow(r, received, o), n, false);
    }
  }

  lemma {:induction false} PublishAllStage(r: Runtime, frames: seq<Received>, ended: bool, ok: nat -> bool)
    ensures PublishAll(r, frames, ended, ok).r.stage == r.stage
    decreases |frames|
  {
    if frames != [] {
      var first := Publish(r, frames[0], ok);
      if first.ok { PublishAllStage(first.r, frames[1..], ended || first.ended, ok); }
    }
  }

  lemma {:induction false} DenyAllStage(r: Runtime, ids: seq<ActionId>, failed: bool, ok: nat -> bool)
    ensures DenyAll(r, ids, failed, ok).r.stage == r.stage
    decreases |ids|
  {
    if ids != [] {
      DenyAllStage(Deny(r, ids[0], ok), ids[1..],
                   failed || (ids[0] in r.pending && !Writable(r.pending[ids[0]], ok)), ok);
    }
  }

  /** Frames read during a request that fails, or whose frames nobody looks at. */
  lemma CollectedGood(r: Runtime, frames: seq<Frame>, o: Oracle, n: nat)
    requires Good(r, n) && !r.stage.Over?
    ensures var c := Collect(r, frames, [], o.ok);
      && Settled(c.r, n, IsLoose(c.received, n)) && Good(c.r, n) && Owing(c.r) && Distinct(c.received)
      && (r.provider.Codex? ==> NoneRequired(c.received))
      && c.r == r.(acts := c.r.acts, nextFrame := c.r.nextFrame)
  {
    CollectSettled(r, frames, [], o.ok, n);
    var c := Collect(r, frames, [], o.ok);
    DropLoose(c.r, n, IsLoose(c.received, n));
  }

  lemma ActiveGood(r: Runtime, id: RuntimeId, exchange: Exchange, o: Oracle, n: nat)
    requires Good(r, n) && r.stage.Looping? && Lists(o.order)
    ensures Good(OnActive(r, id, exchange, o), n) && OnActive(r, id, exchange, o).provider == r.provider
  {
    CollectedGood(r, exchange.frames, o, n);
    var c := Collect(r, exchange.frames, [], o.ok);
    if !c.ok || !exchange.answered {
      SameTrafficKeeps(c.r, FailRequest(c.r, id), n, false);
    } else {
      SameTrafficKeeps(c.r, Emit(c.r, Response(id)), n, IsLoose(c.received, n));
      FollowGood(Emit(c.r, Response(id)), c.received, o, n);
    }
  }

  lemma PromptGood(r: Runtime, id: RuntimeId, exchange: Exchange, encodes: bool, o: Oracle, n: nat)
    requires Good(r, n) && r.stage.Looping? && Lists(o.order)
    ensures Good(OnPrompt(r, id, exchange, encodes, o), n)
    ensures OnPrompt(r, id, exchange, encodes, o).provider == r.provider
  {
    if r.active || !encodes {
      SameTrafficKeeps(r, Reject(r, id), n, false);
    } else {
      CollectedGood(r, exchange.frames, o, n);
      var c := Collect(r, exchange.frames, [], o.ok);
      if !c.ok || !exchange.answered || (r.provider.Codex? && exchange.identity.None?) {
        SameTrafficKeeps(c.r, FailRequest(c.r, id), n, false);
      } else {
        var begun := Emit(c.r, Response(id)).(active := true);
        var announced :=
          if r.provider.Claude? then Emit(begun, ProviderEvent(r.agent, TurnStarted(exchange.identity))) else begun;
        SameTrafficKeeps(c.r, announced, n, IsLoose(c.received, n));
        FollowGood(announced, c.received, o, n);
      }
    }
  }

  lemma InterruptGood(r: Runtime, id: RuntimeId, exchange: Exchange, o: Oracle, n: nat)
    requires Good(r, n) && r.stage.Looping? && Lists(o.order)
    ensures Good(OnInterrupt(r, id, exchange, o), n) && OnInterrupt(r, id, exchange, o).provider == r.provider
  {
    DenyEverySettled(r, o, n);
    DenyAllStage(r, o.order(r.pending.Keys), false, o.ok);
    var denied := DenyEvery(r, o);
    if denied.failed {
      SameTrafficKeeps(denied.r, FailRequest(denied.r, id), n, false);
    } else if !denied.r.active {
      SameTrafficKeeps(denied.r, Emit(denied.r, Response(id)), n, false);
    } else {
      ActiveGood(denied.r, id, exchange, o, n);
    }
  }

  lemma HistoryGood(r: Runtime, id: RuntimeId, exchange: Exchange, o: Oracle, n: nat)
    requires Good(r, n) && r.stage.Looping?
    ensures Good(OnHistory(r, id, exchange, o), n) && OnHistory(r, id, exchange, o).provider == r.provider
  {
    CollectedGood(r, exchange.frames, o, n);
    SameTrafficKeeps(Collect(r, exchange.frames, [], o.ok).r, OnHistory(r, id, exchange, o), n, false);
  }

  lemma CommandGood(r: Runtime, command: Command, exchange: Exchange, encodes: bool, fits: bool, o: Oracle, n: nat)
    requires Good(r, n) && r.stage.Looping? && Lists(o.order)
    ensures Good(OnCommand(r, command, exchange, encodes, fits, o), n)
    ensures OnCommand(r, command, exchange, encodes, fits, o).provider == r.provider
  {
    match command
    case SendPrompt(id, _) => PromptGood(r, id, exchange, encodes, o, n);
    case SendSteer(id, _, _) =>
      SameTrafficKeeps(r, Reject(r, id), n, false);
      if r.active && encodes { ActiveGood(r, id, exchange, o, n); }
    case Interrupt(id) => InterruptGood(r, id, exchange, o, n);
    case History(id) => HistoryGood(r, id, exchange, o, n);
    case Answer(id, human, action, _) => RespondSettled(r, id, human, action, fits, o.ok, n);
    case _ =>
      DenyEverySettled(r, o, n);
      LeaveGood(DenyEvery(r, o).r, o, n);
  }

  lemma PerformGood(r: Runtime, turn: LoopTurn, o: Oracle, n: nat)
    requires Good(r, n) && Lists(o.order)
    ensures Good(Perform(r, turn, o), n) && Perform(r, turn, o).provider == r.provider
  {
    if r.stage.Looping? {
      match turn
      case Take(command, exchange, encodes, fits) => CommandGood(r, command, exchange, encodes, fits, o, n);
      case Receive(frame) =>
        if r.active {
          ReadSettled(r, frame, n, false);
          var received := [Received(r.nextFrame, frame.request, frame.kind)];
          LooseSnoc([], received[0], n);
          assert [] + received == received;
          FollowGood(ReadFrame(r, frame), received, o, n);
        }
      case StreamLost => LeaveGood(r, o, n);
      case Expire(ids) =>
        DenyAllSettled(r, o.order(ids * r.pending.Keys), false, o.ok, n);
        DenyAllStage(r, o.order(ids * r.pending.Keys), false, o.ok);
        LeaveGood(DenyAll(r, o.order(ids * r.pending.Keys), false, o.ok).r, o, n);
      case CommandsClosed => LeaveGood(r, o, n);
    }
  }

  lemma StartGood(r: Runtime, id: RuntimeId, hello: Exchange, opening: Exchange, o: Oracle, n: nat)
    requires Good(r, n) && r.stage.Opening? && r.pending == map[]
    ensures Good(Start(r, id, hello, opening, o), n) && Start(r, id, hello, opening, o).provider == r.provider
  {
    CollectedGood(r, hello.frames, o, n);
    var greeted := Collect(r, hello.frames, [], o.ok);
    SameTrafficKeeps(greeted.r, StartFailed(greeted.r, id), n, false);
    if !(!greeted.ok || !hello.answered || (r.provider.Claude? && hello.frames != [])) {
      CollectedGood(greeted.r, opening.frames, o, n);
      var c := Collect(greeted.r, opening.frames, [], o.ok);
      SameTrafficKeeps(c.r, StartFailed(c.r, id), n, false);
      if !(!c.ok || !opening.answered || opening.identity.None?) {
        OpenedGood(c.r, id, opening.identity.value, c.received, o, n);
      }
    }
  }

  /** Publishing what arrived while the session was opened; Codex has nothing left to deny. */
  lemma OpenedGood(r: Runtime, id: RuntimeId, session: string, received: seq<Received>, o: Oracle, n: nat)
    requires Settled(r, n, IsLoose(received, n)) && Owing(r) && Distinct(received)
    requires r.provider.Codex? ==> NoneRequired(received)
    ensures var published := PublishAll(Emit(r, Started(id, r.agent, session)), received, false, o.ok);
      published.r.provider == r.provider &&
      if published.ok then Good(published.r.(stage := Looping), n)
      else Good(Abort(Halted(Emit(published.r, ProviderFailed(published.r.agent)))), n)
  {
    var begun := Emit(r, Started(id, r.agent, session));
    SameTrafficKeeps(r, begun, n, IsLoose(received, n));
    PublishAllSettled(begun, received, false, o.ok, n);
    var published := PublishAll(begun, received, false, o.ok);
    if published.ok {
      SameTrafficKeeps(published.r, published.r.(stage := Looping), n, false);
    } else {
      if r.provider.Codex? { CodexBatchNeverFails(begun, received, false, o.ok); }
      var over := Abort(Halted(Emit(published.r, ProviderFailed(published.r.agent))));
      assert !IsPending(over, n);
    }
  }

  lemma {:induction false} CodexBatchNeverFails(r: Runtime, frames: seq<Received>, ended: bool, ok: nat -> bool)
    requires NoneRequired(frames)
    ensures PublishAll(r, frames, ended, ok).ok
    decreases |frames|
  {
    if frames != [] {
      var first := Publish(r, frames[0], ok);
      CodexBatchNeverFails(first.r, frames[1..], ended || first.ended, ok);
    }
  }

  // ---------------------------------------------------------------------------
  // Theorems

  /** A session that is opened and then run. */
  function Session(provider: Provider, agent: AgentId, id: RuntimeId, hello: Exchange, opening: Exchange,
                   o: Oracle, turns: seq<Timed>): Runtime {
    RunLoop(Start(Spawn(provider, agent), id, hello, opening, o), turns)
  }

  ghost predicate Listed(turns: seq<Timed>) {
    forall i :: 0 <= i < |turns| ==> Lists(turns[i].oracle.order)
  }

  lemma {:induction false} RunGood(r: Runtime, turns: seq<Timed>, n: nat)
    requires Good(r, n) && Listed(turns)
    ensures Good(RunLoop(r, turns), n) && RunLoop(r, turns).provider == r.provider
  {
    if turns != [] {
      var last := turns[|turns| - 1];
      RunGood(r, turns[..|turns| - 1], n);
      PerformGood(RunLoop(r, turns[..|turns| - 1]), last.turn, last.oracle, n);
    }
  }

  lemma SessionGood(provider: Provider, agent: AgentId, id: RuntimeId, hello: Exchange, opening: Exchange,
                    o: Oracle, turns: seq<Timed>, n: nat)
    requires Listed(turns)
    ensures Good(Session(provider, agent, id, hello, opening, o, turns), n)
    ensures Session(provider, agent, id, hello, opening, o, turns).provider == provider
  {
    var spawned := Spawn(provider, agent);
    assert Good(spawned, n);
    StartGood(spawned, id, hello, opening, o, n);
    RunGood(Start(spawned, id, hello, opening, o), turns, n);
  }

  /** In every session no request is answered twice, and a request that is still held is not answered. */
  lemma AnsweredAtMostOnce(provider: Provider, agent: AgentId, id: RuntimeId, hello: Exchange, opening: Exchange,
                           o: Oracle, turns: seq<Timed>, frame: nat)
    requires Listed(turns)
    ensures var r := Session(provider, agent, id, hello, opening, o, turns);
      && Successes(r.acts, frame) <= 1
      && (IsPending(r, frame) ==> Successes(r.acts, frame) == 0)
      && (r.stage.Over? ==> !IsPending(r, frame))
      && (forall action :: action in r.pending ==> r.pending[action].required)
  {
    SessionGood(provider, agent, id, hello, opening, o, turns, frame);
  }

  /** Every request a Codex server makes is exactly one of: held, answered once, or attempted in vain. */
  lemma CodexLedger(agent: AgentId, id: RuntimeId, hello: Exchange, opening: Exchange,
                    o: Oracle, turns: seq<Timed>, frame: nat)
    requires Listed(turns)
    requires IsRequest(Session(Codex, agent, id, hello, opening, o, turns).acts, frame)
    ensures var r := Session(Codex, agent, id, hello, opening, o, turns);
      var tried, won := Attempts(r.acts, frame), Successes(r.acts, frame);
      || (IsPending(r, frame) && won == 0 && !r.stage.Over?)
      || (!IsPending(r, frame) && won == 1)
      || (!IsPending(r, frame) && won == 0 && tried >= 1)
  {
    SessionGood(Codex, agent, id, hello, opening, o, turns, frame);
  }
}
