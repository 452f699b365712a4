/** The provider loop: one object that owns the pending requests and updates them in place. */
module ProviderLoop {
  import opened Options
  import opened Protocol
  import opened RuntimeSteps

  class Loop {
    const provider: Provider
    const agent: AgentId
    var stage: Stage
    var active: bool
    var pending: map<ActionId, Entry>
    var nextAction: ActionId
    var nextFrame: nat
    /** Everything read from and written to the provider, and everything sent to the broker. */
    ghost var acts: seq<Act>
    ghost var emitted: seq<RuntimeEvent>
    ghost var strays: multiset<HumanKind>

    ghost function View(): Runtime
      reads this
    {
      Runtime(provider, agent, stage, active, pending, nextAction, nextFrame, acts, emitted, strays)
    }

    constructor (provider: Provider, agent: AgentId)
      ensures View() == Spawn(provider, agent)
    {
      this.provider, this.agent := provider, agent;
      stage, active, pending, nextAction, nextFrame := Opening, false, map[], 0, 0;
      acts, emitted, strays := [], [], multiset{};
    }

    method Send(event: RuntimeEvent)
      modifies this`emitted
      ensures emitted == old(emitted) + [event]
    {
      emitted := emitted + [event];
    }

    method Write(frame: nat, ok: bool)
      modifies this`acts
      ensures acts == old(acts) + [Wrote(frame, ok)]
    {
      acts := acts + [Wrote(frame, ok)];
    }

    /** Reads until the response arrives; false when a denial cannot be written. */
    method Request(frames: seq<Frame>, o: Oracle) returns (ok: bool, received: seq<Received>)
      modifies this
      ensures Collected(View(), received, ok) == Collect(old(View()), frames, [], o.ok)
    {
      received := [];
      ok := true;
      var i := 0;
      while i < |frames| && ok
        invariant 0 <= i <= |frames|
        invariant ok ==> Collect(View(), frames[i..], received, o.ok) == Collect(old(View()), frames, [], o.ok)
        invariant !ok ==> Collected(View(), received, false) == Collect(old(View()), frames, [], o.ok)
      {
        var number := nextFrame;
        nextFrame := nextFrame + 1;
        acts := acts + [Read(number, frames[i].request)];
        assert frames[i..][1..] == frames[i + 1..];
        if provider == Codex && frames[i].request {
          ok := o.ok(number);
          Write(number, ok);
          if ok {
            received := received + [Received(number, false, frames[i].kind)];
          }
        } else {
          received := received + [Received(number, frames[i].request, frames[i].kind)];
        }
        i := i + 1;
      }
    }

    method PublishEvent(frame: Received, o: Oracle) returns (ok: bool, terminal: bool)
      modifies this
      ensures Outcome(View(), ok, terminal) == Publish(old(View()), frame, o.ok)
    {
      if frame.required {
        if frame.kind.Requested? {
          var id := nextAction;
          nextAction := nextAction + 1;
          pending := pending[id := Entry(frame.kind.human, frame.number, true)];
          Send(ProviderEvent(agent, Requested(frame.kind.human, id)));
          return true, false;
        }
        Write(frame.number, o.ok(frame.number));
        if !o.ok(frame.number) {
          return false, false;
        }
      }
      if frame.kind.Requested? {
        strays := strays + multiset{frame.kind.human};
      }
      Send(ProviderEvent(agent, frame.kind));
      return true, Terminal(frame.kind);
    }

    method PublishEvents(frames: seq<Received>, o: Oracle) returns (ok: bool, terminal: bool)
      modifies this
      ensures var out := PublishAll(old(View()), frames, false, o.ok);
        View() == out.r && ok == out.ok && (ok ==> terminal == out.ended)
    {
      ok, terminal := true, false;
      var i := 0;
      while i < |frames|
        invariant 0 <= i <= |frames|
        invariant PublishAll(View(), frames[i..], terminal, o.ok) == PublishAll(old(View()), frames, false, o.ok)
      {
        var last: bool;
        assert frames[i..][1..] == frames[i + 1..];
        ok, last := PublishEvent(frames[i], o);
        if !ok {
          return;
        }
        terminal := terminal || last;
        i := i + 1;
      }
      ok := true;
    }

    /** Denies the listed requests, forgetting each one even when its denial cannot be written. */
    method DenyRequests(ids: seq<ActionId>, o: Oracle) returns (failed: bool)
      modifies this
      ensures Denied(View(), failed) == DenyAll(old(View()), ids, false, o.ok)
    {
      failed := false;
      var i := 0;
      while i < |ids|
        invariant 0 <= i <= |ids|
        invariant DenyAll(View(), ids[i..], failed, o.ok) == DenyAll(old(View()), ids, false, o.ok)
      {
        assert ids[i..][1..] == ids[i + 1..];
        if ids[i] in pending {
          var denied := Withdraw(ids[i], o);
          failed := failed || !denied;
        }
        i := i + 1;
      }
    }

    method Withdraw(id: ActionId, o: Oracle) returns (denied: bool)
      requires id in pending
      modifies this
      ensures View() == Deny(old(View()), id, o.ok) && denied == Writable(old(pending)[id], o.ok)
    {
      var entry := pending[id];
      pending := pending - {id};
      denied := false;
      if entry.required {
        denied := o.ok(entry.frame);
        Write(entry.frame, denied);
      }
      Send(ProviderEvent(agent, Resolved(entry.human, id)));
    }

    method DenyAllRequests(o: Oracle) returns (failed: bool)
      modifies this
      ensures Denied(View(), failed) == DenyEvery(old(View()), o)
    {
      failed := DenyRequests(o.order(pending.Keys), o);
    }

    method RespondTo(id: RuntimeId, human: HumanKind, action: ActionId, fits: bool, o: Oracle)
      modifies this
      ensures View() == Respond(old(View()), id, human, action, fits, o.ok)
    {
      if action !in pending || pending[action].human != human || !fits {
        Send(RequestFailed(id, agent, false));
        return;
      }
      var entry := pending[action];
      if !entry.required {
        Send(RequestFailed(id, agent, true));
        return;
      }
      Write(entry.frame, o.ok(entry.frame));
      if !o.ok(entry.frame) {
        Send(RequestFailed(id, agent, true));
        return;
      }
      pending := pending - {action};
      Send(Response(id));
      Send(ProviderEvent(agent, Resolved(human, action)));
    }

    method Finish(o: Oracle)
      modifies this
      ensures View() == Leave(old(View()), o)
    {
      var _ := DenyAllRequests(o);
      Send(Stopped(agent));
      stage := Over;
    }

    method Fail(o: Oracle)
      modifies this
      ensures View() == Break(old(View()), o)
    {
      Send(ProviderFailed(agent));
      Finish(o);
    }

    method Follow(received: seq<Received>, o: Oracle)
      modifies this
      ensures View() == RuntimeSteps.Follow(old(View()), received, o)
    {
      var ok, terminal := PublishEvents(received, o);
      if !ok {
        Fail(o);
      } else if terminal {
        active := false;
      }
    }

    method Prompt(id: RuntimeId, exchange: Exchange, encodes: bool, o: Oracle)
      modifies this
      ensures View() == OnPrompt(old(View()), id, exchange, encodes, o)
    {
      if active || !encodes {
        Send(RequestFailed(id, agent, false));
        return;
      }
      var ok, received := Request(exchange.frames, o);
      if !ok || !exchange.answered || (provider == Codex && exchange.identity.None?) {
        Send(RequestFailed(id, agent, true));
        return;
      }
      Send(Response(id));
      active := true;
      if provider == Claude {
        Send(ProviderEvent(agent, TurnStarted(exchange.identity)));
      }
      Follow(received, o);
    }

    method DuringTurn(id: RuntimeId, exchange: Exchange, o: Oracle)
      modifies this
      ensures View() == OnActive(old(View()), id, exchange, o)
    {
      var ok, received := Request(exchange.frames, o);
      if !ok || !exchange.answered {
        Send(RequestFailed(id, agent, true));
        return;
      }
      Send(Response(id));
      Follow(received, o);
    }

    method Interrupt(id: RuntimeId, exchange: Exchange, o: Oracle)
      modifies this
      ensures View() == OnInterrupt(old(View()), id, exchange, o)
    {
      var failed := DenyAllRequests(o);
      if failed {
        Send(RequestFailed(id, agent, true));
      } else if !active {
        Send(Response(id));
      } else {
        DuringTurn(id, exchange, o);
      }
    }

    method History(id: RuntimeId, exchange: Exchange, o: Oracle)
      modifies this
      ensures View() == OnHistory(old(View()), id, exchange, o)
    {
      var ok, _ := Request(exchange.frames, o);
      if ok && exchange.answered {
        Send(Response(id));
      } else {
        Send(RequestFailed(id, agent, false));
      }
    }

    method Obey(command: Command, exchange: Exchange, encodes: bool, fits: bool, o: Oracle)
      modifies this
      ensures View() == OnCommand(old(View()), command, exchange, encodes, fits, o)
    {
      match command {
        case SendPrompt(id, _) => Prompt(id, exchange, encodes, o);
        case SendSteer(id, _, _) =>
          if active && encodes {
            DuringTurn(id, exchange, o);
          } else {
            Send(RequestFailed(id, agent, false));
          }
        case Interrupt(id) => Interrupt(id, exchange, o);
        case History(id) => History(id, exchange, o);
        case Answer(id, human, action, _) => RespondTo(id, human, action, fits, o);
        case ClientDisconnected =>
          var failed := DenyAllRequests(o);
          if failed {
            Fail(o);
          }
        case Shutdown =>
          var _ := DenyAllRequests(o);
          Finish(o);
      }
    }

    method ReceiveEvent(frame: Frame, o: Oracle)
      modifies this
      ensures View() == RuntimeSteps.Follow(ReadFrame(old(View()), frame),
                                            [Received(old(nextFrame), frame.request, frame.kind)], o)
    {
      var number := nextFrame;
      nextFrame := nextFrame + 1;
      acts := acts + [Read(number, frame.request)];
      Follow([Received(number, frame.request, frame.kind)], o);
    }

    /** One turn of the loop. */
    method Turn(turn: LoopTurn, o: Oracle)
      modifies this
      ensures View() == Perform(old(View()), turn, o)
    {
      if stage != Looping {
        return;
      }
      match turn {
        case Take(command, exchange, encodes, fits) => Obey(command, exchange, encodes, fits, o);
        case Receive(frame) =>
          if active {
            ReceiveEvent(frame, o);
          }
        case StreamLost =>
          if active {
            Fail(o);
          }
        case Expire(ids) =>
          var failed := DenyRequests(o.order(ids * pending.Keys), o);
          if failed {
            Fail(o);
          }
        case CommandsClosed => Finish(o);
      }
    }

    method RefuseStart(id: RuntimeId)
      modifies this
      ensures View() == StartFailed(old(View()), id)
    {
      Send(RequestFailed(id, agent, true));
      Send(Stopped(agent));
      stage := Over;
    }

    method Open(id: RuntimeId, hello: Exchange, opening: Exchange, o: Oracle)
      requires stage == Opening
      modifies this
      ensures View() == Start(old(View()), id, hello, opening, o)
    {
      var greeted, _ := Request(hello.frames, o);
      if !greeted || !hello.answered || (provider == Claude && hello.frames != []) {
        RefuseStart(id);
        return;
      }
      var answered, received := Request(opening.frames, o);
      if !answered || !opening.answered || opening.identity.None? {
        RefuseStart(id);
        return;
      }
      Send(Started(id, agent, opening.identity.value));
      var ok, _ := PublishEvents(received, o);
      if ok {
        stage := Looping;
        return;
      }
      AbandonStart();
    }

    method AbandonStart()
      modifies this
      ensures View() == Abort(Halted(Emit(old(View()), ProviderFailed(agent))))
    {
      Send(ProviderFailed(agent));
      Send(Stopped(agent));
      stage := Over;
      Drop();
    }

    /** The task ends without answering what it holds. */
    method Drop()
      modifies this
      ensures View() == Abort(old(View()))
    {
      strays := strays[Approval := strays[Approval] + CountHeld(pending, Approval)]
                      [Question := strays[Question] + CountHeld(pending, Question)];
      pending := map[];
      stage := Over;
    }

    method Serve(turns: seq<Timed>)
      modifies this
      ensures View() == RunLoop(old(View()), turns)
    {
      var i := 0;
      while i < |turns|
        invariant 0 <= i <= |turns|
        invariant View() == RunLoop(old(View()), turns[..i])
      {
        Turn(turns[i].turn, turns[i].oracle);
        i := i + 1;
        assert turns[..i][..|turns[..i]| - 1] == turns[..i - 1];
      }
      assert turns[..i] == turns;
    }
  }
}
