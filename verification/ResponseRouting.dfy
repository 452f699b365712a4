/** Provider responses reach the connection that asked, at most once. */
module ResponseRouting {
  import opened Protocol
  import opened BrokerSteps
  import opened BrokerRuns

  /** A connection begins or ends. */
  predicate IsMark(action: Action) {
    action.Opened? || action.Shut?
  }

  /** A runtime request is created, for a client or for a queued prompt. */
  predicate Issues(action: Action) {
    action.Forwarded? || action.Dispatched?
  }

  predicate Answers(action: Action, id: RuntimeId) {
    action.Answered? && action.id == id
  }

  /** The answer at `j` goes to the request at `i`: same request, same connection still open,
      not answered before. */
  ghost predicate AnswersRequest(trace: seq<Action>, j: nat, i: nat) {
    && i < j < |trace|
    && trace[j].Answered?
    && trace[i] == Forwarded(trace[j].generation, trace[j].id, trace[j].publicId)
    && Unanswered(trace, i, j, trace[j].id) && Unbroken(trace, i, j)
  }

  ghost predicate Unanswered(trace: seq<Action>, i: nat, j: nat, id: RuntimeId) {
    forall k {:trigger trace[k]} :: i < k < j <= |trace| ==> !Answers(trace[k], id)
  }

  ghost predicate Unbroken(trace: seq<Action>, i: nat, j: nat) {
    forall k {:trigger trace[k]} :: i < k < j <= |trace| ==> !IsMark(trace[k])
  }

  ghost predicate IsRouted(trace: seq<Action>, j: nat) {
    exists i :: AnswersRequest(trace, j, i)
  }

  /** The request at `i` still waits for its answer. */
  ghost predicate Waits(s: State, id: RuntimeId, i: nat)
    requires id in s.pending
  {
    && i < |s.trace|
    && s.trace[i] == Forwarded(s.pending[id].generation, id, s.pending[id].publicId)
    && Unanswered(s.trace, i, |s.trace|, id)
    && s.pending[id].generation <= s.generation
    && (s.connected && s.pending[id].generation == s.generation ==> Unbroken(s.trace, i, |s.trace|))
  }

  ghost predicate HasRequest(s: State, id: RuntimeId)
    requires id in s.pending
  {
    exists i :: Waits(s, id, i)
  }

  /** Request numbers only grow. */
  ghost predicate Increasing(trace: seq<Action>, next: nat) {
    && (forall i {:trigger trace[i]} :: 0 <= i < |trace| && Issues(trace[i]) ==>
          trace[i].id.number < next && (trace[i].Forwarded? ==> trace[i].id.BrokerRequest?))
    && (forall i, j {:trigger trace[i], trace[j]} :: 0 <= i < j < |trace| && Issues(trace[i]) && Issues(trace[j]) ==>
          trace[i].id.number < trace[j].id.number)
  }

  ghost predicate Routed(s: State) {
    && Increasing(s.trace, s.nextRequest)
    && (forall id :: id in s.pending ==> HasRequest(s, id))
    && (forall j :: 0 <= j < |s.trace| && s.trace[j].Answered? ==> IsRouted(s.trace, j))
  }

  // ---------------------------------------------------------------------------
  // Effects

  predicate IsPlain(action: Action) {
    !IsMark(action) && !Issues(action) && !action.Answered?
  }

  /** Only plain actions were added, and no request was added. */
  ghost predicate Extends(s: State, t: State) {
    && |s.trace| <= |t.trace|
    && (forall i {:trigger t.trace[i]} :: 0 <= i < |s.trace| ==> t.trace[i] == s.trace[i])
    && (forall i {:trigger t.trace[i]} :: |s.trace| <= i < |t.trace| ==> IsPlain(t.trace[i]))
    && t.generation == s.generation && t.connected == s.connected
    && t.nextRequest >= s.nextRequest && t.pending == s.pending
  }

  lemma RoutedAfterPrefix(s: seq<Action>, t: seq<Action>, j: nat)
    requires |s| <= |t| && (forall i {:trigger t[i]} :: 0 <= i < |s| ==> t[i] == s[i])
    requires j < |s| && IsRouted(s, j)
    ensures IsRouted(t, j)
  {
    var i: nat :| AnswersRequest(s, j, i);
    assert AnswersRequest(t, j, i);
  }

  lemma ExtendsKeeps(s: State, t: State)
    requires Routed(s) && Extends(s, t)
    ensures Routed(t)
  {
    forall id | id in t.pending ensures HasRequest(t, id) {
      assert HasRequest(s, id);
      var i: nat :| Waits(s, id, i);
      assert Waits(t, id, i);
    }
    forall j | 0 <= j < |t.trace| && t.trace[j].Answered? ensures IsRouted(t.trace, j) {
      assert j < |s.trace| && s.trace[j].Answered?;
      RoutedAfterPrefix(s.trace, t.trace, j);
    }
  }

  /** A request goes on waiting across an action that does not answer it or end its connection. */
  lemma SnocWaits(s: State, t: State, action: Action, id: RuntimeId)
    requires t.trace == s.trace + [action] && !Answers(action, id)
    requires id in s.pending && id in t.pending && t.pending[id] == s.pending[id] && HasRequest(s, id)
    requires t.generation >= s.generation
    requires t.connected && t.pending[id].generation == t.generation ==>
      s.connected && s.generation == t.generation && !IsMark(action)
    ensures HasRequest(t, id)
  {
    var i: nat :| Waits(s, id, i);
    assert Waits(t, id, i);
  }

  ghost predicate AllRouted(trace: seq<Action>) {
    forall j :: 0 <= j < |trace| && trace[j].Answered? ==> IsRouted(trace, j)
  }

  lemma SnocRouted(trace: seq<Action>, action: Action)
    requires AllRouted(trace) && !action.Answered?
    ensures AllRouted(trace + [action])
  {
    var longer := trace + [action];
    forall j | 0 <= j < |longer| && longer[j].Answered? ensures IsRouted(longer, j) {
      assert trace[j].Answered?;
      RoutedAfterPrefix(trace, longer, j);
    }
  }

  lemma MarkKeeps(s: State, t: State, mark: Action)
    requires Routed(s) && IsMark(mark) && t.trace == s.trace + [mark]
    requires t.nextRequest == s.nextRequest
    requires t.generation >= s.generation && (t.connected ==> t.generation > s.generation)
    requires forall id :: id in t.pending ==> id in s.pending && t.pending[id] == s.pending[id]
    ensures Routed(t)
  {
    SnocRouted(s.trace, mark);
    forall id | id in t.pending ensures HasRequest(t, id) {
      assert HasRequest(s, id);
      assert s.pending[id].generation <= s.generation;
      SnocWaits(s, t, mark, id);
    }
  }

  lemma ClosedKeeps(s: State)
    requires Routed(s)
    ensures Routed(Apply(s, Close))
  {
    var t := Apply(s, Close);
    var closed := t.(trace := s.trace + [Shut(s.generation)]);
    MarkKeeps(s, closed, Shut(s.generation));
    ExtendsKeeps(closed, t);
  }

  lemma AllocatedKeeps(s: State, publicId: string)
    requires Routed(s)
    ensures Routed(Allocated(s, publicId))
  {
    var t := Allocated(s, publicId);
    forall id | id in t.pending ensures HasRequest(t, id) {
      if id == NextId(s) {
        assert Waits(t, id, |s.trace|);
      } else {
        assert HasRequest(s, id);
        var i: nat :| Waits(s, id, i);
        assert Waits(t, id, i);
      }
    }
    forall j | 0 <= j < |t.trace| && t.trace[j].Answered? ensures IsRouted(t.trace, j) {
      assert s.trace[j].Answered?;
      RoutedAfterPrefix(s.trace, t.trace, j);
    }
  }

  lemma ForgottenKeeps(s: State, id: RuntimeId)
    requires Routed(s)
    ensures Routed(s.(pending := s.pending - {id}))
  {
    var t := s.(pending := s.pending - {id});
    forall other | other in t.pending ensures HasRequest(t, other) {
      assert HasRequest(s, other);
      var i: nat :| Waits(s, other, i);
      assert Waits(t, other, i);
    }
  }

  lemma AnsweredKeeps(s: State, action: Action, origin: nat)
    requires Routed(s) && action.Answered? && action.id !in s.pending
    requires AnswersRequest(s.trace + [action], |s.trace|, origin)
    ensures Routed(Record(s, action))
  {
    var t := Record(s, action);
    forall other | other in t.pending ensures HasRequest(t, other) {
      assert HasRequest(s, other);
      var i: nat :| Waits(s, other, i);
      assert Waits(t, other, i);
    }
    forall j | 0 <= j < |t.trace| && t.trace[j].Answered? ensures IsRouted(t.trace, j) {
      if j < |s.trace| {
        assert s.trace[j].Answered?;
        RoutedAfterPrefix(s.trace, t.trace, j);
      }
    }
  }

  lemma SettledKeeps(s: State, id: RuntimeId)
    requires Routed(s)
    ensures Routed(Settled(s, id))
  {
    if id in s.pending {
      ForgottenKeeps(s, id);
      if s.pending[id].generation == s.generation && s.connected {
        assert HasRequest(s, id);
        var origin: nat :| Waits(s, id, origin);
        var answer := Answered(s.generation, id, s.pending[id].publicId);
        assert AnswersRequest(s.trace + [answer], |s.trace|, origin);
        AnsweredKeeps(s.(pending := s.pending - {id}), answer, origin);
      }
    }
  }

  lemma IssuedKeeps(s: State, action: Action)
    requires Routed(s) && action.Dispatched? && action.id.number == s.nextRequest
    ensures Routed(Record(s.(nextRequest := s.nextRequest + 1), action))
  {
    var t := Record(s.(nextRequest := s.nextRequest + 1), action);
    SnocRouted(s.trace, action);
    forall id | id in t.pending ensures HasRequest(t, id) {
      assert HasRequest(s, id);
      SnocWaits(s, t, action, id);
    }
  }

  lemma LaunchedKeeps(s: State, id: AgentId)
    requires id in s.agents && s.agents[id].queue != [] && Routed(s)
    ensures Routed(Launched(Popped(s, id), id, s.agents[id].queue[0], QueuedRequest(s.nextRequest)))
  {
    var prompt, request := s.agents[id].queue[0], QueuedRequest(s.nextRequest);
    var action := Dispatched(id, request, prompt);
    IssuedKeeps(s, action);
    ExtendsKeeps(Record(s.(nextRequest := s.nextRequest + 1), action), Launched(Popped(s, id), id, prompt, request));
  }

  lemma ExtendsTransitive(s: State, t: State, u: State)
    requires Extends(s, t) && Extends(t, u)
    ensures Extends(s, u)
  {
    forall i {:trigger u.trace[i]} | 0 <= i < |s.trace| ensures u.trace[i] == s.trace[i] {
      assert t.trace[i] == s.trace[i];
    }
    forall i {:trigger u.trace[i]} | |s.trace| <= i < |u.trace| ensures IsPlain(u.trace[i]) {
      if i < |t.trace| { assert IsPlain(t.trace[i]); }
    }
  }

  lemma CancelledExtends(s: State, id: AgentId)
    requires id in s.agents
    ensures Extends(s, Cancelled(s, id))
  {
  }

  lemma FailedExtends(s: State, id: AgentId, cause: Cause)
    requires id in s.agents
    ensures Extends(s, FailedWith(s, id, cause))
  {
    CancelledExtends(s, id);
    var cancelled := Cancelled(s, id);
    var severed := WithAgent(cancelled, id, Severed(cancelled.agents[id]));
    assert Extends(cancelled, Announced(severed, id, BrokerError(cause)));
    ExtendsTransitive(s, cancelled, FailedWith(s, id, cause));
  }

  lemma AbandonedExtends(s: State, id: AgentId)
    requires id in s.agents && s.agents[id].queue != []
    ensures Extends(s, Abandoned(Popped(s, id), id, s.agents[id].queue[0]))
  {
    var t := Record(Popped(s, id), Undelivered(id, s.agents[id].queue[0]));
    assert Extends(s, t);
    FailedExtends(t, id, ChannelUnavailable);
    ExtendsTransitive(s, t, FailedWith(t, id, ChannelUnavailable));
  }

  predicate IsRouting(e: Effect) {
    e.Open? || e.Close? || e.Allocate? || e.Settle? || e.Dispatch?
  }

  lemma AnnouncedExtends(s: State, id: AgentId, kind: EventKind)
    ensures Extends(s, Observed(Announced(s, id, kind), id, kind))
  {
  }

  lemma LocalEffectExtends(s: State, e: Effect)
    requires Enabled(s, e) && IsLocal(e)
    ensures Extends(s, Apply(s, e))
  {
    LocalShape(s, e);
  }

  lemma SimpleEffectExtends(s: State, e: Effect)
    requires Enabled(s, e) && !IsRouting(e) && !IsLocal(e) && !IsMajor(e)
    ensures Extends(s, Apply(s, e))
  {
  }

  lemma OtherEffectExtends(s: State, e: Effect)
    requires Enabled(s, e) && !IsRouting(e)
    ensures Extends(s, Apply(s, e))
  {
    if e.Abandon? {
      AbandonedExtends(s, e.agent);
    } else if e.Cancel? {
      CancelledExtends(s, e.agent);
    } else if e.Fail? {
      FailedExtends(s, e.agent, e.cause);
    } else if e.Announce? {
      AnnouncedExtends(s, e.agent, e.kind);
    } else if IsLocal(e) {
      LocalEffectExtends(s, e);
    } else {
      SimpleEffectExtends(s, e);
    }
  }

  lemma EffectRouted(s: State, e: Effect)
    requires Enabled(s, e) && Routed(s)
    ensures Routed(Apply(s, e))
  {
    if !IsRouting(e) {
      OtherEffectExtends(s, e);
      ExtendsKeeps(s, Apply(s, e));
    } else {
      match e
      case Open(generation) => MarkKeeps(s, Apply(s, e), Opened(generation));
      case Close => ClosedKeeps(s);
      case Allocate(publicId) => AllocatedKeeps(s, publicId);
      case Settle(id) => SettledKeeps(s, id);
      case Dispatch(agent) => LaunchedKeeps(s, agent);
    }
  }

  lemma RunRouted(s: State, turns: seq<Turn>)
    requires Initial(s)
    ensures Routed(Run(s, turns))
  {
    assert Kept((t: State) => Routed(t)) by {
      forall t: State, e | Routed(t) && Enabled(t, e) ensures Routed(Apply(t, e)) { EffectRouted(t, e); }
    }
    RunKeeps((t: State) => Routed(t), s, turns);
  }

  // ---------------------------------------------------------------------------
  // Theorems

  /** Runtime request ids are never reused, by client requests or by queued prompts. */
  lemma RequestIdsAreFresh(s: State, turns: seq<Turn>, i: nat, j: nat)
    requires Initial(s)
    requires var trace := Run(s, turns).trace;
      i < |trace| && j < |trace| && Issues(trace[i]) && Issues(trace[j]) && trace[i].id == trace[j].id
    ensures i == j
  {
    RunRouted(s, turns);
  }

  /** Every response answers an earlier request of the same connection, which was open all the while. */
  lemma ResponsesAreRouted(s: State, turns: seq<Turn>, j: nat)
    requires Initial(s)
    requires j < |Run(s, turns).trace| && Run(s, turns).trace[j].Answered?
    ensures exists i :: AnswersRequest(Run(s, turns).trace, j, i)
    ensures Run(s, turns).trace[j].id.BrokerRequest?
  {
    RunRouted(s, turns);
    var trace := Run(s, turns).trace;
    assert IsRouted(trace, j);
    var i: nat :| AnswersRequest(trace, j, i);
    assert Issues(trace[i]);
  }

  /** No request is answered twice. */
  lemma AnsweredOnce(s: State, turns: seq<Turn>, j: nat, k: nat)
    requires Initial(s)
    requires var trace := Run(s, turns).trace;
      j < |trace| && k < |trace| && trace[j].Answered? && trace[k].Answered? && trace[j].id == trace[k].id
    ensures j == k
  {
    RunRouted(s, turns);
    var trace := Run(s, turns).trace;
    assert IsRouted(trace, j) && IsRouted(trace, k);
    var a: nat :| AnswersRequest(trace, j, a);
    var b: nat :| AnswersRequest(trace, k, b);
    RequestIdsAreFresh(s, turns, a, b);
  }

  /** A request still pending has not been answered. */
  lemma PendingIsUnanswered(s: State, turns: seq<Turn>, id: RuntimeId, j: nat)
    requires Initial(s)
    requires id in Run(s, turns).pending && j < |Run(s, turns).trace|
    ensures !Answers(Run(s, turns).trace[j], id)
  {
    RunRouted(s, turns);
    var t := Run(s, turns);
    assert HasRequest(t, id);
    var i: nat :| Waits(t, id, i);
    if t.trace[j].Answered? && j <= i {
      assert IsRouted(t.trace, j);
      var a: nat :| AnswersRequest(t.trace, j, a);
      if t.trace[j].id == id { RequestIdsAreFresh(s, turns, a, i); }
    }
  }
}
