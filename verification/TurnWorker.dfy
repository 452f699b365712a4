/**
 * The Claude worker's turns for one agent. Each step is what the worker does between two points at
 * which another coroutine may run; the session lock is held across the points inside it.
 */
module TurnWorker {
  import opened Options

  type TurnId = nat

  /** How far a turn's receive loop has come. */
  datatype Stage =
    | Receiving                 // inside the session's receive_turn
    | Settling                  // a response was received; waiting for the lock
    | Failing                   // receive_turn raised; waiting for the lock
    | Reporting                 // the failure is being reported
    | Finished(end: End)

  datatype End = Normal | Raised | Cancelled

  /** A turn's task, the responses it received, the steers it accepted, and whether its
      done-callback has run. */
  datatype Turn = Turn(stage: Stage, received: nat, steers: nat, notified: bool)

  datatype Lock = Free | Prompting | Steering(turn: TurnId) | Closing(closed: Option<TurnId>)

  /** `current` is the registered task, `pending` the number of responses still expected. */
  datatype Session = Session(
    live: bool,
    lock: Lock,
    current: Option<TurnId>,
    pending: nat,
    turns: seq<Turn>)

  predicate IsDone(s: Session, id: TurnId) {
    id < |s.turns| && s.turns[id].stage.Finished?
  }

  predicate HasActiveTurn(s: Session) {
    s.pending > 0 && s.current.Some? && !IsDone(s, s.current.value)
  }

  datatype Step =
    | Open
    | BeginPrompt
    | CommitPrompt
    | BeginSteer
    | CommitSteer
    | Abandon                   // the request that holds the lock fails or is cancelled
    | Receive(id: TurnId)
    | Raise(id: TurnId)
    | Settle(id: TurnId)
    | SettleFailure(id: TurnId)
    | Report(id: TurnId)
    | CancelTurn(id: TurnId)
    | Notify(id: TurnId)
    | BeginClose
    | EndClose
    | FailClose                 // the session's own close fails after the task was cancelled

  function At(s: Session, id: TurnId): Option<Stage> {
    if id < |s.turns| then Some(s.turns[id].stage) else None
  }

  /** When the event loop can run the step. */
  predicate Ready(s: Session, step: Step) {
    match step
    case Open => !s.live
    case BeginPrompt => s.live && s.lock.Free?
    case CommitPrompt => s.lock.Prompting?
    case BeginSteer => s.live && s.lock.Free?
    case CommitSteer => s.lock.Steering? && s.lock.turn < |s.turns|
    case Abandon => s.lock.Prompting? || s.lock.Steering?
    case Receive(id) => At(s, id) == Some(Receiving)
    case Raise(id) => At(s, id) == Some(Receiving)
    case Settle(id) => At(s, id) == Some(Settling) && s.lock.Free?
    case SettleFailure(id) => At(s, id) == Some(Failing) && s.lock.Free?
    case Report(id) => At(s, id) == Some(Reporting)
    case CancelTurn(id) => id < |s.turns| && !s.turns[id].stage.Finished?
    case Notify(id) => IsDone(s, id) && !s.turns[id].notified
    case BeginClose => s.live && s.lock.Free?
    case EndClose => IsClosed(s)
    case FailClose => IsClosed(s)
  }

  /** The task that the close cancelled is done. */
  predicate IsClosed(s: Session) {
    s.lock.Closing? && (s.lock.closed.Some? ==> IsDone(s, s.lock.closed.value))
  }

  function Moved(s: Session, id: TurnId, stage: Stage): Session
    requires id < |s.turns|
  {
    s.(turns := s.turns[id := s.turns[id].(stage := stage)])
  }

  function Next(s: Session, step: Step): Session
    requires Ready(s, step)
  {
    match step
    case Open => s.(live := true, lock := Free, pending := 0)
    case BeginPrompt => if HasActiveTurn(s) then s else s.(lock := Prompting)
    case CommitPrompt =>
      s.(lock := Free, pending := 1, current := Some(|s.turns|), turns := s.turns + [Turn(Receiving, 0, 0, false)])
    case BeginSteer => if HasActiveTurn(s) then s.(lock := Steering(s.current.value)) else s
    case CommitSteer =>
      var turn := s.turns[s.lock.turn];
      s.(lock := Free, pending := s.pending + 1, turns := s.turns[s.lock.turn := turn.(steers := turn.steers + 1)])
    case Abandon => s.(lock := Free)
    case Receive(id) =>
      s.(turns := s.turns[id := s.turns[id].(stage := Settling, received := s.turns[id].received + 1)])
    case Raise(id) => Moved(s, id, Failing)
    case Settle(id) =>
      if s.pending <= 1 then Moved(s, id, Finished(Normal)).(pending := 0)
      else Moved(s, id, Receiving).(pending := s.pending - 1)
    case SettleFailure(id) => Moved(s, id, Reporting).(pending := 0)
    case Report(id) => Moved(s, id, Finished(Raised))
    case CancelTurn(id) => Moved(s, id, Finished(Cancelled))
    case Notify(id) =>
      var notified := s.(turns := s.turns[id := s.turns[id].(notified := true)]);
      if s.current == Some(id) then notified.(current := None, pending := 0) else notified
    case BeginClose => s.(lock := Closing(s.current), current := None)
    case EndClose => s.(live := false, lock := Free, pending := 0)
    case FailClose => s.(lock := Free)
  }

  /** Any interleaving; a step that cannot run is skipped. */
  function Run(s: Session, steps: seq<Step>): Session {
    if steps == [] then s
    else
      var before := Run(s, steps[..|steps| - 1]);
      if Ready(before, steps[|steps| - 1]) then Next(before, steps[|steps| - 1]) else before
  }

  const Fresh := Session(false, Free, None, 0, [])

  // ---------------------------------------------------------------------------
  // What every schedule keeps

  /** The loop is still going to decide whether another response is expected. */
  predicate IsCounting(stage: Stage) {
    stage.Receiving? || stage.Settling?
  }

  /** Responses received or expected are the prompt's and the accepted steers'. */
  ghost predicate Balanced(s: Session, id: TurnId)
    requires id < |s.turns|
  {
    var turn := s.turns[id];
    && (turn.stage.Receiving? ==> turn.received + s.pending == 1 + turn.steers && s.pending >= 1)
    && (turn.stage.Settling? ==> turn.received + s.pending == 2 + turn.steers && s.pending >= 1)
  }

  /** A turn that still counts is the registered one, unless the session is being closed under it. */
  ghost predicate Registered(s: Session, id: TurnId)
    requires id < |s.turns|
  {
    var stage := s.turns[id].stage;
    IsCounting(stage) || stage.Failing? ==>
      && s.live
      && (s.current == Some(id) || s.lock == Closing(Some(id)))
      && s.pending > 0 && !s.lock.Prompting?
  }

  ghost predicate Complete(s: Session, id: TurnId)
    requires id < |s.turns|
  {
    s.turns[id].stage == Finished(Normal) ==> s.turns[id].received == 1 + s.turns[id].steers
  }

  ghost predicate Sound(s: Session, id: TurnId)
    requires id < |s.turns|
  {
    Balanced(s, id) && Registered(s, id) && Complete(s, id)
  }

  ghost predicate LockIsSound(s: Session) {
    && (s.current.Some? ==> s.current.value < |s.turns|)
    && (!s.live ==> s.lock.Free? && s.current.None?)
    && (s.lock.Closing? ==> s.current.None? && (s.lock.closed.Some? ==> s.lock.closed.value < |s.turns|))
    && (s.lock.Steering? ==>
          && s.lock.turn < |s.turns|
          && s.turns[s.lock.turn].stage != Finished(Normal)
          && (s.current.Some? ==> s.current.value == s.lock.turn))
  }

  ghost predicate Invariant(s: Session) {
    LockIsSound(s) && forall id :: 0 <= id < |s.turns| ==> Sound(s, id)
  }

  lemma LockStaysSound(s: Session, step: Step)
    requires Invariant(s) && Ready(s, step)
    ensures LockIsSound(Next(s, step))
  {
  }

  lemma TurnStaysSound(s: Session, step: Step, id: TurnId)
    requires Invariant(s) && Ready(s, step) && id < |s.turns|
    ensures Sound(Next(s, step), id)
  {
    assert Sound(s, id);
    match step
    case Settle(other) => assert Sound(s, other);
    case SettleFailure(other) => assert Sound(s, other);
    case _ =>
  }

  lemma StepKeepsInvariant(s: Session, step: Step)
    requires Invariant(s) && Ready(s, step)
    ensures Invariant(Next(s, step))
  {
    LockStaysSound(s, step);
    var t := Next(s, step);
    forall id | 0 <= id < |t.turns| ensures Sound(t, id) {
      if id < |s.turns| {
        TurnStaysSound(s, step, id);
      } else {
        assert step.CommitPrompt?;
      }
    }
  }

  lemma {:induction false} RunKeepsInvariant(steps: seq<Step>)
    ensures Invariant(Run(Fresh, steps))
  {
    if steps != [] {
      var front := steps[..|steps| - 1];
      RunKeepsInvariant(front);
      if Ready(Run(Fresh, front), steps[|steps| - 1]) {
        StepKeepsInvariant(Run(Fresh, front), steps[|steps| - 1]);
      }
    }
  }

  // ---------------------------------------------------------------------------
  // Theorems

  /** No steer is lost: a turn that ends normally has received one response for its prompt and one
      for every steer it accepted. */
  lemma NoSteerIsLost(steps: seq<Step>, id: TurnId)
    requires id < |Run(Fresh, steps).turns| && Run(Fresh, steps).turns[id].stage == Finished(Normal)
    ensures Run(Fresh, steps).turns[id].received == 1 + Run(Fresh, steps).turns[id].steers
  {
    RunKeepsInvariant(steps);
    assert Sound(Run(Fresh, steps), id);
  }

  /** Until it ends, a turn expects exactly the responses it has not received yet. */
  lemma ResponsesAreExpected(steps: seq<Step>, id: TurnId)
    requires id < |Run(Fresh, steps).turns| && Run(Fresh, steps).turns[id].stage.Receiving?
    ensures var s := Run(Fresh, steps);
      s.pending == 1 + s.turns[id].steers - s.turns[id].received && s.pending > 0
  {
    RunKeepsInvariant(steps);
    assert Sound(Run(Fresh, steps), id);
  }

  /** The steps that belong to a turn: its own, the steers it accepts, and the session's close. */
  predicate Concerns(step: Step, id: TurnId) {
    match step
    case Receive(other) => other == id
    case Raise(other) => other == id
    case Settle(other) => other == id
    case SettleFailure(other) => other == id
    case CancelTurn(other) => other == id
    case CommitSteer => true
    case BeginClose => true
    case _ => false
  }

  /** A turn that still counts is disturbed by nothing else: not by another prompt, and not by the
      late done-callback of an older turn. */
  lemma OlderTurnsAreHarmless(steps: seq<Step>, id: TurnId, step: Step)
    requires var s := Run(Fresh, steps);
      && id < |s.turns| && IsCounting(s.turns[id].stage) && s.current == Some(id)
      && Ready(s, step) && !Concerns(step, id)
    ensures var s := Run(Fresh, steps);
      var t := Next(s, step);
      t.pending == s.pending && t.current == Some(id) && t.turns[id] == s.turns[id]
  {
    RunKeepsInvariant(steps);
    var s := Run(Fresh, steps);
    assert Sound(s, id);
    forall other: TurnId | other < |s.turns| && (IsCounting(s.turns[other].stage) || s.turns[other].stage.Failing?)
      ensures s.lock.Free? ==> other == id
    {
      assert Sound(s, other);
    }
  }

  // ---------------------------------------------------------------------------
  // What gets through

  /** A turn that has reported its failure expects nothing, and takes no steer. */
  ghost predicate Reported(s: Session, id: TurnId)
    requires id < |s.turns|
  {
    s.turns[id].stage.Reporting? ==>
      (s.current == Some(id) ==> s.pending == 0) && s.lock != Steering(id)
  }

  ghost predicate AllReported(s: Session) {
    forall id :: 0 <= id < |s.turns| ==> Reported(s, id)
  }

  lemma StepKeepsReported(s: Session, step: Step)
    requires Invariant(s) && AllReported(s) && Ready(s, step)
    ensures AllReported(Next(s, step))
  {
    var t := Next(s, step);
    forall id | 0 <= id < |t.turns| ensures Reported(t, id) {
      if id < |s.turns| { assert Reported(s, id) && Sound(s, id); }
    }
  }

  lemma {:induction false} RunKeepsReported(steps: seq<Step>)
    ensures AllReported(Run(Fresh, steps))
  {
    if steps != [] {
      var front := steps[..|steps| - 1];
      RunKeepsReported(front);
      RunKeepsInvariant(front);
      if Ready(Run(Fresh, front), steps[|steps| - 1]) {
        StepKeepsReported(Run(Fresh, front), steps[|steps| - 1]);
      }
    }
  }

  /** Some turn still receives, or is about to settle. */
  predicate IsUnderWay(s: Session, id: TurnId) {
    id < |s.turns| && s.turns[id].stage in {Receiving, Settling, Failing}
  }

  /** Under every schedule, a prompt takes the session exactly when no turn is under way, and a steer exactly when
      one is, and then for that turn. */
  lemma PromptsAndSteersAlternate(steps: seq<Step>)
    requires Run(Fresh, steps).live && Run(Fresh, steps).lock.Free?
    ensures var s := Run(Fresh, steps);
      && (Next(s, BeginPrompt).lock == Prompting <==> !exists id :: IsUnderWay(s, id))
      && (Next(s, BeginSteer).lock.Steering? <==> exists id :: IsUnderWay(s, id))
      && (Next(s, BeginSteer).lock.Steering? ==> IsUnderWay(s, Next(s, BeginSteer).lock.turn))
  {
    var s := Run(Fresh, steps);
    RunKeepsInvariant(steps);
    RunKeepsReported(steps);
    if HasActiveTurn(s) {
      assert Reported(s, s.current.value);
      assert IsUnderWay(s, s.current.value);
    }
    if id :| IsUnderWay(s, id) { assert Sound(s, id); }
  }

  /** Under every schedule, a turn ends normally with the response that makes its count complete, and with no
      other. */
  lemma TurnsEndWhenComplete(steps: seq<Step>, id: TurnId)
    requires Ready(Run(Fresh, steps), Settle(id))
    ensures var s := Run(Fresh, steps);
      Next(s, Settle(id)).turns[id].stage
      == if s.turns[id].received == 1 + s.turns[id].steers then Finished(Normal) else Receiving
  {
    RunKeepsInvariant(steps);
    assert Sound(Run(Fresh, steps), id);
  }

  /** The done-callback of the registered turn makes room, and any other changes nothing but its own mark. */
  lemma CallbacksForgetTheirTurn(s: Session, id: TurnId)
    requires Ready(s, Notify(id))
    ensures var t := Next(s, Notify(id));
      && t.turns == s.turns[id := s.turns[id].(notified := true)] && t.live == s.live && t.lock == s.lock
      && (if s.current == Some(id) then t.current == None && t.pending == 0
          else t.current == s.current && t.pending == s.pending)
  {
  }

  // ---------------------------------------------------------------------------
  // The worker's own entries for the agent, updated in place

  class Worker {
    var live: bool
    var lock: Lock
    var current: Option<TurnId>
    var pending: nat
    var turns: seq<Turn>

    ghost function View(): Session
      reads this
    {
      Session(live, lock, current, pending, turns)
    }

    constructor ()
      ensures View() == Fresh
    {
      live, lock, current, pending, turns := false, Free, None, 0, [];
    }

    predicate ActiveTurn()
      reads this
      ensures ActiveTurn() == HasActiveTurn(View())
    {
      pending > 0 && current.Some? && !(current.value < |turns| && turns[current.value].stage.Finished?)
    }

    method SetStage(id: TurnId, stage: Stage)
      requires id < |turns|
      modifies this`turns
      ensures turns == old(turns)[id := old(turns)[id].(stage := stage)]
    {
      turns := turns[id := turns[id].(stage := stage)];
    }

    /** A prompt takes the lock, unless a turn is active. */
    method Prompt() returns (taken: bool)
      requires Ready(View(), BeginPrompt)
      modifies this
      ensures View() == Next(old(View()), BeginPrompt) && taken == !HasActiveTurn(old(View()))
    {
      taken := !ActiveTurn();
      if taken {
        lock := Prompting;
      }
    }

    /** The session took the prompt: the turn's task starts. */
    method StartTurn()
      requires Ready(View(), CommitPrompt)
      modifies this
      ensures View() == Next(old(View()), CommitPrompt)
    {
      pending := 1;
      current := Some(|turns|);
      turns := turns + [Turn(Receiving, 0, 0, false)];
      lock := Free;
    }

    method Steer() returns (taken: bool)
      requires Ready(View(), BeginSteer)
      modifies this
      ensures View() == Next(old(View()), BeginSteer) && taken == HasActiveTurn(old(View()))
    {
      taken := ActiveTurn();
      if taken {
        lock := Steering(current.value);
      }
    }

    method AcceptSteer()
      requires Ready(View(), CommitSteer)
      modifies this
      ensures View() == Next(old(View()), CommitSteer)
    {
      var id := lock.turn;
      pending := pending + 1;
      turns := turns[id := turns[id].(steers := turns[id].steers + 1)];
      lock := Free;
    }

    /** A response was received; another one is awaited while any is expected. */
    method SettleTurn(id: TurnId)
      requires Ready(View(), Settle(id))
      modifies this
      ensures View() == Next(old(View()), Settle(id))
    {
      if pending <= 1 {
        pending := 0;
        SetStage(id, Finished(Normal));
      } else {
        pending := pending - 1;
        SetStage(id, Receiving);
      }
    }

    method FailTurn(id: TurnId)
      requires Ready(View(), SettleFailure(id))
      modifies this
      ensures View() == Next(old(View()), SettleFailure(id))
    {
      pending := 0;
      SetStage(id, Reporting);
    }

    /** The done-callback of a turn's task. */
    method TurnFinished(id: TurnId)
      requires Ready(View(), Notify(id))
      modifies this
      ensures View() == Next(old(View()), Notify(id))
    {
      turns := turns[id := turns[id].(notified := true)];
      if current == Some(id) {
        current := None;
        pending := 0;
      }
    }

    method CloseSession()
      requires Ready(View(), BeginClose)
      modifies this
      ensures View() == Next(old(View()), BeginClose)
    {
      lock := Closing(current);
      current := None;
    }

    method ForgetSession()
      requires Ready(View(), EndClose)
      modifies this
      ensures View() == Next(old(View()), EndClose)
    {
      live := false;
      pending := 0;
      lock := Free;
    }

    method OpenSession()
      requires Ready(View(), Open)
      modifies this
      ensures View() == Next(old(View()), Open)
    {
      live := true;
      lock := Free;
      pending := 0;
    }

    /** Runs one step of some coroutine. */
    method Perform(step: Step)
      requires Ready(View(), step)
      modifies this
      ensures View() == Next(old(View()), step)
    {
      match step {
        case Open => OpenSession();
        case BeginPrompt => var _ := Prompt();
        case CommitPrompt => StartTurn();
        case BeginSteer => var _ := Steer();
        case CommitSteer => AcceptSteer();
        case Abandon => lock := Free;
        case Receive(id) => turns := turns[id := turns[id].(stage := Settling, received := turns[id].received + 1)];
        case Raise(id) => SetStage(id, Failing);
        case Settle(id) => SettleTurn(id);
        case SettleFailure(id) => FailTurn(id);
        case Report(id) => SetStage(id, Finished(Raised));
        case CancelTurn(id) => SetStage(id, Finished(Cancelled));
        case Notify(id) => TurnFinished(id);
        case BeginClose => CloseSession();
        case EndClose => ForgetSession();
        case FailClose => lock := Free;
      }
    }

    /** Runs a step if it can run. */
    method Offer(step: Step)
      modifies this
      ensures View() == if Ready(old(View()), step) then Next(old(View()), step) else old(View())
    {
      if Ready(Session(live, lock, current, pending, turns), step) {
        Perform(step);
      }
    }

    /** Runs a schedule, skipping what cannot run. */
    method Schedule(steps: seq<Step>)
      modifies this
      ensures View() == Run(old(View()), steps)
    {
      var i := 0;
      while i < |steps|
        invariant 0 <= i <= |steps|
        invariant View() == Run(old(View()), steps[..i])
      {
        Offer(steps[i]);
        i := i + 1;
        assert steps[..i][..|steps[..i]| - 1] == steps[..i - 1];
      }
      assert steps[..i] == steps;
    }
  }
}
