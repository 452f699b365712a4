/** Bounded, monotonic event replay. */
module Replay {
  import opened Options
  import opened Protocol

  datatype ReplayResult = Events(events: seq<Event>) | ResyncRequired(oldest: nat, latest: nat)

  /** Event number `i` of the log carries sequence `i + 1`. */
  ghost predicate Numbered(log: seq<Event>) {
    forall i :: 0 <= i < |log| ==> log[i].sequence == i + 1
  }

  /** The most recent `capacity` events. */
  function Window(log: seq<Event>, capacity: nat): seq<Event> {
    if |log| <= capacity then log else log[|log| - capacity..]
  }

  /** A cursor can be served when nothing after it has left the window. */
  predicate InWindow(log: seq<Event>, capacity: nat, cursor: nat) {
    |log| <= cursor + capacity
  }

  function After(log: seq<Event>, cursor: nat): seq<Event> {
    if cursor <= |log| then log[cursor..] else []
  }

  class ReplayBuffer {
    const capacity: nat
    var nextSequence: nat
    var events: seq<Event>
    /** Every event ever assigned a sequence. */
    ghost var log: seq<Event>

    ghost predicate Valid()
      reads this
    {
      && capacity > 0
      && nextSequence == |log| + 1
      && Numbered(log)
      && events == Window(log, capacity)
    }

    constructor (capacity: nat)
      requires capacity > 0
      ensures Valid() && this.capacity == capacity && log == []
    {
      this.capacity := capacity;
      nextSequence, events, log := 1, [], [];
    }

    method Push(agent: AgentId, kind: EventKind) returns (event: Event)
      requires Valid()
      modifies this
      ensures Valid()
      ensures event == Event(|old(log)| + 1, agent, kind)
      ensures log == old(log) + [event]
    {
      event := Event(nextSequence, agent, kind);
      nextSequence := nextSequence + 1;
      events := events + [event];
      if |events| > capacity {
        events := events[1..];
      }
      log := log + [event];
    }

    method Bounds() returns (bounds: Option<(nat, nat)>)
      requires Valid()
      ensures bounds == if log == [] then None
                        else Some((|log| - |events| + 1, |log|))
    {
      bounds := if events == [] then None else Some((events[0].sequence, events[|events| - 1].sequence));
    }

    /** Everything after the cursor, in order, exactly when none of it was dropped;
        a cursor beyond the log gets nothing. */
    method ReplayAfter(afterSequence: nat) returns (result: ReplayResult)
      requires Valid()
      ensures if InWindow(log, capacity, afterSequence) then result == Events(After(log, afterSequence))
              else result == ResyncRequired(|log| - capacity + 1, |log|)
    {
      var bounds := Bounds();
      if bounds.None? {
        return Events([]);
      }
      var (oldest, latest) := bounds.value;
      if afterSequence + 1 < oldest {
        return ResyncRequired(oldest, latest);
      }
      var later := Later(events, afterSequence);
      LaterIsSuffix(events, |log| - |events|, afterSequence);
      return Events(later);
    }
  }

  /** The events whose sequence exceeds the cursor. */
  function Later(events: seq<Event>, cursor: nat): seq<Event> {
    if events == [] then []
    else (if events[0].sequence > cursor then [events[0]] else []) + Later(events[1..], cursor)
  }

  lemma {:induction false} LaterIsSuffix(events: seq<Event>, dropped: nat, cursor: nat)
    requires forall i :: 0 <= i < |events| ==> events[i].sequence == dropped + i + 1
    ensures Later(events, cursor)
         == if cursor <= dropped then events
            else if cursor - dropped <= |events| then events[cursor - dropped..] else []
  {
    if events != [] {
      LaterIsSuffix(events[1..], dropped + 1, cursor);
    }
  }
}
