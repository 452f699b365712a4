/** A client that keeps a copy of one transcript from patches and snapshots.

    The broker commits documents one revision at a time and sends each patch only
    while the connection is ready; the wire is first-in first-out within one
    connection and may lose messages; the client applies a patch only at the
    revision before it and otherwise waits for a snapshot. */
module Convergence {
  import opened Options
  import opened Splice

  datatype Message<L> =
    | PatchMessage(revision: nat, edit: Edit<L>)
    | SnapshotMessage(revision: nat, lines: seq<L>)

  datatype Copy<L> = Copy(revision: nat, lines: seq<L>)

  /** `documents[r]` is what the broker's document was at revision `r`. */
  datatype World<L> = World(documents: seq<seq<L>>, ready: bool, wire: seq<Message<L>>, copy: Option<Copy<L>>)

  datatype Step<L> =
    | Commit(document: seq<L>)   // the broker's transcript changes
    | Answer                     // the broker answers a snapshot request
    | Deliver                    // the client reads the oldest message
    | Lose(index: nat)           // a message never arrives
    | Disconnect                 // everything in flight is gone
    | Connect

  function Revision<L>(w: World<L>): nat
    requires w.documents != []
  {
    |w.documents| - 1
  }

  function Current<L>(w: World<L>): seq<L>
    requires w.documents != []
  {
    w.documents[Revision(w)]
  }

  function Initial<L>(): World<L> { World([[]], false, [], None) }

  function Receive<L(==)>(copy: Option<Copy<L>>, message: Message<L>): Option<Copy<L>> {
    match message
    case SnapshotMessage(revision, lines) => Some(Copy(revision, lines))
    case PatchMessage(revision, edit) =>
      if copy.Some? && copy.value.revision + 1 == revision && edit.start <= edit.end <= |copy.value.lines|
      then Some(Copy(revision, Apply(copy.value.lines, edit)))
      else copy
  }

  function Take<L(==)>(w: World<L>, step: Step<L>): (r: World<L>)
    requires w.documents != []
    ensures r.documents != []
  {
    match step
    case Commit(document) =>
      var patch := PatchMessage(|w.documents|, Diff(Current(w), document));
      w.(documents := w.documents + [document], wire := if w.ready then w.wire + [patch] else w.wire)
    case Answer =>
      if w.ready then w.(wire := w.wire + [SnapshotMessage(Revision(w), Current(w))]) else w
    case Deliver =>
      if w.wire == [] then w else w.(wire := w.wire[1..], copy := Receive(w.copy, w.wire[0]))
    case Lose(index) =>
      if index < |w.wire| then w.(wire := w.wire[..index] + w.wire[index + 1..]) else w
    case Disconnect => w.(ready := false, wire := [])
    case Connect => w.(ready := true)
  }

  function Run<L(==)>(w: World<L>, steps: seq<Step<L>>): (r: World<L>)
    requires w.documents != []
    ensures r.documents != []
    decreases |steps|
  {
    if steps == [] then w else Run(Take(w, steps[0]), steps[1..])
  }

  /* ---- The copy is always one of the broker's documents ---- */

  ghost predicate Genuine<L>(documents: seq<seq<L>>, message: Message<L>) {
    match message
    case SnapshotMessage(revision, lines) => revision < |documents| && lines == documents[revision]
    case PatchMessage(revision, edit) =>
      0 < revision < |documents| && edit == Diff(documents[revision - 1], documents[revision])
  }

  ghost predicate Faithful<L>(w: World<L>) {
    && w.documents != []
    && (forall m | m in w.wire :: Genuine(w.documents, m))
    && (w.copy.Some? ==> IsCopy(w.documents, w.copy.value))
  }

  lemma StepKeepsFaithful<L>(w: World<L>, step: Step<L>)
    requires Faithful(w)
    ensures Faithful(Take(w, step))
  {
    match step
    case Commit(document) =>
      forall m | m in w.wire ensures Genuine(Take(w, step).documents, m) { assert Genuine(w.documents, m); }
    case Deliver => if w.wire != [] { DeliverKeepsFaithful(w); }
    case _ =>
  }

  ghost predicate IsCopy<L>(documents: seq<seq<L>>, copy: Copy<L>) {
    copy.revision < |documents| && copy.lines == documents[copy.revision]
  }

  /** What the client makes of a genuine message is a genuine document. */
  lemma ReceivedIsCopy<L>(documents: seq<seq<L>>, copy: Option<Copy<L>>, message: Message<L>)
    requires Genuine(documents, message) && (copy.Some? ==> IsCopy(documents, copy.value))
    ensures var later := Receive(copy, message); later.Some? ==> IsCopy(documents, later.value)
  {
    if message.PatchMessage? {
      DiffApplies(documents[message.revision - 1], documents[message.revision]);
    }
  }

  lemma DeliverKeepsFaithful<L>(w: World<L>)
    requires Faithful(w) && w.wire != []
    ensures Faithful(Take(w, Deliver))
  {
    var message, rest := w.wire[0], w.wire[1..];
    assert Genuine(w.documents, message);
    ReceivedIsCopy(w.documents, w.copy, message);
    assert Take(w, Deliver) == w.(wire := rest, copy := Receive(w.copy, message));
    forall m | m in rest ensures Genuine(w.documents, m) { assert m in w.wire; }
  }

  lemma {:induction false} RunKeepsFaithful<L>(w: World<L>, steps: seq<Step<L>>)
    requires Faithful(w)
    ensures Faithful(Run(w, steps))
    decreases |steps|
  {
    if steps != [] {
      StepKeepsFaithful(w, steps[0]);
      RunKeepsFaithful(Take(w, steps[0]), steps[1..]);
    }
  }

  /** Convergence: over any interleaving of edits, lost messages and reconnects, the
      client's lines are exactly the broker's document at the client's own revision. */
  lemma ClientHoldsItsRevision<L>(steps: seq<Step<L>>)
    ensures var w := Run(Initial<L>(), steps);
            w.copy.Some? ==> w.copy.value.revision <= Revision(w)
                             && w.copy.value.lines == w.documents[w.copy.value.revision]
  {
    RunKeepsFaithful(Initial<L>(), steps);
  }

  /** No patch is ever refused for its range: the revision check alone decides. */
  lemma RevisionDecides<L>(w: World<L>)
    requires Faithful(w) && w.wire != [] && w.wire[0].PatchMessage? && w.copy.Some?
    ensures var p, next := w.wire[0], Take(w, Deliver);
            p.revision < |w.documents| &&
            if w.copy.value.revision + 1 == p.revision
            then next.copy == Some(Copy(p.revision, w.documents[p.revision]))
            else next.copy == w.copy
  {
    assert Genuine(w.documents, w.wire[0]);
    if w.copy.value.revision + 1 == w.wire[0].revision {
      DiffApplies(w.documents[w.wire[0].revision - 1], w.documents[w.wire[0].revision]);
    }
  }

  /* ---- A client that loses nothing after a snapshot catches up ---- */

  /** What the client will hold once the wire is drained. */
  function Drained<L(==)>(copy: Option<Copy<L>>, wire: seq<Message<L>>): Option<Copy<L>>
    decreases |wire|
  {
    if wire == [] then copy else Drained(Receive(copy, wire[0]), wire[1..])
  }

  lemma {:induction false} DrainedSnoc<L>(copy: Option<Copy<L>>, wire: seq<Message<L>>, m: Message<L>)
    ensures Drained(copy, wire + [m]) == Receive(Drained(copy, wire), m)
    decreases |wire|
  {
    if wire == [] {
      assert (wire + [m])[1..] == [];
    } else {
      DrainedSnoc(Receive(copy, wire[0]), wire[1..], m);
      assert (wire + [m])[1..] == wire[1..] + [m];
    }
  }

  ghost predicate UpToDate<L>(w: World<L>) {
    w.documents != [] && w.ready && Drained(w.copy, w.wire) == Some(Copy(Revision(w), Current(w)))
  }

  ghost predicate Lossless<L>(steps: seq<Step<L>>) {
    forall s | s in steps :: s.Commit? || s.Answer? || s.Deliver?
  }

  lemma StepKeepsUpToDate<L>(w: World<L>, step: Step<L>)
    requires UpToDate(w) && (step.Commit? || step.Answer? || step.Deliver?)
    ensures UpToDate(Take(w, step))
  {
    match step
    case Commit(document) =>
      DrainedSnoc(w.copy, w.wire, PatchMessage(|w.documents|, Diff(Current(w), document)));
      DiffApplies(Current(w), document);
    case Answer =>
      DrainedSnoc(w.copy, w.wire, SnapshotMessage(Revision(w), Current(w)));
    case Deliver =>
  }

  lemma {:induction false} RunKeepsUpToDate<L>(w: World<L>, steps: seq<Step<L>>)
    requires UpToDate(w) && Lossless(steps)
    ensures UpToDate(Run(w, steps))
    decreases |steps|
  {
    if steps != [] {
      assert steps[0] in steps;
      StepKeepsUpToDate(w, steps[0]);
      RunKeepsUpToDate(Take(w, steps[0]), steps[1..]);
    }
  }

  /** Once a snapshot has been answered, and as long as nothing is lost after it, a
      client that has read everything holds the broker's current document, however
      stale it was and whatever was in flight before. */
  lemma SnapshotCatchesUp<L>(before: seq<Step<L>>, after: seq<Step<L>>)
    requires Run(Initial<L>(), before).ready && Lossless(after)
    ensures var w := Run(Take(Run(Initial<L>(), before), Answer), after);
            w.wire == [] ==> w.copy == Some(Copy(Revision(w), Current(w)))
  {
    var w := Run(Initial<L>(), before);
    DrainedSnoc(w.copy, w.wire, SnapshotMessage(Revision(w), Current(w)));
    RunKeepsUpToDate(Take(w, Answer), after);
  }
}
