/** Whole runs of a tree of event queues: one producer publishes to the root, and any
    queue at any depth may be tapped, read, acknowledged or closed in between. */
module QueueRuns {
  import opened Types
  import opened EventQueues

  type Path = seq<nat>

  datatype Op = Tap | Get | Ack | CloseAtOnce | CloseGracefully

  datatype Action = Pub(event: Event) | On(path: Path, op: Op)

  predicate HasPath(t: Node, path: Path) {
    path == [] || (path[0] < |t.kids| && HasPath(t.kids[path[0]], path[1..]))
  }

  function At(t: Node, path: Path): Node
    requires HasPath(t, path)
  {
    if path == [] then t else At(t.kids[path[0]], path[1..])
  }

  function Replace(t: Node, path: Path, n: Node): Node
    requires HasPath(t, path)
  {
    if path == [] then n else t.(kids := t.kids[path[0] := Replace(t.kids[path[0]], path[1..], n)])
  }

  /** An operation that has to wait, or that asyncio refuses, leaves the queue as it is. */
  function Perform(n: Node, op: Op): Node {
    match op
    case Tap => TapNode(n)
    case Get => if n.buffer != [] then TakeNode(n) else n
    case Ack => if n.acked < |n.taken| && n.unfinished > 0 then AckNode(n) else n
    case CloseAtOnce => CloseNow(n)
    case CloseGracefully => CloseGently(n)
  }

  function Step(t: Node, a: Action): Node {
    match a
    case Pub(e) => if HasRoom(t) then Publish(t, e) else t
    case On(path, op) => if HasPath(t, path) then Replace(t, path, Perform(At(t, path), op)) else t
  }

  function Run(t: Node, actions: seq<Action>): Node
    decreases |actions|
  {
    if actions == [] then t else Run(Step(t, actions[0]), actions[1..])
  }

  // ---- The same steps on the heap ----

  /** An operation on a queue anywhere in the real tree is that operation on its value, and
      on nothing else. Acknowledging is for what was dequeued. */
  method Act(q: EventQueue, path: Path, op: Op)
    requires q.Valid() && HasPath(q.Tree, path)
    requires op.Ack? ==> At(q.Tree, path).acked < |At(q.Tree, path).taken|
    modifies q.Repr
    ensures q.Valid() && fresh(q.Repr - old(q.Repr))
    ensures q.Tree == Replace(old(q.Tree), path, Perform(At(old(q.Tree), path), op))
    decreases |path|
  {
    if path == [] {
      ActHere(q, op);
    } else {
      Act(q.children[path[0]], path[1..], op);
      q.Follow(path[0]);
    }
  }

  method ActHere(q: EventQueue, op: Op)
    requires q.Valid() && (op.Ack? ==> q.Tree.acked < |q.Tree.taken|)
    modifies q.Repr
    ensures q.Valid() && fresh(q.Repr - old(q.Repr)) && q.Tree == Perform(old(q.Tree), op)
  {
    match op
    case Tap =>
      var tap := q.Tap();
    case Get =>
      var r := q.DequeueEvent();
    case Ack =>
      q.TaskDone();
    case CloseAtOnce =>
      var waits := q.Close(true);
    case CloseGracefully =>
      var waits := q.Close(false);
  }

  /** The action can be taken without waiting, by someone who holds that queue. */
  predicate Possible(t: Node, a: Action) {
    match a
    case Pub(_) => HasRoom(t)
    case On(path, op) => HasPath(t, path) && (op.Ack? ==> At(t, path).acked < |At(t, path).taken|)
  }

  predicate AllPossible(t: Node, actions: seq<Action>)
    decreases |actions|
  {
    actions == [] || (Possible(t, actions[0]) && AllPossible(Step(t, actions[0]), actions[1..]))
  }

  /** So a run of the objects is a run of the value, and all that is proved below about runs
      is true of them. */
  method Execute(root: EventQueue, actions: seq<Action>)
    requires root.Valid() && AllPossible(root.Tree, actions)
    modifies root.Repr
    ensures root.Valid() && fresh(root.Repr - old(root.Repr))
    ensures root.Tree == Run(old(root.Tree), actions)
    decreases |actions|
  {
    if actions != [] {
      if actions[0].Pub? {
        DeliverIsPublish(root.Tree, actions[0].event);
        var waits := root.EnqueueEvent(actions[0].event);
      } else {
        Act(root, actions[0].path, actions[0].op);
      }
      Execute(root, actions[1..]);
    }
  }

  // ---- The invariant ----

  /** A tap holds a contiguous slice of its parent's log, starting at the tap point and
      reaching the end of that log for as long as the tap is open. */
  predicate Linked(parent: Node, kid: Node) {
    && kid.tapAt + |kid.log| <= |parent.log|
    && kid.log == parent.log[kid.tapAt..kid.tapAt + |kid.log|]
    && (!kid.closed ==> kid.tapAt + |kid.log| == |parent.log|)
  }

  /** Bounded buffer, exact counter, first in first out, and linked taps, at every depth. */
  predicate Fine(n: Node) {
    && |n.buffer| <= n.bound && 0 < n.bound
    && n.acked <= |n.taken| && n.unfinished == |n.buffer| + (|n.taken| - n.acked)
    && n.taken + n.buffer <= n.log && (!n.closed ==> n.taken + n.buffer == n.log)
    && (forall i :: 0 <= i < |n.kids| ==> Linked(n, n.kids[i]) && Fine(n.kids[i]))
  }

  /** What no step but a publication changes, and what closing never undoes. */
  predicate SameStory(a: Node, b: Node) {
    b.log == a.log && b.tapAt == a.tapAt && (a.closed ==> b.closed)
  }

  lemma {:induction false} PublishFine(n: Node, e: Event)
    requires Fine(n) && HasRoom(n)
    ensures Fine(Publish(n, e))
  {
    if !n.closed {
      var m := Publish(n, e);
      forall i | 0 <= i < |n.kids|
        ensures Linked(m, m.kids[i]) && Fine(m.kids[i])
      {
        PublishFine(n.kids[i], e);
        var k := n.kids[i];
        assert n.log[k.tapAt..k.tapAt + |k.log|] == m.log[k.tapAt..k.tapAt + |k.log|];
      }
      assert n.taken + (n.buffer + [e]) == (n.taken + n.buffer) + [e];
    }
  }

  lemma {:induction false} CloseNowFine(n: Node)
    requires Fine(n)
    ensures Fine(CloseNow(n))
  {
    var m := CloseNow(n);
    assert n.taken + [] == n.taken <= n.taken + n.buffer;
    forall i | 0 <= i < |n.kids|
      ensures Linked(m, m.kids[i]) && Fine(m.kids[i])
    {
      CloseNowFine(n.kids[i]);
    }
  }

  lemma {:induction false} CloseGentlyFine(n: Node)
    requires Fine(n)
    ensures Fine(CloseGently(n)) && SameStory(n, CloseGently(n))
  {
    var m := CloseGently(n);
    if !n.closed {
      forall i | 0 <= i < |n.kids|
        ensures Linked(m, m.kids[i]) && Fine(m.kids[i])
      {
        CloseGentlyFine(n.kids[i]);
      }
    }
  }

  lemma PerformFine(n: Node, op: Op)
    requires Fine(n)
    ensures Fine(Perform(n, op)) && SameStory(n, Perform(n, op))
  {
    match op
    case Tap =>
      assert n.log[|n.log|..|n.log| + 0] == [];
    case Get =>
      if n.buffer != [] {
        assert (n.taken + [n.buffer[0]]) + n.buffer[1..] == n.taken + n.buffer;
      }
    case Ack =>
    case CloseAtOnce =>
      CloseNowFine(n);
    case CloseGracefully =>
      CloseGentlyFine(n);
  }

  lemma {:induction false} ReplaceFine(t: Node, path: Path, n: Node)
    requires Fine(t) && HasPath(t, path) && Fine(n) && SameStory(At(t, path), n)
    ensures Fine(Replace(t, path, n)) && SameStory(t, Replace(t, path, n))
    decreases |path|
  {
    if path != [] {
      ReplaceFine(t.kids[path[0]], path[1..], n);
    }
  }

  lemma StepFine(t: Node, a: Action)
    requires Fine(t)
    ensures Fine(Step(t, a))
  {
    match a
    case Pub(e) =>
      if HasRoom(t) {
        PublishFine(t, e);
      }
    case On(path, op) =>
      if HasPath(t, path) {
        FineAt(t, path);
        PerformFine(At(t, path), op);
        ReplaceFine(t, path, Perform(At(t, path), op));
      }
  }

  lemma {:induction false} FineAt(t: Node, path: Path)
    requires Fine(t) && HasPath(t, path)
    ensures Fine(At(t, path))
    decreases |path|
  {
    if path != [] {
      FineAt(t.kids[path[0]], path[1..]);
    }
  }

  /** Every reachable tree is fine: buffers within bounds, counters exact, taps in step. */
  lemma {:induction false} RunFine(t: Node, actions: seq<Action>)
    requires Fine(t)
    ensures Fine(Run(t, actions))
    decreases |actions|
  {
    if actions != [] {
      StepFine(t, actions[0]);
      RunFine(Step(t, actions[0]), actions[1..]);
    }
  }

  // ---- What a subscriber at any depth sees ----

  /** Where in the root's log the queue at `path` begins. */
  function Offset(t: Node, path: Path): nat
    requires HasPath(t, path)
  {
    if path == [] then 0 else t.kids[path[0]].tapAt + Offset(t.kids[path[0]], path[1..])
  }

  predicate OpenBelow(t: Node, path: Path)
    requires HasPath(t, path)
  {
    path == [] || (!t.kids[path[0]].closed && OpenBelow(t.kids[path[0]], path[1..]))
  }

  lemma SliceOfSlice<T>(s: seq<T>, a: nat, b: nat, c: nat, d: nat)
    requires a <= b <= |s| && c <= d <= b - a
    ensures s[a..b][c..d] == s[a + c..a + d]
  {
    var x, y := s[a..b][c..d], s[a + c..a + d];
    assert |x| == |y|;
    forall i | 0 <= i < |x|
      ensures x[i] == y[i]
    {
      assert x[i] == s[a..b][c + i];
    }
  }

  lemma {:induction false} SliceOfRoot(t: Node, path: Path)
    requires Fine(t) && HasPath(t, path)
    ensures var n := At(t, path);
            var from := Offset(t, path);
            && from + |n.log| <= |t.log|
            && n.log == t.log[from..from + |n.log|]
            && (OpenBelow(t, path) ==> from + |n.log| == |t.log|)
    decreases |path|
  {
    if path == [] {
      assert t.log[0..0 + |t.log|] == t.log;
    } else {
      var k := t.kids[path[0]];
      SliceOfRoot(k, path[1..]);
      var n := At(t, path);
      var from := Offset(k, path[1..]);
      assert Linked(t, k);
      SliceOfSlice(t.log, k.tapAt, k.tapAt + |k.log|, from, from + |n.log|);
    }
  }

  /** Over any run, whatever a subscriber has been handed is an unbroken stretch of what
      was published, in order, from its offset on; its buffer holds what comes next. */
  lemma SubscriberSeesSlice(bound: nat, actions: seq<Action>, path: Path)
    requires bound > 0 && HasPath(Run(NewNode(bound, 0), actions), path)
    ensures var t := Run(NewNode(bound, 0), actions);
            var n := At(t, path);
            var from := Offset(t, path);
            && from + |n.taken| + |n.buffer| <= |t.log|
            && n.taken + n.buffer == t.log[from..from + |n.taken| + |n.buffer|]
            && |n.buffer| <= n.bound
            && n.unfinished == |n.buffer| + |n.taken| - n.acked
            && (OpenBelow(t, path) && !n.closed ==> from + |n.taken| + |n.buffer| == |t.log|)
  {
    var t := Run(NewNode(bound, 0), actions);
    RunFine(NewNode(bound, 0), actions);
    SliceOfRoot(t, path);
    FineAt(t, path);
    var n := At(t, path);
    var from := Offset(t, path);
    assert n.taken + n.buffer == n.log[..|n.taken| + |n.buffer|];
    SliceOfSlice(t.log, from, from + |n.log|, 0, |n.taken| + |n.buffer|);
  }

  // ---- Queues keep their place, and taps start at the moment of the tap ----

  predicate Continues(before: Node, after: Node) {
    && after.tapAt == before.tapAt && after.bound == before.bound
    && before.log <= after.log && before.taken <= after.taken && before.acked <= after.acked
    && (before.closed ==> after.closed && after.log == before.log)
    && |before.kids| <= |after.kids|
  }

  lemma {:induction false} StepContinues(t: Node, a: Action, path: Path)
    requires HasPath(t, path)
    ensures HasPath(Step(t, a), path) && Continues(At(t, path), At(Step(t, a), path))
    decreases |path|
  {
    match a
    case Pub(e) =>
      if HasRoom(t) {
        PublishContinues(t, e, path);
      }
    case On(p, op) =>
      if HasPath(t, p) {
        ReplaceContinues(t, p, op, path);
      }
  }

  lemma {:induction false} PublishContinues(t: Node, e: Event, path: Path)
    requires HasPath(t, path)
    ensures HasPath(Publish(t, e), path) && Continues(At(t, path), At(Publish(t, e), path))
    decreases |path|
  {
    if path != [] && !t.closed {
      PublishContinues(t.kids[path[0]], e, path[1..]);
    }
  }

  lemma {:induction false} ReplaceContinues(t: Node, p: Path, op: Op, path: Path)
    requires HasPath(t, p) && HasPath(t, path)
    ensures var t' := Replace(t, p, Perform(At(t, p), op));
            HasPath(t', path) && Continues(At(t, path), At(t', path))
    decreases |p|
  {
    if p == [] {
      PerformContinues(t, op, path);
    } else if path != [] && path[0] == p[0] {
      ReplaceContinues(t.kids[p[0]], p[1..], op, path[1..]);
    }
  }

  lemma {:induction false} PerformContinues(n: Node, op: Op, path: Path)
    requires HasPath(n, path)
    ensures HasPath(Perform(n, op), path) && Continues(At(n, path), At(Perform(n, op), path))
    decreases |path|
  {
    if path != [] {
      if op.CloseAtOnce? || op.CloseGracefully? {
        PerformContinues(n.kids[path[0]], op, path[1..]);
      }
    }
  }

  lemma {:induction false} RunContinues(t: Node, actions: seq<Action>, path: Path)
    requires HasPath(t, path)
    ensures HasPath(Run(t, actions), path) && Continues(At(t, path), At(Run(t, actions), path))
    decreases |actions|
  {
    if actions != [] {
      StepContinues(t, actions[0], path);
      RunContinues(Step(t, actions[0]), actions[1..], path);
    }
  }

  lemma {:induction false} TappedAt(t: Node, path: Path)
    requires HasPath(t, path)
    ensures var t' := Step(t, On(path, Tap));
            var kid := path + [|At(t, path).kids|];
            && HasPath(t', kid) && At(t', kid) == Node([], 1024, 0, false, [], [], 0, |At(t, path).log|, [])
    decreases |path|
  {
    var kid := path + [|At(t, path).kids|];
    if path != [] {
      TappedAt(t.kids[path[0]], path[1..]);
      assert kid[1..] == path[1..] + [|At(t, path).kids|];
    }
  }

  lemma {:induction false} ParentOf(t: Node, path: Path, k: nat)
    requires HasPath(t, path + [k])
    ensures HasPath(t, path) && k < |At(t, path).kids| && At(t, path).kids[k] == At(t, path + [k])
    decreases |path|
  {
    if path != [] {
      assert (path + [k])[1..] == path[1..] + [k];
      ParentOf(t.kids[path[0]], path[1..], k);
    }
  }

  /** A queue tapped now receives exactly what its parent logs from now on, gap-free, up
      to the moment it is closed. */
  lemma TapSeesTheFuture(t: Node, path: Path, later: seq<Action>)
    requires Fine(t) && HasPath(t, path)
    ensures var before := At(t, path);
            var kid := path + [|before.kids|];
            var t' := Run(Step(t, On(path, Tap)), later);
            && HasPath(t', path) && HasPath(t', kid)
            && before.log <= At(t', path).log
            && At(t', kid).log <= At(t', path).log[|before.log|..]
            && (!At(t', kid).closed ==> At(t', kid).log == At(t', path).log[|before.log|..])
  {
    var before := At(t, path);
    var k := |before.kids|;
    var kid := path + [k];
    var t1 := Step(t, On(path, Tap));
    TappedAt(t, path);
    StepFine(t, On(path, Tap));
    StepContinues(t, On(path, Tap), path);
    RunFine(t1, later);
    RunContinues(t1, later, path);
    RunContinues(t1, later, kid);
    var t' := Run(t1, later);
    ParentOf(t', path, k);
    FineAt(t', path);
    assert Linked(At(t', path), At(t', kid));
  }

  // ---- Closing at once ----

  predicate Quiet(n: Node) {
    n.closed && n.buffer == [] && forall i :: 0 <= i < |n.kids| ==> Quiet(n.kids[i])
  }

  /** No `join()` in the tree has anything left to wait for. */
  predicate Joined(n: Node) {
    n.unfinished == 0 && forall i :: 0 <= i < |n.kids| ==> Joined(n.kids[i])
  }

  /** Everything handed out has been acknowledged. */
  predicate AllAcknowledged(n: Node) {
    n.acked == |n.taken| && forall i :: 0 <= i < |n.kids| ==> AllAcknowledged(n.kids[i])
  }

  /** `close(True)` leaves the whole subtree closed and empty, and releases every pending
      graceful close exactly when no dequeued event is still unacknowledged. */
  lemma {:induction false} CloseNowReleases(n: Node)
    requires Fine(n)
    ensures Quiet(CloseNow(n))
    ensures Joined(CloseNow(n)) <==> AllAcknowledged(n)
    ensures !MustJoin(CloseNow(n))
  {
    var m := CloseNow(n);
    forall i | 0 <= i < |n.kids|
      ensures Quiet(m.kids[i]) && (Joined(m.kids[i]) <==> AllAcknowledged(n.kids[i]))
    {
      CloseNowReleases(n.kids[i]);
    }
    if Joined(m) {
      forall i | 0 <= i < |n.kids|
        ensures AllAcknowledged(n.kids[i])
      {
        assert Joined(m.kids[i]);
      }
    }
  }

  // ---- Closing and clearing, queue by queue ----

  /** The queue at the path and all on the way to it are open. */
  predicate OpenAlong(n: Node, path: Path)
    requires HasPath(n, path)
  {
    !n.closed && (path == [] || OpenAlong(n.kids[path[0]], path[1..]))
  }

  /** Alike in all that was ever put, handed out and acknowledged, and in size and place. */
  predicate SameRecord(a: Node, b: Node) {
    && b.log == a.log && b.taken == a.taken && b.acked == a.acked && b.bound == a.bound && b.tapAt == a.tapAt
    && |b.kids| == |a.kids|
  }

  /** A graceful close keeps what is buffered everywhere, and closes exactly the queues it can
      reach through open ones. */
  lemma {:induction false} ClosedGentlyAt(n: Node, path: Path)
    requires HasPath(n, path)
    ensures HasPath(CloseGently(n), path)
    ensures var a, b := At(n, path), At(CloseGently(n), path);
            && SameRecord(a, b) && b.buffer == a.buffer && b.unfinished == a.unfinished
            && (b.closed <==> a.closed || OpenAlong(n, path))
    decreases |path|
  {
    if path != [] {
      ClosedGentlyAt(n.kids[path[0]], path[1..]);
    }
  }

  /** An immediate one closes and empties every queue below, each discarded event counted as
      done. */
  lemma {:induction false} ClosedNowAt(n: Node, path: Path)
    requires HasPath(n, path)
    ensures HasPath(CloseNow(n), path)
    ensures var a, b := At(n, path), At(CloseNow(n), path);
            SameRecord(a, b) && b.closed && b.buffer == [] && b.unfinished == a.unfinished - Least(a.unfinished, |a.buffer|)
    decreases |path|
  {
    if path != [] {
      ClosedNowAt(n.kids[path[0]], path[1..]);
    }
  }

  /** Clearing empties this queue, and those below only if asked to, and closes none. */
  lemma {:induction false} ClearedAt(n: Node, deep: bool, path: Path)
    requires HasPath(n, path)
    ensures HasPath(ClearNode(n, deep), path)
    ensures var a, b := At(n, path), At(ClearNode(n, deep), path);
            if deep || path == [] then
              && SameRecord(a, b) && b.closed == a.closed && b.buffer == []
              && b.unfinished == a.unfinished - Least(a.unfinished, |a.buffer|)
            else b == a
    decreases |path|
  {
    if path != [] {
      if deep {
        ClearedAt(n.kids[path[0]], true, path[1..]);
      }
    }
  }

  /** A queue with unfinished work that a graceful close reaches. */
  predicate Unfinished(n: Node, path: Path) {
    HasPath(n, path) && OpenAlong(n, path) && At(n, path).unfinished > 0
  }

  /** A graceful close waits if and only if it reaches one. */
  lemma MustJoinIff(n: Node)
    ensures MustJoin(n) <==> exists path: Path :: Unfinished(n, path)
  {
    if MustJoin(n) {
      var path := SomeUnfinished(n);
    }
    if path: Path :| Unfinished(n, path) {
      UnfinishedMustJoin(n, path);
    }
  }

  lemma {:induction false} SomeUnfinished(n: Node) returns (path: Path)
    requires MustJoin(n)
    ensures Unfinished(n, path)
  {
    if n.unfinished > 0 {
      path := [];
    } else {
      var i :| 0 <= i < |n.kids| && MustJoin(n.kids[i]);
      var below := SomeUnfinished(n.kids[i]);
      path := [i] + below;
      assert path[1..] == below;
    }
  }

  lemma {:induction false} UnfinishedMustJoin(n: Node, path: Path)
    requires Unfinished(n, path)
    ensures MustJoin(n)
    decreases |path|
  {
    if path != [] {
      UnfinishedMustJoin(n.kids[path[0]], path[1..]);
    }
  }

  // ---- Enqueueing, queue by queue ----

  /** A full queue that an event comes to through open ones. */
  predicate Full(n: Node, path: Path) {
    HasPath(n, path) && OpenAlong(n, path) && |At(n, path).buffer| >= At(n, path).bound
  }

  /** An enqueue has to wait if and only if there is one; the last free place can be used. */
  lemma WaitsIff(n: Node)
    ensures !HasRoom(n) <==> exists path: Path :: Full(n, path)
  {
    if !HasRoom(n) {
      var path := SomeFull(n);
    }
    if path: Path :| Full(n, path) {
      FullHasNoRoom(n, path);
    }
  }

  lemma {:induction false} SomeFull(n: Node) returns (path: Path)
    requires !HasRoom(n)
    ensures Full(n, path)
  {
    if |n.buffer| >= n.bound {
      path := [];
    } else {
      var i :| 0 <= i < |n.kids| && !HasRoom(n.kids[i]);
      var below := SomeFull(n.kids[i]);
      path := [i] + below;
      assert path[1..] == below;
    }
  }

  lemma {:induction false} FullHasNoRoom(n: Node, path: Path)
    requires Full(n, path)
    ensures !HasRoom(n)
    decreases |path|
  {
    if path != [] {
      FullHasNoRoom(n.kids[path[0]], path[1..]);
    }
  }

  /** The event gets to this queue: those on the way are open and not full, and so is it; and
      at each of them no earlier tap made the enqueue wait. */
  predicate GetsTo(n: Node, path: Path)
    requires HasPath(n, path)
  {
    && !n.closed && |n.buffer| < n.bound
    && (path == [] || ((forall i :: 0 <= i < path[0] ==> HasRoom(n.kids[i])) && GetsTo(n.kids[path[0]], path[1..])))
  }

  /** Exactly the queues it gets to have it, at the end of buffer and log; the others are as
      they were. */
  lemma {:induction false} DeliveredAt(n: Node, e: Event, path: Path)
    requires HasPath(n, path)
    ensures HasPath(Deliver(n, e), path)
    ensures var a, b := At(n, path), At(Deliver(n, e), path);
            && b.taken == a.taken && b.acked == a.acked && b.bound == a.bound && b.tapAt == a.tapAt
            && b.closed == a.closed && |b.kids| == |a.kids|
            && (if GetsTo(n, path)
                then b.buffer == a.buffer + [e] && b.log == a.log + [e] && b.unfinished == a.unfinished + 1
                else b.buffer == a.buffer && b.log == a.log && b.unfinished == a.unfinished)
    decreases |path|
  {
    if path != [] && !n.closed && |n.buffer| < n.bound {
      var at := FirstWithoutRoom(n.kids);
      DeliverInTurnAt(n.kids, e, at);
      if path[0] <= at {
        DeliveredAt(n.kids[path[0]], e, path[1..]);
      }
    }
  }

  function FirstWithoutRoom(kids: seq<Node>): (k: nat)
    ensures k <= |kids| && (forall i :: 0 <= i < k ==> HasRoom(kids[i])) && (k < |kids| ==> !HasRoom(kids[k]))
  {
    if kids == [] || !HasRoom(kids[0]) then 0 else 1 + FirstWithoutRoom(kids[1..])
  }
}
