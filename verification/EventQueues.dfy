/** `EventQueue` (src/a2a/server/events/event_queue.py): a bounded buffer with taps. The
    class works in place on a tree of queues; `Node` is the value of such a tree, together
    with what the queue has seen, and every method is proved against a function on it. */
module EventQueues {
  import opened Types

  /** `log` is everything ever put, `taken` what was handed out, `acked` how many
      `task_done` calls were made, `tapAt` the length of the parent's log at the tap. */
  datatype Node = Node(
    buffer: seq<Event>, bound: nat, unfinished: nat, closed: bool,
    log: seq<Event>, taken: seq<Event>, acked: nat, tapAt: nat, kids: seq<Node>)

  const DEFAULT_MAX_QUEUE_SIZE := 1024

  function NewNode(bound: nat, tapAt: nat): Node {
    Node([], bound, 0, false, [], [], 0, tapAt, [])
  }

  /** No open queue that the event would reach is full, so no `put` has to wait. */
  predicate HasRoom(n: Node) {
    n.closed || (|n.buffer| < n.bound && forall i :: 0 <= i < |n.kids| ==> HasRoom(n.kids[i]))
  }

  /** A closed queue takes nothing and passes nothing on, even to open taps of its own. */
  function Publish(n: Node, e: Event): Node {
    if n.closed then n
    else n.(buffer := n.buffer + [e], unfinished := n.unfinished + 1, log := n.log + [e],
            kids := seq(|n.kids|, i requires 0 <= i < |n.kids| => Publish(n.kids[i], e)))
  }

  /** What `enqueue_event` gets done before a full queue makes it wait, if one does: a queue
      first, then its taps in order. */
  function Deliver(n: Node, e: Event): Node
    decreases n, 1
  {
    if n.closed || |n.buffer| >= n.bound then n
    else n.(buffer := n.buffer + [e], unfinished := n.unfinished + 1, log := n.log + [e],
            kids := DeliverInTurn(n.kids, e))
  }

  function DeliverInTurn(kids: seq<Node>, e: Event): (r: seq<Node>)
    ensures |r| == |kids|
    decreases kids, 0
  {
    if kids == [] then []
    else [Deliver(kids[0], e)] + (if HasRoom(kids[0]) then DeliverInTurn(kids[1..], e) else kids[1..])
  }

  /** Taps up to the first without room have the event, that one has what it could take, and
      the later ones are as they were. */
  lemma {:induction false} DeliverInTurnAt(kids: seq<Node>, e: Event, at: nat)
    requires at <= |kids| && (forall i :: 0 <= i < at ==> HasRoom(kids[i])) && (at < |kids| ==> !HasRoom(kids[at]))
    ensures var r := DeliverInTurn(kids, e);
            && (forall i :: 0 <= i <= at && i < |kids| ==> r[i] == Deliver(kids[i], e))
            && (forall i :: at < i < |kids| ==> r[i] == kids[i])
    decreases |kids|
  {
    if at > 0 {
      var rest := kids[1..];
      assert forall i :: 0 <= i < |rest| ==> rest[i] == kids[i + 1];
      DeliverInTurnAt(rest, e, at - 1);
      Shifted(kids, rest, DeliverInTurn(kids, e), DeliverInTurn(rest, e));
    }
  }

  lemma Shifted(kids: seq<Node>, rest: seq<Node>, r: seq<Node>, s: seq<Node>)
    requires kids != [] && rest == kids[1..] && |r| == |kids| && |s| == |rest| && r[1..] == s
    ensures forall i :: 0 < i < |kids| ==> r[i] == s[i - 1] && kids[i] == rest[i - 1]
  {
    assert forall i :: 0 < i < |kids| ==> r[i] == r[1..][i - 1];
  }

  /** The taps as the loop leaves them, when it stopped at `at`. */
  lemma DeliverKids(n: Node, e: Event, at: nat, kids: seq<Node>)
    requires !n.closed && |n.buffer| < n.bound && at <= |n.kids| == |kids|
    requires (forall i :: 0 <= i < at ==> HasRoom(n.kids[i])) && (at < |n.kids| ==> !HasRoom(n.kids[at]))
    requires forall i :: 0 <= i <= at && i < |kids| ==> kids[i] == Deliver(n.kids[i], e)
    requires forall i :: at < i < |kids| ==> kids[i] == n.kids[i]
    ensures Deliver(n, e).kids == kids && (HasRoom(n) <==> at == |kids|)
  {
    DeliverInTurnAt(n.kids, e, at);
    assert DeliverInTurn(n.kids, e) == kids;
  }

  /** With room everywhere it reaches every queue that is connected through open ones. */
  lemma {:induction false} DeliverIsPublish(n: Node, e: Event)
    requires HasRoom(n)
    ensures Deliver(n, e) == Publish(n, e)
  {
    if !n.closed {
      DeliverInTurnAt(n.kids, e, |n.kids|);
      forall i | 0 <= i < |n.kids|
        ensures Deliver(n.kids[i], e) == Publish(n.kids[i], e)
      {
        DeliverIsPublish(n.kids[i], e);
      }
      assert Deliver(n, e).kids == Publish(n, e).kids;
    }
  }

  function TapNode(n: Node): Node {
    n.(kids := n.kids + [NewNode(DEFAULT_MAX_QUEUE_SIZE, |n.log|)])
  }

  function TakeNode(n: Node): Node
    requires n.buffer != []
  {
    n.(buffer := n.buffer[1..], taken := n.taken + [n.buffer[0]])
  }

  function AckNode(n: Node): Node
    requires n.unfinished > 0
  {
    n.(unfinished := n.unfinished - 1, acked := n.acked + 1)
  }

  /** Each discarded event is acknowledged at once, so the count drops with the buffer. */
  function DropAll(n: Node): Node {
    n.(buffer := [], unfinished := if |n.buffer| <= n.unfinished then n.unfinished - |n.buffer| else 0)
  }

  function ClearNode(n: Node, deep: bool): Node {
    var m := DropAll(n);
    if deep then m.(kids := seq(|n.kids|, i requires 0 <= i < |n.kids| => ClearNode(n.kids[i], true))) else m
  }

  function CloseNow(n: Node): Node {
    DropAll(n).(closed := true, kids := seq(|n.kids|, i requires 0 <= i < |n.kids| => CloseNow(n.kids[i])))
  }

  /** A graceful close marks the queues; already closed ones return at once. */
  function CloseGently(n: Node): Node {
    if n.closed then n
    else n.(closed := true, kids := seq(|n.kids|, i requires 0 <= i < |n.kids| => CloseGently(n.kids[i])))
  }

  /** Whether a graceful close would have to wait for some `join()`. */
  predicate MustJoin(n: Node) {
    !n.closed && (n.unfinished > 0 || exists i :: 0 <= i < |n.kids| && MustJoin(n.kids[i]))
  }

  datatype Dequeued = Got(event: Event) | Empty | Closed

  class EventQueue {
    var buffer: seq<Event>
    const maxsize: nat
    var unfinished: nat
    var children: seq<EventQueue>
    var isClosed: bool
    ghost var Tree: Node
    ghost var Repr: set<EventQueue>

    /** The taps are queues of their own: no two trees of the forest share an object. */
    ghost predicate Family()
      reads this, Repr
      decreases Repr, 0
    {
      && this in Repr
      && (forall i :: 0 <= i < |children| ==>
            && children[i] in Repr && children[i].Repr < Repr && this !in children[i].Repr
            && children[i].Valid())
      && (forall i, j :: 0 <= i < j < |children| ==> children[i].Repr !! children[j].Repr)
    }

    ghost predicate Valid()
      reads this, Repr
      ensures Valid() ==> this in Repr
      decreases Repr, 1
    {
      && Family()
      && Tree.buffer == buffer && Tree.bound == maxsize
      && Tree.unfinished == unfinished && Tree.closed == isClosed
      && Tree.acked <= |Tree.taken| && unfinished == |buffer| + (|Tree.taken| - Tree.acked)
      && |Tree.kids| == |children|
      && (forall i :: 0 <= i < |children| ==> children[i].Tree == Tree.kids[i])
    }

    /** The tree's value, when the fields and the taps agree with it. */
    ghost method Show(n: Node)
      requires Family()
      requires n.buffer == buffer && n.bound == maxsize && n.unfinished == unfinished && n.closed == isClosed
      requires n.acked <= |n.taken| && unfinished == |buffer| + (|n.taken| - n.acked)
      requires |n.kids| == |children| && forall i :: 0 <= i < |children| ==> children[i].Tree == n.kids[i]
      modifies this`Tree
      ensures Valid() && Tree == n
    {
      Tree := n;
    }

    /** Someone has been at work in the `k`-th tap: it is a family of its own that may have
        grown by fresh queues, and everything else is as the tree says. */
    ghost predicate Disturbed(k: nat, all: set<EventQueue>)
      reads this, all
    {
      && this in Repr && Repr <= all && k < |children|
      && (forall i :: 0 <= i < |children| ==>
            && children[i] in Repr && children[i].Repr <= all && this !in children[i].Repr
            && children[i].Valid())
      && (forall i :: 0 <= i < |children| && i != k ==> children[i].Repr < Repr)
      && (forall i, j :: 0 <= i < j < |children| ==> children[i].Repr !! children[j].Repr)
      && Tree.buffer == buffer && Tree.bound == maxsize
      && Tree.unfinished == unfinished && Tree.closed == isClosed
      && Tree.acked <= |Tree.taken| && unfinished == |buffer| + (|Tree.taken| - Tree.acked)
      && |Tree.kids| == |children|
      && (forall i :: 0 <= i < |children| && i != k ==> children[i].Tree == Tree.kids[i])
    }

    /** The owner's view of its tree catches up. */
    ghost method Follow(k: nat)
      requires k < |children| && Disturbed(k, Repr + children[k].Repr)
      modifies this`Tree, this`Repr
      ensures Valid() && Repr == old(Repr) + children[k].Repr
      ensures Tree == old(Tree).(kids := old(Tree).kids[k := children[k].Tree])
    {
      Tree := Tree.(kids := Tree.kids[k := children[k].Tree]);
      Repr := Repr + children[k].Repr;
    }

    /** A non-positive size is refused by `Make`, as the source's constructor does. */
    constructor (maxsize: nat, ghost tapAt: nat)
      requires maxsize > 0
      ensures Valid() && Repr == {this} && Tree == NewNode(maxsize, tapAt)
    {
      this.buffer, this.maxsize, this.unfinished, this.children, this.isClosed := [], maxsize, 0, [], false;
      this.Tree, this.Repr := NewNode(maxsize, tapAt), {this};
    }

    static method Make(maxQueueSize: int) returns (q: EventQueue?)
      ensures q == null <==> maxQueueSize <= 0
      ensures q != null ==> q.Valid() && fresh(q.Repr) && q.Tree == NewNode(maxQueueSize, 0)
    {
      if maxQueueSize <= 0 {
        return null;
      }
      q := new EventQueue(maxQueueSize, 0);
    }

    /** `waits`: some queue on the way is full, and this is the state in which the `put` to
        it waits. */
    method EnqueueEvent(event: Event) returns (waits: bool)
      requires Valid()
      modifies Repr
      ensures Valid() && Repr == old(Repr)
      ensures Tree == Deliver(old(Tree), event)
      ensures waits <==> !HasRoom(old(Tree))
      decreases Repr, 1
    {
      if isClosed {
        return false;
      }
      if |buffer| >= maxsize {
        return true;
      }
      waits := PutAndPassOn(event);
    }

    method PutAndPassOn(event: Event) returns (waits: bool)
      requires Valid() && !isClosed && |buffer| < maxsize
      modifies Repr
      ensures Valid() && Repr == old(Repr)
      ensures Tree == Deliver(old(Tree), event) && (waits <==> !HasRoom(old(Tree)))
      decreases Repr, 0, 1
    {
      ghost var before := Tree;
      buffer := buffer + [event];
      unfinished := unfinished + 1;
      ghost var at;
      waits, at := EnqueueInChildren(event);
      DeliverKids(before, event, at,
                  seq(|children|, k requires 0 <= k < |children| reads this, children => children[k].Tree));
      Show(Deliver(before, event));
    }

    /** `at` is where the loop stopped. */
    method EnqueueInChildren(event: Event) returns (waits: bool, ghost at: nat)
      requires Family()
      modifies Repr - {this}
      ensures Family() && at <= |children| && (waits <==> at < |children|)
      ensures forall k :: 0 <= k < |children| ==> (k < at ==> HasRoom(old(children[k].Tree)))
      ensures waits ==> !HasRoom(old(children[at].Tree))
      ensures forall k :: 0 <= k < |children| ==>
                children[k].Tree == if k <= at then Deliver(old(children[k].Tree), event) else old(children[k].Tree)
      decreases Repr, 0, 0
    {
      waits, at := false, 0;
      var i := 0;
      while i < |children| && !waits
        invariant at <= i <= |children| && (if waits then i == at + 1 else i == at)
        invariant forall k :: 0 <= k < |children| ==> children[k].Valid() && children[k].Repr == old(children[k].Repr)
        invariant forall k :: 0 <= k < |children| ==>
                    children[k].Tree == if k < i then Deliver(old(children[k].Tree), event) else old(children[k].Tree)
        invariant forall k :: 0 <= k < |children| ==> (k < at ==> HasRoom(old(children[k].Tree)))
        invariant waits ==> !HasRoom(old(children[at].Tree))
        decreases |children| - i
      {
        waits := children[i].EnqueueEvent(event);
        i := i + 1;
        if !waits {
          at := i;
        }
      }
    }

    /** `Empty` is QueueEmpty for a caller that does not wait; a waiting caller tries again. */
    method DequeueEvent() returns (r: Dequeued)
      requires Valid()
      modifies this
      ensures Valid() && Repr == old(Repr)
      ensures if old(Tree).buffer != [] then r == Got(old(Tree).buffer[0]) && Tree == TakeNode(old(Tree))
              else r == (if old(Tree).closed then Closed else Empty) && Tree == old(Tree)
    {
      if isClosed && buffer == [] {
        return Closed;
      }
      if buffer == [] {
        return Empty;
      }
      r := Got(buffer[0]);
      buffer := buffer[1..];
      Tree := TakeNode(Tree);
    }

    /** Only for an event that was dequeued and not yet acknowledged; asyncio raises otherwise. */
    method TaskDone()
      requires Valid() && Tree.acked < |Tree.taken|
      modifies this
      ensures Valid() && Repr == old(Repr) && Tree == AckNode(old(Tree))
    {
      unfinished := unfinished - 1;
      Tree := AckNode(Tree);
    }

    method Tap() returns (queue: EventQueue)
      requires Valid()
      modifies this
      ensures Valid() && Tree == TapNode(old(Tree))
      ensures fresh(queue) && queue in Repr && fresh(Repr - old(Repr))
      ensures children == old(children) + [queue]
    {
      queue := new EventQueue(DEFAULT_MAX_QUEUE_SIZE, |Tree.log|);
      children := children + [queue];
      Repr := Repr + {queue};
      Tree := TapNode(Tree);
    }

    /** The draining loop acknowledges each event it discards. */
    method Drain()
      requires Valid()
      modifies this
      ensures Valid() && Repr == old(Repr) && children == old(children) && Tree == DropAll(old(Tree))
    {
      while buffer != []
        invariant children == old(children) && Repr == old(Repr) && isClosed == old(isClosed) && Tree == old(Tree)
        invariant unfinished == |buffer| + (|Tree.taken| - Tree.acked)
        decreases |buffer|
      {
        buffer := buffer[1..];
        unfinished := unfinished - 1;
      }
      Tree := DropAll(Tree);
    }

    method ClearEvents(clearChildQueues: bool)
      requires Valid()
      modifies Repr
      ensures Valid() && Repr == old(Repr) && Tree == ClearNode(old(Tree), clearChildQueues)
      decreases Repr, 1
    {
      ghost var before := Tree;
      Drain();
      if clearChildQueues && children != [] {
        ClearChildren();
      }
      Tree := ClearNode(before, clearChildQueues);
    }

    method ClearChildren()
      requires Family()
      modifies Repr - {this}
      ensures Family() && forall k :: 0 <= k < |children| ==> children[k].Tree == ClearNode(old(children[k].Tree), true)
      decreases Repr, 0
    {
      var i := 0;
      while i < |children|
        invariant i <= |children|
        invariant forall k :: 0 <= k < |children| ==> children[k].Valid() && children[k].Repr == old(children[k].Repr)
        invariant forall k :: 0 <= k < i ==> children[k].Tree == ClearNode(old(children[k].Tree), true)
        invariant forall k :: i <= k < |children| ==> children[k].Tree == old(children[k].Tree)
      {
        children[i].ClearEvents(true);
        i := i + 1;
      }
    }

    /** `waits` says whether a graceful close has to wait for some queue to drain. */
    method Close(immediate: bool) returns (waits: bool)
      requires Valid()
      modifies Repr
      ensures Valid() && Repr == old(Repr)
      ensures Tree == if immediate then CloseNow(old(Tree)) else CloseGently(old(Tree))
      ensures waits <==> !immediate && MustJoin(old(Tree))
      decreases Repr, 3
    {
      if immediate {
        CloseImmediately();
        return false;
      }
      if isClosed {
        return false;
      }
      ghost var before := Tree;
      isClosed := true;
      waits := CloseChildren(false);
      waits := waits || unfinished > 0;
      Tree := CloseGently(before);
    }

    /** The immediate branch: everything below is cleared first, then closed. */
    method CloseImmediately()
      requires Valid()
      modifies Repr
      ensures Valid() && Repr == old(Repr) && Tree == CloseNow(old(Tree))
      decreases Repr, 2
    {
      ghost var before := Tree;
      isClosed := true;
      Tree := before.(closed := true);
      ClearEvents(true);
      ClosingClearedKids(before);
      var waits := CloseChildren(true);
      Tree := CloseNow(before);
    }

    method CloseChildren(immediate: bool) returns (waits: bool)
      requires Family()
      modifies Repr - {this}
      ensures Family()
      ensures forall k :: 0 <= k < |children| ==>
                children[k].Tree == if immediate then CloseNow(old(children[k].Tree)) else CloseGently(old(children[k].Tree))
      ensures waits <==> !immediate && exists k :: 0 <= k < |children| && MustJoin(old(children[k].Tree))
      decreases Repr, 0
    {
      waits := false;
      var i := 0;
      while i < |children|
        invariant i <= |children|
        invariant forall k :: 0 <= k < |children| ==> children[k].Valid() && children[k].Repr == old(children[k].Repr)
        invariant forall k :: 0 <= k < i ==>
                    children[k].Tree == if immediate then CloseNow(old(children[k].Tree)) else CloseGently(old(children[k].Tree))
        invariant forall k :: i <= k < |children| ==> children[k].Tree == old(children[k].Tree)
        invariant waits <==> !immediate && exists k :: 0 <= k < i && MustJoin(old(children[k].Tree))
      {
        var w := children[i].Close(immediate);
        waits := waits || w;
        i := i + 1;
      }
    }
  }

  lemma {:induction false} CloseAfterClear(n: Node)
    ensures CloseNow(ClearNode(n, true)) == CloseNow(n)
  {
    forall i | 0 <= i < |n.kids|
      ensures CloseNow(ClearNode(n.kids[i], true)) == CloseNow(n.kids[i])
    {
      CloseAfterClear(n.kids[i]);
    }
    assert CloseNow(ClearNode(n, true)).kids == CloseNow(n).kids;
  }

  lemma ClosingClearedKids(n: Node)
    ensures var m := ClearNode(n.(closed := true), true);
            |m.kids| == |n.kids| && forall i :: 0 <= i < |n.kids| ==> CloseNow(m.kids[i]) == CloseNow(n).kids[i]
  {
    forall i | 0 <= i < |n.kids|
      ensures CloseNow(ClearNode(n.kids[i], true)) == CloseNow(n.kids[i])
    {
      CloseAfterClear(n.kids[i]);
    }
  }
}
