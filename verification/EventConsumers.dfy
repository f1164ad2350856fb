/** `EventConsumer.consume_all` (src/a2a/server/events/event_consumer.py) draining the root
    of a queue tree while the agent publishes and others tap, read and close below. */
module EventConsumers {
  import opened Types
  import opened Streams
  import opened EventQueues
  import opened QueueRuns

  datatype Mode = Polling | Stopped | Raised

  /** `failed`: the agent's task ended with an exception, set by `agent_task_callback`. */
  datatype Consumer = Consumer(tree: Node, mode: Mode, failed: bool, yielded: seq<Event>)

  /** One turn of the loop in `consume_all`. A final event closes the queue before it is
      yielded; an empty open queue means the wait timed out. */
  function Poll(c: Consumer): Consumer {
    if !c.mode.Polling? then c
    else if c.failed then c.(mode := Raised)
    else if c.tree.buffer != [] then
      var e := c.tree.buffer[0];
      var t := TakeNode(c.tree);
      var acked := if t.unfinished > 0 then AckNode(t) else t;
      if IsFinal(e) then c.(tree := CloseNow(acked), mode := Stopped, yielded := c.yielded + [e])
      else c.(tree := acked, yielded := c.yielded + [e])
    else if c.tree.closed then c.(mode := Stopped)
    else c
  }

  class EventConsumer {
    const queue: EventQueue
    var mode: Mode
    var exception: bool
    var yielded: seq<Event>

    ghost function View(): Consumer
      reads this, queue
    {
      Consumer(queue.Tree, mode, exception, yielded)
    }

    constructor (queue: EventQueue)
      ensures this.queue == queue && View() == Consumer(queue.Tree, Polling, false, [])
    {
      this.queue := queue;
      this.mode, this.exception, this.yielded := Polling, false, [];
    }

    /** `cancelled` tasks leave no exception behind. */
    method AgentTaskCallback(cancelled: bool, raised: bool)
      modifies this
      ensures View() == old(View()).(failed := if cancelled then old(exception) else raised)
    {
      if !cancelled {
        exception := raised;
      }
    }

    method PollOnce()
      requires queue.Valid()
      modifies this, queue.Repr
      ensures queue.Valid() && queue.Repr == old(queue.Repr)
      ensures View() == Poll(old(View()))
    {
      if mode != Polling {
        return;
      }
      if exception {
        mode := Raised;
        return;
      }
      var r := queue.DequeueEvent();
      match r
      case Got(event) =>
        queue.TaskDone();
        if IsFinal(event) {
          var waits := queue.Close(true);
          mode := Stopped;
        }
        yielded := yielded + [event];
      case Closed =>
        mode := Stopped;
      case Empty =>
    }
  }

  // ---- Whole runs ----

  datatype Turn = Others(action: Action) | ConsumerTurn | AgentRaises

  /** Nobody else reads the root, acknowledges its events or closes it at once. */
  predicate Allowed(a: Action) {
    a.On? && a.path == [] ==> a.op == Tap || a.op == CloseGracefully
  }

  function Next(c: Consumer, turn: Turn): Consumer {
    match turn
    case Others(a) => c.(tree := Step(c.tree, a))
    case ConsumerTurn => Poll(c)
    case AgentRaises => c.(failed := true)
  }

  function Drive(c: Consumer, turns: seq<Turn>): Consumer
    decreases |turns|
  {
    if turns == [] then c else Drive(Next(c, turns[0]), turns[1..])
  }

  function Start(bound: nat): Consumer {
    Consumer(NewNode(bound, 0), Polling, false, [])
  }

  predicate Faithful(c: Consumer) {
    && Fine(c.tree)
    && c.tree.acked == |c.tree.taken| && c.tree.taken == c.yielded
    && (!c.mode.Stopped? ==> c.tree.log == c.yielded + c.tree.buffer && NoneFinal(c.yielded))
    && (c.mode.Stopped? ==> c.tree.closed && c.tree.buffer == [] && c.yielded == ThroughFinal(c.tree.log))
    && (c.mode.Raised? ==> c.failed)
  }

  lemma TakenFine(n: Node)
    requires Fine(n) && n.buffer != [] && n.acked == |n.taken|
    ensures n.unfinished > 0
    ensures var t := AckNode(TakeNode(n));
            Fine(t) && t.log == n.log && t.taken == n.taken + [n.buffer[0]] && t.acked == |t.taken|
  {
    PerformFine(n, Get);
    PerformFine(TakeNode(n), Ack);
  }

  lemma OneMoreYielded(yielded: seq<Event>, buffer: seq<Event>)
    requires NoneFinal(yielded) && buffer != []
    ensures var e := buffer[0];
            && yielded + buffer == (yielded + [e]) + buffer[1..]
            && (!IsFinal(e) ==> NoneFinal(yielded + [e]))
            && (IsFinal(e) ==> ThroughFinal(yielded + buffer) == yielded + [e])
  {
    var p := yielded + [buffer[0]];
    assert yielded + buffer == p + buffer[1..];
    if IsFinal(buffer[0]) {
      assert p[..|p| - 1] == yielded;
      ThroughFinalIs(yielded + buffer, p);
    }
  }

  lemma TakenAndAcked(c: Consumer)
    requires Faithful(c) && c.mode.Polling? && c.tree.buffer != []
    ensures c.tree.unfinished > 0
    ensures var e := c.tree.buffer[0];
            var t := AckNode(TakeNode(c.tree));
            && Fine(t) && t.log == (c.yielded + [e]) + t.buffer && t.taken == c.yielded + [e]
            && t.acked == |t.taken|
            && (!IsFinal(e) ==> NoneFinal(c.yielded + [e]))
            && (IsFinal(e) ==> ThroughFinal(t.log) == c.yielded + [e])
  {
    TakenFine(c.tree);
    OneMoreYielded(c.yielded, c.tree.buffer);
  }

  lemma PollFaithful(c: Consumer)
    requires Faithful(c)
    ensures Faithful(Poll(c))
  {
    if c.mode.Polling? && !c.failed {
      if c.tree.buffer != [] {
        TakenAndAcked(c);
        CloseNowFine(AckNode(TakeNode(c.tree)));
      } else {
        assert c.tree.log == c.yielded;
      }
    }
  }

  lemma OthersFaithful(c: Consumer, a: Action)
    requires Faithful(c) && Allowed(a)
    ensures Faithful(c.(tree := Step(c.tree, a)))
  {
    StepFine(c.tree, a);
    if a.Pub? && HasRoom(c.tree) && !c.tree.closed {
      assert c.tree.log + [a.event] == c.yielded + (c.tree.buffer + [a.event]);
    }
  }

  lemma {:induction false} DriveFaithful(c: Consumer, turns: seq<Turn>)
    requires Faithful(c) && forall i :: 0 <= i < |turns| && turns[i].Others? ==> Allowed(turns[i].action)
    ensures Faithful(Drive(c, turns))
    decreases |turns|
  {
    if turns != [] {
      if turns[0].Others? {
        OthersFaithful(c, turns[0].action);
      } else if turns[0].ConsumerTurn? {
        PollFaithful(c);
      }
      DriveFaithful(Next(c, turns[0]), turns[1..]);
    }
  }

  /** However publication, taps and other readers interleave with it, a consumer that has
      stopped has yielded the queue's log exactly through its first final event, or all of
      it; one that is still polling, or that raised, has yielded a prefix without any final
      event; and nothing it yielded is left unacknowledged. */
  lemma ConsumesThroughFirstFinal(bound: nat, turns: seq<Turn>)
    requires bound > 0 && forall i :: 0 <= i < |turns| && turns[i].Others? ==> Allowed(turns[i].action)
    ensures var c := Drive(Start(bound), turns);
            && (c.mode.Stopped? ==> c.yielded == ThroughFinal(c.tree.log) && c.tree.closed && c.tree.unfinished == 0)
            && (!c.mode.Stopped? ==> c.yielded <= c.tree.log && NoneFinal(c.yielded)
                                     && c.yielded + c.tree.buffer == c.tree.log)
            && c.tree.acked == |c.yielded|
  {
    DriveFaithful(Start(bound), turns);
    assert [] + [] == Start(bound).tree.log;
  }

  /** The turn that meets a final event closes and empties the root and every tap it has;
      every pending graceful close is then released, provided the tap readers have
      acknowledged what they took. */
  lemma FinalEventClosesTheTree(c: Consumer)
    requires Faithful(c) && c.mode.Polling? && !c.failed && c.tree.buffer != [] && IsFinal(c.tree.buffer[0])
    ensures var d := Poll(c);
            && d.mode.Stopped? && d.yielded == c.yielded + [c.tree.buffer[0]]
            && Quiet(d.tree)
            && (Joined(d.tree) <==> forall i :: 0 <= i < |c.tree.kids| ==> AllAcknowledged(c.tree.kids[i]))
  {
    TakenAndAcked(c);
    CloseNowReleases(AckNode(TakeNode(c.tree)));
  }

  // ---- The agent's exception ----

  predicate Polls(turns: seq<Turn>) {
    exists i :: 0 <= i < |turns| && turns[i].ConsumerTurn?
  }

  /** From the moment the agent's exception is recorded, a polling consumer yields nothing
      more, whatever is queued, and raises at its next turn. */
  lemma {:induction false} FailureIsRaised(c: Consumer, turns: seq<Turn>)
    requires c.failed && !c.mode.Stopped?
    ensures var d := Drive(c, turns);
            && d.yielded == c.yielded && d.failed
            && d.mode == if c.mode.Raised? || Polls(turns) then Raised else Polling
    decreases |turns|
  {
    if turns != [] {
      var rest := turns[1..];
      assert forall i :: 0 <= i < |rest| ==> rest[i] == turns[i + 1];
      assert forall i :: 0 < i < |turns| ==> turns[i] == rest[i - 1];
      FailureIsRaised(Next(c, turns[0]), rest);
    }
  }

  /** An agent that raises while its consumer is polling, in any run: what had been yielded
      then is all that ever is, and the consumer raises, and does so at its next turn. */
  lemma AgentExceptionIsRaised(c: Consumer, before: seq<Turn>, after: seq<Turn>)
    requires Drive(c, before).mode.Polling?
    ensures var d := Drive(c, before + [AgentRaises] + after);
            d.yielded == Drive(c, before).yielded && d.mode == if Polls(after) then Raised else Polling
  {
    DriveConcat(c, before + [AgentRaises], after);
    DriveConcat(c, before, [AgentRaises]);
    var d := Drive(c, before);
    assert [AgentRaises][1..] == [];
    assert Drive(d, [AgentRaises]) == Next(d, AgentRaises);
    FailureIsRaised(Next(d, AgentRaises), after);
  }

  lemma {:induction false} DriveConcat(c: Consumer, a: seq<Turn>, b: seq<Turn>)
    ensures Drive(c, a + b) == Drive(Drive(c, a), b)
    decreases |a|
  {
    if a == [] {
      assert a + b == b;
    } else {
      assert (a + b)[1..] == a[1..] + b;
      DriveConcat(Next(c, a[0]), a[1..], b);
    }
  }

  // ---- Which events are final ----

  /** A message always is, an artifact never, a status by its flag alone, and a task unless it
      is still to be worked on. */
  lemma FinalIff(e: Event)
    ensures IsFinal(e) <==>
            e.MessageEvent? || (e.StatusEvent? && e.status.final)
            || (e.TaskEvent? && e.task.status.state !in {Submitted, Working, AuthRequired})
  {
    if e.TaskEvent? {
      match e.task.status.state
      case Submitted =>
      case Working =>
      case InputRequired =>
      case Completed =>
      case Canceled =>
      case Failed =>
      case Rejected =>
      case AuthRequired =>
      case Unknown =>
    }
  }

  // ---- What the agent published ----

  /** The producer's side of a run (`_run_event_stream`), from event `n` on: it publishes the
      events in order, each when there is room, and closes its queue only after the last. */
  predicate Publishes(c: Consumer, turns: seq<Turn>, events: seq<Event>, n: nat)
    decreases |turns|
  {
    turns == [] ||
    (InTurn(c, turns[0], events, n) && Publishes(Next(c, turns[0]), turns[1..], events, After(turns[0], n)))
  }

  predicate InTurn(c: Consumer, turn: Turn, events: seq<Event>, n: nat) {
    match turn
    case Others(Pub(e)) => HasRoom(c.tree) && n < |events| && events[n] == e
    case Others(On(path, op)) => path == [] ==> op == Tap || (op == CloseGracefully && n == |events|)
    case _ => true
  }

  function After(turn: Turn, n: nat): nat {
    if turn.Others? && turn.action.Pub? then n + 1 else n
  }

  function AfterAll(turns: seq<Turn>, n: nat): nat
    decreases |turns|
  {
    if turns == [] then n else AfterAll(turns[1..], After(turns[0], n))
  }

  /** A run in which `n` of the events have been published so far. */
  predicate Carries(c: Consumer, events: seq<Event>, n: nat) {
    && Faithful(c) && n <= |events| && c.tree.log <= events
    && (!c.mode.Stopped? ==> |c.tree.log| == n && (c.tree.closed ==> n == |events|))
    && (c.mode.Stopped? ==> c.tree.log == events || !NoneFinal(c.tree.log))
  }

  /** More events after a final one change nothing. */
  lemma FinalEndsIt(events: seq<Event>, more: seq<Event>)
    requires !NoneFinal(events)
    ensures ThroughFinal(events + more) == ThroughFinal(events)
  {
    var p := ThroughFinal(events);
    assert p <= events + more;
    ThroughFinalIs(events + more, p);
  }

  lemma PollCarries(c: Consumer, events: seq<Event>, n: nat)
    requires Carries(c, events, n)
    ensures Carries(Poll(c), events, n)
  {
    PollFaithful(c);
    if c.mode.Polling? && !c.failed && c.tree.buffer != [] && IsFinal(c.tree.buffer[0]) {
      assert c.tree.log == c.yielded + c.tree.buffer;
      assert c.tree.log[|c.yielded|] == c.tree.buffer[0];
    }
  }

  lemma PubCarries(c: Consumer, events: seq<Event>, n: nat)
    requires Carries(c, events, n) && n < |events| && HasRoom(c.tree)
    ensures Carries(Next(c, Others(Pub(events[n]))), events, n + 1)
  {
    OthersFaithful(c, Pub(events[n]));
  }

  lemma OpCarries(c: Consumer, path: Path, op: Op, events: seq<Event>, n: nat)
    requires Carries(c, events, n)
    requires path == [] ==> op == Tap || (op == CloseGracefully && n == |events|)
    ensures Carries(Next(c, Others(On(path, op))), events, n)
  {
    OthersFaithful(c, On(path, op));
  }

  lemma InTurnCarries(c: Consumer, turn: Turn, events: seq<Event>, n: nat)
    requires Carries(c, events, n) && InTurn(c, turn, events, n)
    ensures Carries(Next(c, turn), events, After(turn, n))
  {
    match turn
    case Others(Pub(e)) =>
      PubCarries(c, events, n);
    case Others(On(path, op)) =>
      OpCarries(c, path, op, events, n);
    case ConsumerTurn =>
      PollCarries(c, events, n);
    case AgentRaises =>
  }

  lemma {:induction false} DriveCarries(c: Consumer, turns: seq<Turn>, events: seq<Event>, n: nat)
    requires Carries(c, events, n) && Publishes(c, turns, events, n)
    ensures Carries(Drive(c, turns), events, AfterAll(turns, n))
    decreases |turns|
  {
    if turns != [] {
      InTurnCarries(c, turns[0], events, n);
      DriveCarries(Next(c, turns[0]), turns[1..], events, After(turns[0], n));
    }
  }

  lemma CarriedYield(c: Consumer, events: seq<Event>, n: nat)
    requires Carries(c, events, n)
    ensures c.yielded <= ThroughFinal(events)
    ensures c.mode.Stopped? ==> c.yielded == ThroughFinal(events)
  {
    var log := c.tree.log;
    assert events == log + events[|log|..];
    if !c.mode.Stopped? {
      NoneFinalPrefix(events, c.yielded);
    } else if !NoneFinal(log) {
      FinalEndsIt(log, events[|log|..]);
    }
  }

  /** The consumer and the agent together: however they interleave, with each other and with
      taps and their readers, what has been yielded is a prefix of what the agent publishes
      through its first final event, and a consumer that has stopped has yielded just that:
      all of it when nothing is final. */
  lemma YieldsWhatWasPublished(bound: nat, turns: seq<Turn>, events: seq<Event>)
    requires bound > 0 && Publishes(Start(bound), turns, events, 0)
    ensures var c := Drive(Start(bound), turns);
            && c.yielded <= ThroughFinal(events)
            && (c.mode.Stopped? ==> c.yielded == ThroughFinal(events))
  {
    assert [] + [] == Start(bound).tree.log;
    DriveCarries(Start(bound), turns, events, 0);
    CarriedYield(Drive(Start(bound), turns), events, AfterAll(turns, 0));
  }

  /** A prefix without a final event lies within the part through the first final one. */
  lemma NoneFinalPrefix(events: seq<Event>, p: seq<Event>)
    requires p <= events && NoneFinal(p)
    ensures p <= ThroughFinal(events)
  {
    var q := ThroughFinal(events);
    assert forall i :: 0 <= i < |p| ==> p[i] == events[i];
    assert forall i :: 0 <= i < |q| ==> q[i] == events[i];
  }
}
