/** The loop of `send_message_streaming` (src/a2a/client/transports/kafka.py), and exactly
    when a call is handed everything that was put in its stream. */
module StreamingCalls {
  import opened Types
  import opened Correlation
  import opened CorrelationManagers
  import opened CorrelationRuns

  const STREAM_FAILED := "Streaming request failed: "

  /** Where the loop stands: at the test of `is_done`; past it, before `get` has begun
      (`wait_for` may start it in a task of its own); inside `get`, past its test of the
      exception, waiting for an item; or over. */
  datatype Phase = AtTop | Fetching | InGet | Ended | Broken(raised: Failure)

  predicate Over(p: Phase) {
    p.Ended? || p.Broken?
  }

  datatype Call = Call(table: Table, phase: Phase)

  /** `Go` is the caller's next turn, `TimeOut` the end of its five-second wait, which can
      come even when an item has just arrived. */
  datatype Step = Other(a: Action) | Go | TimeOut

  function StreamAt(x: Call, h: nat): StreamState
    requires h < |x.table.live.streams|
  {
    x.table.live.streams[h]
  }

  /** What the caller raises: a client error is wrapped, a cancellation passes as it is. */
  function Raised(failure: Failure): Failure {
    match failure
    case ClientError(text) => ClientError(STREAM_FAILED + text)
    case CancelledError => CancelledError
  }

  /** The call's next turn, on the stream at `h` registered for `c`. A client error is
      reported back to the manager; a cancellation is not caught. */
  function Turn(x: Call, c: Id, h: nat): (y: Call)
    requires WellFormed(x.table) && h < |x.table.live.streams|
    ensures WellFormed(y.table) && h < |y.table.live.streams|
  {
    var s := StreamAt(x, h);
    match x.phase
    case AtTop => x.(phase := if s.done then Ended else Fetching)
    case Fetching =>
      if s.exception.Some? then
        Call(if s.exception.value.CancelledError? then x.table
             else Do(x.table, Err(c, STREAM_FAILED + s.exception.value.text)), Broken(Raised(s.exception.value)))
      else if s.queue != [] then Call(Do(x.table, Read(h)), AtTop)
      else x.(phase := InGet)
    case InGet => if s.queue != [] then Call(Do(x.table, Resume(h)), AtTop) else x
    case _ => x
  }

  function Next(x: Call, step: Step, c: Id, h: nat): (y: Call)
    requires WellFormed(x.table) && h < |x.table.live.streams|
    ensures WellFormed(y.table) && h < |y.table.live.streams|
  {
    match step
    case Other(a) => x.(table := Do(x.table, a))
    case Go => Turn(x, c, h)
    case TimeOut => if x.phase.Fetching? || x.phase.InGet? then x.(phase := AtTop) else x
  }

  function Drive(x: Call, steps: seq<Step>, c: Id, h: nat): (y: Call)
    requires WellFormed(x.table) && h < |x.table.live.streams|
    ensures WellFormed(y.table) && h < |y.table.live.streams|
    decreases |steps|
  {
    if steps == [] then x else Drive(Next(x, steps[0], c, h), steps[1..], c, h)
  }

  /** The loop over the real stream, one turn between two suspensions at a time. */
  class StreamingCall {
    const manager: CorrelationManager
    const stream: StreamingFuture
    const correlationId: string
    ghost const position: nat
    var phase: Phase
    var yielded: seq<Event>

    ghost function View(): Call
      reads this, manager
    {
      Call(manager.View(), phase)
    }

    ghost predicate Valid()
      reads this, manager, manager.futures, manager.streams
    {
      && manager.Valid()
      && position < |manager.streams| && manager.streams[position] == stream
      && yielded == manager.live.streams[position].got
    }

    constructor (manager: CorrelationManager, stream: StreamingFuture, correlationId: string, ghost position: nat)
      requires manager.Valid() && position < |manager.streams| && manager.streams[position] == stream
      requires manager.live.streams[position].got == []
      ensures Valid() && View() == Call(manager.View(), AtTop) && yielded == []
      ensures this.manager == manager && this.position == position && this.correlationId == correlationId
    {
      this.manager, this.stream, this.correlationId, this.position := manager, stream, correlationId, position;
      this.phase, this.yielded := AtTop, [];
    }

    method CheckDone()
      requires Valid() && phase == AtTop
      modifies this`phase
      ensures Valid() && View() == Turn(old(View()), correlationId, position)
    {
      phase := if stream.isDone then Ended else Fetching;
    }

    method Fetch()
      requires Valid() && phase == Fetching
      modifies this`phase, this`yielded, manager, stream, manager.futures, manager.streams
      ensures Valid() && View() == Turn(old(View()), correlationId, position)
    {
      if stream.exception.Some? {
        Break(stream.exception.value);
      } else {
        TakeOrWait();
      }
    }

    method Break(error: Failure)
      requires Valid()
      modifies this`phase, manager, manager.futures, manager.streams
      ensures Valid() && phase == Broken(Raised(error)) && yielded == old(yielded)
      ensures manager.View() == if error.CancelledError? then old(manager.View())
                                else Do(old(manager.View()), Err(correlationId, STREAM_FAILED + error.text))
    {
      if error.ClientError? {
        ghost var before := manager.View();
        var found := manager.CompleteWithException(correlationId, STREAM_FAILED + error.text);
        FailingKeepsGot(before, correlationId, STREAM_FAILED + error.text, position);
        phase := Broken(ClientError(STREAM_FAILED + error.text));
      } else {
        phase := Broken(CancelledError);
      }
    }

    method TakeOrWait()
      requires Valid() && phase == Fetching && stream.exception.None?
      modifies this`phase, this`yielded, manager, stream
      ensures Valid() && View() == Turn(old(View()), correlationId, position)
    {
      if stream.queue == [] {
        phase := InGet;
        return;
      }
      var item, raised := manager.Next(stream, position);
      yielded := yielded + [item.value];
      phase := AtTop;
    }

    /** `wait_for` gives up; the loop tests `is_done` again. */
    method TimedOut()
      requires Valid() && (phase == Fetching || phase == InGet)
      modifies this`phase
      ensures Valid() && yielded == old(yielded) && View() == Next(old(View()), TimeOut, correlationId, position)
    {
      phase := AtTop;
    }

    method Resume()
      requires Valid() && phase == InGet
      modifies this`phase, this`yielded, manager, stream
      ensures Valid() && View() == Turn(old(View()), correlationId, position)
    {
      if stream.queue == [] {
        return;
      }
      var item := manager.NextAfterWait(stream, position);
      yielded := yielded + [item.value];
      phase := AtTop;
    }
  }

  lemma FailingKeepsGot(t: Table, c: Id, error: string, h: nat)
    requires WellFormed(t) && h < |t.live.streams|
    ensures var u := Do(t, Err(c, error)); h < |u.live.streams| && u.live.streams[h].got == t.live.streams[h].got
  {
  }

  // ---- Before the terminator ----

  /** Others never read this stream nor register its id again. */
  predicate Harmless(a: Action, c: Id, h: nat) {
    a != Read(h) && a != Resume(h) && !Registers(a, c)
  }

  predicate AllHarmless(steps: seq<Step>, c: Id, h: nat) {
    forall i :: 0 <= i < |steps| && steps[i].Other? ==> Harmless(steps[i].a, c, h)
  }

  predicate NoneEnds(steps: seq<Step>, c: Id) {
    forall i :: 0 <= i < |steps| && steps[i].Other? ==> !Ends(steps[i].a, c)
  }

  function ItemsOf(steps: seq<Step>, c: Id): seq<Event> {
    if steps == [] then []
    else (if steps[0].Other? then ItemsFor([steps[0].a], c) else []) + ItemsOf(steps[1..], c)
  }

  /** A call whose stream is still open. */
  predicate Alive(x: Call, c: Id, h: nat)
    requires WellFormed(x.table)
  {
    OpenFor(x.table, c, h) && LiveSound(x.table.live) && !Over(x.phase)
  }

  lemma AliveStep(x: Call, step: Step, c: Id, h: nat)
    requires WellFormed(x.table) && Alive(x, c, h)
    requires step.Other? ==> Harmless(step.a, c, h) && !Ends(step.a, c)
    ensures var y := Next(x, step, c, h);
            && Alive(y, c, h)
            && StreamAt(y, h).put == StreamAt(x, h).put + (if step.Other? then ItemsFor([step.a], c) else [])
  {
    assert Balanced(StreamAt(x, h));
    assert StreamAt(x, h).put + [] == StreamAt(x, h).put;
    if step.Other? {
      OpenStep(x.table, step.a, c, h);
      LiveKept(x.table, step.a);
    } else if step.Go? {
      ReadSound(x.table.live, h);
    }
  }

  lemma {:induction false} AliveRun(x: Call, steps: seq<Step>, c: Id, h: nat)
    requires WellFormed(x.table) && Alive(x, c, h) && AllHarmless(steps, c, h) && NoneEnds(steps, c)
    ensures var y := Drive(x, steps, c, h);
            Alive(y, c, h) && StreamAt(y, h).put == StreamAt(x, h).put + ItemsOf(steps, c)
    decreases |steps|
  {
    if steps == [] {
      assert StreamAt(x, h).put + [] == StreamAt(x, h).put;
    } else {
      var rest := steps[1..];
      assert forall i :: 0 <= i < |rest| ==> rest[i] == steps[i + 1];
      AliveStep(x, steps[0], c, h);
      AliveRun(Next(x, steps[0], c, h), rest, c, h);
      Associates(StreamAt(x, h).put, if steps[0].Other? then ItemsFor([steps[0].a], c) else [], ItemsOf(rest, c));
    }
  }

  // ---- After the terminator ----

  /** The first thing that happens to the call itself is its own turn, not a timeout. */
  predicate GoesFirst(steps: seq<Step>) {
    steps != [] && (steps[0].Go? || (steps[0].Other? && GoesFirst(steps[1..])))
  }

  /** Whether the call still takes one item although its stream has ended. */
  predicate TakesOneMore(phase: Phase, failed: bool, steps: seq<Step>) {
    GoesFirst(steps) && (phase.InGet? || (phase.Fetching? && !failed))
  }

  lemma ClosedUntouched(t: Table, a: Action, c: Id, h: nat)
    requires WellFormed(t) && ClosedAt(t, c, h) && Harmless(a, c, h)
    ensures ClosedAt(Do(t, a), c, h) && Do(t, a).live.streams[h] == t.live.streams[h]
  {
    ClosedStep(t, a, c, h);
  }

  lemma {:induction false} OverUntouched(x: Call, steps: seq<Step>, c: Id, h: nat)
    requires WellFormed(x.table) && ClosedAt(x.table, c, h) && AllHarmless(steps, c, h) && Over(x.phase)
    ensures StreamAt(Drive(x, steps, c, h), h) == StreamAt(x, h) && Drive(x, steps, c, h).phase == x.phase
    decreases |steps|
  {
    if steps != [] {
      assert forall i :: 0 <= i < |steps[1..]| ==> steps[1..][i] == steps[i + 1];
      if steps[0].Other? {
        ClosedUntouched(x.table, steps[0].a, c, h);
      }
      OverUntouched(Next(x, steps[0], c, h), steps[1..], c, h);
    }
  }

  /** One turn on a stream that has ended: it ends the call, or takes an item, or waits. */
  lemma TurnAfterEnd(x: Call, c: Id, h: nat)
    requires WellFormed(x.table) && ClosedAt(x.table, c, h) && !Over(x.phase)
    ensures var y, s := Turn(x, c, h), StreamAt(x, h);
            && ClosedAt(y.table, c, h) && StreamAt(y, h).exception == s.exception
            && (if x.phase.AtTop? then y.phase == Ended && StreamAt(y, h) == s
                else if x.phase.Fetching? && s.exception.Some? 
                then y.phase == Broken(Raised(s.exception.value)) && StreamAt(y, h) == s
                else if s.queue != [] then y.phase == AtTop && StreamAt(y, h).queue == s.queue[1..]
                else y.phase == InGet && StreamAt(y, h).queue == [])
  {
    if x.phase.Fetching? && StreamAt(x, h).exception.Some? && StreamAt(x, h).exception.value.ClientError? {
      UnregisteredReplyIsDropped(x.table, c, MessageEvent(Message("", [])),
                                 STREAM_FAILED + StreamAt(x, h).exception.value.text);
    }
  }

  /** A call that comes to its end leaves nothing behind exactly when nothing was queued at
      the terminator, or one item that it was still going to take. */
  lemma {:induction false} LeftBehindIff(x: Call, steps: seq<Step>, c: Id, h: nat)
    requires WellFormed(x.table) && ClosedAt(x.table, c, h) && AllHarmless(steps, c, h)
    requires !Over(x.phase) && Over(Drive(x, steps, c, h).phase)
    ensures var s := StreamAt(x, h);
            StreamAt(Drive(x, steps, c, h), h).queue == [] <==>
            s.queue == [] || (|s.queue| == 1 && TakesOneMore(x.phase, s.exception.Some?, steps))
    decreases |steps|
  {
    var step, rest := steps[0], steps[1..];
    assert forall i :: 0 <= i < |rest| ==> rest[i] == steps[i + 1];
    if step.Other? {
      ClosedUntouched(x.table, step.a, c, h);
      LeftBehindIff(Next(x, step, c, h), rest, c, h);
    } else if step.TimeOut? {
      LeftBehindIff(Next(x, step, c, h), rest, c, h);
    } else {
      TurnAfterEnd(x, c, h);
      var y := Turn(x, c, h);
      if Over(y.phase) {
        OverUntouched(y, rest, c, h);
      } else {
        LeftBehindIff(y, rest, c, h);
      }
    }
  }

  /** The failure of a stream is raised in the caller only if it comes between the test of
      `is_done` and the test in `get`; otherwise the call just ends. */
  lemma {:induction false} RaisesIff(x: Call, steps: seq<Step>, c: Id, h: nat)
    requires WellFormed(x.table) && ClosedAt(x.table, c, h) && AllHarmless(steps, c, h)
    requires !Over(x.phase) && Over(Drive(x, steps, c, h).phase)
    ensures Drive(x, steps, c, h).phase ==
            if x.phase.Fetching? && StreamAt(x, h).exception.Some? && GoesFirst(steps)
            then Broken(Raised(StreamAt(x, h).exception.value)) else Ended
    decreases |steps|
  {
    var step, rest := steps[0], steps[1..];
    assert forall i :: 0 <= i < |rest| ==> rest[i] == steps[i + 1];
    if step.Go? {
      TurnAfterEnd(x, c, h);
    } else if step.Other? {
      ClosedUntouched(x.table, step.a, c, h);
    }
    var y := Next(x, step, c, h);
    if Over(y.phase) {
      OverUntouched(y, rest, c, h);
    } else {
      RaisesIff(y, rest, c, h);
    }
  }

  function Registered(before: seq<Action>, c: Id): (x: Call)
    ensures WellFormed(x.table)
  {
    Call(Do(Run(EMPTY_TABLE, before), RegStream(c)), AtTop)
  }

  /** Full delivery, exactly. `c` is registered once; `during` is everything until the first
      action `end` that ends its stream, `after` everything until the call is over. The
      caller has been handed all replies put in its stream if and only if none was queued
      when the stream ended, or just one was and the call, already past its test of
      `is_done`, took it: waiting in `get`, or about to enter it after a normal end, and not
      overtaken by its own timeout. A failure is raised only between the two tests, and then
      it is the one that ended the stream. */
  lemma DeliveredIff(before: seq<Action>, c: Id, during: seq<Step>, end: Action, after: seq<Step>)
    requires NeverRegisters(before, c)
    requires var h := |Run(EMPTY_TABLE, before).live.streams|;
             && AllHarmless(during, c, h) && NoneEnds(during, c)
             && Harmless(end, c, h) && Ends(end, c) && AllHarmless(after, c, h)
             && Over(Drive(Registered(before, c), during + [Other(end)] + after, c, h).phase)
    ensures var h := |Run(EMPTY_TABLE, before).live.streams|;
            var x := Drive(Registered(before, c), during, c, h);
            var s := StreamAt(Drive(Registered(before, c), during + [Other(end)] + after, c, h), h);
            var queue := StreamAt(x, h).queue;
            && s.put == ItemsOf(during, c) && s.got <= s.put
            && (s.got == ItemsOf(during, c) <==>
                queue == [] || (|queue| == 1 && TakesOneMore(x.phase, !end.StreamEnd?, after)))
            && Drive(Registered(before, c), during + [Other(end)] + after, c, h).phase ==
               if x.phase.Fetching? && GoesFirst(after) then
                 match end
                 case Err(_, error) => Broken(ClientError("Streaming request failed: " + error))
                 case CancelEverything => Broken(CancelledError)
                 case _ => Ended
               else Ended
  {
    var h := |Run(EMPTY_TABLE, before).live.streams|;
    var x0 := Registered(before, c);
    StartsAlive(before, c);
    AliveRun(x0, during, c, h);
    var x1 := Drive(x0, during, c, h);
    AtTheEnd(x1, end, c, h);
    var x2 := Next(x1, Other(end), c, h);
    DriveConcat(x0, during + [Other(end)], after, c, h);
    DriveConcat(x0, during, [Other(end)], c, h);
    assert [Other(end)][1..] == [];
    assert Drive(x1, [Other(end)], c, h) == x2;
    LeftBehindIff(x2, after, c, h);
    RaisesIff(x2, after, c, h);
    ClosedCallRun(x2, after, c, h);
    assert [] + ItemsOf(during, c) == ItemsOf(during, c);
  }

  lemma StartsAlive(before: seq<Action>, c: Id)
    requires NeverRegisters(before, c)
    ensures var h := |Run(EMPTY_TABLE, before).live.streams|;
            var x := Registered(before, c);
            h < |x.table.live.streams| && Alive(x, c, h) && StreamAt(x, h).put == []
  {
    StaysUnregistered(EMPTY_TABLE, before, c);
    RunSound(EMPTY_TABLE, before);
    LiveKept(Run(EMPTY_TABLE, before), RegStream(c));
  }

  lemma AtTheEnd(x: Call, end: Action, c: Id, h: nat)
    requires WellFormed(x.table) && Alive(x, c, h) && Harmless(end, c, h) && Ends(end, c)
    ensures var y := Next(x, Other(end), c, h);
            && ClosedAt(y.table, c, h) && y.phase == x.phase && LiveSound(y.table.live)
            && StreamAt(y, h).queue == StreamAt(x, h).queue && StreamAt(y, h).put == StreamAt(x, h).put
            && StreamAt(y, h).exception == FailureOf(end)
  {
    assert Balanced(StreamAt(x, h));
    OpenStep(x.table, end, c, h);
    LiveKept(x.table, end);
  }

  /** What was put stays what it was, and is what was handed over plus what is queued. */
  lemma {:induction false} ClosedCallRun(x: Call, steps: seq<Step>, c: Id, h: nat)
    requires WellFormed(x.table) && ClosedAt(x.table, c, h) && LiveSound(x.table.live) && AllHarmless(steps, c, h)
    ensures var s := StreamAt(Drive(x, steps, c, h), h);
            s.put == StreamAt(x, h).put && s.got + s.queue == s.put
    decreases |steps|
  {
    assert Balanced(StreamAt(x, h));
    if steps != [] {
      assert forall i :: 0 <= i < |steps[1..]| ==> steps[1..][i] == steps[i + 1];
      ClosedCallStep(x, steps[0], c, h);
      ClosedCallRun(Next(x, steps[0], c, h), steps[1..], c, h);
    }
  }

  lemma ClosedCallStep(x: Call, step: Step, c: Id, h: nat)
    requires WellFormed(x.table) && ClosedAt(x.table, c, h) && LiveSound(x.table.live)
    requires step.Other? ==> Harmless(step.a, c, h)
    ensures var y := Next(x, step, c, h);
            ClosedAt(y.table, c, h) && LiveSound(y.table.live) && StreamAt(y, h).put == StreamAt(x, h).put
  {
    if step.Other? {
      ClosedStep(x.table, step.a, c, h);
      LiveKept(x.table, step.a);
    } else if step.Go? {
      ReadSound(x.table.live, h);
      if x.phase.Fetching? && StreamAt(x, h).exception.Some? && StreamAt(x, h).exception.value.ClientError? {
        UnregisteredReplyIsDropped(x.table, c, MessageEvent(Message("", [])),
                                   STREAM_FAILED + StreamAt(x, h).exception.value.text);
      }
    }
  }

  lemma {:induction false} DriveConcat(x: Call, a: seq<Step>, b: seq<Step>, c: Id, h: nat)
    requires WellFormed(x.table) && h < |x.table.live.streams|
    ensures Drive(x, a + b, c, h) == Drive(Drive(x, a, c, h), b, c, h)
    decreases |a|
  {
    if a == [] {
      assert a + b == b;
    } else {
      assert (a + b)[1..] == a[1..] + b;
      DriveConcat(Next(x, a[0], c, h), a[1..], b, c, h);
    }
  }

  /** Items are lost: a reply and the end of the stream both arrive before the caller's first
      turn, and the call ends with nothing. */
  lemma ReplyBeforeFirstTurnIsLost(c: Id, item: Event)
    ensures var steps := [Other(Item(c, item)), Other(StreamEnd(c)), Go];
            var y := Drive(Registered([], c), steps, c, 0);
            y.phase == Ended && StreamAt(y, 0).put == [item] && StreamAt(y, 0).got == []
  {
    var x := Registered([], c);
    var x1 := Next(x, Other(Item(c, item)), c, 0);
    var x2 := Next(x1, Other(StreamEnd(c)), c, 0);
    var x3 := Next(x2, Go, c, 0);
    assert [Go][1..] == [];
    assert Drive(x2, [Go], c, 0) == x3;
    assert [Other(StreamEnd(c)), Go][1..] == [Go];
    assert Drive(x1, [Other(StreamEnd(c)), Go], c, 0) == x3;
    var steps := [Other(Item(c, item)), Other(StreamEnd(c)), Go];
    assert steps[1..] == [Other(StreamEnd(c)), Go];
  }
}
