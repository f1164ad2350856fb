/** `ResultAggregator` (src/a2a/server/tasks/result_aggregator.py): one consumption of an
    event stream that may be split between the caller and a background task. */
module Aggregator {
  import opened Types
  import opened TaskFold
  import opened Streams

  datatype Result = NoResult | TaskResult(task: Task) | MessageResult(message: Message) | Raised(error: Mismatch)

  /** Stops a synchronous call early: always on auth-required, and on anything when not blocking. */
  predicate Interrupts(e: Event, blocking: bool) {
    && !e.MessageEvent?
    && ( (e.TaskEvent? && e.task.status.state == AuthRequired)
      || (e.StatusEvent? && e.status.status.state == AuthRequired)
      || !blocking)
  }

  /** Index of the first message, or the length of the stream. */
  function FirstMessage(events: seq<Event>): (k: nat)
    ensures k <= |events|
    ensures forall i :: 0 <= i < k ==> !events[i].MessageEvent?
    ensures k < |events| ==> events[k].MessageEvent?
  {
    if events == [] || events[0].MessageEvent? then 0 else 1 + FirstMessage(events[1..])
  }

  /** Index of the first interrupting event, or the length of the stream. */
  function FirstInterrupt(events: seq<Event>, blocking: bool): (k: nat)
    ensures k <= |events|
    ensures forall i :: 0 <= i < k ==> !Interrupts(events[i], blocking)
    ensures k < |events| ==> Interrupts(events[k], blocking)
  {
    if events == [] || Interrupts(events[0], blocking) then 0 else 1 + FirstInterrupt(events[1..], blocking)
  }

  predicate AsksForAuthorization(e: Event) {
    match e
    case TaskEvent(t) => t.status.state == AuthRequired
    case StatusEvent(u) => u.status.state == AuthRequired
    case _ => false
  }

  /** A blocking call breaks off at the first task or status that asks for authorization, and
      at nothing else. */
  lemma BlockingBreaksIff(events: seq<Event>)
    ensures var n := FirstInterrupt(events, true);
            && (forall i :: 0 <= i < n ==> !AsksForAuthorization(events[i]))
            && (n < |events| ==> AsksForAuthorization(events[n]))
  {
    var n := FirstInterrupt(events, true);
    assert forall i :: 0 <= i < n ==> !Interrupts(events[i], true);
    assert n < |events| ==> Interrupts(events[n], true);
  }

  /** Any other call breaks off at the first event that is not a message. */
  lemma NonBlockingBreaksAtOnce(events: seq<Event>)
    ensures var n := FirstInterrupt(events, false);
            (forall i :: 0 <= i < n ==> events[i].MessageEvent?) && (n < |events| ==> !events[n].MessageEvent?)
  {
    var n := FirstInterrupt(events, false);
    assert forall i :: 0 <= i < n ==> !Interrupts(events[i], false);
    assert n < |events| ==> Interrupts(events[n], false);
  }

  function AsResult(m: Manager): Result {
    if Truthy(m.taskId) && m.current.Some? then TaskResult(m.current.value) else NoResult
  }

  /** How much of the stream the synchronous part of a send processes: up to the first
      message, or through the first interrupting event before it. */
  function Stop(events: seq<Event>, blocking: bool): (k: nat)
    ensures k <= |events|
  {
    var m, n := FirstMessage(events), FirstInterrupt(events, blocking);
    if n < m then n + 1 else m
  }

  predicate Breaks(r: Saved, events: seq<Event>, blocking: bool) {
    FirstInterrupt(events, blocking) < FirstMessage(events) && r.error.None?
  }

  /** What an uninterrupted call returns once it has processed all it needs. */
  function Conclusion(r: Saved, events: seq<Event>): Result {
    var m := FirstMessage(events);
    if r.error.Some? then Raised(r.error.value)
    else if m < |events| then MessageResult(events[m].message)
    else AsResult(Load(r.manager, r.store))
  }

  class ResultAggregator {
    const manager: TaskManager
    var message: Option<Message>

    constructor (manager: TaskManager)
      ensures this.manager == manager && message == None
    {
      this.manager, this.message := manager, None;
    }

    function Now(): Saved
      reads manager, manager.store
    {
      Saved(manager.View(), manager.store.tasks, None)
    }

    method TaskOrNothing() returns (result: Result)
      modifies manager
      ensures manager.View() == Load(old(manager.View()), manager.store.tasks)
      ensures result == AsResult(manager.View())
    {
      var task := manager.GetTask();
      result := if task.Some? then TaskResult(task.value) else NoResult;
    }

    method CurrentResult() returns (result: Result)
      modifies manager
      ensures message.Some? ==> result == MessageResult(message.value) && manager.View() == old(manager.View())
      ensures message.None? ==> result == AsResult(Load(old(manager.View()), manager.store.tasks))
    {
      if message.Some? {
        return MessageResult(message.value);
      }
      result := TaskOrNothing();
    }

    /** One more event for the manager. */
    method ProcessNext(ghost start: Saved, events: seq<Event>, i: nat) returns (error: Option<Mismatch>)
      requires i < |events| && Now() == Fold(start, events[..i])
      modifies manager, manager.store
      ensures Now().(error := error) == Fold(start, events[..i + 1])
      ensures error.Some? ==> forall k :: i < k <= |events| ==> Fold(start, events[..k]) == Fold(start, events[..i + 1])
      ensures error.None? && !events[i].MessageEvent? ==> manager.currentTask.Some?
    {
      FoldOne(start, events, i);
      error := manager.Process(events[i]);
      if error.Some? {
        forall k | i < k <= |events|
          ensures Fold(start, events[..k]) == Fold(start, events[..i + 1])
        {
          FoldStuck(start, events, i + 1, k);
        }
      } else if !events[i].MessageEvent? {
        FoldHasTask(start, events[..i + 1]);
      }
    }

    /** `consume_and_emit`, driven until the caller has taken `wanted` events. */
    method ConsumeAndEmit(events: seq<Event>, wanted: nat) returns (emitted: seq<Event>, error: Option<Mismatch>)
      requires wanted <= |events|
      modifies manager, manager.store
      ensures Now().(error := error) == Fold(old(Now()), events[..wanted])
      ensures emitted <= events && (error.None? ==> |emitted| == wanted)
    {
      ghost var start := Now();
      emitted, error := [], None;
      var i := 0;
      while i < wanted && error.None?
        invariant |emitted| <= i <= wanted && emitted == events[..|emitted|]
        invariant Now().(error := error) == Fold(start, events[..if error.None? then i else wanted])
        invariant error.None? ==> |emitted| == i
        decreases wanted - i
      {
        error := ProcessNext(start, events, i);
        if error.None? {
          emitted := emitted + [events[i]];
        }
        i := i + 1;
      }
    }

    /** `consume_all`: to the end of the stream, or to the first message. */
    method ConsumeAll(events: seq<Event>) returns (result: Result)
      modifies this, manager, manager.store
      ensures var r := Fold(old(Now()), events[..FirstMessage(events)]);
              manager.store.tasks == r.store && result == Conclusion(r, events)
    {
      ghost var start, k := Now(), FirstMessage(events);
      var i := 0;
      while i < |events|
        invariant i <= k
        invariant Now() == Fold(start, events[..i])
      {
        if events[i].MessageEvent? {
          message := Some(events[i].message);
          return MessageResult(events[i].message);
        }
        var error := ProcessNext(start, events, i);
        i := i + 1;
        if error.Some? {
          return Raised(error.value);
        }
      }
      result := TaskOrNothing();
    }

    /** `consume_and_break_on_interrupt`: `rest` is what the background task is left with. */
    method ConsumeAndBreakOnInterrupt(events: seq<Event>, blocking: bool)
      returns (result: Result, interrupted: bool, rest: seq<Event>)
      modifies this, manager, manager.store
      ensures var r := Fold(old(Now()), events[..Stop(events, blocking)]);
              && manager.store.tasks == r.store
              && interrupted == Breaks(r, events, blocking)
              && (interrupted ==> Now() == r)
              && result == (if interrupted then AsResult(r.manager) else Conclusion(r, events))
              && rest == (if interrupted then events[Stop(events, blocking)..] else [])
    {
      var at, broke, error := ProcessUntilStop(events, blocking);
      rest := [];
      if error.Some? {
        return Raised(error.value), false, rest;
      }
      if !broke && at < |events| {
        message := Some(events[at].message);
        return MessageResult(events[at].message), false, rest;
      }
      result := TaskOrNothing();
      interrupted := broke;
      if interrupted {
        rest := events[at..];
      }
    }

    /** Its loop: up to a message, through an interrupting event, or to the end, whichever
        comes first; a rejected event ends it too. */
    method ProcessUntilStop(events: seq<Event>, blocking: bool) returns (at: nat, broke: bool, error: Option<Mismatch>)
      modifies manager, manager.store
      ensures Now().(error := error) == Fold(old(Now()), events[..Stop(events, blocking)])
      ensures error.None? ==>
                && at == Stop(events, blocking)
                && broke == (FirstInterrupt(events, blocking) < FirstMessage(events))
                && (broke ==> manager.currentTask.Some?)
    {
      ghost var start, m, n := Now(), FirstMessage(events), FirstInterrupt(events, blocking);
      at, broke, error := 0, false, None;
      while at < |events| && !events[at].MessageEvent? && !broke && error.None?
        invariant at <= m && (if broke then at == n + 1 else error.None? ==> at <= n)
        invariant error.None? ==> Now() == Fold(start, events[..at])
        invariant error.Some? ==> Now().(error := error) == Fold(start, events[..Stop(events, blocking)])
        invariant broke ==> error.None? && manager.currentTask.Some?
        decreases |events| - at
      {
        error := ProcessNext(start, events, at);
        broke := error.None? && Interrupts(events[at], blocking);
        at := at + 1;
      }
    }

    /** `_continue_consuming`: the background task. */
    method ContinueConsuming(rest: seq<Event>) returns (error: Option<Mismatch>)
      modifies manager, manager.store
      ensures Now().(error := error) == Fold(old(Now()), rest)
    {
      var emitted;
      assert rest[..|rest|] == rest;
      emitted, error := ConsumeAndEmit(rest, |rest|);
    }

    /** A stream as a whole, for a client that leaves after `wanted` events: the background
        task consumes the rest. */
    method EmitSplit(events: seq<Event>, wanted: nat) returns (emitted: seq<Event>)
      requires wanted <= |events| && MessageOnlyLast(events)
      modifies this, manager, manager.store
      ensures manager.store.tasks == Fold(old(Now()), events).store
      ensures emitted <= events && (Fold(old(Now()), events[..wanted]).error.None? ==> |emitted| == wanted)
    {
      ghost var start := Now();
      var error;
      emitted, error := ConsumeAndEmit(events, wanted);
      CutAnywhere(start, events, wanted);
      if error.None? {
        var rest := events[wanted..];
        InterruptionIsInvisible(Fold(start, events[..wanted]), rest, 0);
        var result := ConsumeAll(rest);
      }
    }

    /** A send as a whole: the synchronous part, then whatever is left to the background. */
    method ConsumeSplit(events: seq<Event>, blocking: bool) returns (result: Result, interrupted: bool)
      requires MessageOnlyLast(events)
      modifies this, manager, manager.store
      ensures manager.store.tasks == Fold(old(Now()), events).store
      ensures var r := Fold(old(Now()), events[..Stop(events, blocking)]);
              && interrupted == Breaks(r, events, blocking)
              && result == if interrupted then AsResult(r.manager) else Conclusion(r, events)
    {
      ghost var start, k := Now(), Stop(events, blocking);
      var rest;
      result, interrupted, rest := ConsumeAndBreakOnInterrupt(events, blocking);
      if interrupted {
        CutAnywhere(start, events, k);
        var error := ContinueConsuming(rest);
      } else {
        NothingMore(start, events, blocking);
      }
    }
  }

  predicate MessageOnlyLast(events: seq<Event>) {
    forall i :: 0 <= i < |events| - 1 ==> !events[i].MessageEvent?
  }

  lemma FoldOne(r: Saved, events: seq<Event>, i: nat)
    requires i < |events|
    ensures Fold(r, events[..i + 1]) == Fold(Fold(r, events[..i]), [events[i]])
  {
    assert events[..i + 1] == events[..i] + [events[i]];
    FoldConcat(r, events[..i], [events[i]]);
  }

  /** After a rejection the rest of the stream changes nothing. */
  lemma FoldStuck(r: Saved, events: seq<Event>, i: nat, k: nat)
    requires i <= k <= |events|
    requires i == k || Fold(r, events[..i]).error.Some?
    ensures Fold(r, events[..k]) == Fold(r, events[..i])
  {
    assert events[..k] == events[..i] + events[i..k];
    FoldConcat(r, events[..i], events[i..k]);
  }

  lemma {:induction false} FoldHasTask(r: Saved, events: seq<Event>)
    requires events != [] && !events[|events| - 1].MessageEvent? && Fold(r, events).error.None?
    ensures Fold(r, events).manager.current.Some?
  {
    FoldOne(r, events, |events| - 1);
    assert events[..|events|] == events;
  }

  lemma CutAnywhere(start: Saved, events: seq<Event>, cut: nat)
    requires cut <= |events|
    ensures Fold(Fold(start, events[..cut]), events[cut..]) == Fold(start, events)
  {
    FoldConcat(start, events[..cut], events[cut..]);
    assert events[..cut] + events[cut..] == events;
  }

  /** A call that was not interrupted has processed everything there was to process. */
  lemma NothingMore(start: Saved, events: seq<Event>, blocking: bool)
    requires MessageOnlyLast(events)
    requires !Breaks(Fold(start, events[..Stop(events, blocking)]), events, blocking)
    ensures Fold(start, events) == Fold(start, events[..Stop(events, blocking)])
  {
    InterruptionIsInvisible(start, events, 0);
    if FirstInterrupt(events, blocking) < FirstMessage(events) {
      FoldStuck(start, events, Stop(events, blocking), |events|);
      assert events[..|events|] == events;
    }
  }

  /** A law of the fold that the methods above use: a stream whose only possible message is
      its last event may be cut anywhere. (What interruption does to a running call is in
      `Sessions`.) */
  lemma InterruptionIsInvisible(start: Saved, events: seq<Event>, cut: nat)
    requires cut <= |events| && MessageOnlyLast(events)
    ensures Fold(Fold(start, events[..cut]), events[cut..]) == Fold(start, events[..FirstMessage(events)])
    ensures Fold(start, events) == Fold(start, events[..FirstMessage(events)])
  {
    CutAnywhere(start, events, cut);
    var k := FirstMessage(events);
    if k < |events| {
      assert k == |events| - 1;
      FoldOne(start, events, k);
    }
    assert events[..|events|] == events;
  }
}
