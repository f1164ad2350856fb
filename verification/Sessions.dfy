/** A session: one call consuming an agent's events turn by turn, and the background task it
    may leave behind (src/a2a/server/tasks/result_aggregator.py and the disconnect path of
    src/a2a/server/request_handlers/default_request_handler.py), interleaved with the agent,
    its queue, and whoever taps that queue. */
module Sessions {
  import opened Types
  import opened TaskFold
  import opened Streams
  import opened Aggregator
  import EventQueues
  import EventConsumers

  type Consumer = EventConsumers.Consumer

  /** `consume_and_break_on_interrupt`, `consume_and_emit` or `consume_all`. */
  datatype Kind = BreakOnInterrupt(blocking: bool) | Emit(taskId: string) | All

  /** `Aborted`: the agent raised, or a streamed task was not the expected one. */
  datatype Phase = Foreground | Background | Finished | Aborted

  datatype Session = Session(
    kind: Kind, consumer: Consumer, saved: Saved, phase: Phase, answer: Option<Result>, emitted: seq<Event>)

  function Begin(kind: Kind, consumer: Consumer, start: Saved): Session {
    Session(kind, consumer, start, Foreground, None, [])
  }

  predicate Running(x: Session) {
    x.phase.Foreground? || x.phase.Background?
  }

  /** The session has processed an event: `saved` is what the manager made of it. */
  function Processed(x: Session, e: Event): Session {
    if x.saved.error.Some? then
      x.(phase := Finished,
         answer := if x.phase.Foreground? then Some(Raised(x.saved.error.value)) else x.answer)
    else if x.phase.Background? then
      if x.kind.BreakOnInterrupt? || !e.MessageEvent? then x else x.(phase := Finished)
    else
      match x.kind
      case BreakOnInterrupt(blocking) =>
        if e.MessageEvent? then x.(phase := Finished, answer := Some(MessageResult(e.message)))
        else if Interrupts(e, blocking) then x.(phase := Background, answer := Some(AsResult(x.saved.manager)))
        else x
      case Emit(taskId) =>
        if e.TaskEvent? && e.task.id != taskId then x.(phase := Aborted) else x.(emitted := x.emitted + [e])
      case All =>
        if e.MessageEvent? then x.(phase := Finished, answer := Some(MessageResult(e.message))) else x
  }

  /** The stream has ended: a call that returns a result looks at the task. */
  function Ended(x: Session): Session {
    x.(phase := Finished,
       saved := if x.kind.Emit? && x.phase.Foreground? then x.saved
                else x.saved.(manager := Load(x.saved.manager, x.saved.store)),
       answer := if x.phase.Foreground? && !x.kind.Emit?
                 then Some(AsResult(Load(x.saved.manager, x.saved.store))) else x.answer)
  }

  /** One turn of whoever consumes: the call, or its background task. */
  function Consume(x: Session): Session {
    if !Running(x) then x
    else if x.consumer.mode.Stopped? then Ended(x)
    else if x.consumer.mode.Raised? then x.(phase := Aborted)
    else
      var c := EventConsumers.Poll(x.consumer);
      if |c.yielded| <= |x.consumer.yielded| then x.(consumer := c)
      else
        var e := c.yielded[|c.yielded| - 1];
        Processed(x.(consumer := c, saved := Fold(x.saved, [e])), e)
  }

  /** `Env`: a turn of the agent or of other users of the queue. `Disconnect`: a streaming
      client leaves, and a background task takes over. */
  datatype Step = Env(turn: EventConsumers.Turn) | ConsumeTurn | Disconnect

  function Next(x: Session, step: Step): Session {
    match step
    case Env(turn) => if turn.ConsumerTurn? then x else x.(consumer := EventConsumers.Next(x.consumer, turn))
    case ConsumeTurn => Consume(x)
    case Disconnect => if x.kind.Emit? && x.phase.Foreground? then x.(phase := Background) else x
  }

  function Drive(x: Session, steps: seq<Step>): Session
    decreases |steps|
  {
    if steps == [] then x else Drive(Next(x, steps[0]), steps[1..])
  }

  // ---- The session over the real queue, manager and store ----

  class ConsumingSession {
    const kind: Kind
    const consumer: EventConsumers.EventConsumer
    const manager: TaskManager
    var phase: Phase
    var answer: Option<Result>
    var emitted: seq<Event>
    var error: Option<Mismatch>

    ghost function View(): Session
      reads this, consumer, consumer.queue, manager, manager.store
    {
      Session(kind, consumer.View(), Saved(manager.View(), manager.store.tasks, error), phase, answer, emitted)
    }

    constructor (kind: Kind, consumer: EventConsumers.EventConsumer, manager: TaskManager)
      ensures this.consumer == consumer && this.manager == manager
      ensures View() == Begin(kind, consumer.View(), Saved(manager.View(), manager.store.tasks, None))
    {
      this.kind, this.consumer, this.manager := kind, consumer, manager;
      this.phase, this.answer, this.emitted, this.error := Foreground, None, [], None;
    }

    method Turn()
      requires consumer.queue.Valid() && (Running(View()) ==> error.None?)
      modifies this, consumer, consumer.queue, consumer.queue.Repr, manager, manager.store
      ensures consumer.queue.Valid() && consumer.queue.Repr == old(consumer.queue.Repr)
      ensures View() == Consume(old(View())) && (Running(View()) ==> error.None?)
    {
      if !(phase.Foreground? || phase.Background?) {
        return;
      }
      if consumer.mode.Stopped? {
        End();
      } else if consumer.mode.Raised? {
        phase := Aborted;
      } else {
        PollAndProcess();
      }
    }

    method PollAndProcess()
      requires consumer.queue.Valid() && Running(View()) && error.None? && consumer.mode.Polling?
      modifies this, consumer, consumer.queue, consumer.queue.Repr, manager, manager.store
      ensures consumer.queue.Valid() && consumer.queue.Repr == old(consumer.queue.Repr)
      ensures View() == Consume(old(View())) && (Running(View()) ==> error.None?)
    {
      var n := |consumer.yielded|;
      consumer.PollOnce();
      if |consumer.yielded| > n {
        Process(consumer.yielded[|consumer.yielded| - 1]);
      }
    }

    method TurnTimes(turns: nat)
      requires consumer.queue.Valid() && (Running(View()) ==> error.None?)
      modifies this, consumer, consumer.queue, consumer.queue.Repr, manager, manager.store
      ensures consumer.queue.Valid() && View() == Polled(old(View()), turns)
    {
      ghost var start := View();
      var i := 0;
      while i < turns
        invariant i <= turns && consumer.queue.Valid() && consumer.queue.Repr == old(consumer.queue.Repr)
        invariant View() == Polled(start, i) && (Running(View()) ==> error.None?)
      {
        PolledSnoc(start, i);
        Turn();
        i := i + 1;
      }
    }

    method End()
      requires phase.Foreground? || phase.Background?
      modifies this, manager
      ensures View() == Ended(old(View()))
    {
      if !(kind.Emit? && phase.Foreground?) {
        var task := manager.GetTask();
        if phase.Foreground? {
          answer := Some(if task.Some? then TaskResult(task.value) else NoResult);
        }
      }
      phase := Finished;
    }

    method Process(e: Event)
      requires (phase.Foreground? || phase.Background?) && error.None?
      modifies this, manager, manager.store
      ensures View() == Processed(old(View()).(saved := Fold(old(View()).saved, [e])), e)
    {
      error := manager.Process(e);
      if error.Some? {
        if phase.Foreground? {
          answer := Some(Raised(error.value));
        }
        phase := Finished;
      } else if phase.Background? {
        if !kind.BreakOnInterrupt? && e.MessageEvent? {
          phase := Finished;
        }
      } else {
        Pass(e);
      }
    }

    /** What the caller's own loop does with an event that was processed. */
    method Pass(e: Event)
      requires phase.Foreground? && error.None?
      modifies this
      ensures View() == Processed(old(View()), e)
    {
      match kind
      case Emit(taskId) =>
        if e.TaskEvent? && e.task.id != taskId {
          phase := Aborted;
        } else {
          emitted := emitted + [e];
        }
      case BreakOnInterrupt(blocking) =>
        if e.MessageEvent? {
          phase, answer := Finished, Some(MessageResult(e.message));
        } else if Interrupts(e, blocking) {
          phase := Background;
          answer := Some(if Truthy(manager.taskId) && manager.currentTask.Some?
                         then TaskResult(manager.currentTask.value) else NoResult);
        }
      case All =>
        if e.MessageEvent? {
          phase, answer := Finished, Some(MessageResult(e.message));
        }
    }
  }

  // ---- The consumer's part of a session ----

  /** The turns the consumer sees: it is polled only while someone consumes. */
  function Turns(x: Session, steps: seq<Step>): seq<EventConsumers.Turn>
    decreases |steps|
  {
    if steps == [] then []
    else
      (match steps[0]
       case Env(turn) => if turn.ConsumerTurn? then [] else [turn]
       case ConsumeTurn => if Running(x) then [EventConsumers.ConsumerTurn] else []
       case Disconnect => []) + Turns(Next(x, steps[0]), steps[1..])
  }

  lemma ConsumerNext(x: Session)
    ensures Consume(x).consumer == if Running(x) then EventConsumers.Poll(x.consumer) else x.consumer
  {
  }

  lemma {:induction false} ConsumerDrive(x: Session, steps: seq<Step>)
    ensures Drive(x, steps).consumer == EventConsumers.Drive(x.consumer, Turns(x, steps))
    decreases |steps|
  {
    if steps != [] {
      var rest := Turns(Next(x, steps[0]), steps[1..]);
      ConsumerNext(x);
      ConsumerDrive(Next(x, steps[0]), steps[1..]);
      assert forall turn: EventConsumers.Turn :: ([turn] + rest)[1..] == rest;
      assert [] + rest == rest;
    }
  }

  // ---- What a session keeps ----

  /** What a synchronous call tells its caller about a stream. */
  function Told(start: Saved, events: seq<Event>, blocking: bool): Result {
    var r := Fold(start, events[..Stop(events, blocking)]);
    if Breaks(r, events, blocking) then AsResult(r.manager) else Conclusion(r, events)
  }

  /** The answer of a synchronous call agrees with the events so far. */
  predicate Answers(x: Session, start: Saved)
    requires x.kind.BreakOnInterrupt?
  {
    var es, blocking := x.consumer.yielded, x.kind.blocking;
    && (x.phase.Foreground? ==> x.answer.None? && FirstMessage(es) == |es| == FirstInterrupt(es, blocking))
    && (x.phase.Background? ==> x.answer.Some? && FirstInterrupt(es, blocking) < FirstMessage(es))
    && (x.phase.Finished? ==> x.answer.Some?)
    && (x.answer.Some? ==>
          && x.answer.value == Told(start, es, blocking)
          && ( FirstInterrupt(es, blocking) < FirstMessage(es)
            || (Fold(start, es).error.Some? && FirstMessage(es) == |es|)
            || x.consumer.mode.Stopped?))
  }

  /** What a call that waits for everything comes to. */
  function InTheEnd(start: Saved, events: seq<Event>): Result {
    Conclusion(Fold(start, events[..FirstMessage(events)]), events)
  }

  predicate AnswersAll(x: Session, start: Saved) {
    var es := x.consumer.yielded;
    && !x.phase.Background?
    && (x.phase.Foreground? ==> x.answer.None? && FirstMessage(es) == |es|)
    && (x.phase.Finished? ==>
          && x.answer == Some(InTheEnd(start, es))
          && (x.consumer.mode.Stopped? || (Fold(start, es).error.Some? && FirstMessage(es) == |es|)))
  }

  predicate Sound(x: Session, start: Saved) {
    var es := x.consumer.yielded;
    var r := Fold(start, es);
    && x.saved.store == r.store && x.saved.error == r.error
    && (Running(x) ==> x.saved == r && r.error.None?)
    && (x.phase.Finished? ==> x.consumer.mode.Stopped? || r.error.Some?)
    && (x.kind.BreakOnInterrupt? ==> Answers(x, start))
    && (x.kind.All? ==> AnswersAll(x, start))
    && (x.kind.Emit? ==> x.emitted <= es && (x.phase.Foreground? ==> x.emitted == es))
  }

  lemma FirstsExtend(es: seq<Event>, more: seq<Event>, blocking: bool)
    ensures var m := FirstMessage(es + more);
            if FirstMessage(es) < |es| then m == FirstMessage(es) else m >= |es|
    ensures var n := FirstInterrupt(es + more, blocking);
            if FirstInterrupt(es, blocking) < |es| then n == FirstInterrupt(es, blocking) else n >= |es|
  {
    var all := es + more;
    assert forall i :: 0 <= i < |es| ==> all[i] == es[i];
    var m, n := FirstMessage(all), FirstInterrupt(all, blocking);
    assert m < |all| ==> all[m].MessageEvent?;
    assert n < |all| ==> Interrupts(all[n], blocking);
  }

  /** Once a call has broken off, later events change nothing about its answer. */
  lemma ToldAfterBreak(start: Saved, es: seq<Event>, more: seq<Event>, blocking: bool)
    requires FirstInterrupt(es, blocking) < FirstMessage(es)
    ensures Told(start, es + more, blocking) == Told(start, es, blocking)
    ensures FirstInterrupt(es + more, blocking) < FirstMessage(es + more)
  {
    FirstsExtend(es, more, blocking);
    var n := FirstInterrupt(es, blocking);
    assert (es + more)[..n + 1] == es[..n + 1];
  }

  /** Nor does anything after a rejected event. */
  lemma ToldAfterError(start: Saved, es: seq<Event>, more: seq<Event>, blocking: bool)
    requires Fold(start, es).error.Some? && FirstMessage(es) == |es|
    ensures Told(start, es + more, blocking) == Told(start, es, blocking)
  {
    if FirstInterrupt(es, blocking) < |es| {
      ToldAfterBreak(start, es, more, blocking);
    } else {
      FirstsExtend(es, more, blocking);
      var all := es + more;
      var k := Stop(all, blocking);
      assert all[..|es|] == es && es[..|es|] == es;
      FoldStuck(start, all, |es|, k);
    }
  }

  lemma FoldMore(start: Saved, es: seq<Event>, e: Event)
    ensures Fold(start, es + [e]) == Fold(Fold(start, es), [e])
    ensures e.MessageEvent? ==> Fold(start, es + [e]) == Fold(start, es)
  {
    FoldConcat(start, es, [e]);
  }

  lemma FirstsAfterOne(es: seq<Event>, e: Event, blocking: bool)
    requires FirstMessage(es) == |es| == FirstInterrupt(es, blocking)
    ensures FirstMessage(es + [e]) == if e.MessageEvent? then |es| else |es| + 1
    ensures FirstInterrupt(es + [e], blocking) == if Interrupts(e, blocking) then |es| else |es| + 1
  {
    FirstsExtend(es, [e], blocking);
    assert (es + [e])[|es|] == e;
  }

  lemma ForegroundAnswer(start: Saved, es: seq<Event>, e: Event, blocking: bool)
    requires FirstMessage(es) == |es| == FirstInterrupt(es, blocking) && Fold(start, es).error.None?
    ensures var r := Fold(start, es + [e]);
            && (r.error.Some? ==> Told(start, es + [e], blocking) == Raised(r.error.value))
            && (e.MessageEvent? ==> Told(start, es + [e], blocking) == MessageResult(e.message))
            && (r.error.None? && Interrupts(e, blocking) ==> Told(start, es + [e], blocking) == AsResult(r.manager))
  {
    FirstsAfterOne(es, e, blocking);
    FoldMore(start, es, e);
    assert (es + [e])[..|es|] == es && (es + [e])[..|es| + 1] == es + [e];
  }

  lemma ProcessedAnswers(x: Session, c: Consumer, e: Event, start: Saved)
    requires x.kind.BreakOnInterrupt? && Running(x) && Sound(x, start) && c.yielded == x.consumer.yielded + [e]
    requires IsFinal(e) ==> c.mode.Stopped?
    ensures Answers(Processed(x.(consumer := c, saved := Fold(x.saved, [e])), e), start)
  {
    var es, blocking := x.consumer.yielded, x.kind.blocking;
    FoldMore(start, es, e);
    if x.phase.Foreground? {
      ForegroundAnswer(start, es, e, blocking);
      FirstsAfterOne(es, e, blocking);
    } else {
      ToldAfterBreak(start, es, [e], blocking);
    }
  }

  lemma ProcessedAnswersAll(x: Session, c: Consumer, e: Event, start: Saved)
    requires x.kind.All? && Running(x) && Sound(x, start) && c.yielded == x.consumer.yielded + [e]
    requires IsFinal(e) ==> c.mode.Stopped?
    ensures AnswersAll(Processed(x.(consumer := c, saved := Fold(x.saved, [e])), e), start)
  {
    var es := x.consumer.yielded;
    FoldMore(start, es, e);
    FirstsExtend(es, [e], true);
    assert (es + [e])[|es|] == e && (es + [e])[..|es|] == es && (es + [e])[..|es| + 1] == es + [e];
  }

  lemma ProcessedSound(x: Session, c: Consumer, e: Event, start: Saved)
    requires Running(x) && Sound(x, start) && c.yielded == x.consumer.yielded + [e]
    requires IsFinal(e) ==> c.mode.Stopped?
    ensures Sound(Processed(x.(consumer := c, saved := Fold(x.saved, [e])), e), start)
  {
    FoldMore(start, x.consumer.yielded, e);
    if x.kind.BreakOnInterrupt? {
      ProcessedAnswers(x, c, e, start);
    } else if x.kind.All? {
      ProcessedAnswersAll(x, c, e, start);
    }
  }

  lemma EndedSound(x: Session, start: Saved)
    requires Running(x) && Sound(x, start) && x.consumer.mode.Stopped?
    ensures Sound(Ended(x), start)
  {
    var es := x.consumer.yielded;
    assert es[..|es|] == es;
  }

  lemma PollYields(c: Consumer)
    ensures var d := EventConsumers.Poll(c);
            && (|d.yielded| <= |c.yielded| ==> d.yielded == c.yielded && (c.mode.Stopped? ==> d.mode.Stopped?))
            && (|d.yielded| > |c.yielded| ==>
                  var e := d.yielded[|d.yielded| - 1];
                  d.yielded == c.yielded + [e] && (IsFinal(e) ==> d.mode.Stopped?))
  {
  }

  /** Only what was yielded matters, and that a stopped consumer stays stopped. */
  lemma SameYieldSound(x: Session, c: Consumer, start: Saved)
    requires Sound(x, start) && c.yielded == x.consumer.yielded && (x.consumer.mode.Stopped? ==> c.mode.Stopped?)
    ensures Sound(x.(consumer := c), start)
  {
  }

  lemma ConsumeSound(x: Session, start: Saved)
    requires Sound(x, start)
    ensures Sound(Consume(x), start)
  {
    if Running(x) {
      if x.consumer.mode.Stopped? {
        EndedSound(x, start);
      } else if x.consumer.mode.Polling? {
        var c := EventConsumers.Poll(x.consumer);
        PollYields(x.consumer);
        if |c.yielded| > |x.consumer.yielded| {
          ProcessedSound(x, c, c.yielded[|c.yielded| - 1], start);
        } else {
          SameYieldSound(x, c, start);
        }
      }
    }
  }

  lemma NextSound(x: Session, step: Step, start: Saved)
    requires Sound(x, start)
    ensures Sound(Next(x, step), start) && Next(x, step).kind == x.kind
  {
    match step
    case Env(turn) =>
      if !turn.ConsumerTurn? {
        SameYieldSound(x, EventConsumers.Next(x.consumer, turn), start);
      }
    case ConsumeTurn =>
      ConsumeSound(x, start);
    case Disconnect =>
  }

  lemma {:induction false} DriveSound(x: Session, steps: seq<Step>, start: Saved)
    requires Sound(x, start)
    ensures Sound(Drive(x, steps), start) && Drive(x, steps).kind == x.kind
    decreases |steps|
  {
    if steps != [] {
      NextSound(x, steps[0], start);
      DriveSound(Next(x, steps[0]), steps[1..], start);
    }
  }

  // ---- An agent that raises ----

  function ConsumeTurns(steps: seq<Step>): nat {
    if steps == [] then 0 else (if steps[0].ConsumeTurn? then 1 else 0) + ConsumeTurns(steps[1..])
  }

  /** A session at work when the agent's exception is recorded processes nothing more and
      answers nothing more: one turn meets the exception, the next one ends it. */
  lemma {:induction false} FailedSessionAborts(x: Session, steps: seq<Step>)
    requires Running(x) && x.consumer.failed && !x.consumer.mode.Stopped?
    ensures var y := Drive(x, steps);
            && y.saved == x.saved && y.answer == x.answer && y.emitted == x.emitted
            && y.consumer.yielded == x.consumer.yielded && !y.consumer.mode.Stopped?
            && (ConsumeTurns(steps) >= 2 ==> y.phase == Aborted)
            && (ConsumeTurns(steps) == 0 ==> Running(y))
            && (x.consumer.mode.Raised? && ConsumeTurns(steps) >= 1 ==> y.phase == Aborted)
    decreases |steps|
  {
    if steps != [] {
      var y := Next(x, steps[0]);
      if Running(y) {
        FailedSessionAborts(y, steps[1..]);
      } else {
        AbortedStays(y, steps[1..]);
      }
    }
  }

  lemma {:induction false} AbortedStays(x: Session, steps: seq<Step>)
    requires x.phase == Aborted && !x.consumer.mode.Stopped?
    ensures var y := Drive(x, steps);
            y.phase == Aborted && y.saved == x.saved && y.answer == x.answer && y.emitted == x.emitted
            && y.consumer.yielded == x.consumer.yielded && !y.consumer.mode.Stopped?
    decreases |steps|
  {
    if steps != [] {
      AbortedStays(Next(x, steps[0]), steps[1..]);
    }
  }

  // ---- Interruption does not change the outcome ----

  function Opening(kind: Kind, bound: nat, start: Saved): Session {
    Begin(kind, EventConsumers.Start(bound), start)
  }

  /** The agent publishes `events` in the course of the session. */
  predicate Publishes(x: Session, steps: seq<Step>, events: seq<Event>) {
    EventConsumers.Publishes(x.consumer, Turns(x, steps), events, 0)
  }

  lemma FoldOfPrefix(start: Saved, p: seq<Event>, whole: seq<Event>)
    requires p <= whole && Fold(start, p).error.Some?
    ensures Fold(start, whole) == Fold(start, p)
  {
    assert whole == p + whole[|p|..];
    FoldConcat(start, p, whole[|p|..]);
  }

  /** For every interleaving of the agent, the readers of its queue, and a consumption handed
      from the call to a background task by an interruption or a disconnection at any turn:
      the stored tasks are always the fold of what has been yielded, which is a prefix of
      what the agent publishes through its first final event; and a session that has run to
      its end leaves the fold of exactly that. A streaming client has been sent a prefix of
      it, and all of it if it is still there when the stream ends. */
  lemma OutcomeOfAnyRun(kind: Kind, bound: nat, start: Saved, steps: seq<Step>, events: seq<Event>)
    requires bound > 0 && start.error.None? && Publishes(Opening(kind, bound, start), steps, events)
    ensures var x := Drive(Opening(kind, bound, start), steps);
            && x.consumer.yielded <= ThroughFinal(events)
            && x.saved.store == Fold(start, x.consumer.yielded).store
            && (x.phase.Finished? ==> x.saved.store == Fold(start, ThroughFinal(events)).store)
            && (kind.Emit? ==> x.emitted <= ThroughFinal(events))
            && (kind.Emit? && x.phase.Foreground? && x.consumer.mode.Stopped? ==> x.emitted == ThroughFinal(events))
  {
    var x0 := Opening(kind, bound, start);
    DriveSound(x0, steps, start);
    ConsumerDrive(x0, steps);
    EventConsumers.YieldsWhatWasPublished(bound, Turns(x0, steps), events);
    var x := Drive(x0, steps);
    if x.phase.Finished? && !x.consumer.mode.Stopped? {
      FoldOfPrefix(start, x.consumer.yielded, ThroughFinal(events));
    }
  }

  /** What a synchronous call answers, in every interleaving: an interrupted call the fold
      through the first interrupting event, any other what the whole stream comes to. */
  lemma AnswerOfAnyRun(blocking: bool, bound: nat, start: Saved, steps: seq<Step>, events: seq<Event>)
    requires bound > 0 && start.error.None?
    requires Publishes(Opening(BreakOnInterrupt(blocking), bound, start), steps, events)
    ensures var x := Drive(Opening(BreakOnInterrupt(blocking), bound, start), steps);
            && (x.phase.Background? || x.phase.Finished? ==> x.answer.Some?)
            && (x.answer.Some? ==> x.answer.value == Told(start, ThroughFinal(events), blocking))
  {
    var x0 := Opening(BreakOnInterrupt(blocking), bound, start);
    DriveSound(x0, steps, start);
    ConsumerDrive(x0, steps);
    EventConsumers.YieldsWhatWasPublished(bound, Turns(x0, steps), events);
    var x := Drive(x0, steps);
    if x.answer.Some? && !x.consumer.mode.Stopped? {
      var es, whole := x.consumer.yielded, ThroughFinal(events);
      assert whole == es + whole[|es|..];
      if FirstInterrupt(es, blocking) < FirstMessage(es) {
        ToldAfterBreak(start, es, whole[|es|..], blocking);
      } else {
        ToldAfterError(start, es, whole[|es|..], blocking);
      }
    }
  }

  /** What `consume_all` answers, in every interleaving. */
  lemma AnswerOfConsumeAll(bound: nat, start: Saved, steps: seq<Step>, events: seq<Event>)
    requires bound > 0 && start.error.None? && Publishes(Opening(All, bound, start), steps, events)
    ensures var x := Drive(Opening(All, bound, start), steps);
            x.phase.Finished? ==> x.answer == Some(InTheEnd(start, ThroughFinal(events)))
  {
    var x0 := Opening(All, bound, start);
    DriveSound(x0, steps, start);
    ConsumerDrive(x0, steps);
    EventConsumers.YieldsWhatWasPublished(bound, Turns(x0, steps), events);
    var x := Drive(x0, steps);
    if x.phase.Finished? && !x.consumer.mode.Stopped? {
      InTheEndAfterError(start, x.consumer.yielded, ThroughFinal(events));
    }
  }

  lemma InTheEndAfterError(start: Saved, es: seq<Event>, whole: seq<Event>)
    requires es <= whole && Fold(start, es).error.Some? && FirstMessage(es) == |es|
    ensures InTheEnd(start, whole) == InTheEnd(start, es)
  {
    assert whole == es + whole[|es|..];
    FirstsExtend(es, whole[|es|..], true);
    assert whole[..|es|] == es && es[..|es|] == es;
    FoldStuck(start, whole, |es|, FirstMessage(whole));
  }

  // ---- What a streaming client is sent ----

  /** Never a task other than the one its call is about: such an event ends the call. */
  lemma {:induction false} OnlyItsOwnTaskIsSent(taskId: string, x: Session, steps: seq<Step>)
    requires x.kind == Emit(taskId) && forall e :: e in x.emitted && e.TaskEvent? ==> e.task.id == taskId
    ensures forall e :: e in Drive(x, steps).emitted && e.TaskEvent? ==> e.task.id == taskId
    decreases |steps|
  {
    if steps != [] {
      OnlyItsOwnTaskIsSent(taskId, Next(x, steps[0]), steps[1..]);
    }
  }

  /** A client that has left is sent nothing more. */
  lemma {:induction false} NothingIsSentAfterwards(x: Session, steps: seq<Step>)
    requires x.kind.Emit? && !x.phase.Foreground?
    ensures Drive(x, steps).emitted == x.emitted && !Drive(x, steps).phase.Foreground?
    decreases |steps|
  {
    if steps != [] {
      NothingIsSentAfterwards(Next(x, steps[0]), steps[1..]);
    }
  }

  lemma DisconnectedGetsNoMore(x: Session, steps: seq<Step>)
    requires x.kind.Emit?
    ensures Drive(Next(x, Disconnect), steps).emitted == x.emitted
  {
    NothingIsSentAfterwards(Next(x, Disconnect), steps);
  }

  // ---- A queue that was filled before anyone polled it, and that nobody closes ----

  function Loaded(events: seq<Event>): EventQueues.Node {
    EventQueues.NewNode(EventQueues.DEFAULT_MAX_QUEUE_SIZE, 0)
      .(buffer := events, unfinished := |events|, log := events)
  }

  function Polled(x: Session, polls: nat): Session
    decreases polls
  {
    if polls == 0 then x else Polled(Consume(x), polls - 1)
  }

  lemma {:induction false} PolledSnoc(x: Session, polls: nat)
    ensures Polled(x, polls + 1) == Consume(Polled(x, polls))
    decreases polls
  {
    if polls > 0 {
      PolledSnoc(Consume(x), polls - 1);
    }
  }

  /** A session at work on an open queue that only it reads. */
  predicate Alone(x: Session) {
    && x.kind.All? && x.phase.Foreground? && x.answer.None? && x.saved.error.None?
    && x.consumer.mode.Polling? && !x.consumer.failed
    && !x.consumer.tree.closed && |x.consumer.tree.buffer| <= x.consumer.tree.unfinished
  }

  lemma {:induction false} PolledIdle(x: Session, polls: nat)
    requires !Running(x)
    ensures Polled(x, polls) == x
    decreases polls
  {
    if polls > 0 {
      PolledIdle(x, polls - 1);
    }
  }

  /** What one poll does to it. */
  lemma PollAlone(x: Session)
    requires Alone(x)
    ensures var y, b := Consume(x), x.consumer.tree.buffer;
            && (b == [] ==> y == x)
            && (b != [] ==>
                  && y.saved == Fold(x.saved, [b[0]])
                  && (y.saved.error.Some? ==> y.phase.Finished?)
                  && (y.saved.error.None? && b[0].MessageEvent? ==> y.phase.Finished?)
                  && (y.saved.error.None? && !b[0].MessageEvent? && IsFinal(b[0]) ==>
                        y.phase.Foreground? && y.answer.None? && y.consumer.mode.Stopped? && y.kind.All?)
                  && (y.saved.error.None? && !IsFinal(b[0]) ==>
                        Alone(y) && y.consumer.tree.buffer == b[1..]))
  {
  }

  lemma FinalFirst(b: seq<Event>)
    requires b != []
    ensures ThroughFinal(b) == if IsFinal(b[0]) then [b[0]] else [b[0]] + ThroughFinal(b[1..])
    ensures NoneFinal(b) <==> !IsFinal(b[0]) && NoneFinal(b[1..])
  {
    assert forall i :: 0 < i < |b| ==> b[i] == b[1..][i - 1];
  }

  lemma PollOn(x: Session)
    requires Alone(x) && x.consumer.tree.buffer != [] && !IsFinal(x.consumer.tree.buffer[0])
    requires Fold(x.saved, [x.consumer.tree.buffer[0]]).error.None?
    ensures var y, b := Consume(x), x.consumer.tree.buffer;
            Alone(y) && y.consumer.tree.buffer == b[1..] && y.saved == Fold(x.saved, [b[0]])
  {
    PollAlone(x);
  }

  lemma FirstIsAccepted(r: Saved, b: seq<Event>)
    requires b != [] && Fold(r, ThroughFinal(b)).error.None?
    ensures Fold(r, [b[0]]).error.None?
  {
    FinalFirst(b);
    if !IsFinal(b[0]) {
      FoldFirst(r, b[0], ThroughFinal(b[1..]));
    }
  }

  lemma FoldFirst(r: Saved, e: Event, tail: seq<Event>)
    ensures Fold(r, [e] + tail) == Fold(Fold(r, [e]), tail)
    ensures Fold(r, [e]).error.Some? ==> Fold(r, [e] + tail) == Fold(r, [e])
  {
    FoldConcat(r, [e], tail);
  }

  /** After `polls` polls the store has one event of the consumed part for each. */
  predicate StoreIs(start: Saved, b: seq<Event>, polls: nat, store: Store) {
    var p := ThroughFinal(b);
    store == Fold(start, p[..Least(polls, |p|)]).store
  }

  lemma StoreShift(r: Saved, e: Event, tail: seq<Event>, k: nat, store: Store)
    requires k <= |tail|
    requires store == if Fold(r, [e]).error.Some? then Fold(r, [e]).store else Fold(Fold(r, [e]), tail[..k]).store
    ensures store == Fold(r, ([e] + tail)[..k + 1]).store
  {
    assert ([e] + tail)[..k + 1] == [e] + tail[..k];
    FoldFirst(r, e, tail[..k]);
  }

  lemma StoreInFront(r: Saved, b: seq<Event>, polls: nat, store: Store)
    requires b != [] && !IsFinal(b[0]) && polls > 0
    requires Fold(r, [b[0]]).error.Some? ==> store == Fold(r, [b[0]]).store
    requires Fold(r, [b[0]]).error.None? ==> StoreIs(Fold(r, [b[0]]), b[1..], polls - 1, store)
    ensures StoreIs(r, b, polls, store)
  {
    FinalFirst(b);
    var tail := ThroughFinal(b[1..]);
    var k := Least(polls - 1, |tail|);
    StoreShift(r, b[0], tail, k, store);
    var p := [b[0]] + tail;
    assert ThroughFinal(b) == p && Least(polls, |p|) == k + 1;
  }

  lemma StoreAtFinal(r: Saved, b: seq<Event>, polls: nat, store: Store)
    requires b != [] && IsFinal(b[0]) && polls > 0 && store == Fold(r, [b[0]]).store
    ensures StoreIs(r, b, polls, store)
  {
    FinalFirst(b);
    assert ThroughFinal(b)[..1] == [b[0]];
  }

  lemma PollNothing(x: Session)
    requires Alone(x) && x.consumer.tree.buffer == []
    ensures Consume(x) == x
  {
  }

  lemma {:induction false} PolledStore(x: Session, polls: nat)
    requires Alone(x)
    ensures StoreIs(x.saved, x.consumer.tree.buffer, polls, Polled(x, polls).saved.store)
    decreases polls, 1
  {
    var b := x.consumer.tree.buffer;
    if polls == 0 {
      assert ThroughFinal(b)[..0] == [];
    } else if b == [] {
      PollNothing(x);
      PolledStore(x, polls - 1);
    } else if IsFinal(b[0]) {
      LastPoll(x, polls);
      StoreAtFinal(x.saved, b, polls, Polled(x, polls).saved.store);
    } else {
      MiddleStore(x, polls);
    }
  }

  lemma {:induction false} MiddleStore(x: Session, polls: nat)
    requires Alone(x) && polls > 0 && x.consumer.tree.buffer != [] && !IsFinal(x.consumer.tree.buffer[0])
    ensures StoreIs(x.saved, x.consumer.tree.buffer, polls, Polled(x, polls).saved.store)
    decreases polls, 0
  {
    var b := x.consumer.tree.buffer;
    if Fold(x.saved, [b[0]]).error.Some? {
      LastPoll(x, polls);
    } else {
      PollOn(x);
      PolledStore(Consume(x), polls - 1);
    }
    StoreInFront(x.saved, b, polls, Polled(x, polls).saved.store);
  }

  lemma LastPoll(x: Session, polls: nat)
    requires Alone(x) && polls > 0 && x.consumer.tree.buffer != []
    requires Fold(x.saved, [x.consumer.tree.buffer[0]]).error.Some? || IsFinal(x.consumer.tree.buffer[0])
    ensures Polled(x, polls).saved.store == Fold(x.saved, [x.consumer.tree.buffer[0]]).store
  {
    PollAlone(x);
    var y := Consume(x);
    if y.phase.Finished? {
      PolledIdle(y, polls - 1);
    } else {
      PolledStopped(y, polls - 1);
    }
  }

  lemma {:induction false} PolledStopped(x: Session, polls: nat)
    requires x.phase.Foreground? && x.kind.All? && x.consumer.mode.Stopped?
    ensures var y := Polled(x, polls);
            && y.saved.store == x.saved.store
            && (if polls == 0 then y == x
                else y.phase.Finished? && y.answer == Some(AsResult(Load(x.saved.manager, x.saved.store))))
    decreases polls
  {
    if polls > 0 {
      PolledIdle(Ended(x), polls - 1);
    }
  }

  /** The session is at its end, with its answer, if and only if something it was given is
      final and it has polled once more than it took to get there. */
  predicate AnswerIs(start: Saved, b: seq<Event>, polls: nat, finished: bool, answer: Option<Result>) {
    var p := ThroughFinal(b);
    var r := Fold(start, p);
    && (finished <==> !NoneFinal(b) && polls > |p|)
    && answer == if finished then Some(AsResult(Load(r.manager, r.store))) else None
  }

  lemma AnswerInFront(r: Saved, b: seq<Event>, polls: nat, finished: bool, answer: Option<Result>)
    requires b != [] && !IsFinal(b[0]) && polls > 0
    requires AnswerIs(Fold(r, [b[0]]), b[1..], polls - 1, finished, answer)
    ensures AnswerIs(r, b, polls, finished, answer)
  {
    FinalFirst(b);
    FoldFirst(r, b[0], ThroughFinal(b[1..]));
  }

  lemma AcceptedTail(r: Saved, e: Event, tail: seq<Event>)
    requires Fold(r, [e] + tail).error.None?
    ensures Fold(r, [e]).error.None? && Fold(Fold(r, [e]), tail).error.None?
  {
    FoldFirst(r, e, tail);
  }

  lemma FinalAnswer(x: Session, polls: nat)
    requires Alone(x) && AllUpdates(x.consumer.tree.buffer)
    requires Fold(x.saved, ThroughFinal(x.consumer.tree.buffer)).error.None?
    requires x.consumer.tree.buffer != [] && IsFinal(x.consumer.tree.buffer[0]) && polls > 0
    ensures var y := Polled(x, polls); AnswerIs(x.saved, x.consumer.tree.buffer, polls, y.phase.Finished?, y.answer)
  {
    var b := x.consumer.tree.buffer;
    FirstIsAccepted(x.saved, b);
    FinalFirst(b);
    FinalPoll(x, b[0]);
    PolledStopped(Consume(x), polls - 1);
  }

  lemma FinalPoll(x: Session, e: Event)
    requires Alone(x) && x.consumer.tree.buffer != [] && e == x.consumer.tree.buffer[0]
    requires IsFinal(e) && !e.MessageEvent? && Fold(x.saved, [e]).error.None?
    ensures var y := Consume(x);
            && y.phase.Foreground? && y.kind.All? && y.answer.None? && y.consumer.mode.Stopped?
            && y.saved == Fold(x.saved, [e])
  {
    PollAlone(x);
  }

  lemma {:induction false} PolledAnswersIff(x: Session, polls: nat)
    requires Alone(x) && AllUpdates(x.consumer.tree.buffer)
    requires Fold(x.saved, ThroughFinal(x.consumer.tree.buffer)).error.None?
    ensures var y := Polled(x, polls); AnswerIs(x.saved, x.consumer.tree.buffer, polls, y.phase.Finished?, y.answer)
    decreases polls, 1
  {
    if polls == 0 {
    } else if x.consumer.tree.buffer == [] {
      PollNothing(x);
      PolledAnswersIff(x, polls - 1);
    } else if IsFinal(x.consumer.tree.buffer[0]) {
      FinalAnswer(x, polls);
    } else {
      MiddleAnswer(x, polls);
    }
  }

  lemma {:induction false} MiddleAnswer(x: Session, polls: nat)
    requires Alone(x) && AllUpdates(x.consumer.tree.buffer) && polls > 0
    requires Fold(x.saved, ThroughFinal(x.consumer.tree.buffer)).error.None?
    requires x.consumer.tree.buffer != [] && !IsFinal(x.consumer.tree.buffer[0])
    ensures var y := Polled(x, polls); AnswerIs(x.saved, x.consumer.tree.buffer, polls, y.phase.Finished?, y.answer)
    decreases polls, 0
  {
    var b := x.consumer.tree.buffer;
    FinalFirst(b);
    AcceptedTail(x.saved, b[0], ThroughFinal(b[1..]));
    PollOn(x);
    PolledAnswersIff(Consume(x), polls - 1);
    var y := Polled(Consume(x), polls - 1);
    AnswerInFront(x.saved, x.consumer.tree.buffer, polls, y.phase.Finished?, y.answer);
  }
}
