/** `DefaultRequestHandler` (src/a2a/server/request_handlers/default_request_handler.py) at
    work on a real store. */
module RequestHandlers {
  import opened Types
  import opened TaskFold
  import opened Streams
  import opened Aggregator
  import opened Requests
  import opened Cancellations
  import EventQueues
  import EventConsumers
  import Sessions

  /** How many of `n` events are processed when the agent raises after `raises` of them, or
      not at all. */
  function Reached(raises: Option<nat>, n: nat): nat {
    if raises.None? then n else Least(raises.value, n)
  }

  class DefaultRequestHandler {
    const taskStore: TaskStore
    var runningAgents: set<string>

    constructor (taskStore: TaskStore)
      ensures this.taskStore == taskStore && runningAgents == {}
    {
      this.taskStore, this.runningAgents := taskStore, {};
    }

    /** `_setup_message_execution`: the guards, the manager, and the ids the agent runs under. */
    method SetupMessageExecution(p: SendParams, newTaskId: string, newContextId: string)
      returns (refusal: Option<Refusal>, manager: TaskManager?, taskId: string, contextId: string)
      modifies this
      ensures var plan := PlanSend(taskStore.tasks, p, newTaskId, newContextId);
              && (refusal.Some? <==> plan.Refused?)
              && (refusal.Some? ==> refusal.value == plan.why && runningAgents == old(runningAgents))
              && (refusal.None? ==>
                    && manager != null && fresh(manager) && manager.store == taskStore
                    && manager.View() == plan.manager
                    && taskId == plan.base.id && contextId == plan.contextId
                    && runningAgents == old(runningAgents) + {taskId})
    {
      manager, taskId, contextId := null, "", "";
      if p.taskId == Some("") {
        return Some(BadTaskId), manager, taskId, contextId;
      }
      var tm := new TaskManager(p.taskId, p.contextId, taskStore, Some(p.message));
      var task := tm.GetTask();
      if task.Some? {
        if IsTerminal(task.value.status.state) {
          return Some(TaskIsTerminal), manager, taskId, contextId;
        }
        var updated := tm.UpdateWithMessage(p.message, task.value);
        task := Some(updated);
      } else if p.taskId.Some? {
        return Some(TaskNotFound), manager, taskId, contextId;
      }
      if Truthy(p.contextId) {
        if task.Some? && task.value.contextId != p.contextId.value {
          return Some(BadContextId), manager, taskId, contextId;
        }
        contextId := p.contextId.value;
      } else {
        contextId := newContextId;
      }
      taskId := if task.Some? then task.value.id else newTaskId;
      runningAgents := runningAgents + {taskId};
      return None, tm, taskId, contextId;
    }

    /** The agent at work with an updater of its own. */
    static method Perform(taskId: string, contextId: string, agent: seq<Call>) returns (output: seq<Event>)
      ensures output == Emitted(Updater(taskId, contextId, false), agent)
    {
      var updater := new TaskUpdater(taskId, contextId);
      updater.PerformAll(agent);
      output := updater.queue;
    }

    /** What a send's consumer yields: the agent's output through its first final event, or
        all of it once the agent is done; less of it when the agent raises first, and then the
        consumer may raise. (`RequestRuns.EveryRunServes` is about every interleaving; in this
        one each event is polled as it is published.) */
    static method RunAgent(taskId: string, contextId: string, agent: seq<Call>, raises: Option<nat>)
      returns (events: seq<Event>, raised: bool)
      ensures var all := ThroughFinal(Emitted(Updater(taskId, contextId, false), agent));
              events == all[..Reached(raises, |all|)]
      ensures AllUpdates(events)
      ensures raised <==> raises.Some? && NoneFinal(events)
    {
      var output := Perform(taskId, contextId, agent);
      events, raised := PublishAndPoll(output, raises);
    }

    static method PublishAndPoll(output: seq<Event>, raises: Option<nat>) returns (events: seq<Event>, raised: bool)
      ensures var all := ThroughFinal(output); events == all[..Reached(raises, |all|)]
      ensures raises.None? || raises.value > |ThroughFinal(output)| ==> events == ThroughFinal(output)
      ensures raises.Some? && raises.value <= |ThroughFinal(output)| ==> events == ThroughFinal(output)[..raises.value]
      ensures raised <==> raises.Some? && NoneFinal(events)
    {
      var queue := new EventQueues.EventQueue(EventQueues.DEFAULT_MAX_QUEUE_SIZE, 0);
      var consumer := new EventConsumers.EventConsumer(queue);
      var n := Reached(raises, |output|);
      var i := 0;
      assert output[..0] == [];
      while i < n && consumer.mode.Polling?
        invariant i <= n && queue.Valid() && fresh(queue.Repr)
        invariant InStep(consumer.View(), output, i)
      {
        InStepNext(consumer.View(), output, i);
        EventQueues.DeliverIsPublish(queue.Tree, output[i]);
        var waits := queue.EnqueueEvent(output[i]);
        consumer.PollOnce();
        i := i + 1;
      }
      InStepEnd(consumer.View(), output, raises, i);
      if raises.Some? {
        consumer.AgentTaskCallback(false, true);
      } else {
        var waits := queue.Close(false);
      }
      consumer.PollOnce();
      events, raised := consumer.yielded, consumer.mode.Raised?;
    }

    /** The consuming half of `on_message_send`. */
    static method ConsumeSend(manager: TaskManager, events: seq<Event>, blocking: bool, ghost s: Store, ghost q: Request)
      returns (result: Result, interrupted: bool)
      requires PlanOf(s, q).Execute? && !q.Resubscribe?
      requires manager.View() == PlanOf(s, q).manager && manager.store.tasks == s
      requires events <= Consumed(PlanOf(s, q), q) && AllUpdates(events)
      modifies manager, manager.store
      ensures manager.store.tasks == Serve(s, q)[|events|]
      ensures KeyedById(s) && FreshId(s, q) ==>
                && result == Answer(PlanOf(s, q), Awaited(events, blocking))
                && (interrupted <==> FirstInterrupt(events, blocking) < |events|)
    {
      PrefixStore(s, q, events);
      var aggregator := new ResultAggregator(manager);
      result, interrupted := aggregator.ConsumeSplit(events, blocking);
      if KeyedById(s) && FreshId(s, q) {
        assert Consumed(PlanOf(s, q), q)[..|events|] == events;
        SendAnswer(s, q, |events|, blocking);
      }
    }

    /** The consuming half of `on_message_send_stream`, for a client that leaves after
        `wanted` events; the background task then drains the queue. */
    static method EmitThenDrain(manager: TaskManager, events: seq<Event>, wanted: nat, ghost s: Store, ghost q: Request)
      returns (emitted: seq<Event>)
      requires PlanOf(s, q).Execute? && !q.Resubscribe? && wanted <= |events|
      requires manager.View() == PlanOf(s, q).manager && manager.store.tasks == s
      requires events <= Consumed(PlanOf(s, q), q) && AllUpdates(events)
      modifies manager, manager.store
      ensures manager.store.tasks == Serve(s, q)[|events|]
      ensures emitted <= events && (KeyedById(s) && FreshId(s, q) ==> |emitted| == wanted)
    {
      PrefixStore(s, q, events);
      if KeyedById(s) && FreshId(s, q) {
        PrefixAnswer(s, q, wanted);
        assert Consumed(PlanOf(s, q), q)[..wanted] == events[..wanted];
      }
      var aggregator := new ResultAggregator(manager);
      emitted := aggregator.EmitSplit(events, wanted);
    }

    /** `cancel` publishes, then its queue is polled `polls` times. */
    static method ConsumeCancel(manager: TaskManager, output: seq<Event>, polls: nat, ghost s: Store, ghost q: Request)
      returns (answer: Option<Result>)
      requires q.Cancel? && PlanOf(s, q).Execute? && output == Output(PlanOf(s, q), q)
      requires manager.View() == PlanOf(s, q).manager && manager.store.tasks == s
      modifies manager, manager.store
      ensures manager.store.tasks == Serve(s, q)[Least(polls, |Consumed(PlanOf(s, q), q)|)]
      ensures KeyedById(s) ==>
                var p := PlanOf(s, q);
                answer == if IsAnswered(p, q) && polls > |Consumed(p, q)| then Some(Answer(p, Consumed(p, q))) else None
    {
      CancelRuns(s, q, polls);
      if |output| > EventQueues.DEFAULT_MAX_QUEUE_SIZE {
        return None;
      }
      answer := PollQueue(manager, output, polls);
    }

    /** The session of a cancellation over its own queue. */
    static method PollQueue(manager: TaskManager, output: seq<Event>, polls: nat) returns (answer: Option<Result>)
      requires |output| <= EventQueues.DEFAULT_MAX_QUEUE_SIZE
      modifies manager, manager.store
      ensures var consumer := EventConsumers.Consumer(Sessions.Loaded(output), EventConsumers.Polling, false, []);
              var start := Saved(old(manager.View()), old(manager.store.tasks), None);
              var x := Sessions.Polled(Sessions.Begin(Sessions.All, consumer, start), polls);
              manager.store.tasks == x.saved.store && answer == x.answer
    {
      var queue := FilledQueue(output);
      var consumer := new EventConsumers.EventConsumer(queue);
      var session := new Sessions.ConsumingSession(Sessions.All, consumer, manager);
      session.TurnTimes(polls);
      answer := session.answer;
    }

    /** A queue of the cancellation's own, with everything the agent published. */
    static method FilledQueue(output: seq<Event>) returns (queue: EventQueues.EventQueue)
      requires |output| <= EventQueues.DEFAULT_MAX_QUEUE_SIZE
      ensures queue.Valid() && fresh(queue.Repr) && queue.Tree == Sessions.Loaded(output)
    {
      queue := new EventQueues.EventQueue(EventQueues.DEFAULT_MAX_QUEUE_SIZE, 0);
      var i := 0;
      while i < |output|
        invariant i <= |output| && queue.Valid() && fresh(queue.Repr)
        invariant queue.Tree == Sessions.Loaded(output[..i])
      {
        EventQueues.DeliverIsPublish(queue.Tree, output[i]);
        var waits := queue.EnqueueEvent(output[i]);
        assert output[..i + 1] == output[..i] + [output[i]];
        i := i + 1;
      }
      assert output[..|output|] == output;
    }

    /** `on_message_send`, including the background task it may leave behind. If the agent
        raises, its exception reaches the caller unless the call has returned before, and the
        agent stays listed as running, because awaiting it for the cleanup raises again. */
    method OnMessageSend(p: SendParams, newTaskId: string, newContextId: string, agent: seq<Call>, raises: Option<nat>,
                         blocking: bool)
      returns (refusal: Option<Refusal>, result: Result, interrupted: bool)
      modifies this, taskStore
      ensures var s, q := old(taskStore.tasks), Send(p, newTaskId, newContextId, agent);
              var plan := PlanOf(s, q);
              if plan.Refused? then
                taskStore.tasks == s && refusal == Some(plan.why) && runningAgents == old(runningAgents)
              else
                && taskStore.tasks == Serve(s, q)[Reached(raises, |Consumed(plan, q)|)]
                && refusal == (if raises.Some? && !interrupted then Some(AgentRaised)
                               else if result.NoResult? then Some(NoAnswer) else None)
                && runningAgents == (if raises.Some? then old(runningAgents) + {plan.base.id}
                                     else old(runningAgents) - {plan.base.id})
      ensures var s, q := old(taskStore.tasks), Send(p, newTaskId, newContextId, agent);
              var plan := PlanOf(s, q);
              KeyedById(s) && FreshId(s, q) && plan.Execute? ==>
                var events := Consumed(plan, q)[..Reached(raises, |Consumed(plan, q)|)];
                && result == Answer(plan, Awaited(events, blocking))
                && (interrupted <==> FirstInterrupt(events, blocking) < |events|)
    {
      ghost var s, q := taskStore.tasks, Send(p, newTaskId, newContextId, agent);
      result, interrupted := NoResult, false;
      var manager, taskId, contextId;
      refusal, manager, taskId, contextId := SetupMessageExecution(p, newTaskId, newContextId);
      if refusal.None? {
        var events, raised := RunAgent(taskId, contextId, agent, raises);
        result, interrupted := ConsumeSend(manager, events, blocking, s, q);
        var cleaned := raises.None?;
        refusal := if !interrupted && (raised || !cleaned) then Some(AgentRaised)
                   else if result.NoResult? then Some(NoAnswer) else None;
        if cleaned {
          runningAgents := runningAgents - {taskId};
        }
      }
    }

    /** `on_message_send_stream`. The agent's exception reaches a client that is still there
        and asks for more than could be processed, unless the stream had ended before. */
    method OnMessageSendStream(p: SendParams, newTaskId: string, newContextId: string, agent: seq<Call>,
                               raises: Option<nat>, wanted: nat)
      returns (refusal: Option<Refusal>, emitted: seq<Event>)
      modifies this, taskStore
      ensures var s, q := old(taskStore.tasks), Send(p, newTaskId, newContextId, agent);
              var plan := PlanOf(s, q);
              if plan.Refused? then
                taskStore.tasks == s && refusal == Some(plan.why) && emitted == [] && runningAgents == old(runningAgents)
              else
                var events := Consumed(plan, q)[..Reached(raises, |Consumed(plan, q)|)];
                && taskStore.tasks == Serve(s, q)[|events|] && emitted <= events
                && refusal == (if raises.Some? && wanted > |events| && NoneFinal(events) then Some(AgentRaised) else None)
                && runningAgents == (if raises.Some? then old(runningAgents) + {plan.base.id}
                                     else old(runningAgents) - {plan.base.id})
                && (KeyedById(s) && FreshId(s, q) ==> |emitted| == Least(wanted, |events|))
    {
      ghost var s, q := taskStore.tasks, Send(p, newTaskId, newContextId, agent);
      emitted := [];
      var manager, taskId, contextId;
      refusal, manager, taskId, contextId := SetupMessageExecution(p, newTaskId, newContextId);
      if refusal.None? {
        var events, raised := RunAgent(taskId, contextId, agent, raises);
        emitted := EmitThenDrain(manager, events, Least(wanted, |events|), s, q);
        if raises.None? {
          runningAgents := runningAgents - {taskId};
        }
        if wanted > |events| && raised {
          refusal := Some(AgentRaised);
        }
      }
    }

    /** `on_cancel_task`, after its queue was polled `polls` times: it has an answer if and
        only if the agent published something final and every event of the consumed part was
        polled, and then it succeeds if and only if that leaves the task canceled. A `cancel`
        that raises, after publishing what it does, is answered with its exception. */
    method OnCancelTask(taskId: string, agent: seq<Call>, raises: bool, polls: nat)
      returns (answered: bool, refusal: Option<Refusal>, result: Result)
      modifies taskStore
      ensures var s, q := old(taskStore.tasks), Cancel(taskId, agent);
              var plan := PlanOf(s, q);
              && (plan.Refused? ==> answered && refusal == Some(plan.why) && taskStore.tasks == s)
              && (plan.Execute? && raises ==>
                    && taskStore.tasks == s && (answered <==> !Stuck(plan, q))
                    && (answered ==> refusal == Some(AgentRaised)))
              && (plan.Execute? && !raises ==>
                    taskStore.tasks == Serve(s, q)[Least(polls, |Consumed(plan, q)|)])
      ensures var s, q := old(taskStore.tasks), Cancel(taskId, agent);
              var plan := PlanOf(s, q);
              KeyedById(s) && plan.Execute? && !raises ==>
                var end := ServerTask(plan.base, Consumed(plan, q));
                && (answered <==> IsAnswered(plan, q) && polls > |Consumed(plan, q)|)
                && (answered ==> refusal == if end.status.state == Canceled then None else Some(NotCanceled))
                && (answered && refusal.None? ==> result == TaskResult(end))
    {
      ghost var s, q := taskStore.tasks, Cancel(taskId, agent);
      answered, refusal, result := true, None, NoResult;
      var task := taskStore.Get(taskId);
      if task.None? {
        return true, Some(TaskNotFound), result;
      }
      if IsTerminal(task.value.status.state) {
        return true, Some(TaskIsTerminal), result;
      }
      if task.value.id == "" {
        return true, Some(BadTaskId), result;
      }
      var manager := new TaskManager(Some(task.value.id), Some(task.value.contextId), taskStore, None);
      var output := Perform(task.value.id, task.value.contextId, agent);
      if raises {
        answered := |output| <= EventQueues.DEFAULT_MAX_QUEUE_SIZE;
        refusal := if answered then Some(AgentRaised) else None;
        return;
      }
      var answer := ConsumeCancel(manager, output, polls, s, q);
      if answer.None? {
        return false, None, result;
      }
      result := answer.value;
      if !result.TaskResult? {
        refusal := Some(NoAnswer);
      } else if result.task.status.state != Canceled {
        refusal := Some(NotCanceled);
      }
    }
  }

  /** The store after a part of the consumed events. */
  lemma PrefixStore(s: Store, q: Request, events: seq<Event>)
    requires PlanOf(s, q).Execute? && !q.Resubscribe? && events <= Consumed(PlanOf(s, q), q)
    ensures Serve(s, q)[|events|] == Fold(Saved(PlanOf(s, q).manager, s, None), events).store
  {
    var all := Consumed(PlanOf(s, q), q);
    assert all[..|events|] == events;
    TrailAt(Saved(PlanOf(s, q).manager, s, None), all, |events|);
  }

  // ---- A consumer that keeps up with its agent ----

  /** It has yielded the first `i` events, and stopped if the last of them was final. */
  predicate InStep(c: EventConsumers.Consumer, output: seq<Event>, i: nat) {
    && i <= |output| && c.yielded == output[..i] && !c.failed
    && c.tree.kids == [] && c.tree.bound > 0
    && (c.mode.Polling? ==> !c.tree.closed && c.tree.buffer == [] && NoneFinal(output[..i]))
    && (!c.mode.Polling? ==> c.mode.Stopped? && c.yielded == ThroughFinal(output) && !NoneFinal(c.yielded))
  }

  lemma InStepNext(c: EventConsumers.Consumer, output: seq<Event>, i: nat)
    requires InStep(c, output, i) && c.mode.Polling? && i < |output|
    ensures EventQueues.HasRoom(c.tree)
    ensures InStep(EventConsumers.Poll(c.(tree := EventQueues.Publish(c.tree, output[i]))), output, i + 1)
  {
    var e := output[i];
    var p := output[..i + 1];
    assert p == output[..i] + [e] && p[..|p| - 1] == output[..i];
    if IsFinal(e) {
      ThroughFinalIs(output, p);
      assert IsFinal(p[i]);
    }
  }

  /** Where the publishing ends. */
  lemma InStepEnd(c: EventConsumers.Consumer, output: seq<Event>, raises: Option<nat>, i: nat)
    requires InStep(c, output, i) && i <= Reached(raises, |output|)
    requires c.mode.Polling? ==> i == Reached(raises, |output|)
    ensures var all := ThroughFinal(output); c.yielded == all[..Reached(raises, |all|)]
    ensures NoneFinal(c.yielded) <==> c.mode.Polling?
  {
    if c.mode.Polling? {
      EventConsumers.NoneFinalPrefix(output, output[..i]);
      assert raises.None? ==> output[..i] == output;
      assert output[..i] == ThroughFinal(output)[..i];
    } else {
      var all := ThroughFinal(output);
      assert all[..|all|] == all;
    }
  }
}
