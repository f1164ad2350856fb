/** `on_cancel_task` (src/a2a/server/request_handlers/default_request_handler.py): a call that
    polls a queue of its own until something final comes. */
module Cancellations {
  import opened Types
  import opened TaskFold
  import opened Streams
  import opened Aggregator
  import opened Requests
  import EventQueues
  import EventConsumers
  import Sessions

  /** A cancellation polls a queue of its own that nobody closes: it is answered if and only
      if the agent published something final, and no more than the queue holds. */
  predicate IsAnswered(p: Plan, q: Request)
    requires p.Execute? && q.Cancel?
  {
    !NoneFinal(Output(p, q)) && !Stuck(p, q)
  }

  /** The cancellation after `polls` polls; one that is stuck never gets to poll. */
  function Cancelling(s: Store, q: Request, polls: nat): Sessions.Session
    requires PlanOf(s, q).Execute? && q.Cancel?
  {
    var p := PlanOf(s, q);
    var published := if Stuck(p, q) then Output(p, q)[..EventQueues.DEFAULT_MAX_QUEUE_SIZE] else Output(p, q);
    var consumer := EventConsumers.Consumer(Sessions.Loaded(published), EventConsumers.Polling, false, []);
    var x := Sessions.Begin(Sessions.All, consumer, Saved(p.manager, s, None));
    if Stuck(p, q) then x else Sessions.Polled(x, polls)
  }

  /** However often it has polled, the store is the one after as many events; the answer is
      there once everything consumed has been polled and once more, and never if nothing was
      final. */
  lemma CancelRuns(s: Store, q: Request, polls: nat)
    requires PlanOf(s, q).Execute? && q.Cancel?
    ensures var p := PlanOf(s, q);
            var es, x := Consumed(p, q), Cancelling(s, q, polls);
            && x.saved.store == Serve(s, q)[Least(polls, |es|)]
            && (KeyedById(s) ==>
                  && (x.phase.Finished? <==> IsAnswered(p, q) && polls > |es|)
                  && x.answer == if x.phase.Finished? then Some(Answer(p, es)) else None)
  {
    var p := PlanOf(s, q);
    var es := Consumed(p, q);
    if !Stuck(p, q) {
      var x := Cancelling(s, q, 0);
      Sessions.PolledStore(x, polls);
      TrailAt(x.saved, es, Least(polls, |es|));
      if KeyedById(s) {
        PrefixAnswer(s, q, |es|);
        assert es[..|es|] == es;
        Sessions.PolledAnswersIff(x, polls);
      }
    }
  }

  /** An accepted cancellation is ever answered if and only if its agent published something
      final and did not overfill the queue. */
  lemma CancelIsAnsweredIff(s: Store, q: Request)
    requires KeyedById(s) && PlanOf(s, q).Execute? && q.Cancel?
    ensures (exists polls: nat :: Cancelling(s, q, polls).answer.Some?) <==> IsAnswered(PlanOf(s, q), q)
  {
    if polls: nat :| Cancelling(s, q, polls).answer.Some? {
      CancelRuns(s, q, polls);
    }
    CancelRuns(s, q, |Consumed(PlanOf(s, q), q)| + 1);
  }

  /** A cancellation gets stuck if and only if one of its events finds the queue full with
      those before it. */
  lemma StuckIff(p: Plan, q: Request)
    requires p.Execute? && !q.Resubscribe?
    ensures Stuck(p, q) <==>
            q.Cancel? && exists i :: 0 <= i < |Output(p, q)| && !EventQueues.HasRoom(Sessions.Loaded(Output(p, q)[..i]))
  {
    if Stuck(p, q) {
      assert !EventQueues.HasRoom(Sessions.Loaded(Output(p, q)[..EventQueues.DEFAULT_MAX_QUEUE_SIZE]));
    }
  }

  /** The input that shows it: an agent that publishes nothing when told to cancel. */
  lemma SilentCancelIsNeverAnswered(s: Store, taskId: string, polls: nat)
    requires KeyedById(s) && PlanOf(s, Cancel(taskId, [])).Execute?
    ensures Cancelling(s, Cancel(taskId, []), polls).answer.None?
  {
    CancelRuns(s, Cancel(taskId, []), polls);
    assert Output(PlanOf(s, Cancel(taskId, [])), Cancel(taskId, [])) == [];
  }
}
