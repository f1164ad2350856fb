/** Requests one after another, each cut short anywhere: what every sequence of them keeps. */
module RequestRuns {
  import opened Types
  import opened TaskFold
  import opened Streams
  import opened Aggregator
  import opened Requests
  import Sessions

  /** A request of which `processed` events get processed. Fewer than were published: the
      agent raised, a cancellation never ended, or the server stopped looking. */
  datatype Attempt = Attempt(request: Request, processed: nat)

  function Processed(p: Plan, a: Attempt): (es: seq<Event>)
    requires p.Execute? && !a.request.Resubscribe?
    ensures AllUpdates(es) && es <= Consumed(p, a.request)
  {
    Consumed(p, a.request)[..Least(a.processed, |Consumed(p, a.request)|)]
  }

  /** The stores it goes through. */
  function Stores(s: Store, a: Attempt): (trail: seq<Store>)
    ensures trail != [] && trail[0] == s
  {
    Serve(s, a.request)[..Least(a.processed, |Serve(s, a.request)| - 1) + 1]
  }

  function After(s: Store, a: Attempt): Store {
    Last(Stores(s, a))
  }

  /** Every store the server goes through while it serves the requests in turn. */
  function ServeAll(s: Store, attempts: seq<Attempt>): (trail: seq<Store>)
    ensures trail != [] && trail[0] == s
    decreases |attempts|
  {
    if attempts == [] then [s] else Stores(s, attempts[0]) + ServeAll(After(s, attempts[0]), attempts[1..])
  }

  predicate FreshIds(s: Store, attempts: seq<Attempt>)
    decreases |attempts|
  {
    attempts == [] || (FreshId(s, attempts[0].request) && FreshIds(After(s, attempts[0]), attempts[1..]))
  }

  // ---- Terminal states are absorbing ----

  /** No task of `a` disappears or changes context, and those that have ended are the same. */
  predicate Preserved(a: Store, b: Store) {
    forall k :: k in a ==>
      k in b && b[k].contextId == a[k].contextId && (IsTerminal(a[k].status.state) ==> b[k] == a[k])
  }

  predicate Absorbing(trail: seq<Store>) {
    forall i, j :: 0 <= i <= j < |trail| ==> Preserved(trail[i], trail[j])
  }

  lemma {:induction false} TrailAbsorbs(m: Manager, s: Store, t: Task, contextId: string, events: seq<Event>)
    requires StartsFrom(m, s, t, contextId) && AllFor(events, t.id, contextId) && EndsOnlyLast(events)
    requires events != [] ==> !IsTerminal(t.status.state) && (t.id in s ==> !IsTerminal(s[t.id].status.state))
    requires t.id in s ==> s[t.id].contextId == t.contextId
    ensures Absorbing(Trail(Saved(m, s, None), events))
    decreases |events|
  {
    if events != [] {
      var e, rest := events[0], events[1..];
      SaveUpdate(m, s, t, contextId, e);
      var r := SaveEvent(m, s, e);
      assert Fold(Saved(m, s, None), [e]) == r;
      var next := ServerUpdate(t, e);
      TrailAbsorbs(r.manager, r.store, next, contextId, rest);
      Prepend(s, Trail(r, rest));
    }
  }

  lemma Prepend(s: Store, trail: seq<Store>)
    requires trail != [] && Absorbing(trail) && Preserved(s, trail[0])
    ensures Absorbing([s] + trail)
  {
    var all := [s] + trail;
    forall i, j | 0 <= i <= j < |all|
      ensures Preserved(all[i], all[j])
    {
      if i == 0 && j > 0 {
        assert Preserved(trail[0], trail[j - 1]);
      } else if i > 0 {
        assert Preserved(trail[i - 1], trail[j - 1]);
      }
    }
  }

  lemma Join(a: seq<Store>, b: seq<Store>)
    requires a != [] && b != [] && Last(a) == b[0] && Absorbing(a) && Absorbing(b)
    ensures Absorbing(a + b)
  {
    forall i, j | 0 <= i <= j < |a + b|
      ensures Preserved((a + b)[i], (a + b)[j])
    {
      if i < |a| <= j {
        assert Preserved(a[i], a[|a| - 1]);
        assert Preserved(b[0], b[j - |a|]);
      } else if |a| <= i {
        assert Preserved(b[i - |a|], b[j - |a|]);
      }
    }
  }

  lemma {:induction false} ServerTaskKeepsId(t: Task, events: seq<Event>)
    requires AllUpdates(events)
    ensures ServerTask(t, events).id == t.id
    decreases |events|
  {
    if events != [] {
      ServerTaskKeepsId(ServerUpdate(t, events[0]), events[1..]);
    }
  }

  lemma AttemptAbsorbs(s: Store, a: Attempt)
    requires KeyedById(s) && FreshId(s, a.request)
    ensures Absorbing(Stores(s, a))
  {
    ServeAbsorbs(s, a.request);
    assert forall i :: 0 <= i < |Stores(s, a)| ==> Stores(s, a)[i] == Serve(s, a.request)[i];
  }

  lemma ServeAbsorbs(s: Store, q: Request)
    requires KeyedById(s) && FreshId(s, q)
    ensures Absorbing(Serve(s, q))
  {
    var p := PlanOf(s, q);
    if p.Execute? {
      PlanIsSound(s, q);
      TrailAbsorbs(p.manager, s, p.base, p.contextId, Consumed(p, q));
    }
  }

  /** The store after the first `k` events of an accepted request. */
  lemma StoreAfter(s: Store, q: Request, k: nat)
    requires KeyedById(s) && FreshId(s, q) && PlanOf(s, q).Execute? && k <= |Consumed(PlanOf(s, q), q)|
    ensures var p := PlanOf(s, q);
            Serve(s, q)[k] == if k == 0 then s else s[p.base.id := ServerTask(p.base, Consumed(p, q)[..k])]
    ensures KeyedById(Serve(s, q)[k])
  {
    var p := PlanOf(s, q);
    var es := Consumed(p, q)[..k];
    PlanIsSound(s, q);
    ServerFoldsTask(p.manager, s, p.base, p.contextId, es);
    TrailAt(Saved(p.manager, s, None), Consumed(p, q), k);
    ServerTaskKeepsId(p.base, es);
  }

  lemma AfterIs(s: Store, a: Attempt)
    ensures After(s, a) == Serve(s, a.request)[Least(a.processed, |Serve(s, a.request)| - 1)]
  {
  }

  lemma AttemptOutcome(s: Store, a: Attempt)
    requires KeyedById(s) && FreshId(s, a.request)
    ensures var p := PlanOf(s, a.request);
            && (p.Refused? ==> After(s, a) == s)
            && (p.Execute? ==>
                  After(s, a) == (var es := Processed(p, a);
                                  if es == [] then s else s[p.base.id := ServerTask(p.base, es)]))
            && KeyedById(After(s, a))
  {
    AfterIs(s, a);
    var p := PlanOf(s, a.request);
    if p.Execute? {
      StoreAfter(s, a.request, |Processed(p, a)|);
    }
  }

  /** A request consumed to its end. */
  lemma ServeOutcome(s: Store, q: Request)
    requires KeyedById(s) && FreshId(s, q)
    ensures var p := PlanOf(s, q);
            && (p.Refused? ==> Last(Serve(s, q)) == s)
            && (p.Execute? ==>
                  Last(Serve(s, q)) == (var es := Consumed(p, q);
                                        if es == [] then s else s[p.base.id := ServerTask(p.base, es)]))
            && KeyedById(Last(Serve(s, q))) && Absorbing(Serve(s, q))
  {
    ServeAbsorbs(s, q);
    var p := PlanOf(s, q);
    if p.Execute? {
      var es := Consumed(p, q);
      StoreAfter(s, q, |es|);
      assert es[..|es|] == es;
    }
  }

  /** Once a stored task is completed, canceled, failed or rejected it never changes again,
      whatever requests follow, whatever the agents do with their updaters, and wherever any
      of them is cut short: not later in the same request, and not in any later one. Nor does
      any task ever disappear or change its context. */
  lemma {:induction false} TerminalIsForever(s: Store, attempts: seq<Attempt>)
    requires KeyedById(s) && FreshIds(s, attempts)
    ensures Absorbing(ServeAll(s, attempts))
    decreases |attempts|
  {
    if attempts != [] {
      var a, rest := attempts[0], attempts[1..];
      AttemptOutcome(s, a);
      AttemptAbsorbs(s, a);
      TerminalIsForever(After(s, a), rest);
      Join(Stores(s, a), ServeAll(After(s, a), rest));
    }
  }

  // ---- No message is lost across requests ----

  function ConversationOf(s: Store, id: string): seq<Message> {
    if id in s then Conversation(s[id]) else []
  }

  /** What an attempt adds to the stored conversation of task `id`: the user's message and
      what the agent said, provided any event was processed at all. */
  function Added(s: Store, a: Attempt, id: string): seq<Message> {
    var p := PlanOf(s, a.request);
    if p.Refused? || p.base.id != id || Processed(p, a) == [] then []
    else Said(p.user) + Messages(Processed(p, a))
  }

  function AddedByAll(s: Store, attempts: seq<Attempt>, id: string): seq<Message>
    decreases |attempts|
  {
    if attempts == [] then [] else Added(s, attempts[0], id) + AddedByAll(After(s, attempts[0]), attempts[1..], id)
  }

  lemma ServeAddsMessages(s: Store, a: Attempt, id: string)
    requires KeyedById(s) && FreshId(s, a.request)
    ensures ConversationOf(After(s, a), id) == ConversationOf(s, id) + Added(s, a, id)
  {
    var p := PlanOf(s, a.request);
    AttemptOutcome(s, a);
    if p.Execute? {
      PlanIsSound(s, a.request);
      ServerLog(p.base, Processed(p, a));
      Assoc(ConversationOf(s, p.base.id), Said(p.user), Messages(Processed(p, a)));
    }
  }

  /** Over any sequence of requests, each cut short anywhere, the stored conversation of every
      task is what it was, followed by everything added, in order: nothing is lost, repeated
      or moved. */
  lemma {:induction false} ConversationOnlyGrows(s: Store, attempts: seq<Attempt>, id: string)
    requires KeyedById(s) && FreshIds(s, attempts)
    ensures ConversationOf(Last(ServeAll(s, attempts)), id) == ConversationOf(s, id) + AddedByAll(s, attempts, id)
    decreases |attempts|
  {
    if attempts != [] {
      var a, rest := attempts[0], attempts[1..];
      AttemptOutcome(s, a);
      ServeAddsMessages(s, a, id);
      ConversationOnlyGrows(After(s, a), rest, id);
      Assoc(ConversationOf(s, id), Added(s, a, id), AddedByAll(After(s, a), rest, id));
    }
  }

  /** The user's message reaches the store exactly when at least one of the agent's events is
      processed: it is added in memory, and written only together with the first event. */
  lemma UserMessageIsStoredIff(s: Store, a: Attempt)
    requires KeyedById(s) && FreshId(s, a.request) && a.request.Send? && PlanOf(s, a.request).Execute?
    ensures var p := PlanOf(s, a.request);
            ConversationOf(After(s, a), p.base.id)
              == ConversationOf(s, p.base.id) + [a.request.params.message] + Messages(Processed(p, a))
            <==> a.request.agent != [] && a.processed > 0
  {
    var p := PlanOf(s, a.request);
    ServeAddsMessages(s, a, p.base.id);
    AppendsIff(ConversationOf(s, p.base.id), a.request.params.message, Messages(Processed(p, a)), Added(s, a, p.base.id));
    SomethingIsConsumedIff(p, a.request);
  }

  /** A send whose agent only adds artifacts: in the stored task the user's message is the
      last of the history, after what was said before; nobody has a status message; state,
      time and metadata are those of the task before, or of a new one. */
  lemma UserMessageIsInTheHistory(s: Store, a: Attempt)
    requires KeyedById(s) && FreshId(s, a.request) && a.request.Send? && PlanOf(s, a.request).Execute?
    requires Processed(PlanOf(s, a.request), a) != []
    requires forall e :: e in Processed(PlanOf(s, a.request), a) ==> e.ArtifactEvent?
    ensures var id := PlanOf(s, a.request).base.id;
            id in After(s, a) && var u := After(s, a)[id];
            && History(u) == ConversationOf(s, id) + [a.request.params.message]
            && u.status == (if id in s then TaskStatus(s[id].status.state, None, s[id].status.timestamp)
                            else TaskStatus(Submitted, None, None))
            && u.metadata == (if id in s then s[id].metadata else None)
  {
    var p := PlanOf(s, a.request);
    var es := Processed(p, a);
    AttemptOutcome(s, a);
    assert forall i :: 0 <= i < |es| ==> es[i] in es;
    ArtifactsOnly(p.base, es);
    if a.request.params.taskId.Some? {
      UserMessageLog(a.request.params.message, s[p.base.id]);
    }
  }

  lemma SomethingIsConsumedIff(p: Plan, q: Request)
    requires p.Execute? && q.Send?
    ensures Consumed(p, q) != [] <==> q.agent != []
  {
    if q.agent != [] {
      assert Published(Updater(p.base.id, p.contextId, false), q.agent[0]) != [];
    }
  }

  lemma AppendsIff(before: seq<Message>, m: Message, rest: seq<Message>, added: seq<Message>)
    ensures before + added == before + [m] + rest <==> added == [m] + rest
  {
    assert before + [m] + rest == before + ([m] + rest);
    assert (before + added)[|before|..] == added && (before + ([m] + rest))[|before|..] == [m] + rest;
  }

  // ---- Every interleaving is such a sequence ----

  /** A request served in some interleaving, up to any moment of it. */
  datatype Run = Run(request: Request, kind: Sessions.Kind, bound: nat, steps: seq<Sessions.Step>)

  function Opening(s: Store, r: Run): Sessions.Session
    requires PlanOf(s, r.request).Execute?
  {
    Sessions.Opening(r.kind, r.bound, Saved(PlanOf(s, r.request).manager, s, None))
  }

  /** The agent's output for this request is published in the course of it. */
  predicate Proper(s: Store, r: Run) {
    var p := PlanOf(s, r.request);
    p.Execute? ==>
      !r.request.Resubscribe? && !Stuck(p, r.request) && r.bound > 0
      && Sessions.Publishes(Opening(s, r), r.steps, Output(p, r.request))
  }

  function Now(s: Store, r: Run): Sessions.Session
    requires PlanOf(s, r.request).Execute?
  {
    Sessions.Drive(Opening(s, r), r.steps)
  }

  function AfterRun(s: Store, r: Run): Store {
    if PlanOf(s, r.request).Refused? then s else Now(s, r).saved.store
  }

  /** The attempt it amounts to: as many events are processed as were yielded. */
  function AttemptOf(s: Store, r: Run): Attempt {
    Attempt(r.request, if PlanOf(s, r.request).Refused? then 0 else |Now(s, r).consumer.yielded|)
  }

  /** In every interleaving and at every moment of it, whether or not the agent raises, the
      store is the one after as many events as were yielded; a session that has run to its
      end has processed them all. */
  lemma EveryRunServes(s: Store, r: Run)
    requires Proper(s, r)
    ensures AfterRun(s, r) == After(s, AttemptOf(s, r))
    ensures PlanOf(s, r.request).Execute? && Now(s, r).phase.Finished? ==> AfterRun(s, r) == Last(Serve(s, r.request))
  {
    var p := PlanOf(s, r.request);
    if p.Execute? {
      var start, es := Saved(p.manager, s, None), Consumed(p, r.request);
      Sessions.OutcomeOfAnyRun(r.kind, r.bound, start, r.steps, Output(p, r.request));
      var yielded := Now(s, r).consumer.yielded;
      assert es[..|yielded|] == yielded;
      TrailAt(start, es, |yielded|);
      TrailEnd(start, es);
    }
  }

  /** And the answer of a synchronous call is the fold of the events it waited for. */
  lemma EveryRunAnswers(s: Store, r: Run)
    requires KeyedById(s) && FreshId(s, r.request) && Proper(s, r)
    requires r.request.Send? && PlanOf(s, r.request).Execute? && r.kind.BreakOnInterrupt?
    ensures var p, x := PlanOf(s, r.request), Now(s, r);
            && (x.phase.Background? || x.phase.Finished? ==> x.answer.Some?)
            && (x.answer.Some? ==> x.answer.value == Answer(p, Awaited(Consumed(p, r.request), r.kind.blocking)))
  {
    var p := PlanOf(s, r.request);
    var es := Consumed(p, r.request);
    Sessions.AnswerOfAnyRun(r.kind.blocking, r.bound, Saved(p.manager, s, None), r.steps, Output(p, r.request));
    SendAnswer(s, r.request, |es|, r.kind.blocking);
    assert es[..|es|] == es;
  }

  function AfterRuns(s: Store, runs: seq<Run>): Store
    decreases |runs|
  {
    if runs == [] then s else AfterRuns(AfterRun(s, runs[0]), runs[1..])
  }

  predicate AllProper(s: Store, runs: seq<Run>)
    decreases |runs|
  {
    runs == []
    || (Proper(s, runs[0]) && FreshId(s, runs[0].request) && AllProper(AfterRun(s, runs[0]), runs[1..]))
  }

  function AttemptsOf(s: Store, runs: seq<Run>): seq<Attempt>
    decreases |runs|
  {
    if runs == [] then [] else [AttemptOf(s, runs[0])] + AttemptsOf(AfterRun(s, runs[0]), runs[1..])
  }

  /** A sequence of requests, each in an interleaving of its own, leaves the store that the
      sequence of attempts leaves. */
  lemma {:induction false} RunsAreAttempts(s: Store, runs: seq<Run>)
    requires AllProper(s, runs)
    ensures FreshIds(s, AttemptsOf(s, runs))
    ensures AfterRuns(s, runs) == Last(ServeAll(s, AttemptsOf(s, runs)))
    decreases |runs|
  {
    if runs != [] {
      EveryRunServes(s, runs[0]);
      RunsAreAttempts(AfterRun(s, runs[0]), runs[1..]);
    }
  }

  /** So over any sequence of requests, in any interleavings and up to any moment of the last
      one, ended tasks are as they were, and every conversation has only grown. */
  lemma RunsKeepWhatEnded(s: Store, runs: seq<Run>, id: string)
    requires KeyedById(s) && AllProper(s, runs)
    ensures Preserved(s, AfterRuns(s, runs))
    ensures ConversationOf(s, id) <= ConversationOf(AfterRuns(s, runs), id)
  {
    var attempts := AttemptsOf(s, runs);
    RunsAreAttempts(s, runs);
    TerminalIsForever(s, attempts);
    ConversationOnlyGrows(s, attempts, id);
    assert Preserved(ServeAll(s, attempts)[0], Last(ServeAll(s, attempts)));
  }
}
