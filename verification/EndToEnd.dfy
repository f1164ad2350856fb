/** From an agent's events to a streaming caller: many handlers writing one reply topic at
    once, one dispatcher reading it in order, and any number of callers. */
module EndToEnd {
  import opened Types
  import opened TaskFold
  import opened ClientFold
  import opened Correlation
  import opened CorrelationRuns
  import opened KafkaHandlers
  import opened KafkaTransport

  // ---- The reply topic ----

  /** The records that carry the id, in order. */
  function For(c: Id, rs: seq<Record>): seq<Record> {
    if rs == [] then []
    else (if Header(rs[0].headers, CORRELATION_ID) == Some(c) then [rs[0]] else []) + For(c, rs[1..])
  }

  datatype Handled = Handled(c: Id, request: Request) {
    function Answer(): (rs: seq<Record>)
      ensures forall k :: 0 <= k < |rs| ==> Header(rs[k].headers, CORRELATION_ID) == Some(c)
    {
      var rs := Replies(c, request);
      assert forall k :: 0 <= k < |rs| ==> Header(rs[k].headers, CORRELATION_ID) == Some(c) by {
        if request.Request? {
          ReplyGrammar(c, request);
        }
      }
      rs
    }
  }

  function Answers(hs: seq<Handled>): (answers: seq<seq<Record>>)
    ensures |answers| == |hs| && forall i :: 0 <= i < |hs| ==> answers[i] == hs[i].Answer()
  {
    seq(|hs|, i requires 0 <= i < |hs| => hs[i].Answer())
  }

  /** Several senders on one topic: `schedule` says whose turn it is to send its next record,
      `sent` how many each has sent so far. */
  function Interleaved(answers: seq<seq<Record>>, sent: seq<nat>, schedule: seq<nat>): seq<Record>
    requires |sent| == |answers|
    decreases |schedule|
  {
    if schedule == [] then []
    else
      var j := schedule[0];
      if j < |answers| && sent[j] < |answers[j]|
      then [answers[j][sent[j]]] + Interleaved(answers, sent[j := sent[j] + 1], schedule[1..])
      else Interleaved(answers, sent, schedule[1..])
  }

  /** Each request is handled once, each by a coroutine of its own. */
  function Topic(hs: seq<Handled>, sent: seq<nat>, schedule: seq<nat>): seq<Record>
    requires |sent| == |hs|
  {
    Interleaved(Answers(hs), sent, schedule)
  }

  predicate DistinctIds(hs: seq<Handled>) {
    forall i, j :: 0 <= i < |hs| && 0 <= j < |hs| && i != j ==> hs[i].c != hs[j].c
  }

  /** The records with id `c` are exactly those of sender `j`. */
  predicate OnlySender(answers: seq<seq<Record>>, c: Id, j: nat) {
    forall i, k :: 0 <= i < |answers| && 0 <= k < |answers[i]| ==>
      (Header(answers[i][k].headers, CORRELATION_ID) == Some(c) <==> i == j)
  }

  lemma TopicCarriesReplies(hs: seq<Handled>, sent: seq<nat>, schedule: seq<nat>, j: nat)
    requires |sent| == |hs| && DistinctIds(hs) && j < |hs| && sent[j] <= |hs[j].Answer()|
    ensures For(hs[j].c, Topic(hs, sent, schedule)) <= hs[j].Answer()[sent[j]..]
  {
    InterleavedFor(Answers(hs), sent, schedule, hs[j].c, j);
  }

  lemma {:induction false} InterleavedFor(answers: seq<seq<Record>>, sent: seq<nat>, schedule: seq<nat>, c: Id, j: nat)
    requires |sent| == |answers| && j < |answers| && OnlySender(answers, c, j) && sent[j] <= |answers[j]|
    ensures For(c, Interleaved(answers, sent, schedule)) <= answers[j][sent[j]..]
    decreases |schedule|
  {
    if schedule != [] {
      var i, rest := schedule[0], schedule[1..];
      if i < |answers| && sent[i] < |answers[i]| {
        var sent' := sent[i := sent[i] + 1];
        var later := Interleaved(answers, sent', rest);
        InterleavedFor(answers, sent', rest, c, j);
        ForCons(c, answers[i][sent[i]], later);
        if i == j {
          PrefixAt(answers[j], sent[j], For(c, later));
        } else {
          assert [] + For(c, later) == For(c, later);
        }
      } else {
        InterleavedFor(answers, sent, rest, c, j);
      }
    }
  }

  lemma PrefixAt(rs: seq<Record>, k: nat, a: seq<Record>)
    requires k < |rs| && a <= rs[k + 1..]
    ensures [rs[k]] + a <= rs[k..]
  {
    assert rs[k..] == [rs[k]] + rs[k + 1..];
  }

  lemma ForCons(c: Id, r: Record, rs: seq<Record>)
    ensures For(c, [r] + rs) == (if Header(r.headers, CORRELATION_ID) == Some(c) then [r] else []) + For(c, rs)
  {
    assert ([r] + rs)[1..] == rs;
  }

  // ---- The client process ----

  /** A step of the client: something a caller does, or the dispatch of the next record. */
  datatype ClientStep = Local(a: Action) | Deliver(r: Record)

  function Meaning(s: ClientStep): Option<Action> {
    if s.Local? then Some(s.a) else ActionOf(s.r)
  }

  function Flatten(steps: seq<ClientStep>): seq<Action> {
    if steps == [] then []
    else if Meaning(steps[0]).None? then Flatten(steps[1..])
    else [Meaning(steps[0]).value] + Flatten(steps[1..])
  }

  function Deliveries(steps: seq<ClientStep>): seq<Record> {
    if steps == [] then []
    else (if steps[0].Deliver? then [steps[0].r] else []) + Deliveries(steps[1..])
  }

  /** Callers register, read, give up and fail their own requests; only the dispatcher
      delivers items and ends streams. */
  predicate CallersOnly(steps: seq<ClientStep>) {
    forall i :: 0 <= i < |steps| && steps[i].Local? ==> !steps[i].a.Item? && !steps[i].a.StreamEnd?
  }

  predicate NoLocalEnd(steps: seq<ClientStep>, c: Id) {
    forall i :: 0 <= i < |steps| && steps[i].Local? ==> !Ends(steps[i].a, c)
  }

  lemma {:induction false} FlattenConcat(a: seq<ClientStep>, b: seq<ClientStep>)
    ensures Flatten(a + b) == Flatten(a) + Flatten(b)
    decreases |a|
  {
    if a == [] {
      assert a + b == b;
    } else {
      assert (a + b)[1..] == a[1..] + b;
      FlattenConcat(a[1..], b);
    }
  }

  lemma {:induction false} ForConcat(c: Id, a: seq<Record>, b: seq<Record>)
    ensures For(c, a + b) == For(c, a) + For(c, b)
    decreases |a|
  {
    if a == [] {
      assert a + b == b;
    } else {
      assert a + b == [a[0]] + (a[1..] + b) && a == [a[0]] + a[1..];
      ForCons(c, a[0], a[1..] + b);
      ForConcat(c, a[1..], b);
    }
  }

  /** The replies to request `c` that were dispatched, and what they put in its stream. */
  function Own(steps: seq<ClientStep>, c: Id): seq<Record> {
    For(c, Deliveries(steps))
  }

  function Dispatched(steps: seq<ClientStep>, c: Id): seq<Event> {
    ItemsFor(UntilEnd(Flatten(steps), c), c)
  }

  predicate IsOwn(s: ClientStep, c: Id) {
    s.Deliver? && Header(s.r.headers, CORRELATION_ID) == Some(c)
  }

  lemma OwnCons(s: ClientStep, rest: seq<ClientStep>, c: Id)
    ensures Own([s] + rest, c) == if IsOwn(s, c) then [s.r] + Own(rest, c) else Own(rest, c)
  {
    assert ([s] + rest)[1..] == rest;
    if s.Deliver? {
      ForCons(c, s.r, Deliveries(rest));
    }
    assert [] + Deliveries(rest) == Deliveries(rest) && [] + Own(rest, c) == Own(rest, c);
  }

  lemma MeaningOfOthers(s: ClientStep, c: Id)
    requires s.Local? ==> !s.a.Item? && !s.a.StreamEnd?
    requires !IsOwn(s, c) && Meaning(s).Some?
    ensures !(Meaning(s).value.Item? && Meaning(s).value.c == c)
    ensures Ends(Meaning(s).value, c) ==> s.Local? && Ends(s.a, c)
  {
  }

  lemma DispatchedCons(s: ClientStep, rest: seq<ClientStep>, c: Id)
    ensures Dispatched([s] + rest, c) ==
            if Meaning(s).None? then Dispatched(rest, c)
            else if Ends(Meaning(s).value, c) then []
            else ItemsFor([Meaning(s).value], c) + Dispatched(rest, c)
  {
    assert ([s] + rest)[1..] == rest;
    if Meaning(s).Some? && !Ends(Meaning(s).value, c) {
      ItemsForCons(Meaning(s).value, Flatten(rest), c);
    }
  }

  lemma ItemsOfOne(a: Action, c: Id)
    ensures ItemsFor([a], c) == if a.Item? && a.c == c then [a.item] else []
  {
    assert [a][1..] == [];
  }

  lemma OtherStep(s: ClientStep, rest: seq<ClientStep>, c: Id)
    requires s.Local? ==> !s.a.Item? && !s.a.StreamEnd?
    requires !IsOwn(s, c)
    ensures Own([s] + rest, c) == Own(rest, c)
    ensures Dispatched([s] + rest, c) == if s.Local? && Ends(s.a, c) then [] else Dispatched(rest, c)
  {
    OwnCons(s, rest, c);
    DispatchedCons(s, rest, c);
    if Meaning(s).Some? {
      MeaningOfOthers(s, c);
      ItemsOfOne(Meaning(s).value, c);
      assert [] + Dispatched(rest, c) == Dispatched(rest, c);
    }
  }

  lemma EventStep(rest: seq<ClientStep>, c: Id, e: Event)
    requires c != ""
    ensures var s := Deliver(EventReply(c, e));
            && Own([s] + rest, c) == [s.r] + Own(rest, c)
            && Dispatched([s] + rest, c) == [e] + Dispatched(rest, c)
  {
    var s := Deliver(EventReply(c, e));
    OwnCons(s, rest, c);
    DispatchedCons(s, rest, c);
    EventReplyParses(c, e);
    ItemsOfOne(Item(c, e), c);
  }

  lemma TerminatorStep(rest: seq<ClientStep>, c: Id, script: Script)
    requires c != "" && script.events == []
    ensures Dispatched([Deliver(StreamReplies(c, script)[0])] + rest, c) == []
  {
    DispatchedCons(Deliver(StreamReplies(c, script)[0]), rest, c);
    TerminatorParses(c, if script.failure.Some? then script.failure.value else "");
  }

  /** What the dispatched replies come to. */
  predicate Restored(steps: seq<ClientStep>, c: Id, events: seq<Event>) {
    && Dispatched(steps, c) <= events
    && (NoLocalEnd(steps, c) ==> Dispatched(steps, c) == events[..Least(|Own(steps, c)|, |events|)])
  }

  lemma RestoredFirst(rest: seq<ClientStep>, c: Id, script: Script)
    requires c != "" && script.events != [] && Restored(rest, c, script.events[1..])
    ensures Restored([Deliver(EventReply(c, script.events[0]))] + rest, c, script.events)
  {
    var e, later := script.events[0], script.events[1..];
    var steps := [Deliver(EventReply(c, e))] + rest;
    EventStep(rest, c, e);
    PrefixCons(e, Dispatched(rest, c), later, |Own(rest, c)|);
    assert script.events == [e] + later;
    assert forall i :: 0 <= i < |rest| ==> rest[i] == steps[i + 1];
  }

  /** One stream's replies, dispatched amid everything else, become the agent's events
      again: each restored to its own kind, none lost, none reordered, and no other
      request's replies among them. */
  lemma {:induction false} DispatchedItems(steps: seq<ClientStep>, c: Id, script: Script)
    requires c != "" && CallersOnly(steps)
    requires Own(steps, c) <= StreamReplies(c, script)
    ensures Restored(steps, c, script.events)
    decreases |steps|
  {
    if steps != [] {
      var s, rest := steps[0], steps[1..];
      assert steps == [s] + rest && forall i :: 0 <= i < |rest| ==> rest[i] == steps[i + 1];
      if !IsOwn(s, c) {
        OtherStep(s, rest, c);
        DispatchedItems(rest, c, script);
      } else {
        OwnCons(s, rest, c);
        assert s.r == Own(steps, c)[0] == StreamReplies(c, script)[0];
        if script.events == [] {
          TerminatorStep(rest, c, script);
        } else {
          var later := Script(script.events[1..], script.failure);
          StreamRepliesCons(c, script);
          PrefixTail(s.r, Own(rest, c), StreamReplies(c, later));
          DispatchedItems(rest, c, later);
          RestoredFirst(rest, c, script);
        }
      }
    }
  }

  lemma PrefixCons(e: Event, a: seq<Event>, b: seq<Event>, n: nat)
    requires a <= b
    ensures [e] + a <= [e] + b
    ensures a == b[..Least(n, |b|)] ==> [e] + a == ([e] + b)[..Least(1 + n, |[e] + b|)]
  {
    assert ([e] + b)[..1 + Least(n, |b|)] == [e] + b[..Least(n, |b|)];
  }

  lemma StreamRepliesCons(c: Id, script: Script)
    requires script.events != []
    ensures StreamReplies(c, script)
         == [EventReply(c, script.events[0])] + StreamReplies(c, Script(script.events[1..], script.failure))
  {
  }

  lemma PrefixTail<T>(x: T, a: seq<T>, b: seq<T>)
    requires [x] + a <= [x] + b
    ensures a <= b
  {
    assert a == ([x] + a)[1..] && b == ([x] + b)[1..];
  }

  // ---- The main result ----

  /** Requests handled concurrently, in any interleaving, over a FIFO reply topic; the
      client's callers and its dispatcher interleaved in any way. A streaming call that is
      registered once, before its first reply is dispatched, is handed a prefix of the
      events its own agent produced, in order and of the right kinds. As long as no caller
      ends it, the stream's queue has received every reply dispatched so far. */
  lemma StreamEndToEnd(hs: seq<Handled>, schedule: seq<nat>, j: nat, before: seq<ClientStep>, after: seq<ClientStep>)
    requires DistinctIds(hs) && j < |hs| && hs[j].c != ""
    requires var q := hs[j].request; q.Request? && q.streaming && q.name == Some("message_send")
    requires Deliveries(before) + Deliveries(after) <= Topic(hs, seq(|hs|, _ => 0), schedule)
    requires CallersOnly(after) && Own(before, hs[j].c) == []
    requires NeverRegisters(Flatten(before), hs[j].c) && NeverRegisters(Flatten(after), hs[j].c)
    ensures var c, events := hs[j].c, hs[j].request.stream.events;
            var t := Run(EMPTY_TABLE, Flatten(before + [Local(RegStream(c))] + after));
            var h := |Run(EMPTY_TABLE, Flatten(before)).live.streams|;
            && h < |t.live.streams|
            && var s := t.live.streams[h];
            && s.got <= s.put <= events
            && (NoLocalEnd(after, c) ==> s.put == events[..Least(|Own(after, c)|, |events|)])
  {
    var c, q := hs[j].c, hs[j].request;
    OwnAreReplies(hs, schedule, j, before, after);
    assert hs[j].Answer() == StreamReplies(c, q.stream);
    DispatchedItems(after, c, q.stream);
    FlattenConcat(before + [Local(RegStream(c))], after);
    FlattenConcat(before, [Local(RegStream(c))]);
    assert [Local(RegStream(c))][1..] == [];
    assert Flatten([Local(RegStream(c))]) == [RegStream(c)];
    StreamProjection(Flatten(before), c, Flatten(after));
  }

  /** What is dispatched for a request after its registration are its own replies, in order,
      when none was before. */
  lemma OwnAreReplies(hs: seq<Handled>, schedule: seq<nat>, j: nat, before: seq<ClientStep>, after: seq<ClientStep>)
    requires DistinctIds(hs) && j < |hs|
    requires Deliveries(before) + Deliveries(after) <= Topic(hs, seq(|hs|, _ => 0), schedule)
    requires Own(before, hs[j].c) == []
    ensures Own(after, hs[j].c) <= hs[j].Answer()
  {
    var c, zero := hs[j].c, seq(|hs|, _ => 0);
    TopicCarriesReplies(hs, zero, schedule, j);
    var answer := hs[j].Answer();
    assert answer[0..] == answer;
    ForSplit(c, Deliveries(before), Deliveries(after), Topic(hs, zero, schedule), answer);
  }

  lemma ForSplit(c: Id, before: seq<Record>, after: seq<Record>, topic: seq<Record>, answer: seq<Record>)
    requires before + after <= topic && For(c, before) == [] && For(c, topic) <= answer
    ensures For(c, after) <= answer
  {
    var seen := before + after;
    assert topic == seen + topic[|seen|..];
    ForConcat(c, seen, topic[|seen|..]);
    ForConcat(c, before, after);
  }

  /** What the caller makes of that prefix: folding what it was handed, the client task
      agrees with the server's task after the same number of events. */
  lemma CallerMirrorsServer(got: seq<Event>, m: Manager, s: Store, t: Task, updates: seq<Event>)
    requires got != [] && got <= [TaskEvent(t)] + updates
    requires Accepts(m, t.id, t.contextId) && AllFor(updates, t.id, t.contextId)
    ensures var sv := Fold(Saved(m, s, None), ([TaskEvent(t)] + updates)[..|got|]);
            var cl := ClientFold.ClientFold(ClientSaved(NEW_CLIENT, false), got);
            && sv.error.None? && !cl.taskAlreadySet && sv.manager.current.Some? && cl.client.current.Some?
            && var x, y := sv.manager.current.value, cl.client.current.value;
            && SameOutside(x, y) && x.status == y.status
            && (History(y) == Conversation(x) <==> t.status.message.None?)
  {
    var n := |got| - 1;
    assert got == [TaskEvent(t)] + updates[..n];
    assert ([TaskEvent(t)] + updates)[..|got|] == got;
    FoldsAgree(m, s, NEW_CLIENT, t, updates[..n]);
  }
}
