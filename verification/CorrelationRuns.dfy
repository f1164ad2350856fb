/** Whole runs of the correlation table: registrations, replies, failures, reads and
    cancellations of any number of requests, interleaved in any order. */
module CorrelationRuns {
  import opened Types
  import opened Correlation

  datatype Action =
    | Reg(c: Id)
    | RegStream(c: Id)
    | Item(c: Id, item: Event)
    | StreamEnd(c: Id)
    | Err(c: Id, error: string)
    | CancelEverything
    | GiveUp(future: nat)      // the caller's wait timed out or was cancelled
    | Read(stream: nat)        // the caller asks for the next item of its stream
    | Resume(stream: nat)      // a caller that had to wait looks again

  function Do(t: Table, a: Action): (t': Table)
    requires WellFormed(t)
    ensures WellFormed(t')
  {
    match a
    case Reg(c) => t.(plain := AddFuture(t.plain, c))
    case RegStream(c) => t.(live := AddStream(t.live, c))
    case Item(c, item) => Complete(t, c, item)
    case StreamEnd(c) => CompleteStreaming(t, c)
    case Err(c, error) => CompleteWithException(t, c, error)
    case CancelEverything => CancelAll(t)
    case GiveUp(h) =>
      if h < |t.plain.futures| && t.plain.futures[h].Waiting?
      then t.(plain := t.plain.(futures := t.plain.futures[h := Cancelled])) else t
    case Read(h) =>
      if h < |t.live.streams|
      then t.(live := t.live.(streams := t.live.streams[h := TakeItem(t.live.streams[h])])) else t
    case Resume(h) =>
      if h < |t.live.streams|
      then t.(live := t.live.(streams := t.live.streams[h := PopItem(t.live.streams[h])])) else t
  }

  function Run(t: Table, trace: seq<Action>): (t': Table)
    requires WellFormed(t)
    ensures WellFormed(t')
    decreases |trace|
  {
    if trace == [] then t else Run(Do(t, trace[0]), trace[1..])
  }

  lemma {:induction false} RunConcat(t: Table, a: seq<Action>, b: seq<Action>)
    requires WellFormed(t)
    ensures Run(t, a + b) == Run(Run(t, a), b)
    decreases |a|
  {
    if a == [] {
      assert a + b == b;
    } else {
      assert (a + b)[1..] == a[1..] + b;
      RunConcat(Do(t, a[0]), a[1..], b);
    }
  }

  // ---- What every run keeps ----

  /** A pending future was never resolved by the manager. */
  predicate PlainSound(p: Plain)
    requires Indexes(p.pending, |p.futures|)
  {
    forall c :: c in p.pending ==> p.futures[p.pending[c]].Waiting? || p.futures[p.pending[c]].Cancelled?
  }

  /** A registered stream is never done, and a stream's queue holds exactly what was put
      and not yet taken. */
  predicate LiveSound(l: Live)
    requires Indexes(l.streaming, |l.streams|)
  {
    && (forall c :: c in l.streaming ==> !l.streams[l.streaming[c]].done)
    && (forall h :: 0 <= h < |l.streams| ==> Balanced(l.streams[h]))
  }

  predicate Sound(t: Table)
    requires WellFormed(t)
  {
    PlainSound(t.plain) && LiveSound(t.live)
  }

  predicate Balanced(s: StreamState) {
    s.got + s.queue == s.put && (s.exception.Some? ==> s.done)
  }

  lemma BalancedSteps(s: StreamState, item: Event, error: Failure)
    requires Balanced(s)
    ensures Balanced(PutItem(s, item)) && Balanced(PopItem(s)) && Balanced(Finish(s)) && Balanced(Fail(s, error))
    ensures PopItem(s).done == s.done && PutItem(s, item).done == s.done
  {
    assert s.got + (s.queue + [item]) == (s.got + s.queue) + [item];
    if s.queue != [] {
      assert (s.got + [s.queue[0]]) + s.queue[1..] == s.got + s.queue;
    }
  }

  lemma OfferSound(l: Live, c: Id, item: Event)
    requires Indexes(l.streaming, |l.streams|) && LiveSound(l)
    ensures LiveSound(Offer(l, c, item))
  {
    if c in l.streaming {
      BalancedSteps(l.streams[l.streaming[c]], item, CancelledError);
    }
  }

  lemma EndStreamSound(l: Live, c: Id, error: Option<Failure>)
    requires Indexes(l.streaming, |l.streams|) && LiveSound(l)
    ensures LiveSound(EndStream(l, c, error))
  {
    if c in l.streaming && error.Some? {
      BalancedSteps(l.streams[l.streaming[c]], MessageEvent(Message("", [])), error.value);
    }
  }

  lemma CancelLiveSound(l: Live)
    requires Indexes(l.streaming, |l.streams|) && LiveSound(l)
    ensures LiveSound(CancelLive(l))
  {
    forall h | 0 <= h < |l.streams|
      ensures Balanced(CancelLive(l).streams[h])
    {
      BalancedSteps(l.streams[h], MessageEvent(Message("", [])), CancelledError);
    }
  }

  lemma ReadSound(l: Live, h: nat)
    requires Indexes(l.streaming, |l.streams|) && LiveSound(l) && h < |l.streams|
    ensures LiveSound(l.(streams := l.streams[h := TakeItem(l.streams[h])]))
    ensures LiveSound(l.(streams := l.streams[h := PopItem(l.streams[h])]))
  {
    BalancedSteps(l.streams[h], MessageEvent(Message("", [])), CancelledError);
  }

  lemma LiveKept(t: Table, a: Action)
    requires WellFormed(t) && LiveSound(t.live)
    ensures LiveSound(Do(t, a).live)
  {
    match a
    case Item(c, item) =>
      OfferSound(t.live, c, item);
    case StreamEnd(c) =>
      EndStreamSound(t.live, c, None);
    case Err(c, error) =>
      EndStreamSound(t.live, c, Some(ClientError(error)));
    case CancelEverything =>
      CancelLiveSound(t.live);
    case Read(h) =>
      if h < |t.live.streams| {
        ReadSound(t.live, h);
      }
    case Resume(h) =>
      if h < |t.live.streams| {
        ReadSound(t.live, h);
      }
    case _ =>
  }

  lemma PlainKept(t: Table, a: Action)
    requires WellFormed(t) && PlainSound(t.plain)
    ensures PlainSound(Do(t, a).plain)
  {
  }

  lemma {:induction false} RunSound(t: Table, trace: seq<Action>)
    requires WellFormed(t) && Sound(t)
    ensures Sound(Run(t, trace))
    decreases |trace|
  {
    if trace != [] {
      LiveKept(t, trace[0]);
      PlainKept(t, trace[0]);
      RunSound(Do(t, trace[0]), trace[1..]);
    }
  }

  /** The id an action is about, if it is about one. */
  function Concerns(a: Action): Option<Id> {
    match a
    case Reg(c) => Some(c)
    case RegStream(c) => Some(c)
    case Item(c, _) => Some(c)
    case StreamEnd(c) => Some(c)
    case Err(c, _) => Some(c)
    case _ => None
  }

  lemma OtherFutures(t: Table, a: Action, c: Id)
    requires WellFormed(t) && Concerns(a).Some? && Concerns(a).value != c
    ensures var p, q := t.plain, Do(t, a).plain;
            && (c in q.pending <==> c in p.pending)
            && (c in p.pending ==> q.pending[c] == p.pending[c] && q.futures[p.pending[c]] == p.futures[p.pending[c]])
  {
  }

  lemma OtherStreams(t: Table, a: Action, c: Id)
    requires WellFormed(t) && Concerns(a).Some? && Concerns(a).value != c
    ensures var l, k := t.live, Do(t, a).live;
            && (c in k.streaming <==> c in l.streaming)
            && (c in l.streaming ==> k.streaming[c] == l.streaming[c] && k.streams[l.streaming[c]] == l.streams[l.streaming[c]])
  {
  }

  /** An operation on one id leaves the registrations and objects of every other alone. */
  lemma OtherIdsUntouched(t: Table, a: Action, c: Id)
    requires WellFormed(t) && Concerns(a).Some? && Concerns(a).value != c
    ensures var t' := Do(t, a);
            && (c in t'.plain.pending <==> c in t.plain.pending)
            && (c in t.plain.pending ==>
                  && t'.plain.pending[c] == t.plain.pending[c]
                  && t'.plain.futures[t.plain.pending[c]] == t.plain.futures[t.plain.pending[c]])
            && (c in t'.live.streaming <==> c in t.live.streaming)
            && (c in t.live.streaming ==>
                  && t'.live.streaming[c] == t.live.streaming[c]
                  && t'.live.streams[t.live.streaming[c]] == t.live.streams[t.live.streaming[c]])
  {
    OtherFutures(t, a, c);
    OtherStreams(t, a, c);
  }

  // ---- One stream's view of a run ----

  predicate Ends(a: Action, c: Id) {
    a == StreamEnd(c) || (a.Err? && a.c == c) || a.CancelEverything?
  }

  /** The failure that ending a stream this way leaves in it. */
  function FailureOf(a: Action): Option<Failure> {
    match a
    case Err(_, error) => Some(ClientError(error))
    case CancelEverything => Some(CancelledError)
    case _ => None
  }

  predicate Registers(a: Action, c: Id) {
    a == Reg(c) || a == RegStream(c)
  }

  predicate NeverRegisters(trace: seq<Action>, c: Id) {
    forall i :: 0 <= i < |trace| ==> !Registers(trace[i], c)
  }

  /** The part of a run before the first action that ends the stream of `c`. */
  function UntilEnd(trace: seq<Action>, c: Id): (p: seq<Action>)
    ensures p <= trace && forall i :: 0 <= i < |p| ==> !Ends(p[i], c)
    ensures |p| < |trace| ==> Ends(trace[|p|], c)
  {
    if trace == [] || Ends(trace[0], c) then []
    else
      assert trace == [trace[0]] + trace[1..];
      [trace[0]] + UntilEnd(trace[1..], c)
  }

  /** The replies for `c`, in order. */
  function ItemsFor(trace: seq<Action>, c: Id): seq<Event> {
    if trace == [] then []
    else (if trace[0].Item? && trace[0].c == c then [trace[0].item] else []) + ItemsFor(trace[1..], c)
  }

  predicate Unregistered(t: Table, c: Id) {
    c !in t.plain.pending && c !in t.live.streaming
  }

  lemma {:induction false} StaysUnregistered(t: Table, trace: seq<Action>, c: Id)
    requires WellFormed(t) && Unregistered(t, c) && NeverRegisters(trace, c)
    ensures Unregistered(Run(t, trace), c)
    decreases |trace|
  {
    if trace != [] {
      assert !Registers(trace[0], c);
      assert forall i :: 0 <= i < |trace[1..]| ==> trace[1..][i] == trace[i + 1];
      StaysUnregistered(Do(t, trace[0]), trace[1..], c);
    }
  }

  /** A reply whose id is not registered (yet, or any more) changes nothing at all. */
  lemma UnregisteredReplyIsDropped(t: Table, c: Id, item: Event, error: string)
    requires WellFormed(t) && Unregistered(t, c)
    ensures Do(t, Item(c, item)) == t && Do(t, StreamEnd(c)) == t && Do(t, Err(c, error)) == t
  {
    assert t.plain.pending - {c} == t.plain.pending;
  }

  /** The stream at position `h` is the one registered for `c`, and `c` is not a plain request. */
  predicate OpenFor(t: Table, c: Id, h: nat)
    requires WellFormed(t)
  {
    c !in t.plain.pending && c in t.live.streaming && t.live.streaming[c] == h && !t.live.streams[h].done
  }

  /** Nobody can put anything into the stream at `h` any more. */
  predicate ClosedAt(t: Table, c: Id, h: nat)
    requires WellFormed(t)
  {
    Unregistered(t, c) && h < |t.live.streams| && t.live.streams[h].done
    && forall d :: d in t.live.streaming ==> t.live.streaming[d] != h
  }

  lemma OpenEnds(t: Table, a: Action, c: Id, h: nat)
    requires WellFormed(t) && OpenFor(t, c, h) && Ends(a, c)
    ensures var t' := Do(t, a);
            && ClosedAt(t', c, h) && t'.live.streams[h].put == t.live.streams[h].put
            && t'.live.streams[h].exception == (if a.StreamEnd? then t.live.streams[h].exception else FailureOf(a))
  {
    assert c in t.live.streaming && t.live.streaming[c] == h && h in t.live.streaming.Values;
  }

  lemma OpenGoesOn(t: Table, a: Action, c: Id, h: nat)
    requires WellFormed(t) && OpenFor(t, c, h) && !Registers(a, c) && !Ends(a, c)
    ensures var t' := Do(t, a);
            && OpenFor(t', c, h)
            && t'.live.streams[h].put == t.live.streams[h].put + (if a.Item? && a.c == c then [a.item] else [])
            && t'.live.streams[h].exception == t.live.streams[h].exception
  {
    assert t.live.streams[h].put + [] == t.live.streams[h].put;
    if a.RegStream? {
      assert t.live.streaming[a.c := |t.live.streams|][c] == h;
    }
  }

  lemma OpenStep(t: Table, a: Action, c: Id, h: nat)
    requires WellFormed(t) && OpenFor(t, c, h) && !Registers(a, c)
    ensures var t' := Do(t, a);
            if Ends(a, c) then
              && ClosedAt(t', c, h) && t'.live.streams[h].put == t.live.streams[h].put
              && t'.live.streams[h].exception == (if a.StreamEnd? then t.live.streams[h].exception else FailureOf(a))
            else
              && OpenFor(t', c, h) && t'.live.streams[h].put == t.live.streams[h].put + ItemsFor([a], c)
              && t'.live.streams[h].exception == t.live.streams[h].exception
  {
    if Ends(a, c) {
      OpenEnds(t, a, c, h);
    } else {
      OpenGoesOn(t, a, c, h);
      assert [a][1..] == [];
    }
  }

  /** No registration leads to the stream at `h`, so nothing done through one reaches it. */
  predicate Apart(l: Live, h: nat) {
    h < |l.streams| && forall d :: d in l.streaming ==> l.streaming[d] != h
  }

  lemma ApartKept(l: Live, h: nat, d: Id, item: Event, error: Option<Failure>)
    requires Indexes(l.streaming, |l.streams|) && Apart(l, h)
    ensures Apart(AddStream(l, d), h) && AddStream(l, d).streams[h] == l.streams[h]
    ensures Apart(Offer(l, d, item), h) && Offer(l, d, item).streams[h] == l.streams[h]
    ensures Apart(EndStream(l, d, error), h) && EndStream(l, d, error).streams[h] == l.streams[h]
  {
  }

  lemma ApartCancelled(l: Live, h: nat)
    requires Indexes(l.streaming, |l.streams|) && Apart(l, h)
    ensures Apart(CancelLive(l), h) && CancelLive(l).streams[h] == l.streams[h]
  {
    assert h !in l.streaming.Values;
  }

  lemma ClosedStep(t: Table, a: Action, c: Id, h: nat)
    requires WellFormed(t) && ClosedAt(t, c, h) && !Registers(a, c)
    ensures var t' := Do(t, a);
            && ClosedAt(t', c, h) && t'.live.streams[h].put == t.live.streams[h].put
            && t'.live.streams[h].exception == t.live.streams[h].exception
  {
    match a
    case RegStream(d) =>
      ApartKept(t.live, h, d, MessageEvent(Message("", [])), None);
    case Item(d, item) =>
      ApartKept(t.live, h, d, item, None);
    case StreamEnd(d) =>
      ApartKept(t.live, h, d, MessageEvent(Message("", [])), None);
    case Err(d, error) =>
      ApartKept(t.live, h, d, MessageEvent(Message("", [])), Some(ClientError(error)));
    case CancelEverything =>
      ApartCancelled(t.live, h);
    case _ =>
  }

  lemma {:induction false} ClosedRun(t: Table, trace: seq<Action>, c: Id, h: nat)
    requires WellFormed(t) && ClosedAt(t, c, h) && NeverRegisters(trace, c)
    ensures var t' := Run(t, trace);
            && ClosedAt(t', c, h) && t'.live.streams[h].put == t.live.streams[h].put
            && t'.live.streams[h].exception == t.live.streams[h].exception
    decreases |trace|
  {
    if trace != [] {
      assert forall i :: 0 <= i < |trace[1..]| ==> trace[1..][i] == trace[i + 1];
      ClosedStep(t, trace[0], c, h);
      ClosedRun(Do(t, trace[0]), trace[1..], c, h);
    }
  }

  lemma ItemsForCons(a: Action, rest: seq<Action>, c: Id)
    requires !Ends(a, c)
    ensures var trace := [a] + rest;
            && UntilEnd(trace, c) == [a] + UntilEnd(rest, c)
            && ItemsFor(UntilEnd(trace, c), c) == ItemsFor([a], c) + ItemsFor(UntilEnd(rest, c), c)
            && (UntilEnd(trace, c) == trace <==> UntilEnd(rest, c) == rest)
            && FailureIn(trace, c) == FailureIn(rest, c)
  {
    var p := UntilEnd(rest, c);
    assert ([a] + rest)[1..] == rest && ([a] + p)[1..] == p && [a][1..] == [];
  }

  lemma Associates(x: seq<Event>, y: seq<Event>, z: seq<Event>)
    ensures (x + y) + z == x + (y + z)
  {
  }

  lemma {:induction false} OpenRun(t: Table, trace: seq<Action>, c: Id, h: nat)
    requires WellFormed(t) && OpenFor(t, c, h) && NeverRegisters(trace, c) && t.live.streams[h].exception.None?
    ensures var t' := Run(t, trace);
            && h < |t'.live.streams|
            && t'.live.streams[h].exception == FailureIn(trace, c)
            && t'.live.streams[h].put == t.live.streams[h].put + ItemsFor(UntilEnd(trace, c), c)
            && (if UntilEnd(trace, c) == trace then OpenFor(t', c, h) else ClosedAt(t', c, h))
    decreases |trace|
  {
    if trace == [] {
      assert t.live.streams[h].put + [] == t.live.streams[h].put;
    } else {
      var a, rest := trace[0], trace[1..];
      assert trace == [a] + rest && forall i :: 0 <= i < |rest| ==> rest[i] == trace[i + 1];
      OpenStep(t, a, c, h);
      if Ends(a, c) {
        ClosedRun(Do(t, a), rest, c, h);
        assert t.live.streams[h].put + [] == t.live.streams[h].put;
      } else {
        OpenRun(Do(t, a), rest, c, h);
        ItemsForCons(a, rest, c);
        Associates(t.live.streams[h].put, ItemsFor([a], c), ItemsFor(UntilEnd(rest, c), c));
      }
    }
  }

  /** What the first terminator of a run leaves in the stream of `c`. */
  function FailureIn(trace: seq<Action>, c: Id): Option<Failure> {
    var k := |UntilEnd(trace, c)|;
    if k < |trace| then FailureOf(trace[k]) else None
  }

  function StreamTrace(before: seq<Action>, c: Id, after: seq<Action>): seq<Action> {
    before + [RegStream(c)] + after
  }

  /** For every interleaving: with `c` registered once, as a stream, everything ever put in
      its queue is exactly the replies for `c` dispatched after its registration and before
      its first terminator, in order; what the caller was handed is a prefix of that, and
      is all of it exactly when the queue is empty; and the failure it holds is the one that
      this first terminator brought, if it brought one. */
  lemma StreamProjection(before: seq<Action>, c: Id, after: seq<Action>)
    requires NeverRegisters(before, c) && NeverRegisters(after, c)
    ensures var t := Run(EMPTY_TABLE, StreamTrace(before, c, after));
            var h := |Run(EMPTY_TABLE, before).live.streams|;
            && h < |t.live.streams|
            && var s := t.live.streams[h];
            && s.put == ItemsFor(UntilEnd(after, c), c)
            && s.got <= s.put && (s.got == s.put <==> s.queue == [])
            && (s.done <==> UntilEnd(after, c) != after)
            && (c in t.live.streaming <==> UntilEnd(after, c) == after)
            && s.exception == (if UntilEnd(after, c) == after then None
                               else match after[|UntilEnd(after, c)|]
                                    case Err(_, error) => Some(ClientError(error))
                                    case CancelEverything => Some(CancelledError)
                                    case _ => None)
  {
    var t0 := Run(EMPTY_TABLE, before);
    StaysUnregistered(EMPTY_TABLE, before, c);
    var t1 := Do(t0, RegStream(c));
    var h := |t0.live.streams|;
    RunConcat(EMPTY_TABLE, before + [RegStream(c)], after);
    RunConcat(EMPTY_TABLE, before, [RegStream(c)]);
    assert [RegStream(c)][1..] == [];
    assert Run(t0, [RegStream(c)]) == t1;
    OpenRun(t1, after, c, h);
    RunSound(EMPTY_TABLE, StreamTrace(before, c, after));
    var s := Run(t1, after).live.streams[h];
    assert Balanced(s);
    assert [] + ItemsFor(UntilEnd(after, c), c) == ItemsFor(UntilEnd(after, c), c);
  }

  // ---- One plain request's view of a run ----

  predicate Pops(a: Action, c: Id) {
    (a.Item? && a.c == c) || (a.Err? && a.c == c) || a.CancelEverything?
  }

  /** What a read hands over: nothing from a failed stream, even if items are queued, but a
      caller that had to wait gets the oldest item all the same. */
  lemma ReadHandsOver(t: Table, h: nat)
    requires WellFormed(t) && h < |t.live.streams|
    ensures var s := t.live.streams[h];
            var read, resumed := Do(t, Read(h)).live.streams[h], Do(t, Resume(h)).live.streams[h];
            && read.got == s.got + (if s.exception.None? then s.queue[..Least(1, |s.queue|)] else [])
            && resumed.got == s.got + s.queue[..Least(1, |s.queue|)]
            && read.got + read.queue == resumed.got + resumed.queue == s.got + s.queue
            && read.put == resumed.put == s.put && read.done == resumed.done == s.done
            && read.exception == resumed.exception == s.exception
  {
    var s := t.live.streams[h];
    if s.queue != [] {
      assert s.queue[..1] == [s.queue[0]];
      assert (s.got + [s.queue[0]]) + s.queue[1..] == s.got + s.queue;
    }
  }

  /** What one action does to the future of `c` at position `h`, while its caller waits. */
  function OutcomeOf(a: Action, c: Id, h: nat): FutureState {
    match a
    case Item(d, item) => if d == c then Resolved(item) else Waiting
    case Err(d, error) => if d == c then Errored(error) else Waiting
    case CancelEverything => Cancelled
    case GiveUp(g) => if g == h then Cancelled else Waiting
    case _ => Waiting
  }

  /** What first happens to the request decides its future, once and for all. */
  function FirstOutcome(trace: seq<Action>, c: Id, h: nat): FutureState {
    if trace == [] then Waiting
    else if OutcomeOf(trace[0], c, h) != Waiting then OutcomeOf(trace[0], c, h)
    else FirstOutcome(trace[1..], c, h)
  }

  predicate PendingAt(t: Table, c: Id, h: nat)
    requires WellFormed(t)
  {
    c in t.plain.pending && t.plain.pending[c] == h
  }

  predicate PoppedAt(t: Table, c: Id, h: nat) {
    && c !in t.plain.pending && h < |t.plain.futures| && !t.plain.futures[h].Waiting?
    && forall d :: d in t.plain.pending ==> t.plain.pending[d] != h
  }

  lemma PoppedStep(t: Table, a: Action, c: Id, h: nat)
    requires WellFormed(t) && PoppedAt(t, c, h) && !Registers(a, c)
    ensures PoppedAt(Do(t, a), c, h) && Do(t, a).plain.futures[h] == t.plain.futures[h]
  {
  }

  lemma {:induction false} PoppedRun(t: Table, trace: seq<Action>, c: Id, h: nat)
    requires WellFormed(t) && PoppedAt(t, c, h) && NeverRegisters(trace, c)
    ensures var t' := Run(t, trace);
            PoppedAt(t', c, h) && t'.plain.futures[h] == t.plain.futures[h]
    decreases |trace|
  {
    if trace != [] {
      assert forall i :: 0 <= i < |trace[1..]| ==> trace[1..][i] == trace[i + 1];
      PoppedStep(t, trace[0], c, h);
      PoppedRun(Do(t, trace[0]), trace[1..], c, h);
    }
  }

  lemma PendingStep(t: Table, a: Action, c: Id, h: nat)
    requires WellFormed(t) && PendingAt(t, c, h) && !Registers(a, c)
    requires t.plain.futures[h].Waiting? || t.plain.futures[h].Cancelled?
    ensures var t' := Do(t, a);
            && h < |t'.plain.futures|
            && (if Pops(a, c) then PoppedAt(t', c, h) else PendingAt(t', c, h))
            && t'.plain.futures[h] == (if t.plain.futures[h].Waiting? then OutcomeOf(a, c, h) else Cancelled)
  {
    assert c in t.plain.pending && h in t.plain.pending.Values;
  }

  lemma {:induction false} PendingRun(t: Table, trace: seq<Action>, c: Id, h: nat)
    requires WellFormed(t) && PendingAt(t, c, h) && NeverRegisters(trace, c)
    requires t.plain.futures[h].Waiting? || t.plain.futures[h].Cancelled?
    ensures var t' := Run(t, trace);
            && h < |t'.plain.futures|
            && t'.plain.futures[h] == (if t.plain.futures[h].Waiting? then FirstOutcome(trace, c, h) else Cancelled)
            && (c in t'.plain.pending <==> forall i :: 0 <= i < |trace| ==> !Pops(trace[i], c))
    decreases |trace|
  {
    if trace != [] {
      var a, rest := trace[0], trace[1..];
      assert forall i :: 0 <= i < |rest| ==> rest[i] == trace[i + 1];
      PendingStep(t, a, c, h);
      if Pops(a, c) {
        PoppedRun(Do(t, a), rest, c, h);
      } else {
        PendingRun(Do(t, a), rest, c, h);
        assert forall i :: 0 < i < |trace| ==> trace[i] == rest[i - 1];
      }
    }
  }

  /** For every interleaving: a plain request registered once is resolved by the first
      reply, error, cancellation or give-up that concerns it and by nothing else, and stays
      registered exactly until a reply, error or cancel_all removes it. */
  lemma FutureProjection(before: seq<Action>, c: Id, after: seq<Action>)
    requires NeverRegisters(before, c) && NeverRegisters(after, c)
    ensures var t := Run(EMPTY_TABLE, before + [Reg(c)] + after);
            var h := |Run(EMPTY_TABLE, before).plain.futures|;
            && h < |t.plain.futures|
            && t.plain.futures[h] == FirstOutcome(after, c, h)
            && (c in t.plain.pending <==> forall i :: 0 <= i < |after| ==> !Pops(after[i], c))
  {
    var t0 := Run(EMPTY_TABLE, before);
    var t1 := Do(t0, Reg(c));
    RunConcat(EMPTY_TABLE, before + [Reg(c)], after);
    RunConcat(EMPTY_TABLE, before, [Reg(c)]);
    assert [Reg(c)][1..] == [];
    assert Run(t0, [Reg(c)]) == t1;
    PendingRun(t1, after, c, |t0.plain.futures|);
  }
}
