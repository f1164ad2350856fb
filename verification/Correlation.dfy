/** `CorrelationManager` and `StreamingFuture` (src/a2a/client/transports/kafka_correlation.py):
    one table that hands the replies of many requests to the callers waiting for them. */
module Correlation {
  import opened Types

  type Id = string

  /** The exceptions a request can fail with: the client's own error, or cancellation. */
  datatype Failure = ClientError(text: string) | CancelledError

  datatype FutureState = Waiting | Resolved(item: Event) | Errored(error: string) | Cancelled

  /** `put` is everything ever put in the queue, `got` what was taken out of it. */
  datatype StreamState = StreamState(queue: seq<Event>, done: bool, exception: Option<Failure>,
                                     put: seq<Event>, got: seq<Event>)

  const OPEN_STREAM := StreamState([], false, None, [], [])

  /** Registrations refer by position to every future and stream ever made, so that a
      caller's object outlives its registration. */
  datatype Plain = Plain(pending: map<Id, nat>, futures: seq<FutureState>)

  datatype Live = Live(streaming: map<Id, nat>, streams: seq<StreamState>)

  datatype Table = Table(plain: Plain, live: Live)

  const EMPTY_TABLE := Table(Plain(map[], []), Live(map[], []))

  /** Registered positions exist, and no two registrations share one. */
  predicate Indexes(m: map<Id, nat>, n: nat) {
    && (forall c :: c in m ==> m[c] < n)
    && (forall c, d :: c in m && d in m && c != d ==> m[c] != m[d])
  }

  predicate WellFormed(t: Table) {
    Indexes(t.plain.pending, |t.plain.futures|) && Indexes(t.live.streaming, |t.live.streams|)
  }

  // ---- Streams ----

  function PutItem(s: StreamState, item: Event): StreamState {
    if s.done then s else s.(queue := s.queue + [item], put := s.put + [item])
  }

  function PopItem(s: StreamState): StreamState {
    if s.queue != [] then s.(queue := s.queue[1..], got := s.got + [s.queue[0]]) else s
  }

  /** `get` tests the exception before it looks at the queue, and not again after waiting. */
  function TakeItem(s: StreamState): StreamState {
    if s.exception.None? then PopItem(s) else s
  }

  function Finish(s: StreamState): StreamState {
    s.(done := true)
  }

  function Fail(s: StreamState, error: Failure): StreamState {
    s.(exception := Some(error), done := true)
  }

  // ---- The two halves of the table ----

  function AddFuture(p: Plain, c: Id): (r: Plain)
    requires Indexes(p.pending, |p.futures|)
    ensures Indexes(r.pending, |r.futures|)
  {
    Plain(p.pending[c := |p.futures|], p.futures + [Waiting])
  }

  /** A plain request is popped whatever its state, and resolved if its caller still waits. */
  function Resolve(p: Plain, c: Id, outcome: FutureState): (r: Plain)
    requires Indexes(p.pending, |p.futures|)
    ensures Indexes(r.pending, |r.futures|)
  {
    Plain(p.pending - {c}, if IsWaiting(p, c) then p.futures[p.pending[c] := outcome] else p.futures)
  }

  predicate IsWaiting(p: Plain, c: Id)
    requires Indexes(p.pending, |p.futures|)
  {
    c in p.pending && p.futures[p.pending[c]].Waiting?
  }

  function CancelledIfWaiting(f: FutureState): FutureState {
    if f.Waiting? then Cancelled else f
  }

  function CancelPlain(p: Plain): (r: Plain)
    ensures Indexes(r.pending, |r.futures|)
  {
    Plain(map[], seq(|p.futures|, h requires 0 <= h < |p.futures| =>
                   if h in p.pending.Values then CancelledIfWaiting(p.futures[h]) else p.futures[h]))
  }

  function AddStream(l: Live, c: Id): (r: Live)
    requires Indexes(l.streaming, |l.streams|)
    ensures Indexes(r.streaming, |r.streams|)
  {
    Live(l.streaming[c := |l.streams|], l.streams + [OPEN_STREAM])
  }

  function Offer(l: Live, c: Id, item: Event): (r: Live)
    requires Indexes(l.streaming, |l.streams|)
    ensures Indexes(r.streaming, |r.streams|)
  {
    if c !in l.streaming then l
    else l.(streams := l.streams[l.streaming[c] := PutItem(l.streams[l.streaming[c]], item)])
  }

  function EndStream(l: Live, c: Id, error: Option<Failure>): (r: Live)
    requires Indexes(l.streaming, |l.streams|)
    ensures Indexes(r.streaming, |r.streams|)
  {
    if c !in l.streaming then l
    else
      var s := l.streams[l.streaming[c]];
      Live(l.streaming - {c}, l.streams[l.streaming[c] := if error.Some? then Fail(s, error.value) else Finish(s)])
  }

  function CancelLive(l: Live): (r: Live)
    ensures Indexes(r.streaming, |r.streams|)
  {
    Live(map[], seq(|l.streams|, h requires 0 <= h < |l.streams| =>
                  if h in l.streaming.Values then Fail(l.streams[h], CancelledError) else l.streams[h]))
  }

  // ---- The operations of the manager ----

  /** An item goes to the plain request if its caller still waits, else to the stream. */
  function Complete(t: Table, c: Id, item: Event): Table
    requires WellFormed(t)
  {
    Table(Resolve(t.plain, c, Resolved(item)), if IsWaiting(t.plain, c) then t.live else Offer(t.live, c, item))
  }

  function CompleteStreaming(t: Table, c: Id): Table
    requires WellFormed(t)
  {
    t.(live := EndStream(t.live, c, None))
  }

  function CompleteWithException(t: Table, c: Id, error: string): Table
    requires WellFormed(t)
  {
    Table(Resolve(t.plain, c, Errored(error)),
          if IsWaiting(t.plain, c) then t.live else EndStream(t.live, c, Some(ClientError(error))))
  }

  function CancelAll(t: Table): Table {
    Table(CancelPlain(t.plain), CancelLive(t.live))
  }
}
