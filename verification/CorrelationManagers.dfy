/** The objects behind the correlation table: futures, streams and the manager that
    completes them in place (src/a2a/client/transports/kafka_correlation.py). */
module CorrelationManagers {
  import opened Types
  import opened Correlation

  class Future {
    var state: FutureState

    constructor ()
      ensures state == Waiting
    {
      state := Waiting;
    }
  }

  class StreamingFuture {
    var queue: seq<Event>
    var isDone: bool
    var exception: Option<Failure>
    ghost var put: seq<Event>
    ghost var got: seq<Event>

    ghost function View(): StreamState
      reads this
    {
      StreamState(queue, isDone, exception, put, got)
    }

    constructor ()
      ensures View() == OPEN_STREAM
    {
      queue, isDone, exception, put, got := [], false, None, [], [];
    }

    method Put(item: Event)
      modifies this
      ensures View() == PutItem(old(View()), item)
    {
      if !isDone {
        queue, put := queue + [item], put + [item];
      }
    }

    /** The next item when there is one; `raised` when the stream has failed; neither when
        the caller has to wait. */
    method Get() returns (item: Option<Event>, raised: Option<Failure>)
      modifies this
      ensures View() == TakeItem(old(View()))
      ensures raised == old(exception)
      ensures item == if old(exception).None? && old(queue) != [] then Some(old(queue)[0]) else None
    {
      item, raised := None, exception;
      if exception.None? {
        item := Resume();
      }
    }

    /** The rest of a `get` that had to wait: the exception is not looked at again. */
    method Resume() returns (item: Option<Event>)
      modifies this
      ensures View() == PopItem(old(View()))
      ensures item == if old(queue) != [] then Some(old(queue)[0]) else None
    {
      item := None;
      if queue != [] {
        item := Some(queue[0]);
        got := got + [queue[0]];
        queue := queue[1..];
      }
    }

    method SetException(error: Failure)
      modifies this
      ensures View() == Fail(old(View()), error)
    {
      exception, isDone := Some(error), true;
    }

    method SetDone()
      modifies this
      ensures View() == Finish(old(View()))
    {
      isDone := true;
    }
  }

  class CorrelationManager {
    var pendingRequests: map<Id, Future>
    var streamingRequests: map<Id, StreamingFuture>
    ghost var futures: seq<Future>
    ghost var streams: seq<StreamingFuture>
    ghost var plain: Plain
    ghost var live: Live

    ghost predicate FuturesOk()
      reads this`pendingRequests, this`futures, this`plain, futures
    {
      && Indexes(plain.pending, |plain.futures|)
      && |futures| == |plain.futures| && pendingRequests.Keys == plain.pending.Keys
      && (forall c :: c in pendingRequests ==> pendingRequests[c] == futures[plain.pending[c]])
      && (forall h :: 0 <= h < |futures| ==> futures[h].state == plain.futures[h])
      && (forall g, h :: 0 <= g < h < |futures| ==> futures[g] != futures[h])
    }

    ghost predicate StreamsOk()
      reads this`streamingRequests, this`streams, this`live, streams
    {
      && Indexes(live.streaming, |live.streams|)
      && |streams| == |live.streams| && streamingRequests.Keys == live.streaming.Keys
      && (forall c :: c in streamingRequests ==> streamingRequests[c] == streams[live.streaming[c]])
      && (forall h :: 0 <= h < |streams| ==> streams[h].View() == live.streams[h])
      && (forall g, h :: 0 <= g < h < |streams| ==> streams[g] != streams[h])
    }

    /** The table describes the real dictionaries and the real objects. */
    ghost predicate Valid()
      reads this, futures, streams
    {
      FuturesOk() && StreamsOk()
    }

    ghost function View(): Table
      reads this
    {
      Table(plain, live)
    }

    constructor ()
      ensures Valid() && View() == EMPTY_TABLE && futures == [] && streams == []
    {
      pendingRequests, streamingRequests := map[], map[];
      futures, streams := [], [];
      plain, live := EMPTY_TABLE.plain, EMPTY_TABLE.live;
    }

    method Register(c: Id) returns (future: Future)
      requires Valid()
      modifies this`pendingRequests, this`futures, this`plain
      ensures Valid() && plain == AddFuture(old(plain), c)
      ensures fresh(future) && futures == old(futures) + [future]
    {
      future := new Future();
      Enter(c, future);
    }

    method Enter(c: Id, future: Future)
      requires FuturesOk() && future !in futures && future.state == Waiting
      modifies this`pendingRequests, this`futures, this`plain
      ensures FuturesOk() && plain == AddFuture(old(plain), c) && futures == old(futures) + [future]
    {
      pendingRequests := pendingRequests[c := future];
      futures := futures + [future];
      plain := AddFuture(plain, c);
    }

    method RegisterStreaming(c: Id) returns (stream: StreamingFuture)
      requires Valid()
      modifies this`streamingRequests, this`streams, this`live
      ensures Valid() && live == AddStream(old(live), c)
      ensures fresh(stream) && streams == old(streams) + [stream]
    {
      stream := new StreamingFuture();
      EnterStream(c, stream);
    }

    method EnterStream(c: Id, stream: StreamingFuture)
      requires StreamsOk() && stream !in streams && stream.View() == OPEN_STREAM
      modifies this`streamingRequests, this`streams, this`live
      ensures StreamsOk() && live == AddStream(old(live), c) && streams == old(streams) + [stream]
    {
      streamingRequests := streamingRequests[c := stream];
      streams := streams + [stream];
      live := AddStream(live, c);
    }

    /** Pop the plain request, and resolve it if its caller still waits. */
    method ResolvePending(c: Id, outcome: FutureState) returns (resolved: bool)
      requires FuturesOk()
      modifies this`pendingRequests, this`plain, futures
      ensures FuturesOk() && plain == Resolve(old(plain), c, outcome)
      ensures resolved <==> IsWaiting(old(plain), c)
    {
      resolved := false;
      ghost var before := plain;
      if c in pendingRequests {
        var future := pendingRequests[c];
        pendingRequests := pendingRequests - {c};
        if future.state.Waiting? {
          future.state := outcome;
          resolved := true;
        }
      }
      plain := Resolve(before, c, outcome);
    }

    method Complete(c: Id, item: Event) returns (delivered: bool)
      requires Valid()
      modifies this`pendingRequests, this`plain, this`live, futures, streams
      ensures Valid() && View() == Correlation.Complete(old(View()), c, item)
      ensures delivered <==>
                IsWaiting(old(plain), c)
                || (c in old(live).streaming && !old(live).streams[old(live).streaming[c]].done)
    {
      delivered := ResolvePending(c, Resolved(item));
      if !delivered && c in streamingRequests {
        var stream := streamingRequests[c];
        delivered := !stream.isDone;
        if delivered {
          stream.Put(item);
        }
        live := Offer(live, c, item);
      }
    }

    method EndStreaming(c: Id, error: Option<Failure>) returns (found: bool)
      requires StreamsOk()
      modifies this`streamingRequests, this`live, streams
      ensures StreamsOk() && live == EndStream(old(live), c, error)
      ensures found <==> c in old(live).streaming
    {
      ghost var before := live;
      found := c in streamingRequests;
      if found {
        var stream := streamingRequests[c];
        streamingRequests := streamingRequests - {c};
        if error.Some? {
          stream.SetException(error.value);
        } else {
          stream.SetDone();
        }
      }
      live := EndStream(before, c, error);
    }

    method CompleteStreaming(c: Id) returns (found: bool)
      requires Valid()
      modifies this`streamingRequests, this`live, streams
      ensures Valid() && View() == Correlation.CompleteStreaming(old(View()), c)
      ensures found <==> c in old(live).streaming
    {
      found := EndStreaming(c, None);
    }

    method CompleteWithException(c: Id, error: string) returns (found: bool)
      requires Valid()
      modifies this`pendingRequests, this`plain, this`streamingRequests, this`live, futures, streams
      ensures Valid() && View() == Correlation.CompleteWithException(old(View()), c, error)
      ensures found <==> IsWaiting(old(plain), c) || c in old(live).streaming
    {
      found := ResolvePending(c, Errored(error));
      if !found {
        found := EndStreaming(c, Some(ClientError(error)));
      }
    }

    /** A caller's `get` on its own stream, with the table kept in step. */
    method Next(stream: StreamingFuture, ghost h: nat) returns (item: Option<Event>, raised: Option<Failure>)
      requires Valid() && h < |streams| && streams[h] == stream
      modifies stream, this`live
      ensures Valid() && live == old(live).(streams := old(live).streams[h := TakeItem(old(live).streams[h])])
      ensures raised == old(live).streams[h].exception
      ensures var s := old(live).streams[h];
              item == if s.exception.None? && s.queue != [] then Some(s.queue[0]) else None
    {
      item, raised := stream.Get();
      live := live.(streams := live.streams[h := TakeItem(live.streams[h])]);
    }

    /** The same for a `get` that had to wait. */
    method NextAfterWait(stream: StreamingFuture, ghost h: nat) returns (item: Option<Event>)
      requires Valid() && h < |streams| && streams[h] == stream
      modifies stream, this`live
      ensures Valid() && live == old(live).(streams := old(live).streams[h := PopItem(old(live).streams[h])])
      ensures var s := old(live).streams[h]; item == if s.queue != [] then Some(s.queue[0]) else None
    {
      item := stream.Resume();
      live := live.(streams := live.streams[h := PopItem(live.streams[h])]);
    }

    /** Both tables are walked and then cleared. */
    method CancelAll()
      requires Valid()
      modifies this`pendingRequests, this`plain, this`streamingRequests, this`live, futures, streams
      ensures Valid() && View() == Correlation.CancelAll(old(View()))
    {
      CancelPending();
      CancelStreaming();
    }

    method CancelPending()
      requires FuturesOk()
      modifies this`pendingRequests, this`plain, futures
      ensures FuturesOk() && plain == CancelPlain(old(plain))
    {
      CancelEach();
      pendingRequests := map[];
      plain := CancelPlain(plain);
    }

    method CancelEach()
      requires FuturesOk()
      modifies futures
      ensures forall h :: 0 <= h < |futures| ==> futures[h].state == CancelPlain(plain).futures[h]
    {
      var todo := pendingRequests.Keys;
      ghost var finished: set<nat> := {};
      while todo != {}
        invariant todo <= pendingRequests.Keys
        invariant finished == set c | c in plain.pending && c !in todo :: plain.pending[c]
        invariant forall h :: 0 <= h < |futures| ==>
                    futures[h].state == if h in finished then CancelledIfWaiting(plain.futures[h]) else plain.futures[h]
      {
        var c :| c in todo;
        var future := pendingRequests[c];
        assert future == futures[plain.pending[c]] && plain.pending[c] !in finished;
        if future.state.Waiting? {
          future.state := Cancelled;
        }
        todo := todo - {c};
        finished := finished + {plain.pending[c]};
      }
      assert finished == plain.pending.Values;
    }

    method CancelStreaming()
      requires StreamsOk()
      modifies this`streamingRequests, this`live, streams
      ensures StreamsOk() && live == CancelLive(old(live))
    {
      FailEach();
      streamingRequests := map[];
      live := CancelLive(live);
    }

    method FailEach()
      requires StreamsOk()
      modifies streams
      ensures forall h :: 0 <= h < |streams| ==> streams[h].View() == CancelLive(live).streams[h]
    {
      var todo := streamingRequests.Keys;
      ghost var finished: set<nat> := {};
      while todo != {}
        invariant todo <= streamingRequests.Keys
        invariant finished == set c | c in live.streaming && c !in todo :: live.streaming[c]
        invariant forall h :: 0 <= h < |streams| ==>
                    streams[h].View() == if h in finished then Fail(live.streams[h], CancelledError) else live.streams[h]
      {
        var c :| c in todo;
        var stream := streamingRequests[c];
        assert stream == streams[live.streaming[c]] && live.streaming[c] !in finished;
        stream.SetException(CancelledError);
        todo := todo - {c};
        finished := finished + {live.streaming[c]};
      }
      assert finished == live.streaming.Values;
    }

    method GetPendingCount() returns (n: nat)
      requires Valid()
      ensures n == |plain.pending| + |live.streaming|
    {
      n := |pendingRequests| + |streamingRequests|;
      assert |pendingRequests.Keys| == |pendingRequests| && |plain.pending.Keys| == |plain.pending|;
      assert |streamingRequests.Keys| == |streamingRequests| && |live.streaming.Keys| == |live.streaming|;
    }
  }
}
