/** Which events end a stream (the test in `consume_all`,
    src/a2a/server/events/event_consumer.py), and the part of a stream up to its end. */
module Streams {
  import opened Types

  predicate IsFinal(e: Event) {
    match e
    case StatusEvent(u) => u.final
    case MessageEvent(_) => true
    case TaskEvent(t) => t.status.state in {Completed, Canceled, Failed, Rejected, Unknown, InputRequired}
    case ArtifactEvent(_) => false
  }

  predicate NoneFinal(events: seq<Event>) {
    forall i :: 0 <= i < |events| ==> !IsFinal(events[i])
  }

  /** Everything up to and including the first final event; all of it when there is none. */
  function ThroughFinal(events: seq<Event>): (p: seq<Event>)
    ensures p <= events
    ensures NoneFinal(events) ==> p == events
    ensures !NoneFinal(events) ==> p != [] && IsFinal(p[|p| - 1])
    ensures forall i :: 0 <= i < |p| - 1 ==> !IsFinal(p[i])
  {
    if events == [] then []
    else if IsFinal(events[0]) then
      assert events == [events[0]] + events[1..];
      [events[0]]
    else
      var p := ThroughFinal(events[1..]);
      assert events == [events[0]] + events[1..];
      assert forall i :: 0 < i < |events| ==> events[i] == events[1..][i - 1];
      [events[0]] + p
  }

  /** That description determines the prefix. */
  lemma ThroughFinalIs(events: seq<Event>, p: seq<Event>)
    requires p <= events && p != [] && IsFinal(p[|p| - 1]) && NoneFinal(p[..|p| - 1])
    ensures ThroughFinal(events) == p
  {
    var front := p[..|p| - 1];
    assert forall i :: 0 <= i < |front| ==> front[i] == events[i];
    assert events[|p| - 1] == p[|p| - 1];
    assert |ThroughFinal(events)| == |p|;
  }
}
