/** Agents that put their updates on the queue without a `TaskUpdater`: when an ended task
    stays ended. */
module WithoutUpdater {
  import opened Types
  import opened TaskFold
  import opened Streams
  import opened Requests

  /** Every status after a terminal one reports the same state again. */
  predicate Settled(events: seq<Event>) {
    forall i, j :: 0 <= i < j < |events| && EndsTask(events[i]) && events[j].StatusEvent? ==>
      events[j].status.status.state == events[i].status.status.state
  }

  /** Tasks in a terminal state in `a` are in that state in `b`. */
  predicate StillEnded(a: Store, b: Store) {
    forall k :: k in a && IsTerminal(a[k].status.state) ==> k in b && b[k].status.state == a[k].status.state
  }

  predicate NeverLeft(trail: seq<Store>) {
    forall i, j :: 0 <= i <= j < |trail| ==> StillEnded(trail[i], trail[j])
  }

  /** The same condition read from a given state on. */
  predicate SettledFrom(state: TaskState, events: seq<Event>)
    decreases |events|
  {
    events == [] ||
    (var e := events[0];
     && (IsTerminal(state) && e.StatusEvent? ==> e.status.status.state == state)
     && SettledFrom(if e.StatusEvent? then e.status.status.state else state, events[1..]))
  }

  lemma {:induction false} SettledFromIff(state: TaskState, events: seq<Event>)
    ensures SettledFrom(state, events) <==>
            Settled(events)
            && (IsTerminal(state) ==>
                  forall j :: 0 <= j < |events| && events[j].StatusEvent? ==> events[j].status.status.state == state)
    decreases |events|
  {
    if events != [] {
      var e, rest := events[0], events[1..];
      SettledFromIff(if e.StatusEvent? then e.status.status.state else state, rest);
      assert forall j :: 0 < j < |events| ==> events[j] == rest[j - 1];
      assert forall j :: 0 <= j < |rest| ==> rest[j] == events[j + 1];
    }
  }

  lemma NeverLeftCons(s: Store, trail: seq<Store>)
    requires trail != []
    ensures NeverLeft([s] + trail) <==> StillEnded(s, trail[0]) && NeverLeft(trail)
  {
    var all := [s] + trail;
    assert all[0] == s && forall i :: 0 <= i < |trail| ==> trail[i] == all[i + 1];
    if StillEnded(s, trail[0]) && NeverLeft(trail) {
      forall i, j | 0 <= i <= j < |all|
        ensures StillEnded(all[i], all[j])
      {
        if i > 0 {
          assert StillEnded(trail[i - 1], trail[j - 1]);
        } else if j > 0 {
          assert StillEnded(trail[0], trail[j - 1]);
        }
      }
    }
  }

  lemma {:induction false} TrailNeverLeftIff(m: Manager, s: Store, t: Task, contextId: string, events: seq<Event>)
    requires StartsFrom(m, s, t, contextId) && AllFor(events, t.id, contextId)
    requires if t.id in s then s[t.id].status.state == t.status.state else !IsTerminal(t.status.state)
    ensures NeverLeft(Trail(Saved(m, s, None), events)) <==> SettledFrom(t.status.state, events)
    decreases |events|
  {
    if events != [] {
      var e, rest := events[0], events[1..];
      SaveUpdate(m, s, t, contextId, e);
      var r := SaveEvent(m, s, e);
      assert Fold(Saved(m, s, None), [e]) == r;
      var next := ServerUpdate(t, e);
      TrailNeverLeftIff(r.manager, r.store, next, contextId, rest);
      NeverLeftCons(s, Trail(r, rest));
      assert StillEnded(s, r.store) <==> (IsTerminal(t.status.state) ==> next.status.state == t.status.state);
    }
  }

  /** An agent that puts whatever updates it likes on the queue: the stored task never leaves
      a terminal state if and only if, in the part that is consumed, every status after a
      terminal one reports that state again. */
  lemma EndedStateIsKeptIff(m: Manager, s: Store, t: Task, contextId: string, published: seq<Event>)
    requires StartsFrom(m, s, t, contextId) && AllFor(published, t.id, contextId)
    requires !IsTerminal(t.status.state) && (t.id in s ==> s[t.id].status.state == t.status.state)
    ensures NeverLeft(Trail(Saved(m, s, None), ThroughFinal(published))) <==> Settled(ThroughFinal(published))
  {
    var events := ThroughFinal(published);
    assert forall i :: 0 <= i < |events| ==> events[i] == published[i];
    TrailNeverLeftIff(m, s, t, contextId, events);
    SettledFromIff(t.status.state, events);
  }

  /** A terminal status that is not flagged final can be overwritten. */
  lemma UnflaggedTerminalStatusCanBeOverwritten()
    ensures var t := NewTask("t", "c", None);
            var done := StatusEvent(StatusUpdate("t", "c", TaskStatus(Completed, None, None), false, None));
            var again := StatusEvent(StatusUpdate("t", "c", TaskStatus(Working, None, None), false, None));
            var m := Manager(Some("t"), Some("c"), None, None);
            !NeverLeft(Trail(Saved(m, map["t" := t], None), ThroughFinal([done, again])))
  {
    var t := NewTask("t", "c", None);
    var done := StatusEvent(StatusUpdate("t", "c", TaskStatus(Completed, None, None), false, None));
    var again := StatusEvent(StatusUpdate("t", "c", TaskStatus(Working, None, None), false, None));
    var m := Manager(Some("t"), Some("c"), None, None);
    var events := [done, again];
    EndedStateIsKeptIff(m, map["t" := t], t, "c", events);
    assert NoneFinal(events) && EndsTask(events[0]) && events[1].StatusEvent?;
  }
}
