/** A store whose `save` suspends (src/a2a/server/tasks/database_task_store.py): what happens
    when a call is cancelled inside it. The event has been taken from the queue and
    acknowledged, and the task in memory may have been changed in place, but it is not stored. */
module SuspendingStore {
  import opened Types
  import opened TaskFold
  import opened Streams
  import opened Requests

  /** Manager and store when the last `save` for the event is cancelled. A task that was loaded
      or received for this event only is dropped; the one in memory keeps the change. */
  function CancelledSave(m: Manager, s: Store, e: Event): Saved
    requires !e.MessageEvent?
  {
    var (m1, error) := Latch(m, e);
    if error.Some? || e.TaskEvent? then Saved(m1, s, error)
    else if m1.current.Some? then Saved(m1.(current := Some(ServerUpdate(m1.current.value, e))), s, None)
    else if IsNew(m1, s) then
      var created := Write(m1, s, Base(m1, s, e));
      created.(manager := created.manager.(current := Some(ServerUpdate(Base(m1, s, e), e))))
    else Saved(m1, s, None)
  }

  /** A client disconnects while the update `e` of a task in memory is being saved, and the
      background task goes on with `later`. The store ends as if nothing had happened exactly
      when something was still to come, or the update changed nothing. */
  lemma CancelledSaveIsMadeUpIff(m: Manager, s: Store, t: Task, contextId: string, e: Event, later: seq<Event>)
    requires m.current == Some(t) && StartsFrom(m, s, t, contextId)
    requires IsUpdate(e) && e.TaskId() == t.id && e.ContextId() == contextId && AllFor(later, t.id, contextId)
    ensures Fold(CancelledSave(m, s, e), later).store == Fold(Saved(m, s, None), [e] + later).store
            <==> later != [] || (t.id in s && s[t.id] == ServerUpdate(t, e))
  {
    var all := [e] + later;
    assert all[1..] == later;
    var r := CancelledSave(m, s, e);
    var next := ServerUpdate(t, e);
    ServerFoldsTask(r.manager, s, next, contextId, later);
    ServerFoldsTask(m, s, t, contextId, all);
    assert ServerTask(t, all) == ServerTask(next, later);
    if later == [] {
      assert s[t.id := next][t.id] == next;
      assert t.id in s && s[t.id] == next ==> s[t.id := next] == s;
    }
  }

  /** So a final status can be lost: the stored task goes on as if it had never come. */
  lemma FinalStatusCanBeLost(m: Manager, s: Store, t: Task, contextId: string, e: Event)
    requires m.current == Some(t) && StartsFrom(m, s, t, contextId)
    requires IsUpdate(e) && e.TaskId() == t.id && e.ContextId() == contextId
    requires EndsTask(e) && t.id in s && !IsTerminal(s[t.id].status.state)
    ensures var kept, lost := Fold(Saved(m, s, None), [e]).store, Fold(CancelledSave(m, s, e), []).store;
            && t.id in kept && IsTerminal(kept[t.id].status.state)
            && lost == s && !IsTerminal(lost[t.id].status.state)
  {
    ServerFoldsTask(m, s, t, contextId, [e]);
    assert [e][1..] == [];
    assert ServerTask(t, [e]) == ServerUpdate(t, e);
  }

  /** An update of a task that is stored but not in memory, or a `Task` event, leaves no trace
      when its save is cancelled; of a task it creates, only the bare task is stored, but memory has the update. */
  lemma CancelledSaveOtherwise(m: Manager, s: Store, e: Event)
    requires !e.MessageEvent? && Accepts(m, e.TaskId(), e.ContextId())
    ensures e.TaskEvent? || (m.current.None? && e.TaskId() in s && e.TaskId() != "") ==>
              var r := CancelledSave(m, s, e); r.store == s && r.manager.current == m.current && r.error.None?
    ensures IsUpdate(e) && m.current.None? && e.TaskId() !in s ==>
              var r, t := CancelledSave(m, s, e), NewTask(e.TaskId(), e.ContextId(), m.initial);
              r.store == s[e.TaskId() := t] && r.manager.current == Some(ServerUpdate(t, e))
  {
  }
}
