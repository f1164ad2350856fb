/** The client-side fold (src/a2a/client/client_task_manager.py) and its agreement with
    the server-side one. The two managers keep different histories on purpose: the server
    retires a status message when the next status arrives, the client records it at once. */
module ClientFold {
  import opened Types
  import opened TaskFold
  import Artifacts

  datatype Client = Client(taskId: Option<string>, contextId: Option<string>, current: Option<Task>)

  datatype ClientSaved = ClientSaved(client: Client, taskAlreadySet: bool)

  const NEW_CLIENT := Client(None, None, None)

  function ClientBase(c: Client, e: Event): Task
    requires IsUpdate(e)
  {
    if c.current.Some? then c.current.value
    else Task(e.TaskId(), if Truthy(c.contextId) then c.contextId.value else "",
              TaskStatus(Unknown, None, None), None, None, None)
  }

  /** `save_task_event` of the client: no id is compared, and a second `Task` is refused. */
  function ClientSave(c: Client, e: Event): ClientSaved
    requires !e.MessageEvent?
  {
    if e.TaskEvent? then
      if c.current.Some? then ClientSaved(c, true)
      else
        var c' := c.(current := Some(e.task));
        ClientSaved(if Truthy(c.taskId) then c'
                    else c'.(taskId := Some(e.task.id), contextId := Some(e.task.contextId)), false)
    else
      var c1 := c.(taskId := if Truthy(c.taskId) then c.taskId else Some(e.TaskId()),
                   contextId := if Truthy(c.contextId) then c.contextId else Some(e.ContextId()));
      ClientSaved(c1.(current := Some(ClientUpdate(ClientBase(c1, e), e))), false)
  }

  function ClientFold(r: ClientSaved, events: seq<Event>): ClientSaved
    decreases |events|
  {
    if r.taskAlreadySet || events == [] then r
    else ClientFold(if events[0].MessageEvent? then r else ClientSave(r.client, events[0]), events[1..])
  }

  /** The task a caller can get: nothing until a task id is known. */
  function Known(c: Client): Option<Task> {
    if Truthy(c.taskId) then c.current else None
  }

  class ClientTaskManager {
    var currentTask: Option<Task>
    var taskId: Option<string>
    var contextId: Option<string>

    function View(): Client
      reads this
    {
      Client(taskId, contextId, currentTask)
    }

    constructor ()
      ensures View() == NEW_CLIENT
    {
      currentTask, taskId, contextId := None, None, None;
    }

    method GetTask() returns (task: Option<Task>)
      ensures task == Known(View())
    {
      task := if Truthy(taskId) then currentTask else None;
    }

    method SaveTaskEvent(event: Event) returns (taskAlreadySet: bool)
      requires !event.MessageEvent?
      modifies this
      ensures ClientSaved(View(), taskAlreadySet) == ClientSave(old(View()), event)
    {
      if event.TaskEvent? {
        if currentTask.Some? {
          return true;
        }
        currentTask := Some(event.task);
        if !Truthy(taskId) {
          taskId := Some(event.task.id);
          contextId := Some(event.task.contextId);
        }
        return false;
      }
      if !Truthy(taskId) {
        taskId := Some(event.TaskId());
      }
      if !Truthy(contextId) {
        contextId := Some(event.ContextId());
      }
      var task: Task;
      if currentTask.Some? {
        task := currentTask.value;
      } else {
        task := Task(event.TaskId(), if Truthy(contextId) then contextId.value else "",
                     TaskStatus(Unknown, None, None), None, None, None);
      }
      if event.StatusEvent? {
        task := ApplyStatus(task, event.status);
      } else {
        task := Artifacts.AppendArtifactToTask(task, event.update);
      }
      currentTask := Some(task);
      return false;
    }

    static method ApplyStatus(task: Task, update: StatusUpdate) returns (updated: Task)
      ensures updated == ClientUpdate(task, StatusEvent(update))
    {
      updated := task;
      if update.status.message.Some? {
        if updated.history.None? || updated.history.value == [] {
          updated := updated.(history := Some([update.status.message.value]));
          assert [] + updated.history.value == updated.history.value;
        } else {
          updated := updated.(history := Some(updated.history.value + [update.status.message.value]));
        }
      }
      if update.metadata.Some? && update.metadata.value != map[] {
        if updated.metadata.None? || updated.metadata.value == map[] {
          updated := updated.(metadata := Some(map[]));
        }
        updated := updated.(metadata := Some(updated.metadata.value + update.metadata.value));
      }
      updated := updated.(status := update.status);
    }
  }

  // ---- What a caller can get ----

  /** Index of the first event about a task, or the length of the stream. */
  function FirstAboutTask(events: seq<Event>): (k: nat)
    ensures k <= |events|
    ensures forall i :: 0 <= i < k ==> events[i].MessageEvent?
    ensures k < |events| ==> !events[k].MessageEvent?
  {
    if events == [] || !events[0].MessageEvent? then 0 else 1 + FirstAboutTask(events[1..])
  }

  lemma {:induction false} KnownIsKept(c: Client, events: seq<Event>)
    requires Known(c).Some?
    ensures var d := ClientFold(ClientSaved(c, false), events).client;
            Known(d).Some? && Known(d).value.id == Known(c).value.id && d.taskId == c.taskId
    decreases |events|
  {
    if events != [] && !events[0].MessageEvent? {
      var r := ClientSave(c, events[0]);
      if !r.taskAlreadySet {
        KnownIsKept(r.client, events[1..]);
      }
    } else if events != [] {
      KnownIsKept(c, events[1..]);
    }
  }

  /** A new client can get a task if and only if the stream has brought an event about one,
      and from then on it is the task of the first such event, whatever follows. */
  lemma {:induction false} TaskIsKnownIff(events: seq<Event>)
    requires NonEmptyIds(events)
    ensures var known := Known(ClientFold(ClientSaved(NEW_CLIENT, false), events).client);
            var k := FirstAboutTask(events);
            && (known.Some? <==> k < |events|)
            && (known.Some? ==> known.value.id == events[k].TaskId())
    decreases |events|
  {
    if events != [] {
      assert events[0] in events && forall e :: e in events[1..] ==> e in events;
      if events[0].MessageEvent? {
        TaskIsKnownIff(events[1..]);
      } else {
        KnownIsKept(ClientSave(NEW_CLIENT, events[0]).client, events[1..]);
      }
    }
  }

  lemma {:induction false} RefusedOnceKnownIff(c: Client, events: seq<Event>)
    requires c.current.Some?
    ensures ClientFold(ClientSaved(c, false), events).taskAlreadySet <==>
            exists i :: 0 <= i < |events| && events[i].TaskEvent?
    decreases |events|
  {
    if events != [] {
      var e, rest := events[0], events[1..];
      assert forall i :: 0 <= i < |rest| ==> rest[i] == events[i + 1];
      assert forall i :: 0 < i < |events| ==> events[i] == rest[i - 1];
      if e.MessageEvent? {
        RefusedOnceKnownIff(c, rest);
      } else if !e.TaskEvent? {
        RefusedOnceKnownIff(ClientSave(c, e).client, rest);
      }
    }
  }

  /** A run is refused if and only if it brings a `Task` after something about a task. */
  lemma {:induction false} TaskIsRefusedIff(events: seq<Event>)
    ensures ClientFold(ClientSaved(NEW_CLIENT, false), events).taskAlreadySet <==>
            exists i :: FirstAboutTask(events) < i < |events| && events[i].TaskEvent?
    decreases |events|
  {
    if events != [] {
      var rest := events[1..];
      assert forall i :: 0 <= i < |rest| ==> rest[i] == events[i + 1];
      assert forall i :: 0 < i < |events| ==> events[i] == rest[i - 1];
      if events[0].MessageEvent? {
        TaskIsRefusedIff(rest);
      } else {
        RefusedOnceKnownIff(ClientSave(NEW_CLIENT, events[0]).client, rest);
      }
    }
  }

  // ---- The client, too, is a plain fold over its task ----

  lemma {:induction false} ClientFoldsTask(c: Client, t: Task, events: seq<Event>)
    requires c.current == Some(t) && AllUpdates(events)
    ensures var r := ClientFold(ClientSaved(c, false), events);
            !r.taskAlreadySet && r.client.current == Some(ClientTask(t, events))
    decreases |events|
  {
    if events != [] {
      var r := ClientSave(c, events[0]);
      ClientFoldsTask(r.client, ClientUpdate(t, events[0]), events[1..]);
    }
  }

  /** Everything but the history. */
  predicate SameOutside(a: Task, b: Task) {
    a.id == b.id && a.contextId == b.contextId && a.artifacts == b.artifacts && a.metadata == b.metadata
  }

  lemma {:induction false} FoldsStayTogether(a: Task, b: Task, events: seq<Event>)
    requires AllUpdates(events) && SameOutside(a, b)
    ensures var x, y := ServerTask(a, events), ClientTask(b, events);
            && SameOutside(x, y)
            && (a.status == b.status || (exists i :: 0 <= i < |events| && events[i].StatusEvent?) ==> x.status == y.status)
            && ((forall i :: 0 <= i < |events| ==> !events[i].StatusEvent?) ==> x.status == a.status && y.status == b.status)
    decreases |events|
  {
    if events != [] {
      var e, rest := events[0], events[1..];
      var x, y := ServerUpdate(a, e), ClientUpdate(b, e);
      assert SameOutside(x, y);
      FoldsStayTogether(x, y, rest);
      assert forall i :: 0 <= i < |rest| ==> rest[i] == events[i + 1];
      if !e.StatusEvent? && (exists i :: 0 <= i < |events| && events[i].StatusEvent?) {
        var i :| 0 <= i < |events| && events[i].StatusEvent?;
        assert rest[i - 1].StatusEvent?;
      }
    }
  }

  /** One `Task` event, then any updates for it: status, artifacts and metadata agree, and
      the client's history is the server's conversation exactly when the task arrived
      without a status message (the client never records that first message). */
  lemma FoldsAgree(m: Manager, s: Store, c: Client, t: Task, events: seq<Event>)
    requires Accepts(m, t.id, t.contextId) && c.current.None? && AllFor(events, t.id, t.contextId)
    ensures var sv := Fold(Saved(m, s, None), [TaskEvent(t)] + events);
            var cl := ClientFold(ClientSaved(c, false), [TaskEvent(t)] + events);
            && sv.error.None? && !cl.taskAlreadySet && sv.manager.current.Some? && cl.client.current.Some?
            && var x, y := sv.manager.current.value, cl.client.current.value;
            && SameOutside(x, y) && x.status == y.status
            && sv.store == s[t.id := x]
            && (History(y) == Conversation(x) <==> t.status.message.None?)
  {
    var all := [TaskEvent(t)] + events;
    assert all[1..] == events;
    ServerFoldsTask(SaveEvent(m, s, TaskEvent(t)).manager, s[t.id := t], t, t.contextId, events);
    ClientFoldsTask(ClientSave(c, TaskEvent(t)).client, t, events);
    TasksAgree(t, events);
    assert s[t.id := t][t.id := ServerTask(t, events)] == s[t.id := ServerTask(t, events)];
  }

  lemma TasksAgree(t: Task, events: seq<Event>)
    requires AllUpdates(events)
    ensures var x, y := ServerTask(t, events), ClientTask(t, events);
            && SameOutside(x, y) && x.status == y.status
            && (History(y) == Conversation(x) <==> t.status.message.None?)
  {
    FoldsStayTogether(t, t, events);
    ServerLog(t, events);
    ClientLog(t, events);
    LengthDecides(History(t), Said(t.status.message), Messages(events));
  }

  lemma LengthDecides(a: seq<Message>, b: seq<Message>, c: seq<Message>)
    ensures a + c == (a + b) + c <==> b == []
  {
    assert |a + c| == |a| + |c| && |(a + b) + c| == |a| + |b| + |c|;
    if b == [] {
      assert a + b == a;
    }
  }

  /** No `Task` event first: the server starts from the user's message, the client from
      nothing, so the histories differ by exactly that message, and the statuses agree
      once a status event has been seen. */
  lemma HeadlessFoldsAgree(m: Manager, s: Store, c: Client, id: string, contextId: string, events: seq<Event>)
    requires m.current.None? && id !in s && Accepts(m, id, contextId)
    requires c.current.None? && (Truthy(c.contextId) ==> c.contextId.value == contextId)
    requires events != [] && AllFor(events, id, contextId)
    ensures var sv := Fold(Saved(m, s, None), events);
            var cl := ClientFold(ClientSaved(c, false), events);
            && sv.error.None? && !cl.taskAlreadySet && sv.manager.current.Some? && cl.client.current.Some?
            && var x, y := sv.manager.current.value, cl.client.current.value;
            && SameOutside(x, y)
            && Conversation(x) == Said(m.initial) + History(y)
            && (x.status == y.status <==> exists i :: 0 <= i < |events| && events[i].StatusEvent?)
            && (x.status != y.status ==>
                  x.status == TaskStatus(Submitted, None, None) && y.status == TaskStatus(Unknown, None, None))
  {
    HeadlessServer(m, s, id, contextId, events);
    HeadlessClient(c, id, contextId, events);
    HeadlessTasks(id, contextId, m.initial, events);
  }

  lemma HeadlessTasks(id: string, contextId: string, initial: Option<Message>, events: seq<Event>)
    requires AllUpdates(events)
    ensures var x := ServerTask(NewTask(id, contextId, initial), events);
            var y := ClientTask(EmptyClientTask(id, contextId), events);
            && SameOutside(x, y)
            && Conversation(x) == Said(initial) + History(y)
            && (x.status == y.status <==> exists i :: 0 <= i < |events| && events[i].StatusEvent?)
            && (x.status != y.status ==>
                  x.status == TaskStatus(Submitted, None, None) && y.status == TaskStatus(Unknown, None, None))
  {
    FoldsStayTogether(NewTask(id, contextId, initial), EmptyClientTask(id, contextId), events);
    HeadlessHistories(id, contextId, initial, events);
  }

  lemma HeadlessHistories(id: string, contextId: string, initial: Option<Message>, events: seq<Event>)
    requires AllUpdates(events)
    ensures Conversation(ServerTask(NewTask(id, contextId, initial), events))
         == Said(initial) + History(ClientTask(EmptyClientTask(id, contextId), events))
  {
    var a, b := NewTask(id, contextId, initial), EmptyClientTask(id, contextId);
    ServerLog(a, events);
    ClientLog(b, events);
    assert Conversation(a) == Said(initial);
    assert History(b) + Messages(events) == Messages(events);
  }

  function EmptyClientTask(id: string, contextId: string): Task {
    Task(id, contextId, TaskStatus(Unknown, None, None), None, None, None)
  }

  lemma HeadlessServer(m: Manager, s: Store, id: string, contextId: string, events: seq<Event>)
    requires m.current.None? && id !in s && Accepts(m, id, contextId)
    requires events != [] && AllFor(events, id, contextId)
    ensures var sv := Fold(Saved(m, s, None), events);
            sv.error.None? && sv.manager.current == Some(ServerTask(NewTask(id, contextId, m.initial), events))
  {
    var a := NewTask(id, contextId, m.initial);
    SaveUpdate(m, s, a, contextId, events[0]);
    var r := SaveEvent(m, s, events[0]);
    ServerFoldsTask(r.manager, r.store, r.manager.current.value, contextId, events[1..]);
  }

  lemma HeadlessClient(c: Client, id: string, contextId: string, events: seq<Event>)
    requires c.current.None? && (Truthy(c.contextId) ==> c.contextId.value == contextId)
    requires events != [] && AllFor(events, id, contextId)
    ensures var cl := ClientFold(ClientSaved(c, false), events);
            !cl.taskAlreadySet && cl.client.current == Some(ClientTask(EmptyClientTask(id, contextId), events))
  {
    var r := ClientSave(c, events[0]);
    assert r.client.current == Some(ClientUpdate(EmptyClientTask(id, contextId), events[0]));
    ClientFoldsTask(r.client, r.client.current.value, events[1..]);
  }
}
