/** A task as a fold over its events: the server-side `TaskManager`
    (src/a2a/server/tasks/task_manager.py), which writes through to a store, and the
    client-side `ClientTaskManager` (src/a2a/client/client_task_manager.py). */
module TaskFold {
  import opened Types
  import Artifacts

  // ---- Tasks as conversations ----

  function History(t: Task): seq<Message> {
    if t.history.None? then [] else t.history.value
  }

  function Said(m: Option<Message>): seq<Message> {
    if m.None? then [] else [m.value]
  }

  /** Everything said so far: the history followed by the current status message. */
  function Conversation(t: Task): seq<Message> {
    History(t) + Said(t.status.message)
  }

  function PushHistory(t: Task, m: Message): Task {
    t.(history := Some(History(t) + [m]))
  }

  function MergeMetadata(before: Option<Metadata>, update: Option<Metadata>): Option<Metadata> {
    if update.None? || update.value == map[] then before
    else Some((if before.None? then map[] else before.value) + update.value)
  }

  /** Status and artifact events; a `Task` event replaces the task instead. */
  predicate IsUpdate(e: Event) {
    e.StatusEvent? || e.ArtifactEvent?
  }

  predicate AllUpdates(events: seq<Event>) {
    forall i :: 0 <= i < |events| ==> IsUpdate(events[i])
  }

  /** The server moves the message of the OLD status into the history. */
  function ServerUpdate(t: Task, e: Event): Task
    requires IsUpdate(e)
  {
    match e
    case StatusEvent(u) =>
      var kept := if t.status.message.Some? then PushHistory(t, t.status.message.value) else t;
      kept.(metadata := MergeMetadata(t.metadata, u.metadata), status := u.status)
    case ArtifactEvent(u) => Artifacts.ApplyToTask(t, u)
  }

  /** The client appends the message of the NEW status to the history. */
  function ClientUpdate(t: Task, e: Event): Task
    requires IsUpdate(e)
  {
    match e
    case StatusEvent(u) =>
      var kept := if u.status.message.Some? then PushHistory(t, u.status.message.value) else t;
      kept.(metadata := MergeMetadata(t.metadata, u.metadata), status := u.status)
    case ArtifactEvent(u) => Artifacts.ApplyToTask(t, u)
  }

  /** A user's message: the status message is retired first. */
  function AddMessage(m: Message, t: Task): Task {
    var kept := if t.status.message.Some?
                then PushHistory(t, t.status.message.value).(status := t.status.(message := None))
                else t;
    PushHistory(kept, m)
  }

  // ---- The manager and its store ----

  type Store = map<string, Task>

  datatype Manager = Manager(
    taskId: Option<string>, contextId: Option<string>, initial: Option<Message>, current: Option<Task>)

  datatype Mismatch = TaskMismatch | ContextMismatch

  datatype Saved = Saved(manager: Manager, store: Store, error: Option<Mismatch>)

  function NewTask(id: string, contextId: string, initial: Option<Message>): Task {
    Task(id, contextId, TaskStatus(Submitted, None, None), Some(Said(initial)), None, None)
  }

  /** The task the next update applies to: in memory, else stored, else new. */
  function Base(m: Manager, s: Store, e: Event): Task
    requires IsUpdate(e)
  {
    if m.current.Some? then m.current.value
    else if Truthy(m.taskId) && m.taskId.value in s then s[m.taskId.value]
    else NewTask(e.TaskId(), e.ContextId(), m.initial)
  }

  /** Neither in memory nor stored: the first update creates the task. */
  predicate IsNew(m: Manager, s: Store) {
    m.current.None? && !(Truthy(m.taskId) && m.taskId.value in s)
  }

  function Write(m: Manager, s: Store, t: Task): Saved {
    var m' := m.(current := Some(t));
    Saved(if Truthy(m.taskId) then m' else m'.(taskId := Some(t.id), contextId := Some(t.contextId)),
          s[t.id := t], None)
  }

  /** Compare the ids of an event with the latched ones, latching what is not set yet. The
      task id latches before the context id is compared, so a rejected event can still
      leave the task id set. */
  function Latch(m: Manager, e: Event): (Manager, Option<Mismatch>)
    requires !e.MessageEvent?
  {
    if Truthy(m.taskId) && m.taskId.value != e.TaskId() then (m, Some(TaskMismatch))
    else
      var m1 := if Truthy(m.taskId) then m else m.(taskId := Some(e.TaskId()));
      if Truthy(m1.contextId) && m1.contextId.value != e.ContextId() then (m1, Some(ContextMismatch))
      else (if Truthy(m1.contextId) then m1 else m1.(contextId := Some(e.ContextId())), None)
  }

  /** A `Task` event replaces the task, an update changes it; either is written through. */
  function Absorb(m: Manager, s: Store, e: Event): Saved
    requires !e.MessageEvent?
  {
    Write(m, s, if e.TaskEvent? then e.task else ServerUpdate(Base(m, s, e), e))
  }

  /** `save_task_event`. */
  function SaveEvent(m: Manager, s: Store, e: Event): Saved
    requires !e.MessageEvent?
  {
    var (m', error) := Latch(m, e);
    if error.Some? then Saved(m', s, error) else Absorb(m', s, e)
  }

  function Load(m: Manager, s: Store): Manager {
    if !Truthy(m.taskId) || m.current.Some? then m
    else m.(current := if m.taskId.value in s then Some(s[m.taskId.value]) else None)
  }

  /** A run of events; messages pass through, and the first mismatch ends the run. */
  function Fold(r: Saved, events: seq<Event>): Saved
    decreases |events|
  {
    if r.error.Some? || events == [] then r
    else Fold(if events[0].MessageEvent? then r else SaveEvent(r.manager, r.store, events[0]), events[1..])
  }

  class TaskStore {
    var tasks: Store

    constructor ()
      ensures tasks == map[]
    {
      tasks := map[];
    }

    method Save(task: Task)
      modifies this
      ensures tasks == old(tasks)[task.id := task]
    {
      tasks := tasks[task.id := task];
    }

    method Get(taskId: string) returns (task: Option<Task>)
      ensures task == if taskId in tasks then Some(tasks[taskId]) else None
    {
      task := if taskId in tasks then Some(tasks[taskId]) else None;
    }
  }

  class TaskManager {
    var taskId: Option<string>
    var contextId: Option<string>
    var currentTask: Option<Task>
    const initialMessage: Option<Message>
    const store: TaskStore

    function View(): Manager
      reads this
    {
      Manager(taskId, contextId, initialMessage, currentTask)
    }

    /** An explicitly empty task id is refused by the source's constructor. */
    constructor (taskId: Option<string>, contextId: Option<string>, store: TaskStore, initialMessage: Option<Message>)
      requires taskId != Some("")
      ensures View() == Manager(taskId, contextId, initialMessage, None) && this.store == store
    {
      this.taskId, this.contextId := taskId, contextId;
      this.store, this.initialMessage, this.currentTask := store, initialMessage, None;
    }

    method GetTask() returns (task: Option<Task>)
      modifies this
      ensures View() == Load(old(View()), store.tasks)
      ensures task == if Truthy(taskId) then currentTask else None
    {
      if !Truthy(taskId) {
        return None;
      }
      if currentTask.Some? {
        return currentTask;
      }
      currentTask := store.Get(taskId.value);
      return currentTask;
    }

    method SaveTask(task: Task)
      modifies this, store
      ensures Saved(View(), store.tasks, None) == Write(old(View()), old(store.tasks), task)
    {
      store.Save(task);
      currentTask := Some(task);
      if !Truthy(taskId) {
        taskId := Some(task.id);
        contextId := Some(task.contextId);
      }
    }

    method EnsureTask(event: Event) returns (task: Task)
      requires IsUpdate(event)
      requires Truthy(taskId) ==> taskId.value == event.TaskId()
      modifies this, store
      ensures task == Base(old(View()), old(store.tasks), event)
      ensures Saved(View(), store.tasks, None) ==
              if IsNew(old(View()), old(store.tasks)) then Write(old(View()), old(store.tasks), task)
              else Saved(old(View()), old(store.tasks), None)
    {
      var found := currentTask;
      if found.None? && Truthy(taskId) {
        found := store.Get(taskId.value);
      }
      if found.None? {
        task := NewTask(event.TaskId(), event.ContextId(), initialMessage);
        SaveTask(task);
      } else {
        task := found.value;
      }
    }

    static method ApplyStatus(task: Task, update: StatusUpdate) returns (updated: Task)
      ensures updated == ServerUpdate(task, StatusEvent(update))
    {
      updated := task;
      if updated.status.message.Some? {
        if updated.history.None? || updated.history.value == [] {
          updated := updated.(history := Some([updated.status.message.value]));
          assert [] + updated.history.value == updated.history.value;
        } else {
          updated := updated.(history := Some(updated.history.value + [updated.status.message.value]));
        }
      }
      if update.metadata.Some? && update.metadata.value != map[] {
        if updated.metadata.None? || updated.metadata.value == map[] {
          updated := updated.(metadata := Some(map[]));
        }
        updated := updated.(metadata := Some(updated.metadata.value + update.metadata.value));
      }
      updated := updated.(status := update.status);
    }

    method CheckIds(event: Event) returns (error: Option<Mismatch>)
      requires !event.MessageEvent?
      modifies this
      ensures (View(), error) == Latch(old(View()), event)
      ensures error.None? && Truthy(taskId) ==> taskId.value == event.TaskId()
    {
      if Truthy(taskId) && taskId.value != event.TaskId() {
        return Some(TaskMismatch);
      }
      if !Truthy(taskId) {
        taskId := Some(event.TaskId());
      }
      if Truthy(contextId) && contextId.value != event.ContextId() {
        return Some(ContextMismatch);
      }
      if !Truthy(contextId) {
        contextId := Some(event.ContextId());
      }
      return None;
    }

    method SaveTaskEvent(event: Event) returns (error: Option<Mismatch>)
      requires !event.MessageEvent?
      modifies this, store
      ensures Saved(View(), store.tasks, error) == SaveEvent(old(View()), old(store.tasks), event)
    {
      error := CheckIds(event);
      if error.None? {
        UpdateTask(event);
      }
    }

    method UpdateTask(event: Event)
      requires !event.MessageEvent? && (Truthy(taskId) ==> taskId.value == event.TaskId())
      modifies this, store
      ensures Saved(View(), store.tasks, None) == Absorb(old(View()), old(store.tasks), event)
    {
      if event.TaskEvent? {
        SaveTask(event.task);
        return;
      }
      ghost var s := store.tasks;
      var task := EnsureTask(event);
      ghost var base := task;
      if event.StatusEvent? {
        task := ApplyStatus(task, event.status);
      } else {
        task := Artifacts.AppendArtifactToTask(task, event.update);
      }
      assert task.id == base.id && s[base.id := base][task.id := task] == s[task.id := task];
      SaveTask(task);
    }

    method Process(event: Event) returns (error: Option<Mismatch>)
      modifies this, store
      ensures Saved(View(), store.tasks, error) == Fold(Saved(old(View()), old(store.tasks), None), [event])
    {
      error := None;
      if !event.MessageEvent? {
        error := SaveTaskEvent(event);
      }
    }

    method UpdateWithMessage(message: Message, task: Task) returns (updated: Task)
      modifies this
      ensures updated == AddMessage(message, task)
      ensures View() == old(View()).(current := Some(updated))
    {
      updated := task;
      if updated.status.message.Some? {
        if updated.history.Some? && updated.history.value != [] {
          updated := updated.(history := Some(updated.history.value + [updated.status.message.value]));
        } else {
          updated := updated.(history := Some([updated.status.message.value]));
          assert [] + updated.history.value == updated.history.value;
        }
        updated := updated.(status := updated.status.(message := None));
      }
      if updated.history.Some? && updated.history.value != [] {
        updated := updated.(history := Some(updated.history.value + [message]));
      } else {
        updated := updated.(history := Some([message]));
        assert [] + [message] == [message];
      }
      currentTask := Some(updated);
    }
  }

  // ---- Write-through cache, frame and latching ----

  /** Tasks are stored under their own ids. */
  predicate KeyedById(s: Store) {
    forall k :: k in s ==> s[k].id == k
  }

  predicate Coherent(m: Manager, s: Store) {
    KeyedById(s) && (m.current.Some? ==> Truthy(m.taskId) && m.current.value.id == m.taskId.value)
  }

  predicate NonEmptyIds(events: seq<Event>) {
    forall e :: e in events && !e.MessageEvent? ==> e.TaskId() != ""
  }

  /** What any run of events keeps, from manager `m` and store `s` to result `r`. */
  ghost predicate Kept(m: Manager, s: Store, r: Saved) {
    && Coherent(r.manager, r.store)
    && (Truthy(m.taskId) ==> r.manager.taskId == m.taskId)
    && (Truthy(m.contextId) ==> r.manager.contextId == m.contextId)
    && (forall k :: !(Truthy(r.manager.taskId) && k == r.manager.taskId.value) ==>
          (k in r.store <==> k in s) && (k in s ==> r.store[k] == s[k]))
  }

  predicate InSync(r: Saved) {
    && r.manager.current.Some?
    && Truthy(r.manager.taskId)
    && r.manager.taskId.value in r.store
    && r.store[r.manager.taskId.value] == r.manager.current.value
  }

  /** An event is rejected exactly when it contradicts an id that is already latched. */
  lemma LatchRejectsIff(m: Manager, e: Event)
    requires !e.MessageEvent?
    ensures var (r, error) := Latch(m, e);
            && (error == Some(TaskMismatch) <==> Truthy(m.taskId) && m.taskId.value != e.TaskId())
            && r.(taskId := m.taskId, contextId := m.contextId) == m
            && (Truthy(m.taskId) ==> r.taskId == m.taskId) && (Truthy(m.contextId) ==> r.contextId == m.contextId)
            && (error.Some? <==>
                  (Truthy(m.taskId) && m.taskId.value != e.TaskId())
                  || (Truthy(m.contextId) && m.contextId.value != e.ContextId()))
            && (error.None? ==> r.taskId == Some(e.TaskId()))
  {
  }

  lemma AbsorbKeeps(m: Manager, s: Store, e: Event)
    requires Coherent(m, s) && !e.MessageEvent? && e.TaskId() != "" && m.taskId == Some(e.TaskId())
    ensures var r := Absorb(m, s, e);
            Kept(m, s, r) && InSync(r) && r.manager.taskId == m.taskId && r.error.None?
  {
    if IsUpdate(e) {
      var b := Base(m, s, e);
      assert ServerUpdate(b, e).id == b.id == e.TaskId();
    }
  }

  lemma SaveEventKeeps(m: Manager, s: Store, e: Event)
    requires Coherent(m, s) && !e.MessageEvent? && NonEmptyIds([e])
    ensures var r := SaveEvent(m, s, e);
            && Kept(m, s, r)
            && (r.error.None? ==> InSync(r) && r.manager.taskId == Some(e.TaskId()))
            && (r.error.Some? ==> r.store == s && r.manager.current == m.current)
            && (r.error.Some? <==>
                (Truthy(m.taskId) && m.taskId.value != e.TaskId())
                || (Truthy(m.contextId) && m.contextId.value != e.ContextId()))
  {
    assert e in [e];
    LatchRejectsIff(m, e);
    var (m1, error) := Latch(m, e);
    if error.None? {
      AbsorbKeeps(m1, s, e);
    }
  }

  /** Over any run: one store key at most is written, the latched ids never change, and
      unless the run was rejected the stored task is the one in memory. A rejected event
      leaves the task reached just before it. */
  lemma {:induction false} FoldKeeps(m: Manager, s: Store, events: seq<Event>)
    requires Coherent(m, s) && NonEmptyIds(events)
    ensures var r := Fold(Saved(m, s, None), events);
            && Kept(m, s, r)
            && ((exists e :: e in events && !e.MessageEvent?) && r.error.None? ==> InSync(r))
            && (InSync(Saved(m, s, None)) ==> InSync(r))
    decreases |events|
  {
    if events != [] {
      var e, rest := events[0], events[1..];
      assert forall x :: x in events <==> x == e || x in rest;
      if e.MessageEvent? {
        FoldKeeps(m, s, rest);
      } else {
        assert NonEmptyIds([e]);
        SaveEventKeeps(m, s, e);
        var r := SaveEvent(m, s, e);
        if r.error.None? {
          FoldKeeps(r.manager, r.store, rest);
        }
      }
    }
  }

  /** Folding is compositional: a run may be cut anywhere. */
  lemma {:induction false} FoldConcat(r: Saved, a: seq<Event>, b: seq<Event>)
    ensures Fold(r, a + b) == Fold(Fold(r, a), b)
    decreases |a|
  {
    if a == [] {
      assert a + b == b;
    } else {
      assert (a + b)[1..] == a[1..] + b;
      var next := if a[0].MessageEvent? then r else SaveEvent(r.manager, r.store, a[0]);
      FoldConcat(next, a[1..], b);
    }
  }

  // ---- The conversation is an append-only log ----

  predicate AllFor(events: seq<Event>, id: string, contextId: string) {
    forall i :: 0 <= i < |events| ==>
      IsUpdate(events[i]) && events[i].TaskId() == id && events[i].ContextId() == contextId
  }

  function Spoken(e: Event): seq<Message> {
    if e.StatusEvent? then Said(e.status.status.message) else []
  }

  function Messages(events: seq<Event>): seq<Message> {
    if events == [] then []
    else Spoken(events[0]) + Messages(events[1..])
  }

  function ServerTask(t: Task, events: seq<Event>): Task
    requires AllUpdates(events)
    decreases |events|
  {
    if events == [] then t else ServerTask(ServerUpdate(t, events[0]), events[1..])
  }

  function ClientTask(t: Task, events: seq<Event>): Task
    requires AllUpdates(events)
    decreases |events|
  {
    if events == [] then t else ClientTask(ClientUpdate(t, events[0]), events[1..])
  }

  lemma Assoc<T>(a: seq<T>, b: seq<T>, c: seq<T>)
    ensures (a + b) + c == a + (b + c)
  {
  }

  lemma UpdateLog(t: Task, e: Event)
    requires IsUpdate(e)
    ensures Conversation(ServerUpdate(t, e)) == Conversation(t) + Spoken(e)
    ensures History(ClientUpdate(t, e)) == History(t) + Spoken(e)
  {
  }

  /** No message is lost, duplicated or reordered by any run of updates. */
  lemma {:induction false} ServerLog(t: Task, events: seq<Event>)
    requires AllUpdates(events)
    ensures Conversation(ServerTask(t, events)) == Conversation(t) + Messages(events)
    decreases |events|
  {
    if events != [] {
      var e, rest := events[0], events[1..];
      var next := ServerUpdate(t, e);
      UpdateLog(t, e);
      ServerLog(next, rest);
      Assoc(Conversation(t), Spoken(e), Messages(rest));
    }
  }

  lemma {:induction false} ClientLog(t: Task, events: seq<Event>)
    requires AllUpdates(events)
    ensures History(ClientTask(t, events)) == History(t) + Messages(events)
    decreases |events|
  {
    if events != [] {
      var e, rest := events[0], events[1..];
      var next := ClientUpdate(t, e);
      UpdateLog(t, e);
      ClientLog(next, rest);
      Assoc(History(t), Spoken(e), Messages(rest));
    }
  }

  /** The user's message goes to the history, after the status message, which is retired; the
      rest of the status, and all else, stays. */
  lemma UserMessageLog(m: Message, t: Task)
    ensures Conversation(AddMessage(m, t)) == Conversation(t) + [m]
    ensures var u := AddMessage(m, t);
            && History(u) == Conversation(t) + [m]
            && u.status == TaskStatus(t.status.state, None, t.status.timestamp)
            && u == t.(history := u.history, status := u.status)
  {
    assert History(t) + Said(t.status.message) + [m] + [] == History(t) + Said(t.status.message) + [m];
  }

  /** Artifact updates touch nothing but the artifacts. */
  lemma {:induction false} ArtifactsOnly(t: Task, events: seq<Event>)
    requires forall i :: 0 <= i < |events| ==> events[i].ArtifactEvent?
    ensures AllUpdates(events)
    ensures var u := ServerTask(t, events); u == t.(artifacts := u.artifacts)
    ensures var u := ClientTask(t, events); u == t.(artifacts := u.artifacts)
    decreases |events|
  {
    if events != [] {
      ArtifactsOnly(ServerUpdate(t, events[0]), events[1..]);
      ArtifactsOnly(ClientUpdate(t, events[0]), events[1..]);
    }
  }

  // ---- The manager folds the task ----

  /** A manager that accepts events of this task and context. */
  predicate Accepts(m: Manager, id: string, contextId: string) {
    (Truthy(m.taskId) ==> m.taskId.value == id) && (Truthy(m.contextId) ==> m.contextId.value == contextId)
  }

  /** The task `t` is the one that the next event for it will update. The agent may run
      under a context id other than the stored task's: a request that names the task but
      no context gets a generated one. */
  predicate StartsFrom(m: Manager, s: Store, t: Task, contextId: string) {
    && Accepts(m, t.id, contextId)
    && (contextId == t.contextId || t.id != "")
    && ( m.current == Some(t)
      || (m.current.None? && t.id !in s && t == NewTask(t.id, contextId, m.initial))
      || (m.current.None? && t.id in s && s[t.id] == t && t.id != ""))
  }

  lemma SaveUpdate(m: Manager, s: Store, t: Task, contextId: string, e: Event)
    requires IsUpdate(e) && e.TaskId() == t.id && e.ContextId() == contextId
    requires StartsFrom(m, s, t, contextId)
    ensures var r := SaveEvent(m, s, e);
            var next := ServerUpdate(t, e);
            && r.error.None? && r.manager.current == Some(next) && r.store == s[t.id := next]
            && StartsFrom(r.manager, r.store, next, contextId)
            && next.id == t.id && next.contextId == t.contextId && r.manager.taskId == Some(t.id)
  {
    var m1 := if Truthy(m.taskId) then m else m.(taskId := Some(e.TaskId()));
    var m2 := if Truthy(m1.contextId) then m1 else m1.(contextId := Some(e.ContextId()));
    assert Base(m2, s, e) == t;
  }

  /** When every event is for its task, the manager never rejects and stores the fold. */
  lemma {:induction false} ServerFoldsTask(m: Manager, s: Store, t: Task, contextId: string, events: seq<Event>)
    requires StartsFrom(m, s, t, contextId) && AllFor(events, t.id, contextId)
    ensures var r := Fold(Saved(m, s, None), events);
            && r.error.None? && (events != [] ==> r.manager.taskId == Some(t.id))
            && (events != [] || m.current == Some(t) ==> r.manager.current == Some(ServerTask(t, events)))
            && r.store == if events == [] then s else s[t.id := ServerTask(t, events)]
    decreases |events|
  {
    if events != [] {
      var e, rest := events[0], events[1..];
      SaveUpdate(m, s, t, contextId, e);
      var r := SaveEvent(m, s, e);
      var next := r.manager.current.value;
      ServerFoldsTask(r.manager, r.store, next, contextId, rest);
      assert s[t.id := next][t.id := ServerTask(next, rest)] == s[t.id := ServerTask(next, rest)];
    }
  }

  /** A task that its first event creates is in the submitted state and holds the message that
      started it, and nothing else. */
  lemma FirstEventCreatesTask(m: Manager, s: Store, id: string, contextId: string, e: Event)
    requires m.current.None? && id !in s && Accepts(m, id, contextId)
    requires e.ArtifactEvent? && e.TaskId() == id && e.ContextId() == contextId
    ensures var r := SaveEvent(m, s, e);
            r.error.None? && id in r.store
            && var t := r.store[id];
            t == Task(id, contextId, TaskStatus(Submitted, None, None), Some(if m.initial.Some? then [m.initial.value] else []),
                      t.artifacts, None)
  {
    SaveUpdate(m, s, NewTask(id, contextId, m.initial), contextId, e);
  }
}
