/** One request on a task: the agent's `TaskUpdater` (src/a2a/server/tasks/task_updater.py),
    the guards of `DefaultRequestHandler`
    (src/a2a/server/request_handlers/default_request_handler.py), and what an accepted request
    does to the store. */
module Requests {
  import opened Types
  import opened TaskFold
  import opened Streams
  import opened Aggregator
  import EventQueues

  // ---- What an agent can publish through a TaskUpdater ----

  /** One call on an updater. `now` and `newArtifactId` are what the clock and the id
      generator return if they are asked. */
  datatype Call =
    | UpdateStatus(state: TaskState, message: Option<Message>, final: bool, timestamp: Option<string>,
                   metadata: Option<Metadata>, now: string)
    | AddArtifact(artifactId: Option<string>, name: Option<string>, parts: seq<string>, append: Option<bool>,
                  newArtifactId: string)

  datatype Updater = Updater(taskId: string, contextId: string, terminalReached: bool)

  /** The event a call publishes, if any: after a terminal status, further status
      updates raise and publish nothing, but artifacts are still accepted. */
  function Published(u: Updater, c: Call): seq<Event> {
    match c
    case UpdateStatus(state, message, final, timestamp, metadata, now) =>
      if u.terminalReached then []
      else
        var time := if Truthy(timestamp) then timestamp else Some(now);
        [StatusEvent(StatusUpdate(u.taskId, u.contextId, TaskStatus(state, message, time),
                                  final || IsTerminal(state), metadata))]
    case AddArtifact(artifactId, name, parts, append, newArtifactId) =>
      var id := if Truthy(artifactId) then artifactId.value else newArtifactId;
      [ArtifactEvent(ArtifactUpdate(u.taskId, u.contextId, Artifact(id, name, parts), append))]
  }

  function AfterCall(u: Updater, c: Call): Updater {
    u.(terminalReached := u.terminalReached || (c.UpdateStatus? && IsTerminal(c.state)))
  }

  function Emitted(u: Updater, calls: seq<Call>): (es: seq<Event>)
    ensures AllUpdates(es)
    decreases |calls|
  {
    if calls == [] then [] else Published(u, calls[0]) + Emitted(AfterCall(u, calls[0]), calls[1..])
  }

  class TaskUpdater {
    const taskId: string
    const contextId: string
    var terminalStateReached: bool
    var queue: seq<Event>

    function View(): Updater
      reads this
    {
      Updater(taskId, contextId, terminalStateReached)
    }

    constructor (taskId: string, contextId: string)
      ensures View() == Updater(taskId, contextId, false) && queue == []
    {
      this.taskId, this.contextId := taskId, contextId;
      this.terminalStateReached, this.queue := false, [];
    }

    /** `update_status` and `add_artifact`; `raised` is the source's RuntimeError. */
    method Perform(c: Call) returns (raised: bool)
      modifies this
      ensures View() == AfterCall(old(View()), c) && queue == old(queue) + Published(old(View()), c)
      ensures raised <==> c.UpdateStatus? && old(terminalStateReached)
    {
      match c
      case UpdateStatus(state, message, isFinal, timestamp, metadata, now) =>
        if terminalStateReached {
          return true;
        }
        var final := isFinal;
        if IsTerminal(state) {
          terminalStateReached := true;
          final := true;
        }
        var current := if Truthy(timestamp) then timestamp else Some(now);
        queue := queue + [StatusEvent(StatusUpdate(taskId, contextId, TaskStatus(state, message, current), final, metadata))];
        return false;
      case AddArtifact(artifactId, name, parts, append, newArtifactId) =>
        var id := if Truthy(artifactId) then artifactId.value else newArtifactId;
        queue := queue + [ArtifactEvent(ArtifactUpdate(taskId, contextId, Artifact(id, name, parts), append))];
        return false;
    }

    method PerformAll(calls: seq<Call>)
      modifies this
      ensures queue == old(queue) + Emitted(old(View()), calls)
      decreases |calls|
    {
      if calls != [] {
        var raised := Perform(calls[0]);
        PerformAll(calls[1..]);
      }
    }
  }

  /** What each call publishes, field by field. A status update that is not too late publishes
      one event, for the updater's own task, that carries the state, message and metadata it
      was given, its time or else the present, and is final if asked to or if it ends the
      task; an artifact always goes out, under its id or else a new one. */
  lemma PublishedFields(u: Updater, c: Call)
    ensures c.UpdateStatus? && u.terminalReached ==> Published(u, c) == []
    ensures c.UpdateStatus? && !u.terminalReached ==>
              && |Published(u, c)| == 1 && Published(u, c)[0].StatusEvent?
              && var e := Published(u, c)[0].status;
              && e.taskId == u.taskId && e.contextId == u.contextId && e.metadata == c.metadata
              && e.status.state == c.state && e.status.message == c.message
              && e.status.timestamp == (if c.timestamp.Some? && c.timestamp.value != "" then c.timestamp else Some(c.now))
              && (e.final <==> c.final || c.state in {Completed, Canceled, Failed, Rejected})
    ensures c.AddArtifact? ==>
              && |Published(u, c)| == 1 && Published(u, c)[0].ArtifactEvent?
              && var e := Published(u, c)[0].update;
              && e.taskId == u.taskId && e.contextId == u.contextId && e.append == c.append
              && e.artifact.parts == c.parts && e.artifact.name == c.name
              && e.artifact.artifactId ==
                 if c.artifactId.Some? && c.artifactId.value != "" then c.artifactId.value else c.newArtifactId
    ensures AfterCall(u, c).terminalReached <==>
              u.terminalReached || (c.UpdateStatus? && c.state in {Completed, Canceled, Failed, Rejected})
  {
  }

  predicate EndsTask(e: Event) {
    e.StatusEvent? && IsTerminal(e.status.status.state)
  }

  /** A terminal status published through an updater is flagged final and is the last
      status event of the run. */
  lemma {:induction false} TerminalStatusIsLast(u: Updater, calls: seq<Call>)
    ensures var es := Emitted(u, calls);
            && AllFor(es, u.taskId, u.contextId)
            && (u.terminalReached ==> forall i :: 0 <= i < |es| ==> !es[i].StatusEvent?)
            && (forall i :: 0 <= i < |es| && EndsTask(es[i]) ==>
                  es[i].status.final && forall j :: i < j < |es| ==> !es[j].StatusEvent?)
    decreases |calls|
  {
    if calls != [] {
      TerminalStatusIsLast(AfterCall(u, calls[0]), calls[1..]);
    }
  }

  predicate EndsOnlyLast(events: seq<Event>) {
    forall i :: 0 <= i < |events| - 1 ==> !EndsTask(events[i])
  }

  /** So in the part of it that is consumed, a terminal status can only be the last event. */
  lemma ConsumedRun(u: Updater, calls: seq<Call>)
    ensures var p := ThroughFinal(Emitted(u, calls));
            AllFor(p, u.taskId, u.contextId) && EndsOnlyLast(p)
  {
    TerminalStatusIsLast(u, calls);
    var es := Emitted(u, calls);
    var p := ThroughFinal(es);
    assert forall i :: 0 <= i < |p| ==> p[i] == es[i];
  }

  // ---- Requests ----

  datatype SendParams = SendParams(taskId: Option<string>, contextId: Option<string>, message: Message)

  /** Fresh ids come from the id generators; `agent` is what the agent does. */
  datatype Request =
    | Send(params: SendParams, newTaskId: string, newContextId: string, agent: seq<Call>)
    | Cancel(taskId: string, agent: seq<Call>)
    | Resubscribe(taskId: string)

  datatype Refusal = BadTaskId | TaskIsTerminal | TaskNotFound | BadContextId | NoAnswer | NotCanceled | AgentRaised

  datatype Plan =
    | Refused(why: Refusal)
    | Execute(manager: Manager, base: Task, contextId: string, user: Option<Message>)

  /** `_setup_message_execution` with the request context it builds. */
  function PlanSend(s: Store, p: SendParams, newTaskId: string, newContextId: string): Plan {
    var contextId := if Truthy(p.contextId) then p.contextId.value else newContextId;
    var m := Load(Manager(p.taskId, p.contextId, Some(p.message), None), s);
    if p.taskId == Some("") then Refused(BadTaskId)
    else if m.current.Some? then
      var t := m.current.value;
      if IsTerminal(t.status.state) then Refused(TaskIsTerminal)
      else if Truthy(p.contextId) && t.contextId != contextId then Refused(BadContextId)
      else
        var t' := AddMessage(p.message, t);
        Execute(m.(current := Some(t')), t', contextId, Some(p.message))
    else if p.taskId.Some? then Refused(TaskNotFound)
    else Execute(m, NewTask(newTaskId, contextId, Some(p.message)), contextId, Some(p.message))
  }

  /** The guards of `on_cancel_task`. */
  function PlanCancel(s: Store, taskId: string): Plan {
    if taskId !in s then Refused(TaskNotFound)
    else
      var t := s[taskId];
      if IsTerminal(t.status.state) then Refused(TaskIsTerminal)
      else if t.id == "" then Refused(BadTaskId)
      else Execute(Manager(Some(t.id), Some(t.contextId), None, None), t, t.contextId, None)
  }

  /** When no execution is running, a resubscription finds no queue and is refused too. */
  function PlanOf(s: Store, q: Request): Plan {
    match q
    case Send(p, newTaskId, newContextId, _) => PlanSend(s, p, newTaskId, newContextId)
    case Cancel(taskId, _) => PlanCancel(s, taskId)
    case Resubscribe(taskId) =>
      if taskId in s && IsTerminal(s[taskId].status.state) then Refused(TaskIsTerminal) else Refused(TaskNotFound)
  }

  /** Everything the agent publishes for an accepted request. */
  function Output(p: Plan, q: Request): (es: seq<Event>)
    requires p.Execute? && !q.Resubscribe?
    ensures AllUpdates(es)
  {
    Emitted(Updater(p.base.id, p.contextId, false), q.agent)
  }

  /** A cancellation publishes to a queue that nobody reads yet, so an agent with more to say
      than the queue holds waits for ever. */
  predicate Stuck(p: Plan, q: Request)
    requires p.Execute? && !q.Resubscribe?
  {
    q.Cancel? && |Output(p, q)| > EventQueues.DEFAULT_MAX_QUEUE_SIZE
  }

  /** The events that reach the task manager. */
  function Consumed(p: Plan, q: Request): (es: seq<Event>)
    requires p.Execute? && !q.Resubscribe?
    ensures AllUpdates(es)
  {
    if Stuck(p, q) then [] else ThroughFinal(Output(p, q))
  }

  /** What the caller is told once the events `seen` have been processed. Nothing to tell
      becomes an internal error (`NoAnswer`). */
  function Answer(p: Plan, seen: seq<Event>): Result
    requires p.Execute? && AllUpdates(seen)
  {
    if seen == [] && p.manager.taskId.None? then NoResult else TaskResult(ServerTask(p.base, seen))
  }

  /** The part of a stream of updates that a synchronous call waits for. */
  function Awaited(events: seq<Event>, blocking: bool): (es: seq<Event>)
    requires AllUpdates(events)
    ensures AllUpdates(es) && es <= events
  {
    events[..Stop(events, blocking)]
  }

  /** The store after each processed event, starting with the store before the first. */
  function Trail(r: Saved, events: seq<Event>): (trail: seq<Store>)
    ensures |trail| == |events| + 1 && trail[0] == r.store
    decreases |events|
  {
    if events == [] then [r.store] else [r.store] + Trail(Fold(r, [events[0]]), events[1..])
  }

  /** The stores an accepted request goes through; a refused one changes nothing. */
  function Serve(s: Store, q: Request): (trail: seq<Store>)
    ensures trail != [] && trail[0] == s
    ensures PlanOf(s, q).Execute? ==> |trail| == |Consumed(PlanOf(s, q), q)| + 1
  {
    var p := PlanOf(s, q);
    if p.Refused? then [s] else Trail(Saved(p.manager, s, None), Consumed(p, q))
  }

  function Last(trail: seq<Store>): Store
    requires trail != []
  {
    trail[|trail| - 1]
  }

  /** The id generator never returns the empty id or the id of a stored task. */
  predicate FreshId(s: Store, q: Request) {
    q.Send? && q.params.taskId.None? ==> q.newTaskId != "" && q.newTaskId !in s
  }

  lemma {:induction false} TrailEnd(r: Saved, events: seq<Event>)
    ensures Last(Trail(r, events)) == Fold(r, events).store
    decreases |events|
  {
    if events != [] {
      FoldConcat(r, [events[0]], events[1..]);
      assert [events[0]] + events[1..] == events;
      TrailEnd(Fold(r, [events[0]]), events[1..]);
    }
  }

  lemma {:induction false} TrailAt(r: Saved, events: seq<Event>, k: nat)
    requires k <= |events|
    ensures Trail(r, events)[k] == Fold(r, events[..k]).store
    decreases |events|
  {
    if events == [] {
      assert events[..k] == [];
    } else {
      var j := if k > 0 then k - 1 else 0;
      TrailAt(Fold(r, [events[0]]), events[1..], j);
      if k > 0 {
        assert events[..k] == [events[0]] + events[1..][..j];
        FoldConcat(r, [events[0]], events[1..][..j]);
      } else {
        assert events[..k] == [];
      }
    }
  }

  /** An accepted request starts from a task that has not ended, and from that very task. */
  lemma PlanIsSound(s: Store, q: Request)
    requires KeyedById(s) && FreshId(s, q) && PlanOf(s, q).Execute?
    ensures var p := PlanOf(s, q);
            && StartsFrom(p.manager, s, p.base, p.contextId) && p.base.id != ""
            && !IsTerminal(p.base.status.state)
            && (p.base.id in s ==> !IsTerminal(s[p.base.id].status.state))
            && Conversation(p.base) == (if p.base.id in s then Conversation(s[p.base.id]) else []) + Said(p.user)
            && AllFor(Consumed(p, q), p.base.id, p.contextId) && EndsOnlyLast(Consumed(p, q))
  {
    var p := PlanOf(s, q);
    ConsumedRun(Updater(p.base.id, p.contextId, false), q.agent);
    if q.Send? && q.params.taskId.Some? {
      var t := s[q.params.taskId.value];
      UserMessageLog(q.params.message, t);
    } else {
      assert Conversation(p.base) + [] == Conversation(p.base);
    }
  }

  lemma PrefixAnswer(s: Store, q: Request, k: nat)
    requires KeyedById(s) && FreshId(s, q) && PlanOf(s, q).Execute? && k <= |Consumed(PlanOf(s, q), q)|
    ensures var p := PlanOf(s, q);
            var r := Fold(Saved(p.manager, s, None), Consumed(p, q)[..k]);
            && r.error.None? && (k > 0 ==> r.manager.current.Some?)
            && AsResult(Load(r.manager, r.store)) == Answer(p, Consumed(p, q)[..k])
  {
    var p := PlanOf(s, q);
    PlanIsSound(s, q);
    ServerFoldsTask(p.manager, s, p.base, p.contextId, Consumed(p, q)[..k]);
  }

  /** The answer to a synchronous call is the task folded over exactly the events it waited
      for, and it returns early exactly when one of them interrupts it. The agent may have
      raised after `k` events. */
  lemma SendAnswer(s: Store, q: Request, k: nat, blocking: bool)
    requires KeyedById(s) && FreshId(s, q) && PlanOf(s, q).Execute? && k <= |Consumed(PlanOf(s, q), q)|
    ensures var p := PlanOf(s, q);
            var es := Consumed(p, q)[..k];
            var r := Fold(Saved(p.manager, s, None), Awaited(es, blocking));
            && (Breaks(r, es, blocking) <==> FirstInterrupt(es, blocking) < |es|)
            && (if Breaks(r, es, blocking) then AsResult(r.manager) else Conclusion(r, es))
                 == Answer(p, Awaited(es, blocking))
  {
    var p := PlanOf(s, q);
    var es := Consumed(p, q)[..k];
    var n := Stop(es, blocking);
    assert FirstMessage(es) == |es|;
    assert es[..n] == Consumed(p, q)[..n];
    PrefixAnswer(s, q, n);
  }

  /** When a request is refused, from the store and its own parameters alone. A send that
      names no task never is; a resubscription always is, as nothing is running. */
  lemma RefusedIff(s: Store, q: Request)
    ensures PlanOf(s, q).Refused? <==>
            match q
            case Send(p, _, _, _) =>
              p.taskId.Some? &&
              (var id := p.taskId.value;
               id == "" || id !in s || IsTerminal(s[id].status.state)
               || (Truthy(p.contextId) && s[id].contextId != p.contextId.value))
            case Cancel(id, _) => id !in s || IsTerminal(s[id].status.state) || s[id].id == ""
            case Resubscribe(_) => true
  {
  }

  /** A task that has ended takes no further request of any kind. */
  lemma EndedTaskRefusesRequests(s: Store, q: Request, id: string)
    requires id != "" && id in s && IsTerminal(s[id].status.state)
    requires match q
             case Send(p, _, _, _) => p.taskId == Some(id)
             case Cancel(taskId, _) => taskId == id
             case Resubscribe(taskId) => taskId == id
    ensures PlanOf(s, q) == Refused(TaskIsTerminal) && Serve(s, q) == [s]
  {
  }

  /** Which refusal it is, in the order in which the guards come. */
  lemma RefusalReasons(s: Store, q: Request)
    ensures q.Send? && q.params.taskId.Some? ==>
              var id := q.params.taskId.value;
              && (id == "" ==> PlanOf(s, q) == Refused(BadTaskId))
              && (id != "" && id !in s ==> PlanOf(s, q) == Refused(TaskNotFound))
              && (id != "" && id in s && !IsTerminal(s[id].status.state) ==>
                    Truthy(q.params.contextId) && q.params.contextId.value != s[id].contextId ==>
                      PlanOf(s, q) == Refused(BadContextId))
    ensures q.Cancel? && q.taskId !in s ==> PlanOf(s, q) == Refused(TaskNotFound)
    ensures q.Resubscribe? && (q.taskId in s ==> !IsTerminal(s[q.taskId].status.state)) ==>
              PlanOf(s, q) == Refused(TaskNotFound)
  {
  }

  /** What an accepted request runs on: the named task with the user's message added, or a new
      one that holds it, under the generated id and the context named or else generated. */
  lemma AcceptedRunsOn(s: Store, q: Request)
    requires KeyedById(s) && PlanOf(s, q).Execute?
    ensures var p := PlanOf(s, q);
            match q
            case Send(params, newTaskId, newContextId, _) =>
              var context := if Truthy(params.contextId) then params.contextId.value else newContextId;
              && p.contextId == context && p.user == Some(params.message)
              && p.base == (if params.taskId.Some? then AddMessage(params.message, s[params.taskId.value])
                            else Task(newTaskId, context, TaskStatus(Submitted, None, None), Some([params.message]), None, None))
              && p.manager.current == (if params.taskId.Some? then Some(p.base) else None)
            case Cancel(taskId, _) => p.base == s[taskId] && p.contextId == s[taskId].contextId && p.user == None
            case _ => false
  {
  }

  /** The context an accepted send for a known task runs under is that task's own exactly
      when the message names a context, or the generated one happens to be equal. */
  lemma RunsUnderOwnContextIff(s: Store, q: Request)
    requires q.Send? && q.params.taskId.Some? && PlanOf(s, q).Execute?
    ensures var p := PlanOf(s, q);
            p.contextId == p.base.contextId <==> Truthy(q.params.contextId) || q.newContextId == p.base.contextId
  {
  }

  /** The input at which it is not: a message that names its task and no context. */
  lemma UnnamedContextIsReplaced(message: Message, newContextId: string)
    requires newContextId != "c"
    ensures var s := map["t" := NewTask("t", "c", None)];
            var q := Send(SendParams(Some("t"), None, message), "", newContextId, []);
            PlanOf(s, q).Execute? && PlanOf(s, q).base.contextId == "c" && PlanOf(s, q).contextId == newContextId
  {
  }
}
