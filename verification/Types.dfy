/** The values that flow through the SDK: messages, artifacts, tasks and the
    four kinds of event an agent may publish (src/a2a/types.py). */
module Types {

  datatype Option<+T> = None | Some(value: T)

  datatype TaskState =
    | Submitted | Working | InputRequired | Completed | Canceled
    | Failed | Rejected | AuthRequired | Unknown

  /** The states a task never leaves (section 6.3 of the A2A protocol specification 0.3.0). */
  predicate IsTerminal(s: TaskState) {
    s in {Completed, Canceled, Failed, Rejected}
  }

  datatype Message = Message(messageId: string, parts: seq<string>)

  datatype Artifact = Artifact(artifactId: string, name: Option<string>, parts: seq<string>)

  datatype TaskStatus = TaskStatus(state: TaskState, message: Option<Message>, timestamp: Option<string>)

  type Metadata = map<string, string>

  datatype Task = Task(
    id: string,
    contextId: string,
    status: TaskStatus,
    history: Option<seq<Message>>,
    artifacts: Option<seq<Artifact>>,
    metadata: Option<Metadata>)

  datatype StatusUpdate = StatusUpdate(
    taskId: string, contextId: string, status: TaskStatus, final: bool, metadata: Option<Metadata>)

  /** `append` is optional on the wire; an absent flag means false. */
  datatype ArtifactUpdate = ArtifactUpdate(
    taskId: string, contextId: string, artifact: Artifact, append: Option<bool>)

  datatype Event =
    | TaskEvent(task: Task)
    | StatusEvent(status: StatusUpdate)
    | ArtifactEvent(update: ArtifactUpdate)
    | MessageEvent(message: Message)
  {
    function TaskId(): string
      requires !MessageEvent?
    {
      match this
      case TaskEvent(t) => t.id
      case StatusEvent(u) => u.taskId
      case ArtifactEvent(u) => u.taskId
    }

    function ContextId(): string
      requires !MessageEvent?
    {
      match this
      case TaskEvent(t) => t.contextId
      case StatusEvent(u) => u.contextId
      case ArtifactEvent(u) => u.contextId
    }
  }

  /** Python's truth test on an optional string: present and not empty. */
  predicate Truthy(s: Option<string>) {
    s.Some? && s.value != ""
  }

  function Least(a: nat, b: nat): nat {
    if a <= b then a else b
  }
}
