/** What the folded task means, stated without the fold: every part of it is read off the
    stream of updates directly. */
module TaskMeaning {
  import opened Types
  import opened TaskFold
  import A = Artifacts

  /** The last status reported, or the one the task started with. */
  function LastStatus(start: TaskStatus, events: seq<Event>): TaskStatus {
    if events == [] then start
    else
      var e := events[|events| - 1];
      if e.StatusEvent? then e.status.status else LastStatus(start, events[..|events| - 1])
  }

  function MetadataOf(t: Task): Metadata {
    if t.metadata.None? then map[] else t.metadata.value
  }

  predicate Mentions(e: Event, key: string) {
    e.StatusEvent? && e.status.metadata.Some? && key in e.status.metadata.value
  }

  /** The value that the last status update mentioning the key gave it. */
  function LastValue(start: Metadata, events: seq<Event>, key: string): Option<string> {
    if events == [] then if key in start then Some(start[key]) else None
    else
      var e := events[|events| - 1];
      if Mentions(e, key) then Some(e.status.metadata.value[key]) else LastValue(start, events[..|events| - 1], key)
  }

  function Entry(m: Metadata, key: string): Option<string> {
    if key in m then Some(m[key]) else None
  }

  function ArtifactUpdates(events: seq<Event>): seq<ArtifactUpdate> {
    if events == [] then []
    else (if events[0].ArtifactEvent? then [events[0].update] else []) + ArtifactUpdates(events[1..])
  }

  lemma {:induction false} ServerTaskSnoc(t: Task, events: seq<Event>, e: Event)
    requires AllUpdates(events) && IsUpdate(e)
    ensures AllUpdates(events + [e])
    ensures ServerTask(t, events + [e]) == ServerUpdate(ServerTask(t, events), e)
    decreases |events|
  {
    if events == [] {
      assert [e][1..] == [];
    } else {
      assert (events + [e])[1..] == events[1..] + [e];
      ServerTaskSnoc(ServerUpdate(t, events[0]), events[1..], e);
    }
  }

  lemma StatusAndMetadataAfter(t: Task, e: Event, key: string)
    requires IsUpdate(e)
    ensures var u := ServerUpdate(t, e);
            && u.status == (if e.StatusEvent? then e.status.status else t.status)
            && Entry(MetadataOf(u), key)
                 == (if Mentions(e, key) then Some(e.status.metadata.value[key]) else Entry(MetadataOf(t), key))
  {
  }

  lemma {:induction false} StatusAndMetadata(t: Task, events: seq<Event>, key: string)
    requires AllUpdates(events)
    ensures ServerTask(t, events).status == LastStatus(t.status, events)
    ensures Entry(MetadataOf(ServerTask(t, events)), key) == LastValue(MetadataOf(t), events, key)
    decreases |events|
  {
    if events != [] {
      var front, e := events[..|events| - 1], events[|events| - 1];
      assert events == front + [e];
      ServerTaskSnoc(t, front, e);
      StatusAndMetadata(t, front, key);
      StatusAndMetadataAfter(ServerTask(t, front), e, key);
    }
  }

  lemma {:induction false} ArtifactsOfTask(t: Task, events: seq<Event>)
    requires AllUpdates(events)
    ensures A.Current(ServerTask(t, events)) == A.ApplyAll(A.Current(t), ArtifactUpdates(events))
    decreases |events|
  {
    if events != [] {
      var e := events[0];
      ArtifactsOfTask(ServerUpdate(t, e), events[1..]);
      assert [] + ArtifactUpdates(events[1..]) == ArtifactUpdates(events[1..]);
      if e.ArtifactEvent? {
        assert ([e.update] + ArtifactUpdates(events[1..]))[1..] == ArtifactUpdates(events[1..]);
      }
    }
  }

  /** There is an artifact list once an artifact update has come, and not before. */
  lemma {:induction false} ArtifactsAppear(t: Task, events: seq<Event>)
    requires AllUpdates(events)
    ensures ServerTask(t, events).artifacts.Some? <==> t.artifacts.Some? || ArtifactUpdates(events) != []
    decreases |events|
  {
    if events != [] {
      ArtifactsAppear(ServerUpdate(t, events[0]), events[1..]);
    }
  }

  /** The stored task after any run of updates: its status is the last one reported, each
      metadata entry the last one given, each artifact its last replacement followed by what
      was appended since, and its conversation everything said, in order. */
  lemma ServerTaskMeans(t: Task, events: seq<Event>, key: string, artifactId: string)
    requires AllUpdates(events)
    ensures var u := ServerTask(t, events);
            && u.status == LastStatus(t.status, events)
            && Entry(MetadataOf(u), key) == LastValue(MetadataOf(t), events, key)
            && A.Lookup(A.Current(u), artifactId) == A.Meaning(A.Current(t), ArtifactUpdates(events), artifactId)
            && Conversation(u) == Conversation(t) + Messages(events)
  {
    StatusAndMetadata(t, events, key);
    ArtifactsOfTask(t, events);
    A.StreamMeaning(A.Current(t), ArtifactUpdates(events), artifactId);
    ServerLog(t, events);
  }
}
