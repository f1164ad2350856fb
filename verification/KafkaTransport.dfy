/** The client side of the reply topic: dispatch and parsing in
    src/a2a/client/transports/kafka.py. */
module KafkaTransport {
  import opened Types
  import opened Correlation
  import opened CorrelationManagers
  import opened CorrelationRuns
  import opened KafkaHandlers

  /** `_parse_response`; nothing when validation raises. Every event carries its own
      discriminator, so a dump validates only as what it is. */
  function ParseResponse(kind: string, data: Payload): Option<Event> {
    if !data.EventJson? then None
    else
      var e := data.event;
      var fits := if kind == "task" then e.TaskEvent?
                  else if kind == "task_status_update" then e.StatusEvent?
                  else if kind == "task_artifact_update" then e.ArtifactEvent?
                  else e.MessageEvent?;
      if fits then Some(e) else None
  }

  /** What a record makes the dispatcher do: nothing when it has no correlation id or when
      processing it raises (the exception is logged and the record is skipped). */
  function ActionOf(r: Record): Option<Action> {
    var c := Header(r.headers, CORRELATION_ID);
    if !Truthy(c) || r.value.NotAnObject? then None
    else
      var kind := if r.value.kind.None? then "message" else r.value.kind.value;
      if kind == "stream_complete" then Some(StreamEnd(c.value))
      else if kind == "error" then
        match r.value.data
        case NotADict => None
        case Fields(error) => Some(Err(c.value, if error.None? then "Unknown error" else error.value))
        case _ => Some(Err(c.value, "Unknown error"))
      else
        var e := ParseResponse(kind, r.value.data);
        if e.None? then None else Some(Item(c.value, e.value))
  }

  class KafkaClientTransport {
    const manager: CorrelationManager

    constructor (manager: CorrelationManager)
      ensures this.manager == manager
    {
      this.manager := manager;
    }

    static method FindCorrelationId(headers: seq<(string, string)>) returns (c: Option<string>)
      ensures c == Header(headers, CORRELATION_ID)
    {
      c := None;
      var i := 0;
      while i < |headers| && c.None?
        invariant i <= |headers|
        invariant Header(headers, CORRELATION_ID) == if c.None? then Header(headers[i..], CORRELATION_ID) else c
        decreases |headers| - i
      {
        if headers[i].0 == CORRELATION_ID {
          c := Some(headers[i].1);
        }
        i := i + 1;
      }
    }

    /** The body of the loop in `_consume_responses`. */
    method ConsumeResponse(r: Record)
      requires manager.Valid()
      modifies manager, manager.futures, manager.streams
      ensures manager.Valid() && manager.futures == old(manager.futures) && manager.streams == old(manager.streams)
      ensures manager.View() == if ActionOf(r).None? then old(manager.View()) else Do(old(manager.View()), ActionOf(r).value)
    {
      var c := FindCorrelationId(r.headers);
      if !Truthy(c) || r.value.NotAnObject? {
        return;
      }
      var kind := if r.value.kind.None? then "message" else r.value.kind.value;
      if kind == "stream_complete" {
        assert ActionOf(r) == Some(StreamEnd(c.value));
        Carry(StreamEnd(c.value));
        return;
      }
      if kind == "error" {
        if r.value.data.NotADict? {
          return;
        }
        var error := if r.value.data.Fields? && r.value.data.error.Some? then r.value.data.error.value else "Unknown error";
        assert ActionOf(r) == Some(Err(c.value, error));
        Carry(Err(c.value, error));
        return;
      }
      var response := ParseResponse(kind, r.value.data);
      if response.Some? {
        assert ActionOf(r) == Some(Item(c.value, response.value));
        Carry(Item(c.value, response.value));
      }
    }

    /** The call on the correlation manager that a record leads to. */
    method Carry(a: Action)
      requires manager.Valid() && (a.StreamEnd? || a.Err? || a.Item?)
      modifies manager, manager.futures, manager.streams
      ensures manager.Valid() && manager.futures == old(manager.futures) && manager.streams == old(manager.streams)
      ensures manager.View() == Do(old(manager.View()), a)
    {
      var found;
      match a
      case StreamEnd(c) =>
        found := manager.CompleteStreaming(c);
      case Err(c, error) =>
        found := manager.CompleteWithException(c, error);
      case Item(c, item) =>
        found := manager.Complete(c, item);
    }
  }

  // ---- The tag and the parser are inverse ----

  lemma EventReplyParses(c: string, e: Event)
    requires c != ""
    ensures ActionOf(EventReply(c, e)) == Some(Item(c, e))
    ensures ParseResponse(KindOf(e), EventJson(e)) == Some(e)
  {
  }

  lemma TerminatorParses(c: string, text: string)
    requires c != ""
    ensures ActionOf(StreamComplete(c)) == Some(StreamEnd(c))
    ensures ActionOf(ErrorReply(c, text)) == Some(Err(c, text))
  {
  }

  /** Records that no handler sends: without an id or an object they are skipped, as is a
      result that is not of the kind it is tagged with; an untagged one counts as a message,
      an error without a text as an unknown one. */
  lemma IrregularRecords(r: Record, c: string, e: Event)
    requires c != ""
    ensures Header(r.headers, "correlation_id").None? || Header(r.headers, "correlation_id") == Some("") ==> ActionOf(r).None?
    ensures r.value.NotAnObject? ==> ActionOf(r).None?
    ensures var h := [("correlation_id", c)];
            && ActionOf(Record(h, Object(None, EventJson(e)))) == (if e.MessageEvent? then Some(Item(c, e)) else None)
            && ActionOf(Record(h, Object(Some("error"), Missing))) == Some(Err(c, "Unknown error"))
            && ActionOf(Record(h, Object(Some("error"), Fields(None)))) == Some(Err(c, "Unknown error"))
            && ActionOf(Record(h, Object(Some("error"), NotADict))) == None
            && (ActionOf(Record(h, Object(Some("task"), EventJson(e)))).Some? <==> e.TaskEvent?)
            && (ActionOf(Record(h, Object(Some("task_status_update"), EventJson(e)))).Some? <==> e.StatusEvent?)
            && (ActionOf(Record(h, Object(Some("task_artifact_update"), EventJson(e)))).Some? <==> e.ArtifactEvent?)
  {
  }

  /** What the business logic returns for each method. */
  predicate WellTyped(name: string, o: Outcome) {
    o.Returns? ==>
      if name == "message_send" then o.data.EventJson? && (o.data.event.TaskEvent? || o.data.event.MessageEvent?)
      else if name == "task_get" || name == "task_cancel" then o.data.EventJson? && o.data.event.TaskEvent?
      else o.data.Fields?
  }

  /** A single reply reaches its caller exactly when it is an error or answers one of the
      three methods that return a task or a message: a push-config result is tagged with a
      type the client parses as a message, fails validation, and the caller times out. */
  lemma SingleReplyReachesCallerIff(c: string, name: string, o: Outcome)
    requires c != "" && WellTyped(name, o)
    ensures ActionOf(SingleReply(c, name, o)).Some? <==>
            HasKind(SingleReply(c, name, o), {"error"}) || name in {"message_send", "task_get", "task_cancel"}
    ensures name in {"message_send", "task_get", "task_cancel"} ==>
              ActionOf(SingleReply(c, name, o))
                == Some(if o.Returns? then Item(c, o.data.event) else Err(c, o.text))
  {
  }
}
