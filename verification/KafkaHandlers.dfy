/** The wire format and the producer of replies: `KafkaHandler`
    (src/a2a/server/request_handlers/kafka_handler.py). */
module KafkaHandlers {
  import opened Types

  // ---- The wire ----

  /** The `data` field: the dump of an event, another dictionary (perhaps with an `error`
      entry), something that is no dictionary, or absent. */
  datatype Payload = EventJson(event: Event) | Fields(error: Option<string>) | NotADict | Missing

  datatype Value = NotAnObject | Object(kind: Option<string>, data: Payload)

  datatype Record = Record(headers: seq<(string, string)>, value: Value)

  const CORRELATION_ID := "correlation_id"
  const REPLY_TOPIC := "reply_topic"

  /** The first header with the key. */
  function Header(headers: seq<(string, string)>, key: string): Option<string> {
    if headers == [] then None
    else if headers[0].0 == key then Some(headers[0].1)
    else Header(headers[1..], key)
  }

  function Reply(c: string, kind: string, data: Payload): Record {
    Record([(CORRELATION_ID, c)], Object(Some(kind), data))
  }

  function KindOf(e: Event): string {
    match e
    case StatusEvent(_) => "task_status_update"
    case ArtifactEvent(_) => "task_artifact_update"
    case TaskEvent(_) => "task"
    case MessageEvent(_) => "message"
  }

  function EventReply(c: string, e: Event): Record {
    Reply(c, KindOf(e), EventJson(e))
  }

  function StreamComplete(c: string): Record {
    Reply(c, "stream_complete", Fields(None))
  }

  function ErrorReply(c: string, text: string): Record {
    Reply(c, "error", Fields(Some(text)))
  }

  // ---- Requests ----

  /** What validating the parameters and calling the business logic come to. */
  datatype Outcome = Returns(data: Payload) | Raises(text: string)

  /** What `on_message_send_stream` yields, and how it ends. */
  datatype Script = Script(events: seq<Event>, failure: Option<string>)

  datatype Request =
    | NotADictionary
    | Request(name: Option<string>, streaming: bool, single: Outcome, stream: Script)

  /** A `ServerError` built from a bare string cannot be printed, so the exception that
      reaches the outer handler is the one raised while reporting it. */
  const STR_HAS_NO_MESSAGE := "'str' object has no attribute 'message'"
  const PROCESSING_ERROR := "Request processing error: "
  const UNPRINTABLE := PROCESSING_ERROR + STR_HAS_NO_MESSAGE

  /** No handler has a method of the name that the list branch calls; this is what the
      SDK's own handler then raises. */
  const NO_LIST_METHOD :=
    "'DefaultRequestHandler' object has no attribute 'on_list_task_push_notification_configs'"

  const METHODS: set<string> := {
    "message_send", "task_get", "task_cancel", "task_push_notification_config_get",
    "task_push_notification_config_list", "task_push_notification_config_delete"}

  function SingleReply(c: string, name: string, outcome: Outcome): Record {
    if name !in METHODS then ErrorReply(c, UNPRINTABLE)
    else if outcome.Raises? then ErrorReply(c, outcome.text)
    else if name == "message_send" then
      Reply(c, if outcome.data.EventJson? && outcome.data.event.TaskEvent? then "task" else "message", outcome.data)
    else if name == "task_get" || name == "task_cancel" then Reply(c, "task", outcome.data)
    else if name == "task_push_notification_config_get" then Reply(c, "task_push_notification_config", outcome.data)
    else if name == "task_push_notification_config_list" then ErrorReply(c, NO_LIST_METHOD)
    else Reply(c, "success", Fields(None))
  }

  function EventReplies(c: string, events: seq<Event>): (rs: seq<Record>)
    ensures |rs| == |events| && forall i :: 0 <= i < |events| ==> rs[i] == EventReply(c, events[i])
  {
    seq(|events|, i requires 0 <= i < |events| => EventReply(c, events[i]))
  }

  function StreamReplies(c: string, script: Script): seq<Record> {
    EventReplies(c, script.events) +
    [if script.failure.Some? then ErrorReply(c, script.failure.value) else StreamComplete(c)]
  }

  /** All replies to one request that carries both headers. */
  function Replies(c: string, q: Request): seq<Record> {
    if q.NotADictionary? then []
    else if !Truthy(q.name) then [ErrorReply(c, "Missing method in request")]
    else if !q.streaming then [SingleReply(c, q.name.value, q.single)]
    else if q.name.value == "message_send" then StreamReplies(c, q.stream)
    else [ErrorReply(c, UNPRINTABLE)]
  }

  datatype Sent = Sent(topic: string, record: Record)

  function SentAll(topic: string, rs: seq<Record>): (s: seq<Sent>)
    ensures |s| == |rs| && forall i :: 0 <= i < |rs| ==> s[i] == Sent(topic, rs[i])
  {
    seq(|rs|, i requires 0 <= i < |rs| => Sent(topic, rs[i]))
  }

  class KafkaHandler {
    /** Whether the handler was started, and everything its producer sent. */
    var producer: bool
    var sent: seq<Sent>

    constructor ()
      ensures !producer && sent == []
    {
      producer, sent := false, [];
    }

    method Start()
      modifies this`producer
      ensures producer
    {
      producer := true;
    }

    method Send(topic: string, record: Record)
      modifies this`sent
      ensures sent == old(sent) + if producer then SentAll(topic, [record]) else []
    {
      if producer {
        sent := sent + [Sent(topic, record)];
      }
    }

    static method GetHeader(headers: seq<(string, string)>, key: string) returns (value: Option<string>)
      ensures value == Header(headers, key)
    {
      var i := 0;
      while i < |headers|
        invariant i <= |headers|
        invariant Header(headers, key) == Header(headers[i..], key)
      {
        if headers[i].0 == key {
          return Some(headers[i].1);
        }
        i := i + 1;
      }
      return None;
    }

    /** `handle_request`: nothing escapes it, and what it sends is all that happens. */
    method HandleRequest(headers: seq<(string, string)>, q: Request)
      modifies this`sent
      ensures var topic, c := Header(headers, "reply_topic"), Header(headers, "correlation_id");
              sent == old(sent) +
                if producer && Truthy(topic) && Truthy(c) then SentAll(topic.value, Replies(c.value, q)) else []
    {
      var topic := GetHeader(headers, REPLY_TOPIC);
      var c := GetHeader(headers, CORRELATION_ID);
      if !Truthy(topic) || !Truthy(c) {
        return;
      }
      if q.NotADictionary? {
        return;
      }
      if !Truthy(q.name) {
        Send(topic.value, ErrorReply(c.value, "Missing method in request"));
        return;
      }
      var escaped: Option<string>;
      if q.streaming {
        escaped := HandleStreamingRequest(q.name.value, q.stream, topic.value, c.value);
      } else {
        escaped := HandleSingleRequest(q.name.value, q.single, topic.value, c.value);
      }
      if escaped.Some? {
        Send(topic.value, ErrorReply(c.value, PROCESSING_ERROR + escaped.value));
      }
    }

    /** `escaped` is the text of an exception raised while the first one was reported. */
    method HandleSingleRequest(name: string, outcome: Outcome, topic: string, c: string) returns (escaped: Option<string>)
      modifies this`sent
      ensures escaped.Some? ==>
                && escaped.value == STR_HAS_NO_MESSAGE
                && SingleReply(c, name, outcome) == ErrorReply(c, UNPRINTABLE) && sent == old(sent)
      ensures escaped.None? ==>
                sent == old(sent) + if producer then SentAll(topic, [SingleReply(c, name, outcome)]) else []
    {
      var result, kind := Missing, "message";
      escaped := None;
      if name !in METHODS {
        return Some(STR_HAS_NO_MESSAGE);
      }
      if outcome.Raises? {
        Send(topic, ErrorReply(c, outcome.text));
        return;
      }
      if name == "task_push_notification_config_list" {
        Send(topic, ErrorReply(c, NO_LIST_METHOD));
        return;
      }
      if name == "message_send" {
        result := outcome.data;
        kind := if result.EventJson? && result.event.TaskEvent? then "task" else "message";
      } else if name == "task_get" || name == "task_cancel" {
        result, kind := outcome.data, "task";
      } else if name == "task_push_notification_config_get" {
        result, kind := outcome.data, "task_push_notification_config";
      } else {
        result, kind := Fields(None), "success";
      }
      Send(topic, Reply(c, kind, result));
    }

    /** Each event goes out under the tag of its own kind. */
    method SendEvents(events: seq<Event>, topic: string, c: string)
      modifies this`sent
      ensures sent == old(sent) + if producer then SentAll(topic, EventReplies(c, events)) else []
    {
      var i := 0;
      ghost var all := SentAll(topic, EventReplies(c, events));
      while i < |events|
        invariant i <= |events|
        invariant sent == old(sent) + if producer then all[..i] else []
      {
        var event := events[i];
        var kind: string;
        if event.StatusEvent? {
          kind := "task_status_update";
        } else if event.ArtifactEvent? {
          kind := "task_artifact_update";
        } else if event.TaskEvent? {
          kind := "task";
        } else {
          kind := "message";
        }
        Send(topic, Reply(c, kind, EventJson(event)));
        assert all[i] == Sent(topic, Reply(c, kind, EventJson(event)));
        assert all[..i + 1] == all[..i] + [all[i]];
        i := i + 1;
      }
      assert all[..|events|] == all;
    }

    method HandleStreamingRequest(name: string, script: Script, topic: string, c: string) returns (escaped: Option<string>)
      modifies this`sent
      ensures if name != "message_send"
              then escaped == Some(STR_HAS_NO_MESSAGE) && sent == old(sent)
              else escaped.None? && sent == old(sent) + if producer then SentAll(topic, StreamReplies(c, script)) else []
    {
      if name != "message_send" {
        return Some(STR_HAS_NO_MESSAGE);
      }
      escaped := None;
      SendEvents(script.events, topic, c);
      if script.failure.Some? {
        Send(topic, ErrorReply(c, script.failure.value));
      } else {
        Send(topic, StreamComplete(c));
      }
    }
  }

  // ---- What is on the wire ----

  /** Of several headers with the same key the first one counts. */
  lemma {:induction false} FirstHeaderCounts(headers: seq<(string, string)>, key: string, i: nat)
    requires i <= |headers| && (forall j :: 0 <= j < i ==> headers[j].0 != key)
    requires i < |headers| ==> headers[i].0 == key
    ensures Header(headers, key) == if i < |headers| then Some(headers[i].1) else None
    decreases |headers|
  {
    if i > 0 {
      FirstHeaderCounts(headers[1..], key, i - 1);
    }
  }

  /** Every reply carries its correlation id and nothing else in its headers, and the tag of
      what it brings. */
  lemma WireForms(c: string, e: Event, text: string)
    ensures EventReply(c, e) == Record([("correlation_id", c)], Object(Some(
              match e
              case StatusEvent(_) => "task_status_update"
              case ArtifactEvent(_) => "task_artifact_update"
              case TaskEvent(_) => "task"
              case MessageEvent(_) => "message"), EventJson(e)))
    ensures StreamComplete(c) == Record([("correlation_id", c)], Object(Some("stream_complete"), Fields(None)))
    ensures ErrorReply(c, text) == Record([("correlation_id", c)], Object(Some("error"), Fields(Some(text))))
  {
  }

  /** A plain request. A result goes out unchanged under the tag of its method, a deletion as
      a bare success; an exception as its text; listing always fails, and so does an unknown
      method. */
  lemma SingleReplies(c: string, name: string, data: Payload, text: string)
    ensures var send := SingleReply(c, "message_send", Returns(data));
            send == Reply(c, if data.EventJson? && data.event.TaskEvent? then "task" else "message", data)
    ensures SingleReply(c, "task_get", Returns(data)) == Reply(c, "task", data)
    ensures SingleReply(c, "task_cancel", Returns(data)) == Reply(c, "task", data)
    ensures SingleReply(c, "task_push_notification_config_get", Returns(data))
              == Reply(c, "task_push_notification_config", data)
    ensures SingleReply(c, "task_push_notification_config_delete", Returns(data)) == Reply(c, "success", Fields(None))
    ensures SingleReply(c, "task_push_notification_config_list", Returns(data)) == ErrorReply(c, NO_LIST_METHOD)
    ensures name in METHODS ==> SingleReply(c, name, Raises(text)) == ErrorReply(c, text)
    ensures name !in METHODS ==> forall o :: SingleReply(c, name, o) == ErrorReply(c, UNPRINTABLE)
  {
  }

  // ---- The grammar of replies ----

  predicate HasKind(r: Record, kinds: set<string>) {
    r.value.Object? && r.value.kind.Some? && r.value.kind.value in kinds
  }

  predicate IsTerminator(r: Record) {
    HasKind(r, {"stream_complete", "error"})
  }

  predicate IsEventReply(r: Record) {
    HasKind(r, {"task", "task_status_update", "task_artifact_update", "message"})
    && r.value.data.EventJson? && r.value.kind.value == KindOf(r.value.data.event)
  }

  /** Every request gets an answer. A plain one gets exactly one reply; a streaming one gets
      events, correctly tagged, followed by exactly one terminator; a missing method, or
      streaming on anything but `message_send`, gets a single error. */
  lemma ReplyGrammar(c: string, q: Request)
    requires q.Request?
    ensures var rs := Replies(c, q);
            && rs != []
            && (forall i :: 0 <= i < |rs| ==> rs[i].headers == [(CORRELATION_ID, c)])
            && (!q.streaming || !Truthy(q.name) ==> |rs| == 1)
            && (q.streaming ==>
                  && IsTerminator(rs[|rs| - 1])
                  && (forall i :: 0 <= i < |rs| - 1 ==> IsEventReply(rs[i]) && !IsTerminator(rs[i])))
            && (!Truthy(q.name) || (q.streaming && q.name.value != "message_send") ==>
                  |rs| == 1 && HasKind(rs[0], {"error"}))
            && (q.streaming && |rs| > 1 ==> (HasKind(rs[|rs| - 1], {"error"}) <==> q.stream.failure.Some?))
            && (!Truthy(q.name) ==> rs == [ErrorReply(c, "Missing method in request")])
            && (q.streaming && q.name == Some("message_send") ==>
                  && |rs| == |q.stream.events| + 1
                  && (forall i :: 0 <= i < |q.stream.events| ==> rs[i].value.data == EventJson(q.stream.events[i]))
                  && rs[|q.stream.events|].value.data == Fields(q.stream.failure))
  {
  }
}
