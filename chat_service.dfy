/** The chat event pipeline (service/chat/chat_service.py): `chat` numbers the request's messages
    as `user_message` events, `workflow` pushes those and then the agent's records onto a queue,
    `run_agent`/`event_handler` map each graph event to a `{kind, event, data}` record, and
    `event_generator` drains the queue into `text/event-stream` frames (section 9.2 of the WHATWG
    HTML Living Standard, "Server-sent events"), stopping after the first record whose kind is
    "end". The producer and the consumer run one after the other: the consumer's output depends
    only on the order of the queue, which the producer alone fixes. */
module ChatService {
  import opened Wrappers
  import opened JsonValues

  /** One message of a chat request: `role` and `content`. */
  datatype ChatMessage = ChatMessage(role: string, content: string)

  /** A `HumanMessage` handed to the graph. */
  datatype HumanMessage = HumanMessage(content: string, name: string)

  /** A dict placed on the event queue. */
  type Record = map<string, Json>

  /** What `graph.astream_events` yields: a dict, or some other object (named by its type). */
  datatype GraphEvent = EventDict(fields: map<string, Json>) | NotDict(typeName: string)

  /** One run of the graph: the events it yields, then the message of the exception it raised, if
      it raised one. */
  datatype GraphRun = GraphRun(events: seq<GraphEvent>, raised: Option<string>)

  /** `d.get(k)`: the value under `k`, or `None`. */
  function PyGet(d: map<string, Json>, k: string): (v: Json)
    ensures k !in d ==> v == JNull
    ensures k in d ==> v == d[k]
  {
    if k in d then d[k] else JNull
  }

  // ---------------------------------------------------------------------------------------
  // chat: the user-message events
  // ---------------------------------------------------------------------------------------

  /** The `{"role", "content"}` dict `chat` encodes for a message. */
  function UserPayload(m: ChatMessage): Json
  {
    JObject([("role", JString(m.role)), ("content", JString(m.content))])
  }

  /** The `index`-th user-message event; its data is the message's payload as JSON text. */
  function UserEvent(text: Json -> string, m: ChatMessage, index: int): (r: Record)
    ensures r.Keys == {"event", "index", "data"} && !IsEnd(r)
    ensures r["event"] == JString("user_message") && r["index"] == JInt(index)
    ensures r["data"] == JString(text(UserPayload(m)))
  {
    map["event" := JString("user_message"), "index" := JInt(index), "data" := JString(text(UserPayload(m)))]
  }

  /** The user-message events of a request: one per message, in order, numbered from 0, with no
      `kind` key. */
  function UserEvents(text: Json -> string, req: seq<ChatMessage>): (r: seq<Record>)
    ensures |r| == |req|
    ensures forall i :: 0 <= i < |r| ==>
      && r[i].Keys == {"event", "index", "data"}
      && r[i]["event"] == JString("user_message")
      && r[i]["index"] == JInt(i)
      && r[i]["data"] == JString(text(UserPayload(req[i])))
  {
    seq(|req|, i requires 0 <= i < |req| => UserEvent(text, req[i], i))
  }

  /** Encoding a message's payload cannot fail: it holds only strings. */
  lemma UserPayloadEncodes(text: Json -> string, m: ChatMessage)
    ensures Dumps(text, UserPayload(m)) == Ok(text(UserPayload(m)))
  {
    var p := UserPayload(m);
    assert Encodable(p.members[0].1) && Encodable(p.members[1].1);
  }

  // ---------------------------------------------------------------------------------------
  // run_agent and event_handler: graph events to records
  // ---------------------------------------------------------------------------------------

  /** The record every `except` clause of the pipeline produces for an exception with message
      `message`. */
  function ErrorRecord(message: string): (r: Record)
    ensures IsEnd(r) && "data" in r && r["data"] == JString(message)
  {
    map["kind" := JString("end"), "event" := JString("error"), "data" := JString(message)]
  }

  /** The message of the `AttributeError` raised by calling `.get` on an object of type `t`. */
  function NoGetMessage(t: string): string
  {
    "'" + t + "' object has no attribute 'get'"
  }

  /** Whether a record stops the consumer: its `kind` is "end". */
  predicate IsEnd(r: Record)
  {
    "kind" in r && r["kind"] == JString("end")
  }

  /** `event_handler`: the graph event's `event`, `name` and `data` passed through unchanged as
      the record's `kind`, `event` and `data` (`None` where missing); an object without `.get`
      becomes an error record, which the handler itself catches. */
  function EventHandler(e: GraphEvent): (r: Record)
    ensures r.Keys == {"kind", "event", "data"}
    ensures e.EventDict? ==> && r["kind"] == PyGet(e.fields, "event")
                             && r["event"] == PyGet(e.fields, "name")
                             && r["data"] == PyGet(e.fields, "data")
    ensures e.NotDict? ==> r == ErrorRecord(NoGetMessage(e.typeName))
  {
    match e
    case EventDict(f) => map["kind" := PyGet(f, "event"), "event" := PyGet(f, "name"), "data" := PyGet(f, "data")]
    case NotDict(t) => ErrorRecord(NoGetMessage(t))
  }

  /** A handler record ends the stream exactly when the graph event was not a dict or its own
      `event` is "end". */
  lemma HandlerEndsIff(e: GraphEvent)
    ensures IsEnd(EventHandler(e)) <==> e.NotDict? || ("event" in e.fields && e.fields["event"] == JString("end"))
    ensures e.EventDict? ==> EventHandler(e)["data"] == PyGet(e.fields, "data")
  {
  }

  /** A graph event that is a dict with encodable data is sent under its own `name`, with its
      `data` as the data line; it stops the consumer exactly when its own `event` is "end". */
  lemma GraphEventFrame(text: Json -> string, repr: Json -> string, f: map<string, Json>)
    requires Encodable(PyGet(f, "data"))
    ensures Sent(text, repr, EventHandler(EventDict(f)))
            == "event: " + PyStr(repr, PyGet(f, "name")) + "\n" + "data: " + text(PyGet(f, "data")) + "\n\n"
    ensures PassesThrough(text, repr, EventHandler(EventDict(f))) <==> PyGet(f, "event") != JString("end")
  {
    var r := EventHandler(EventDict(f));
    assert EventName(r) == PyGet(f, "name") && DataOf(r) == PyGet(f, "data");
    assert Dumps(text, DataOf(r)) == Ok(text(DataOf(r)));
  }

  /** The messages `run_agent` hands to the graph: each one's content, named "user_query". */
  function HumanMessages(messages: seq<ChatMessage>): (r: seq<HumanMessage>)
    ensures |r| == |messages|
    ensures forall i :: 0 <= i < |r| ==> r[i] == HumanMessage(messages[i].content, "user_query")
  {
    seq(|messages|, i requires 0 <= i < |messages| => HumanMessage(messages[i].content, "user_query"))
  }

  /** What `run_agent` yields for a run of the graph: one handler record per graph event, in
      order, and, when the graph raised, one error record last. */
  function AgentRecords(run: GraphRun): (r: seq<Record>)
    ensures |r| == |run.events| + (if run.raised.Some? then 1 else 0)
    ensures forall i :: 0 <= i < |run.events| ==> r[i] == EventHandler(run.events[i])
    ensures run.raised.Some? ==> r[|r| - 1] == ErrorRecord(run.raised.value)
  {
    seq(|run.events|, i requires 0 <= i < |run.events| => EventHandler(run.events[i]))
      + (if run.raised.Some? then [ErrorRecord(run.raised.value)] else [])
  }

  // ---------------------------------------------------------------------------------------
  // The queue and the producer
  // ---------------------------------------------------------------------------------------

  /** The `asyncio.Queue` between producer and consumer: its pending records, oldest first. */
  class EventQueue {
    var items: seq<Record>

    constructor()
      ensures items == []
    {
      items := [];
    }

    method Put(r: Record)
      modifies this
      ensures items == old(items) + [r]
    {
      items := items + [r];
    }

    method Get() returns (r: Record)
      requires items != []
      modifies this
      ensures r == old(items)[0] && items == old(items)[1..]
    {
      r := items[0];
      items := items[1..];
    }
  }

  /** `workflow`: the user events first, then every record `run_agent` yields, in order. */
  method Workflow(graph: seq<HumanMessage> -> GraphRun, messages: seq<ChatMessage>, userEvents: seq<Record>,
                  queue: EventQueue)
    modifies queue
    ensures queue.items == old(queue.items) + userEvents + AgentRecords(graph(HumanMessages(messages)))
  {
    for i := 0 to |userEvents|
      invariant queue.items == old(queue.items) + userEvents[..i]
    {
      queue.Put(userEvents[i]);
      assert userEvents[..i + 1] == userEvents[..i] + [userEvents[i]];
    }
    assert userEvents[..|userEvents|] == userEvents;
    var records := AgentRecords(graph(HumanMessages(messages)));
    for i := 0 to |records|
      invariant queue.items == old(queue.items) + userEvents + records[..i]
    {
      queue.Put(records[i]);
      assert records[..i + 1] == records[..i] + [records[i]];
    }
    assert records[..|records|] == records;
  }

  // ---------------------------------------------------------------------------------------
  // The consumer: framing and termination
  // ---------------------------------------------------------------------------------------

  /** `event.get('event', 'message')`: the default applies only when the key is missing. */
  function EventName(r: Record): (name: Json)
    ensures "event" in r ==> name == r["event"]
    ensures "event" !in r ==> name == JString("message")
  {
    if "event" in r then r["event"] else JString("message")
  }

  /** `event.get('data', {})` */
  function DataOf(r: Record): (data: Json)
    ensures "data" in r ==> data == r["data"]
    ensures "data" !in r ==> data == JObject([])
  {
    if "data" in r then r["data"] else JObject([])
  }

  /** The frame for one record, or the encoder's error when its data cannot be encoded. */
  function Frame(text: Json -> string, repr: Json -> string, r: Record): (f: Result<string, string>)
    ensures f.Ok? <==> Encodable(DataOf(r))
    ensures f.Ok? ==> f.value == "event: " + PyStr(repr, EventName(r)) + "\n" + "data: " + text(DataOf(r)) + "\n\n"
    ensures f.Err? ==> Dumps(text, DataOf(r)).Err? && f.error == Dumps(text, DataOf(r)).error
  {
    match Dumps(text, DataOf(r))
    case Ok(data) => Ok("event: " + PyStr(repr, EventName(r)) + "\n" + "data: " + data + "\n\n")
    case Err(message) => Err(message)
  }

  /** The frame the consumer's `except` clause sends for an exception with message `message`: an
      "error" event whose data is `{"error": message}`, which the encoder always accepts. */
  function ErrorFrame(text: Json -> string, message: string): (f: string)
    ensures var data := Dumps(text, JObject([("error", JString(message))]));
      data.Ok? && f == "event: error\ndata: " + data.value + "\n\n"
  {
    var data := JObject([("error", JString(message))]);
    assert Encodable(data.members[0].1);
    "event: error\ndata: " + text(JObject([("error", JString(message))])) + "\n\n"
  }

  /** Records that leave the consumer running: each is framed and the stream goes on. */
  predicate PassesThrough(text: Json -> string, repr: Json -> string, r: Record)
  {
    Frame(text, repr, r).Ok? && !IsEnd(r)
  }

  /** The frame the consumer sends for a record: its own frame, or the error frame when its data
      cannot be encoded. */
  function Sent(text: Json -> string, repr: Json -> string, r: Record): string
  {
    match Frame(text, repr, r)
    case Ok(f) => f
    case Err(message) => ErrorFrame(text, message)
  }

  /** What the consumer made of the queue: the frames it sent, whether it stopped, and how many
      records it took off the queue. */
  datatype Drained = Drained(frames: seq<string>, closed: bool, consumed: nat)

  /** The consumer's loop over the records in a queue, whatever their framing: it sends
      `sent(r)` for each record and goes on while `passes(r)`. */
  function DrainWith<T>(passes: T -> bool, sent: T -> string, records: seq<T>): (d: Drained)
    ensures d.consumed <= |records| && |d.frames| == d.consumed
    ensures !d.closed ==> d.consumed == |records|
    decreases |records|
  {
    if records == [] then Drained([], false, 0)
    else if !passes(records[0]) then Drained([sent(records[0])], true, 1)
    else
      var rest := DrainWith(passes, sent, records[1..]);
      Drained([sent(records[0])] + rest.frames, rest.closed, rest.consumed + 1)
  }

  /** Each record the consumer takes gets its own frame, in queue order, and when it stops it is
      on a record that does not pass through. */
  lemma {:induction false} DrainWithSends<T>(passes: T -> bool, sent: T -> string, records: seq<T>)
    ensures var d := DrainWith(passes, sent, records);
      && (forall i :: 0 <= i < d.consumed ==> d.frames[i] == sent(records[i]))
      && (d.closed ==> d.consumed > 0 && !passes(records[d.consumed - 1]))
    decreases |records|
  {
    if records != [] && passes(records[0]) {
      DrainWithSends(passes, sent, records[1..]);
      var d := DrainWith(passes, sent, records);
      forall i | 1 <= i < d.consumed ensures d.frames[i] == sent(records[i]) {
        assert records[1..][i - 1] == records[i];
      }
      if d.closed {
        assert records[1..][d.consumed - 2] == records[d.consumed - 1];
      }
    }
  }

  /** `event_generator` over a queue holding `records`: one frame per record until the first
      record of kind "end" (framed, then stop) or the first record whose data cannot be encoded
      (an error frame instead, then stop). Once the queue is empty the source keeps polling; that
      is `closed == false`. */
  function Drain(text: Json -> string, repr: Json -> string, records: seq<Record>): (d: Drained)
    ensures d.consumed <= |records| && |d.frames| == d.consumed
    ensures !d.closed ==> d.consumed == |records|
    ensures forall i :: 0 <= i < d.consumed ==> d.frames[i] == Sent(text, repr, records[i])
    ensures d.closed ==> d.consumed > 0 && !PassesThrough(text, repr, records[d.consumed - 1])
  {
    DrainWithSends(Passes(text, repr), Sender(text, repr), records);
    DrainWith(Passes(text, repr), Sender(text, repr), records)
  }

  function Passes(text: Json -> string, repr: Json -> string): (p: Record -> bool)
    ensures forall r :: p(r) == PassesThrough(text, repr, r)
  {
    (r: Record) => PassesThrough(text, repr, r)
  }

  function Sender(text: Json -> string, repr: Json -> string): (s: Record -> string)
    ensures forall r :: s(r) == Sent(text, repr, r)
  {
    (r: Record) => Sent(text, repr, r)
  }

  /** The consumer's work on a queue after it has already sent `frames` for `k` records. */
  function After(frames: seq<string>, k: nat, rest: Drained): Drained
  {
    Drained(frames + rest.frames, rest.closed, k + rest.consumed)
  }

  /** One turn of the consumer's loop. */
  lemma DrainStep(text: Json -> string, repr: Json -> string, records: seq<Record>)
    requires records != []
    ensures Drain(text, repr, records) ==
      if !PassesThrough(text, repr, records[0]) then Drained([Sent(text, repr, records[0])], true, 1)
      else After([Sent(text, repr, records[0])], 1, Drain(text, repr, records[1..]))
  {
  }

  /** Work done in two stretches is the work of both, in order. */
  lemma AfterAfter(a: seq<string>, i: nat, b: seq<string>, j: nat, d: Drained)
    ensures After(a, i, After(b, j, d)) == After(a + b, i + j, d)
  {
    assert a + (b + d.frames) == (a + b) + d.frames;
  }

  /** `event_generator`, run against a queue the producer has finished filling. */
  method EventGenerator(text: Json -> string, repr: Json -> string, queue: EventQueue)
    returns (frames: seq<string>, closed: bool)
    modifies queue
    ensures var d := Drain(text, repr, old(queue.items));
      frames == d.frames && closed == d.closed && queue.items == old(queue.items)[d.consumed..]
  {
    ghost var all := queue.items;
    ghost var k := 0;
    frames := [];
    closed := false;
    while !closed && queue.items != []
      invariant 0 <= k <= |all| && queue.items == all[k..]
      invariant closed ==> Drain(text, repr, all) == Drained(frames, true, k)
      invariant !closed ==> Drain(text, repr, all) == After(frames, k, Drain(text, repr, queue.items))
      decreases |queue.items|
    {
      ghost var pending := queue.items;
      ghost var before := frames;
      var event := queue.Get();
      assert pending[1..] == all[k + 1..];
      var result := Frame(text, repr, event);
      var frame := if result.Ok? then result.value else ErrorFrame(text, result.error);
      assert frame == Sent(text, repr, event);
      frames := frames + [frame];
      closed := result.Err? || IsEnd(event);
      assert closed == !PassesThrough(text, repr, event);
      DrainStep(text, repr, pending);
      AfterAfter(before, k, [frame], 1, Drain(text, repr, queue.items));
      k := k + 1;
    }
  }

  // ---------------------------------------------------------------------------------------
  // chat, end to end
  // ---------------------------------------------------------------------------------------

  /** The stream a chat request produces: the consumer over the user events and then the agent's
      records for the request's messages. */
  function ChatStream(text: Json -> string, repr: Json -> string, graph: seq<HumanMessage> -> GraphRun,
                      req: seq<ChatMessage>): (s: Drained)
    ensures |s.frames| == s.consumed <= |req| + |AgentRecords(graph(HumanMessages(req)))|
    ensures forall i :: 0 <= i < s.consumed && i < |req| ==> s.frames[i] == Sent(text, repr, UserEvent(text, req[i], i))
  {
    Drain(text, repr, UserEvents(text, req) + AgentRecords(graph(HumanMessages(req))))
  }

  /** `chat`'s loop over the request: the message list handed to the graph, and one numbered
      user-message event per message. */
  method NumberMessages(text: Json -> string, req: seq<ChatMessage>)
    returns (messages: seq<ChatMessage>, userEvents: seq<Record>)
    ensures messages == req
    ensures userEvents == UserEvents(text, req)
  {
    messages := [];
    userEvents := [];
    var eventIndex := 0;
    for i := 0 to |req|
      invariant messages == req[..i]
      invariant eventIndex == i
      invariant |userEvents| == i
      invariant forall j :: 0 <= j < i ==> userEvents[j] == UserEvent(text, req[j], j)
    {
      messages := messages + [ChatMessage(req[i].role, req[i].content)];
      userEvents := userEvents + [UserEvent(text, req[i], eventIndex)];
      eventIndex := eventIndex + 1;
      assert req[..i + 1] == req[..i] + [req[i]];
    }
    assert req[..|req|] == req;
  }

  /** `chat`: builds the message list and the numbered user events, runs the producer, and streams
      what the consumer makes of the queue. */
  method Chat(text: Json -> string, repr: Json -> string, graph: seq<HumanMessage> -> GraphRun,
              req: seq<ChatMessage>)
    returns (frames: seq<string>, closed: bool)
    ensures frames == ChatStream(text, repr, graph, req).frames
    ensures closed == ChatStream(text, repr, graph, req).closed
  {
    var messages, userEvents := NumberMessages(text, req);
    var queue := new EventQueue();
    Workflow(graph, messages, userEvents, queue);
    assert queue.items == UserEvents(text, req) + AgentRecords(graph(HumanMessages(req)));
    frames, closed := EventGenerator(text, repr, queue);
  }

  // ---------------------------------------------------------------------------------------
  // Properties of the stream
  // ---------------------------------------------------------------------------------------

  /** The consumer stays open over `records` exactly when every record passes through, and then
      it sends each record's own frame, in queue order. */
  lemma {:induction false} DrainOpenIff<T>(passes: T -> bool, sent: T -> string, records: seq<T>)
    ensures var d := DrainWith(passes, sent, records);
      && (!d.closed <==> forall i :: 0 <= i < |records| ==> passes(records[i]))
      && (!d.closed ==> forall i :: 0 <= i < |records| ==> d.frames[i] == sent(records[i]))
    decreases |records|
  {
    if records != [] {
      DrainOpenIff(passes, sent, records[1..]);
      var d := DrainWith(passes, sent, records);
      if forall i :: 0 <= i < |records| ==> passes(records[i]) {
        assert passes(records[0]);
        forall i | 0 <= i < |records| - 1 ensures passes(records[1..][i]) {
          assert records[1..][i] == records[i + 1];
        }
        forall i | 0 <= i < |records| ensures d.frames[i] == sent(records[i]) {
          if i > 0 { assert records[1..][i - 1] == records[i]; }
        }
      } else if passes(records[0]) {
        var i :| 0 <= i < |records| && !passes(records[i]);
        assert records[1..][i - 1] == records[i];
      }
    }
  }

  /** Records after an open prefix are framed as if the prefix had not been there. */
  lemma {:induction false} DrainAppendOpen<T>(passes: T -> bool, sent: T -> string, a: seq<T>, b: seq<T>)
    requires !DrainWith(passes, sent, a).closed
    ensures var da := DrainWith(passes, sent, a);
            var db := DrainWith(passes, sent, b);
      DrainWith(passes, sent, a + b) == Drained(da.frames + db.frames, db.closed, |a| + db.consumed)
    decreases |a|
  {
    if a != [] {
      var da := DrainWith(passes, sent, a);
      var tail := DrainWith(passes, sent, a[1..]);
      var db := DrainWith(passes, sent, b);
      assert passes(a[0]) && da.frames == [sent(a[0])] + tail.frames;
      assert (a + b)[0] == a[0];
      assert (a + b)[1..] == a[1..] + b;
      DrainAppendOpen(passes, sent, a[1..], b);
      assert [sent(a[0])] + (tail.frames + db.frames) == da.frames + db.frames;
    } else {
      assert a + b == b;
    }
  }

  /** Once the consumer has stopped, nothing queued after that point is ever framed. */
  lemma {:induction false} DrainClosedIgnoresLater<T>(passes: T -> bool, sent: T -> string, a: seq<T>, b: seq<T>)
    requires DrainWith(passes, sent, a).closed
    ensures DrainWith(passes, sent, a + b) == DrainWith(passes, sent, a)
    decreases |a|
  {
    assert (a + b)[0] == a[0];
    if passes(a[0]) {
      assert (a + b)[1..] == a[1..] + b;
      DrainClosedIgnoresLater(passes, sent, a[1..], b);
    }
  }

  /** The consumer stops right after the first record that does not pass through: it sends the
      frames of everything before it, then that record's frame, and consumes nothing more. */
  lemma StopsAtFirst<T>(passes: T -> bool, sent: T -> string, records: seq<T>, k: nat)
    requires k < |records| && !passes(records[k])
    requires forall i :: 0 <= i < k ==> passes(records[i])
    ensures var d := DrainWith(passes, sent, records);
      && d.closed && d.consumed == k + 1
      && (forall i :: 0 <= i <= k ==> d.frames[i] == sent(records[i]))
  {
    var prefix := records[..k];
    var tail := records[k..];
    assert records == prefix + tail;
    DrainOpenIff(passes, sent, prefix);
    DrainAppendOpen(passes, sent, prefix, tail);
    assert tail[0] == records[k];
  }

  /** A record of kind "end", or one whose data cannot be encoded, is the last one the consumer
      frames: it sends the frames of the records before it, then that record's frame, or the
      error frame naming the encoder's error. */
  lemma StopsAtFirstEnd(text: Json -> string, repr: Json -> string, records: seq<Record>, k: nat)
    requires k < |records| && (IsEnd(records[k]) || !Encodable(DataOf(records[k])))
    requires forall i :: 0 <= i < k ==> PassesThrough(text, repr, records[i])
    ensures var d := Drain(text, repr, records);
      && d.closed && d.consumed == k + 1
      && (forall i :: 0 <= i < k ==> d.frames[i] == Frame(text, repr, records[i]).value)
      && d.frames[k] == match Frame(text, repr, records[k])
                        case Ok(f) => f
                        case Err(message) => ErrorFrame(text, message)
  {
    StopsAtFirst(Passes(text, repr), Sender(text, repr), records, k);
  }

  /** One user-message event passes through the consumer as an event named "user_message" whose
      data line is the JSON text of the already encoded payload. */
  lemma UserEventFrame(text: Json -> string, repr: Json -> string, m: ChatMessage, index: int)
    ensures PassesThrough(text, repr, UserEvent(text, m, index))
    ensures Sent(text, repr, UserEvent(text, m, index))
            == "event: " + "user_message" + "\n" + "data: " + text(JString(text(UserPayload(m)))) + "\n\n"
  {
    var e := UserEvent(text, m, index);
    var data := JString(text(UserPayload(m)));
    assert EventName(e) == JString("user_message") && DataOf(e) == data;
    assert Dumps(text, data) == Ok(text(data));
  }

  /** User-message events never stop the consumer; each is sent as its own frame. */
  lemma UserEventsPassThrough(text: Json -> string, repr: Json -> string, req: seq<ChatMessage>)
    ensures var d := Drain(text, repr, UserEvents(text, req));
      && !d.closed
      && forall i :: 0 <= i < |req| ==>
           d.frames[i] == "event: " + "user_message" + "\n" + "data: " + text(JString(text(UserPayload(req[i])))) + "\n\n"
  {
    var events := UserEvents(text, req);
    forall i | 0 <= i < |events|
      ensures Passes(text, repr)(events[i])
      ensures Sender(text, repr)(events[i]) == "event: " + "user_message" + "\n" + "data: " + text(JString(text(UserPayload(req[i])))) + "\n\n"
    {
      assert events[i] == UserEvent(text, req[i], i);
      UserEventFrame(text, repr, req[i], i);
    }
    DrainOpenIff(Passes(text, repr), Sender(text, repr), events);
  }

  /** A chat stream always starts with one frame per request message, in request order, followed
      by what the consumer makes of the agent's records alone. */
  lemma UserFramesFirst(text: Json -> string, repr: Json -> string, graph: seq<HumanMessage> -> GraphRun,
                        req: seq<ChatMessage>)
    ensures var users := Drain(text, repr, UserEvents(text, req));
            var agent := Drain(text, repr, AgentRecords(graph(HumanMessages(req))));
      ChatStream(text, repr, graph, req) == Drained(users.frames + agent.frames, agent.closed, |req| + agent.consumed)
  {
    UserEventsPassThrough(text, repr, req);
    DrainAppendOpen(Passes(text, repr), Sender(text, repr), UserEvents(text, req), AgentRecords(graph(HumanMessages(req))));
  }

  /** The error record stops the consumer, which sends it as an "error" event whose data line is
      the exception's message as a JSON string. */
  lemma ErrorRecordFrame(text: Json -> string, repr: Json -> string, message: string)
    ensures !PassesThrough(text, repr, ErrorRecord(message))
    ensures Sent(text, repr, ErrorRecord(message)) == "event: error\ndata: " + text(JString(message)) + "\n\n"
  {
    var r := ErrorRecord(message);
    assert EventName(r) == JString("error");
    assert DataOf(r) == JString(message);
    assert Encodable(JString(message));
    var f := "event: " + PyStr(repr, JString("error")) + "\n" + "data: " + text(JString(message)) + "\n\n";
    assert Frame(text, repr, r) == Ok(f);
    assert f == "event: error\ndata: " + text(JString(message)) + "\n\n";
  }

  /** When the graph raises after events that all pass through, the stream ends with exactly one
      error frame carrying the exception's message, after one frame per request message and per
      graph event. */
  lemma GraphErrorEndsStream(text: Json -> string, repr: Json -> string, graph: seq<HumanMessage> -> GraphRun,
                             req: seq<ChatMessage>, message: string)
    requires graph(HumanMessages(req)).raised == Some(message)
    requires forall e :: e in graph(HumanMessages(req)).events ==> PassesThrough(text, repr, EventHandler(e))
    ensures var s := ChatStream(text, repr, graph, req);
      && s.closed
      && |s.frames| == |req| + |graph(HumanMessages(req)).events| + 1
      && s.frames[|s.frames| - 1] == "event: error\ndata: " + text(JString(message)) + "\n\n"
  {
    var run := graph(HumanMessages(req));
    var records := AgentRecords(run);
    var k := |run.events|;
    forall i | 0 <= i < k ensures Passes(text, repr)(records[i]) {
      assert run.events[i] in run.events;
    }
    ErrorRecordFrame(text, repr, message);
    assert records[k] == ErrorRecord(message);
    StopsAtFirst(Passes(text, repr), Sender(text, repr), records, k);
    UserFramesFirst(text, repr, graph, req);
  }

  /** When the graph finishes without raising and no record it produced ends the stream, the
      consumer never stops: nothing in the pipeline ever queues an end record on success. */
  lemma CompletionLeavesStreamOpen(text: Json -> string, repr: Json -> string, graph: seq<HumanMessage> -> GraphRun,
                                   req: seq<ChatMessage>)
    requires graph(HumanMessages(req)).raised.None?
    requires forall e :: e in graph(HumanMessages(req)).events ==> PassesThrough(text, repr, EventHandler(e))
    ensures var s := ChatStream(text, repr, graph, req);
      !s.closed && |s.frames| == |req| + |graph(HumanMessages(req)).events|
  {
    var run := graph(HumanMessages(req));
    var records := AgentRecords(run);
    forall i | 0 <= i < |records| ensures PassesThrough(text, repr, records[i]) {
      assert run.events[i] in run.events;
    }
    DrainOpenIff(Passes(text, repr), Sender(text, repr), records);
    UserFramesFirst(text, repr, graph, req);
  }
}
