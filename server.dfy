/**
 * The websocket front end of the gateway: how each client message is routed, the
 * replies it sends back, and the `ControlServer` that forwards actions to the
 * QMP controller.
 */
module Server {
  import opened Wrappers
  import opened Json
  import opened Qmp
  import opened QmpController

  // ---------------------------------------------------------------- routing

  /** What the JSON decoder made of a message: not JSON at all, or a top-level object's members. */
  datatype Parsed = Malformed | Document(fields: seq<(string, JsonValue)>)

  /** The branch a message takes. */
  datatype Outcome =
    | InvalidJson
    | MissingFields
    | Debug(data: JsonValue)
    | Act(kind: ActionKind, data: JsonValue)
    | UnknownType(messageType: JsonValue)

  /** The branch a message with both fields takes by its `type`: `debug`, a listed action, or anything else. */
  function Classify(messageType: JsonValue, messageData: JsonValue): Outcome {
    if messageType == JStr("debug") then Debug(messageData)
    else if messageType.JStr? && messageType.s in ActionTable then Act(ActionTable[messageType.s], messageData)
    else UnknownType(messageType)
  }

  /**
   * Routes a message: undecodable text, an object lacking `type` or `data`, or else
   * the branch its `type` selects.
   */
  function Route(parsed: Parsed): Outcome {
    match parsed
    case Malformed => InvalidJson
    case Document(fields) =>
      if "type" !in Keys(fields) || "data" !in Keys(fields) then MissingFields
      else Classify(Get(fields, "type").value, Get(fields, "data").value)
  }

  /** The controller call a branch makes: a listed action's data bound to its parameters, if it binds; nothing otherwise. */
  function CallOf(outcome: Outcome): Option<Call> {
    if outcome.Act? then Bind(outcome.kind, outcome.data) else None
  }

  /** Each branch is taken exactly when its condition holds. */
  lemma RouteBranches(parsed: Parsed)
    ensures Route(parsed).InvalidJson? <==> parsed.Malformed?
    ensures Route(parsed).MissingFields? <==>
      parsed.Document? && ("type" !in Keys(parsed.fields) || "data" !in Keys(parsed.fields))
    ensures Route(parsed).Debug? <==>
      parsed.Document? && "data" in Keys(parsed.fields) && Get(parsed.fields, "type") == Some(JStr("debug"))
    ensures Route(parsed).Act? <==>
      parsed.Document? && "data" in Keys(parsed.fields) && Get(parsed.fields, "type").Some?
      && Get(parsed.fields, "type").value.JStr? && Get(parsed.fields, "type").value.s in ActionTable
  {
    ActionTableListsEveryAction(MouseBtnDown);
    assert "debug" !in ActionTable;
  }

  /** An action message runs the listed action on the message's `data`. */
  lemma RouteAction(parsed: Parsed)
    requires Route(parsed).Act?
    ensures parsed.Document? && Get(parsed.fields, "type").Some? && Get(parsed.fields, "type").value.JStr?
    ensures Route(parsed).kind == ActionTable[Get(parsed.fields, "type").value.s]
    ensures Some(Route(parsed).data) == Get(parsed.fields, "data")
  {
  }

  // ---------------------------------------------------------------- replies

  /** A message sent to a client: plain text, or a JSON document dumped to text. */
  datatype Outgoing = Text(text: string) | Dumped(doc: JsonValue)

  /** The text that goes over the websocket. */
  function WireText(m: Outgoing): string {
    match m
    case Text(text) => text
    case Dumped(doc) => Serialize(doc)
  }

  /** The reply to a message that is not JSON: an error and the raw message. */
  function InvalidJsonReply(message: string): JsonValue {
    JObj([("error", JStr("Invalid JSON format")), ("raw_message", JStr(message))])
  }

  /** The reply to an object without `type` or `data`. */
  function MissingFieldsReply(): JsonValue {
    JObj([("error", JStr("Message must contain 'type' and 'data' fields"))])
  }

  /** The text of a two-member object of strings up to its second value. */
  function PairPrefix(key1: string, value1: string, key2: string): string {
    "{" + (Quote(key1) + ": " + Quote(value1)) + ", " + (Quote(key2) + ": ")
  }

  lemma PairText(key1: string, value1: string, key2: string, value2: string)
    ensures Serialize(JObj([(key1, JStr(value1)), (key2, JStr(value2))])) == PairPrefix(key1, value1, key2) + Quote(value2) + "}"
  {
    SerializeObject2(key1, JStr(value1), key2, JStr(value2));
    AppendAssoc("{" + (Quote(key1) + ": " + Quote(value1)) + ", ", Quote(key2) + ": ", Quote(value2));
  }

  /** The string a text holds between a known prefix and a closing brace. */
  function Enclosed(prefix: string, text: string): Option<string> {
    if |text| > |prefix| && text[..|prefix|] == prefix && text[|text| - 1] == '}' then
      Unquote(text[|prefix|..|text| - 1])
    else
      None
  }

  lemma EnclosedOf(prefix: string, body: string)
    ensures Enclosed(prefix, prefix + body + "}") == Unquote(body)
  {
    var text := prefix + body + "}";
    assert text[..|prefix|] == prefix;
    assert text[|prefix|..|text| - 1] == body;
  }

  /** The raw message an invalid-JSON reply echoes, read back from the reply's text. */
  function EchoedMessage(text: string): Option<string> {
    Enclosed(PairPrefix("error", "Invalid JSON format", "raw_message"), text)
  }

  /** The invalid-JSON reply gives the client back exactly the message it sent, whatever characters it holds. */
  lemma EchoedMessageOfReply(message: string)
    ensures EchoedMessage(WireText(Dumped(InvalidJsonReply(message)))) == Some(message)
  {
    PairText("error", "Invalid JSON format", "raw_message", message);
    EnclosedOf(PairPrefix("error", "Invalid JSON format", "raw_message"), Quote(message));
    UnquoteQuote(message);
  }

  /** The two error replies differ, and only the invalid-JSON one carries the raw message. */
  lemma ErrorReplies(message: string)
    ensures Field(Some(InvalidJsonReply(message)), "error") == Some(JStr("Invalid JSON format"))
    ensures Field(Some(InvalidJsonReply(message)), "raw_message") == Some(JStr(message))
    ensures Field(Some(MissingFieldsReply()), "error") == Some(JStr("Message must contain 'type' and 'data' fields"))
    ensures Field(Some(MissingFieldsReply()), "raw_message").None?
  {
    GetOfPair("error", JStr("Invalid JSON format"), "raw_message", JStr(message));
    GetOfSingle("error", JStr("Message must contain 'type' and 'data' fields"));
  }

  // ---------------------------------------------------------------- effects of a message

  /** What handling one message does: the reply document sent back, if any, and the controller call made, if any. */
  datatype Effect = Effect(reply: Option<JsonValue>, call: Option<Call>)

  /**
   * The effect of a message. An action whose `data` does not bind to the method's
   * parameters makes no call (the method call fails before it sends anything).
   */
  function Handle(message: string, parsed: Parsed): Effect {
    var outcome := Route(parsed);
    var reply :=
      match outcome
      case InvalidJson => Some(InvalidJsonReply(message))
      case MissingFields => Some(MissingFieldsReply())
      case _ => None;
    Effect(reply, CallOf(outcome))
  }

  /**
   * A message gets a reply exactly when it is not JSON or lacks a field; it makes a
   * call only when it names an action whose arguments bind, and never both.
   */
  lemma HandleEffects(message: string, parsed: Parsed)
    ensures Handle(message, parsed).reply.Some? <==> Route(parsed).InvalidJson? || Route(parsed).MissingFields?
    ensures Handle(message, parsed).call.Some? <==> Route(parsed).Act? && Bind(Route(parsed).kind, Route(parsed).data).Some?
    ensures !(Handle(message, parsed).reply.Some? && Handle(message, parsed).call.Some?)
    ensures Handle(message, parsed).call.Some? ==> KindOf(Handle(message, parsed).call.value) == Route(parsed).kind
  {
    if Route(parsed).Act? {
      BindKind(Route(parsed).kind, Route(parsed).data);
    }
  }

  /**
   * The call a message with both fields makes: none for `debug` or an unlisted type,
   * otherwise the listed action bound to `data`, if it binds.
   */
  function Dispatched(messageType: JsonValue, messageData: JsonValue): Option<Call> {
    CallOf(Classify(messageType, messageData))
  }

  /** The effect of an object that has both fields is the call it dispatches, and no reply. */
  lemma HandleDocument(message: string, fields: seq<(string, JsonValue)>)
    requires "type" in Keys(fields) && "data" in Keys(fields)
    ensures Handle(message, Document(fields)) == Effect(None, Dispatched(Get(fields, "type").value, Get(fields, "data").value))
  {
  }

  /** The QMP request a message's call sends, if any. */
  function Request(e: Effect, now: DateTime): Option<JsonValue>
    requires ValidDateTime(now)
  {
    if e.call.Some? then CallCommand(e.call.value, now) else None
  }

  // ---------------------------------------------------------------- greeting

  const GreetingPrefix: string := "Hello from "

  /** The message a newly connected client receives. */
  function Greeting(hostname: string): string {
    GreetingPrefix + hostname
  }

  /** The host name a greeting names. */
  function GreetedHost(text: string): Option<string> {
    if |text| >= |GreetingPrefix| && text[..|GreetingPrefix|] == GreetingPrefix then Some(text[|GreetingPrefix|..]) else None
  }

  /** A greeting names the gateway's host, so greetings from different hosts differ. */
  lemma GreetedHostOfGreeting(hostname: string)
    ensures GreetedHost(Greeting(hostname)) == Some(hostname)
  {
    assert Greeting(hostname)[..|GreetingPrefix|] == GreetingPrefix;
    assert Greeting(hostname)[|GreetingPrefix|..] == hostname;
  }

  // ---------------------------------------------------------------- the server

  type ClientId = nat

  /** The websocket server: the controller it drives and the messages it has sent to clients. */
  class ControlServer {
    const host: string
    const port: int
    const controller: Controller
    /** Every message sent to a client, in order. */
    var outbox: seq<(ClientId, Outgoing)>
    /** Every controller method called, in order. */
    ghost var calls: seq<Call>

    /** The controller keeps its own invariant; the server adds none of its own. */
    ghost predicate Valid()
      reads this, controller
    {
      controller.Valid()
    }

    constructor ()
      ensures Valid() && fresh(controller)
      ensures host == "0.0.0.0" && port == 8007
      ensures outbox == [] && calls == []
      ensures controller.frames == [Frame(CapabilitiesCommand())]
    {
      host, port := "0.0.0.0", 8007;
      controller := new Controller();
      outbox, calls := [], [];
    }

    /** Greets a new client with the gateway's host name. */
    method OnNewClient(client: ClientId, hostname: string)
      modifies this
      ensures outbox == old(outbox) + [(client, Text(Greeting(hostname)))] && calls == old(calls)
    {
      outbox := outbox + [(client, Text("Hello from " + hostname))];
    }

    /** Sends one message back to a client. */
    method Answer(client: ClientId, reply: JsonValue)
      modifies this
      ensures outbox == old(outbox) + [(client, Dumped(reply))] && calls == old(calls)
    {
      outbox := outbox + [(client, Dumped(reply))];
    }

    /** Runs one controller method, as an action message asks. */
    method Dispatch(call: Call, now: DateTime)
      requires Valid() && ValidDateTime(now)
      modifies this, controller
      ensures Valid() && outbox == old(outbox) && calls == old(calls) + [call]
      ensures CallCommand(call, now).None? ==> controller.frames == old(controller.frames)
      ensures CallCommand(call, now).Some? ==> controller.frames == old(controller.frames) + [Frame(CallCommand(call, now).value)]
    {
      controller.Perform(call, now);
      calls := calls + [call];
    }

    /** Runs what a message with both fields asks for: nothing for `debug` or an unlisted type. */
    method RunMessage(messageType: JsonValue, messageData: JsonValue, now: DateTime)
      requires Valid() && ValidDateTime(now)
      modifies this, controller
      ensures Valid() && outbox == old(outbox)
      ensures Dispatched(messageType, messageData).None? ==> calls == old(calls) && controller.frames == old(controller.frames)
      ensures Dispatched(messageType, messageData).Some? ==>
        var call := Dispatched(messageType, messageData).value;
        calls == old(calls) + [call] &&
        (CallCommand(call, now).None? ==> controller.frames == old(controller.frames)) &&
        (CallCommand(call, now).Some? ==> controller.frames == old(controller.frames) + [Frame(CallCommand(call, now).value)])
    {
      if messageType == JStr("debug") {
      } else if messageType.JStr? && messageType.s in controller.actions {
        var call := Bind(controller.actions[messageType.s], messageData);
        if call.Some? {
          Dispatch(call.value, now);
        }
      }
    }

    /** Handles one message from a client, as `Handle` describes. */
    method OnMessageReceived(client: ClientId, message: string, parsed: Parsed, now: DateTime)
      requires Valid() && ValidDateTime(now)
      modifies this, controller
      ensures Valid()
      ensures Handle(message, parsed).reply.None? ==> outbox == old(outbox)
      ensures Handle(message, parsed).reply.Some? ==> outbox == old(outbox) + [(client, Dumped(Handle(message, parsed).reply.value))]
      ensures Handle(message, parsed).call.None? ==> calls == old(calls)
      ensures Handle(message, parsed).call.Some? ==> calls == old(calls) + [Handle(message, parsed).call.value]
      ensures Request(Handle(message, parsed), now).None? ==> controller.frames == old(controller.frames)
      ensures Request(Handle(message, parsed), now).Some? ==>
        controller.frames == old(controller.frames) + [Frame(Request(Handle(message, parsed), now).value)]
    {
      match parsed {
        case Malformed =>
          Answer(client, InvalidJsonReply(message));
        case Document(fields) =>
          if "type" !in Keys(fields) || "data" !in Keys(fields) {
            Answer(client, MissingFieldsReply());
            return;
          }
          var messageType, messageData := Get(fields, "type").value, Get(fields, "data").value;
          HandleDocument(message, fields);
          RunMessage(messageType, messageData, now);
      }
    }
  }
}
