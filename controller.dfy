/**
 * The gateway's QMP client: the table of actions a websocket client may request,
 * how a request's `data` object binds to an action's keyword parameters, and the
 * `Controller`, whose state is everything it has written to the QMP socket.
 */
module QmpController {
  import opened Wrappers
  import opened Json
  import opened Qmp

  // ---------------------------------------------------------------- the actions table

  /** The eight actions a client may request. */
  datatype ActionKind =
    | MouseBtnDown
    | MouseBtnUp
    | MouseMove
    | MousePosition
    | MouseScroll
    | KeyboardKeyDown
    | KeyboardKeyUp
    | Screenshot

  /** The name under which an action is listed. */
  function ActionName(k: ActionKind): string {
    match k
    case MouseBtnDown => "mouse_btn_down"
    case MouseBtnUp => "mouse_btn_up"
    case MouseMove => "mouse_move"
    case MousePosition => "mouse_position"
    case MouseScroll => "mouse_scroll"
    case KeyboardKeyDown => "keyboard_key_down"
    case KeyboardKeyUp => "keyboard_key_up"
    case Screenshot => "screenshot"
  }

  /** The controller's `actions` table: message type to action. */
  const ActionTable: map<string, ActionKind> := map[
    "mouse_btn_down" := MouseBtnDown,
    "mouse_btn_up" := MouseBtnUp,
    "mouse_move" := MouseMove,
    "mouse_position" := MousePosition,
    "mouse_scroll" := MouseScroll,
    "keyboard_key_down" := KeyboardKeyDown,
    "keyboard_key_up" := KeyboardKeyUp,
    "screenshot" := Screenshot
  ]

  /** Every action is listed under its own name. */
  lemma ActionTableListsEveryAction(k: ActionKind)
    ensures ActionName(k) in ActionTable && ActionTable[ActionName(k)] == k
  {
  }

  /** Every listed name is the name of the action it leads to, so the table holds exactly the eight actions. */
  lemma ActionTableHoldsOnlyActions()
    ensures forall name :: name in ActionTable ==> ActionName(ActionTable[name]) == name
    ensures |ActionTable| == 8
  {
  }

  // ---------------------------------------------------------------- binding keyword arguments

  /** One call of an action method with its arguments bound; values are passed on as the client sent them. */
  datatype Call =
    | BtnDown(btn: JsonValue)
    | BtnUp(btn: JsonValue)
    | Move(x: JsonValue, y: JsonValue)
    | Position(x: JsonValue, y: JsonValue)
    | Scroll(x: JsonValue, y: JsonValue)
    | KeyDown(key: JsonValue)
    | KeyUp(key: JsonValue)
    | Shot(filename: JsonValue, fileFormat: string)

  /** The keyword parameters of an action's method. */
  function Params(k: ActionKind): set<string> {
    match k
    case MouseBtnDown | MouseBtnUp => {"btn"}
    case MouseMove | MousePosition | MouseScroll => {"x", "y"}
    case KeyboardKeyDown | KeyboardKeyUp => {"key"}
    case Screenshot => {"filename", "file_format"}
  }

  /** The parameters without a default value. */
  function Required(k: ActionKind): set<string> {
    if k == Screenshot then {} else Params(k)
  }

  /** The value passed for a parameter the client supplied. */
  function Arg(fields: seq<(string, JsonValue)>, name: string): JsonValue
    requires name in Keys(fields)
  {
    Get(fields, name).value
  }

  /**
   * Calls the action's method with `data` as keyword arguments (`f(**data)`). The call
   * fails, and nothing is sent, when `data` is not an object, names a parameter the method
   * does not have, or leaves out one without a default. `screenshot` defaults its file
   * name to none and its format to `"png"`.
   */
  function Bind(k: ActionKind, data: JsonValue): Option<Call> {
    if !data.JObj? || !(Required(k) <= Keys(data.fields) <= Params(k)) then None
    else
      var fields := data.fields;
      match k
      case MouseBtnDown => Some(BtnDown(Arg(fields, "btn")))
      case MouseBtnUp => Some(BtnUp(Arg(fields, "btn")))
      case MouseMove => Some(Move(Arg(fields, "x"), Arg(fields, "y")))
      case MousePosition => Some(Position(Arg(fields, "x"), Arg(fields, "y")))
      case MouseScroll => Some(Scroll(Arg(fields, "x"), Arg(fields, "y")))
      case KeyboardKeyDown => Some(KeyDown(Arg(fields, "key")))
      case KeyboardKeyUp => Some(KeyUp(Arg(fields, "key")))
      case Screenshot =>
        var filename := if "filename" in Keys(fields) then Arg(fields, "filename") else JNull;
        var format := if "file_format" in Keys(fields) then Arg(fields, "file_format") else JStr("png");
        if format.JStr? then Some(Shot(filename, format.s)) else None
  }

  /** The action a call belongs to. */
  function KindOf(c: Call): ActionKind {
    match c
    case BtnDown(_) => MouseBtnDown
    case BtnUp(_) => MouseBtnUp
    case Move(_, _) => MouseMove
    case Position(_, _) => MousePosition
    case Scroll(_, _) => MouseScroll
    case KeyDown(_) => KeyboardKeyDown
    case KeyUp(_) => KeyboardKeyUp
    case Shot(_, _) => Screenshot
  }

  /** The keyword arguments that make the call, spelled out in full. */
  function ArgsOf(c: Call): JsonValue {
    match c
    case BtnDown(b) => JObj([("btn", b)])
    case BtnUp(b) => JObj([("btn", b)])
    case Move(x, y) => JObj([("x", x), ("y", y)])
    case Position(x, y) => JObj([("x", x), ("y", y)])
    case Scroll(x, y) => JObj([("x", x), ("y", y)])
    case KeyDown(key) => JObj([("key", key)])
    case KeyUp(key) => JObj([("key", key)])
    case Shot(f, fmt) => JObj([("filename", f), ("file_format", JStr(fmt))])
  }

  /** Binding the call's own arguments gives the call back: every call can be requested. */
  lemma BindArgsOf(c: Call)
    ensures Bind(KindOf(c), ArgsOf(c)) == Some(c)
  {
    match c
    case BtnDown(b) => BindSingleArg(MouseBtnDown, "btn", b);
    case BtnUp(b) => BindSingleArg(MouseBtnUp, "btn", b);
    case KeyDown(key) => BindSingleArg(KeyboardKeyDown, "key", key);
    case KeyUp(key) => BindSingleArg(KeyboardKeyUp, "key", key);
    case Move(x, y) => BindPointArgs(MouseMove, x, y);
    case Position(x, y) => BindPointArgs(MousePosition, x, y);
    case Scroll(x, y) => BindPointArgs(MouseScroll, x, y);
    case Shot(f, fmt) => GetOfPair("filename", f, "file_format", JStr(fmt));
  }

  lemma BindSingleArg(k: ActionKind, name: string, v: JsonValue)
    requires Params(k) == {name} && k != Screenshot
    ensures Bind(k, JObj([(name, v)])).Some?
    ensures k.MouseBtnDown? ==> Bind(k, JObj([(name, v)])).value == BtnDown(v)
    ensures k.MouseBtnUp? ==> Bind(k, JObj([(name, v)])).value == BtnUp(v)
    ensures k.KeyboardKeyDown? ==> Bind(k, JObj([(name, v)])).value == KeyDown(v)
    ensures k.KeyboardKeyUp? ==> Bind(k, JObj([(name, v)])).value == KeyUp(v)
  {
    GetOfSingle(name, v);
  }

  lemma BindPointArgs(k: ActionKind, x: JsonValue, y: JsonValue)
    requires k.MouseMove? || k.MousePosition? || k.MouseScroll?
    ensures Bind(k, JObj([("x", x), ("y", y)])).Some?
    ensures k.MouseMove? ==> Bind(k, JObj([("x", x), ("y", y)])).value == Move(x, y)
    ensures k.MousePosition? ==> Bind(k, JObj([("x", x), ("y", y)])).value == Position(x, y)
    ensures k.MouseScroll? ==> Bind(k, JObj([("x", x), ("y", y)])).value == Scroll(x, y)
  {
    GetOfPair("x", x, "y", y);
  }

  /** A bound call is a call of the requested action. */
  lemma BindKind(k: ActionKind, data: JsonValue)
    ensures Bind(k, data).Some? ==> KindOf(Bind(k, data).value) == k
  {
  }

  /**
   * When binding succeeds: exactly when `data` is an object naming every required
   * parameter and nothing else, and, for a screenshot, any format given is a string.
   */
  lemma BindSucceeds(k: ActionKind, data: JsonValue)
    ensures Bind(k, data).Some? <==>
      data.JObj? && Required(k) <= Keys(data.fields) <= Params(k)
      && (k == Screenshot && "file_format" in Keys(data.fields) ==> Arg(data.fields, "file_format").JStr?)
  {
  }

  /**
   * Each screenshot parameter the client leaves out takes its own default (no file
   * name, format `"png"`), and each one it supplies is passed on as given; with no
   * arguments at all the call is an unnamed PNG capture.
   */
  lemma BindScreenshotDefaults(data: JsonValue)
    ensures Bind(Screenshot, JObj([])) == Some(Shot(JNull, "png"))
    ensures Bind(Screenshot, data).Some? ==> data.JObj? && Bind(Screenshot, data).value.Shot?
    ensures Bind(Screenshot, data).Some? && "filename" !in Keys(data.fields) ==>
      Bind(Screenshot, data).value.filename == JNull
    ensures Bind(Screenshot, data).Some? && "filename" in Keys(data.fields) ==>
      Some(Bind(Screenshot, data).value.filename) == Get(data.fields, "filename")
    ensures Bind(Screenshot, data).Some? && "file_format" !in Keys(data.fields) ==>
      Bind(Screenshot, data).value.fileFormat == "png"
    ensures Bind(Screenshot, data).Some? && "file_format" in Keys(data.fields) ==>
      Some(JStr(Bind(Screenshot, data).value.fileFormat)) == Get(data.fields, "file_format")
  {
    assert Keys([]) == {};
  }

  // ---------------------------------------------------------------- what a call sends

  /** The QMP request a call sends, if any: the mouse-button and screenshot actions send one, the others are stubs. */
  function CallCommand(c: Call, now: DateTime): Option<JsonValue>
    requires ValidDateTime(now)
  {
    match c
    case BtnDown(b) => Some(BtnCommand(b, true))
    case BtnUp(b) => Some(BtnCommand(b, false))
    case Shot(f, fmt) => Some(ScreendumpCommand(ResolveFilename(f, fmt, now), fmt))
    case _ => None
  }

  /** What each request carries: the button and its new state, or the resolved file name and the format. */
  lemma CallCommandCarries(c: Call, now: DateTime)
    requires ValidDateTime(now)
    ensures c.BtnDown? ==> CallCommand(c, now).Some? && ReadBtnCommand(CallCommand(c, now).value) == Some((true, c.btn))
    ensures c.BtnUp? ==> CallCommand(c, now).Some? && ReadBtnCommand(CallCommand(c, now).value) == Some((false, c.btn))
    ensures c.Shot? ==> (CallCommand(c, now).Some?
      && ReadScreendump(CallCommand(c, now).value) == Some((ResolveFilename(c.filename, c.fileFormat, now), c.fileFormat)))
    ensures CallCommand(c, now).None? <==> !(c.BtnDown? || c.BtnUp? || c.Shot?)
  {
    match c
    case BtnDown(b) => ReadBtnCommandOfBtnCommand(b, true);
    case BtnUp(b) => ReadBtnCommandOfBtnCommand(b, false);
    case Shot(f, fmt) => ReadScreendumpOfScreendumpCommand(ResolveFilename(f, fmt, now), fmt);
    case _ =>
  }

  /** No action sends a second handshake. */
  lemma CallCommandIsNoHandshake(c: Call, now: DateTime)
    requires ValidDateTime(now) && CallCommand(c, now).Some?
    ensures CommandName(CallCommand(c, now).value) != Some("qmp_capabilities")
  {
    match c
    case BtnDown(b) => CommandNames(b, true, JNull, "");
    case BtnUp(b) => CommandNames(b, false, JNull, "");
    case Shot(f, fmt) => CommandNames(JNull, false, ResolveFilename(f, fmt, now), fmt);
  }

  // ---------------------------------------------------------------- the controller

  /** A log of requests that starts with a handshake and never repeats it. */
  ghost predicate HandshakeOnce(sent: seq<JsonValue>) {
    |sent| >= 1 && CommandName(sent[0]) == Some("qmp_capabilities")
    && forall i :: 1 <= i < |sent| ==> CommandName(sent[i]) != Some("qmp_capabilities")
  }

  lemma HandshakeOnceAppend(sent: seq<JsonValue>, doc: JsonValue)
    requires HandshakeOnce(sent) && CommandName(doc) != Some("qmp_capabilities")
    ensures HandshakeOnce(sent + [doc])
  {
    var longer := sent + [doc];
    forall i | 1 <= i < |longer|
      ensures CommandName(longer[i]) != Some("qmp_capabilities")
    {
      if i < |sent| {
        assert longer[i] == sent[i];
      }
    }
  }

  /** The QMP client: what it has written to the socket and how many replies it has read. */
  class Controller {
    const qmpHost: string
    const qmpPort: int
    /** Every frame written to the QMP socket, in order. */
    var frames: seq<string>
    /** How many replies have been read from the socket. */
    var replies: nat
    /** The actions table, set when the controller is built. */
    const actions: map<string, ActionKind>
    /** The requests behind `frames`. */
    ghost var sent: seq<JsonValue>

    /**
     * The handshake was written first and only once, every frame is one request's
     * JSON text and a newline, each send was followed by one read, and the actions
     * table is in place.
     */
    ghost predicate Valid()
      reads this
    {
      HandshakeOnce(sent) && frames == Frames(sent) && replies == |frames| && actions == ActionTable
    }

    /**
     * Connects, sets the actions table and performs the handshake. Whether the table is
     * set before or after the handshake cannot be observed here, since nothing reads it
     * in between.
     */
    constructor ()
      ensures Valid()
      ensures qmpHost == "localhost" && qmpPort == 4444
      ensures frames == [Frame(CapabilitiesCommand())] && replies == 1
    {
      qmpHost, qmpPort := "localhost", 4444;
      frames, replies, sent := [], 0, [];
      actions := ActionTable;
      new;
      CommandNames(JNull, false, JNull, "");
      FramesAppend([], CapabilitiesCommand());
      SendToQmpSocket(CapabilitiesCommand());
    }

    /** Writes one request as its JSON text and a newline, then reads one reply. */
    method SendToQmpSocket(doc: JsonValue)
      modifies this
      ensures frames == old(frames) + [Frame(doc)] && replies == old(replies) + 1
      ensures sent == old(sent) + [doc]
    {
      frames := frames + [Frame(doc)];
      replies := replies + 1;
      sent := sent + [doc];
    }

    /** Sends a request that is not a handshake, keeping `Valid`. */
    method Send(doc: JsonValue)
      requires Valid() && CommandName(doc) != Some("qmp_capabilities")
      modifies this
      ensures Valid()
      ensures frames == old(frames) + [Frame(doc)] && sent == old(sent) + [doc]
    {
      HandshakeOnceAppend(sent, doc);
      FramesAppend(sent, doc);
      SendToQmpSocket(doc);
    }

    method MouseBtnDown(btn: JsonValue)
      requires Valid()
      modifies this
      ensures Valid()
      ensures frames == old(frames) + [Frame(BtnCommand(btn, true))]
    {
      CommandNames(btn, true, JNull, "");
      Send(BtnCommand(btn, true));
    }

    method MouseBtnUp(btn: JsonValue)
      requires Valid()
      modifies this
      ensures Valid()
      ensures frames == old(frames) + [Frame(BtnCommand(btn, false))]
    {
      CommandNames(btn, false, JNull, "");
      Send(BtnCommand(btn, false));
    }

    method MouseMove(x: JsonValue, y: JsonValue)
      ensures frames == old(frames)
    {
    }

    method MousePosition(x: JsonValue, y: JsonValue)
      ensures frames == old(frames)
    {
    }

    method MouseScroll(x: JsonValue, y: JsonValue)
      ensures frames == old(frames)
    {
    }

    method KeyboardKeyDown(key: JsonValue)
      ensures frames == old(frames)
    {
    }

    method KeyboardKeyUp(key: JsonValue)
      ensures frames == old(frames)
    {
    }

    /** Saves the display; with no (or an empty) file name the capture is named after `now`. */
    method Screenshot(filename: JsonValue, fileFormat: string, now: DateTime)
      requires Valid() && ValidDateTime(now)
      modifies this
      ensures Valid()
      ensures frames == old(frames) + [Frame(ScreendumpCommand(ResolveFilename(filename, fileFormat, now), fileFormat))]
    {
      var name := filename;
      if !Truthy(filename) {
        var timestamp := Timestamp(now);
        name := JStr(ScreenshotPrefix + timestamp + "." + fileFormat);
      }
      CommandNames(JNull, false, name, fileFormat);
      Send(ScreendumpCommand(name, fileFormat));
    }

    /** Runs the method the call names, as `actions[type](**data)` does. */
    method Perform(c: Call, now: DateTime)
      requires Valid() && ValidDateTime(now)
      modifies this
      ensures Valid()
      ensures CallCommand(c, now).None? ==> frames == old(frames)
      ensures CallCommand(c, now).Some? ==> frames == old(frames) + [Frame(CallCommand(c, now).value)]
    {
      match c
      case BtnDown(b) => MouseBtnDown(b);
      case BtnUp(b) => MouseBtnUp(b);
      case Move(x, y) => MouseMove(x, y);
      case Position(x, y) => MousePosition(x, y);
      case Scroll(x, y) => MouseScroll(x, y);
      case KeyDown(key) => KeyboardKeyDown(key);
      case KeyUp(key) => KeyboardKeyUp(key);
      case Shot(f, fmt) => Screenshot(f, fmt, now);
    }
  }

  /** The handshake is the first line on the socket and no later line repeats it. */
  lemma HandshakeFirstAndOnce(c: Controller)
    requires c.Valid()
    ensures Lines(Stream(c.frames)) == Texts(c.sent)
    ensures CommandName(c.sent[0]) == Some("qmp_capabilities")
    ensures forall i :: 1 <= i < |c.sent| ==> c.sent[i] != CapabilitiesCommand()
  {
    LinesOfStream(c.sent);
    CommandNames(JNull, false, JNull, "");
  }
}
