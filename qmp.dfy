/**
 * The QEMU Machine Protocol (QMP) requests the gateway sends, how each one is framed
 * on the QMP socket, and the name a screenshot gets when the client names none.
 */
module Qmp {
  import opened Wrappers
  import opened Json

  // ---------------------------------------------------------------- request documents

  /** `{"execute": "qmp_capabilities"}`: the handshake that ends QMP capability negotiation. */
  function CapabilitiesCommand(): JsonValue {
    JObj([("execute", JStr("qmp_capabilities"))])
  }

  /** One `btn` input event; the button value is passed through as the client gave it. */
  function BtnEvent(button: JsonValue, down: bool): JsonValue {
    JObj([("type", JStr("btn")), ("data", JObj([("down", JBool(down)), ("button", button)]))])
  }

  /** An `input-send-event` request whose event list holds a single `btn` event. */
  function BtnCommand(button: JsonValue, down: bool): JsonValue {
    JObj([
      ("execute", JStr("input-send-event")),
      ("arguments", JObj([("events", JArr([BtnEvent(button, down)]))]))
    ])
  }

  /** A `screendump` request: save the guest display to `filename` in `format`. */
  function ScreendumpCommand(filename: JsonValue, format: string): JsonValue {
    JObj([
      ("execute", JStr("screendump")),
      ("arguments", JObj([("filename", filename), ("format", JStr(format))]))
    ])
  }

  // ---------------------------------------------------------------- reading requests back

  /** The member `key` of a value that is an object holding one. */
  function Field(v: Option<JsonValue>, key: string): Option<JsonValue> {
    if v.Some? && v.value.JObj? then Get(v.value.fields, key) else None
  }

  /** The command a request names in its `execute` member. */
  function CommandName(doc: JsonValue): Option<string> {
    var name := Field(Some(doc), "execute");
    if name.Some? && name.value.JStr? then Some(name.value.s) else None
  }

  /** The (down, button) pair of an `input-send-event` request that carries exactly one `btn` event. */
  function ReadBtnCommand(doc: JsonValue): Option<(bool, JsonValue)> {
    var events := Field(Field(Some(doc), "arguments"), "events");
    if CommandName(doc) == Some("input-send-event") && events.Some? && events.value.JArr? && |events.value.items| == 1 then
      var event := Some(events.value.items[0]);
      var down := Field(Field(event, "data"), "down");
      var button := Field(Field(event, "data"), "button");
      if Field(event, "type") == Some(JStr("btn")) && down.Some? && down.value.JBool? && button.Some? then
        Some((down.value.b, button.value))
      else
        None
    else
      None
  }

  /** The (filename, format) pair of a `screendump` request. */
  function ReadScreendump(doc: JsonValue): Option<(JsonValue, string)> {
    var filename := Field(Field(Some(doc), "arguments"), "filename");
    var format := Field(Field(Some(doc), "arguments"), "format");
    if CommandName(doc) == Some("screendump") && filename.Some? && format.Some? && format.value.JStr? then
      Some((filename.value, format.value.s))
    else
      None
  }

  lemma BtnFields(button: JsonValue, down: bool)
    ensures Field(Some(BtnCommand(button, down)), "execute") == Some(JStr("input-send-event"))
    ensures Field(Field(Some(BtnCommand(button, down)), "arguments"), "events") == Some(JArr([BtnEvent(button, down)]))
    ensures Field(Some(BtnEvent(button, down)), "type") == Some(JStr("btn"))
    ensures Field(Field(Some(BtnEvent(button, down)), "data"), "down") == Some(JBool(down))
    ensures Field(Field(Some(BtnEvent(button, down)), "data"), "button") == Some(button)
  {
    GetOfPair("execute", JStr("input-send-event"), "arguments", JObj([("events", JArr([BtnEvent(button, down)]))]));
    assert "type" != "data" by { assert "type"[0] != "data"[0]; }
    GetOfPair("type", JStr("btn"), "data", JObj([("down", JBool(down)), ("button", button)]));
    GetOfPair("down", JBool(down), "button", button);
  }

  lemma ScreendumpFields(filename: JsonValue, format: string)
    ensures Field(Some(ScreendumpCommand(filename, format)), "execute") == Some(JStr("screendump"))
    ensures Field(Field(Some(ScreendumpCommand(filename, format)), "arguments"), "filename") == Some(filename)
    ensures Field(Field(Some(ScreendumpCommand(filename, format)), "arguments"), "format") == Some(JStr(format))
  {
    GetOfPair("execute", JStr("screendump"), "arguments", JObj([("filename", filename), ("format", JStr(format))]));
    GetOfPair("filename", filename, "format", JStr(format));
  }

  /** Each builder names its own command, so no request is mistaken for another. */
  lemma CommandNames(button: JsonValue, down: bool, filename: JsonValue, format: string)
    ensures CommandName(CapabilitiesCommand()) == Some("qmp_capabilities")
    ensures CommandName(BtnCommand(button, down)) == Some("input-send-event")
    ensures CommandName(ScreendumpCommand(filename, format)) == Some("screendump")
  {
    assert CommandName(BtnCommand(button, down)) == Some("input-send-event") by { BtnFields(button, down); }
    assert CommandName(ScreendumpCommand(filename, format)) == Some("screendump") by { ScreendumpFields(filename, format); }
  }

  /** The decoders accept only their own command. */
  lemma ReadersRejectOtherCommands(button: JsonValue, down: bool, filename: JsonValue, format: string)
    ensures ReadBtnCommand(CapabilitiesCommand()).None? && ReadBtnCommand(ScreendumpCommand(filename, format)).None?
    ensures ReadScreendump(CapabilitiesCommand()).None? && ReadScreendump(BtnCommand(button, down)).None?
  {
    CommandNames(button, down, filename, format);
    assert "qmp_capabilities" != "input-send-event" && "screendump" != "input-send-event";
    assert "qmp_capabilities" != "screendump" && "input-send-event" != "screendump";
  }

  /** A button request carries the button unchanged and the requested state. */
  lemma ReadBtnCommandOfBtnCommand(button: JsonValue, down: bool)
    ensures ReadBtnCommand(BtnCommand(button, down)) == Some((down, button))
  {
    BtnFields(button, down);
  }

  /**
   * Two button requests are equal exactly when button and state are; in particular the
   * press and the release of one button differ, and only in the `down` flag.
   */
  lemma BtnCommandInjective(b1: JsonValue, d1: bool, b2: JsonValue, d2: bool)
    ensures BtnCommand(b1, d1) == BtnCommand(b2, d2) <==> b1 == b2 && d1 == d2
  {
    if BtnCommand(b1, d1) == BtnCommand(b2, d2) {
      ReadBtnCommandOfBtnCommand(b1, d1);
      ReadBtnCommandOfBtnCommand(b2, d2);
    }
  }

  /** A screendump request carries the filename unchanged and the format. */
  lemma ReadScreendumpOfScreendumpCommand(filename: JsonValue, format: string)
    ensures ReadScreendump(ScreendumpCommand(filename, format)) == Some((filename, format))
  {
    ScreendumpFields(filename, format);
  }

  // ---------------------------------------------------------------- framing

  /** One request as a send writes it: the document's JSON text followed by a newline. */
  function Frame(doc: JsonValue): string {
    Serialize(doc) + "\n"
  }

  /** A frame is one line: printable ASCII up to a single newline at its end. */
  lemma FrameIsOneLine(doc: JsonValue)
    ensures |Frame(doc)| >= 1 && Frame(doc)[|Frame(doc)| - 1] == '\n'
    ensures forall i :: 0 <= i < |Frame(doc)| - 1 ==> Frame(doc)[i] != '\n' && IsPrintable(Frame(doc)[i])
  {
    assert forall i :: 0 <= i < |Frame(doc)| - 1 ==> Frame(doc)[i] == Serialize(doc)[i];
  }

  /** The characters on the socket after a sequence of sends. */
  function Stream(frames: seq<string>): string {
    if frames == [] then "" else frames[0] + Stream(frames[1..])
  }

  /** The frames written for a sequence of requests. */
  function Frames(docs: seq<JsonValue>): (fs: seq<string>)
    ensures |fs| == |docs| && forall i :: 0 <= i < |docs| ==> fs[i] == Frame(docs[i])
  {
    seq(|docs|, i requires 0 <= i < |docs| => Frame(docs[i]))
  }

  lemma FramesAppend(docs: seq<JsonValue>, doc: JsonValue)
    ensures Frames(docs + [doc]) == Frames(docs) + [Frame(doc)]
  {
    var longer := docs + [doc];
    forall i | 0 <= i < |longer|
      ensures Frames(longer)[i] == (Frames(docs) + [Frame(doc)])[i]
    {
      if i < |docs| {
        assert longer[i] == docs[i];
      }
    }
  }

  /** The JSON texts of a sequence of requests. */
  function Texts(docs: seq<JsonValue>): (ts: seq<string>)
    ensures |ts| == |docs| && forall i :: 0 <= i < |docs| ==> ts[i] == Serialize(docs[i])
  {
    seq(|docs|, i requires 0 <= i < |docs| => Serialize(docs[i]))
  }

  /** The position of the first newline in `s`, or `|s|` when there is none. */
  function NewlineIndex(s: string): (i: nat)
    ensures i <= |s| && (i < |s| ==> s[i] == '\n')
    ensures forall j :: 0 <= j < i ==> s[j] != '\n'
  {
    if s == [] || s[0] == '\n' then 0 else 1 + NewlineIndex(s[1..])
  }

  /** The newline-terminated lines of a stream, without their newlines; text after the last newline is not yet a line. */
  function Lines(s: string): seq<string>
    decreases |s|
  {
    var i := NewlineIndex(s);
    if i == |s| then [] else [s[..i]] + Lines(s[i + 1..])
  }

  lemma LinesOfLine(text: string, rest: string)
    requires forall j :: 0 <= j < |text| ==> text[j] != '\n'
    ensures Lines(text + "\n" + rest) == [text] + Lines(rest)
  {
    var s := text + "\n" + rest;
    var i := NewlineIndex(s);
    assert s[|text|] == '\n';
    assert i == |text|;
    assert s[..i] == text;
    assert s[i + 1..] == rest;
  }

  /** Reading the socket line by line gives back exactly the JSON texts of the requests, in the order sent. */
  lemma {:induction false} LinesOfStream(docs: seq<JsonValue>)
    ensures Lines(Stream(Frames(docs))) == Texts(docs)
  {
    if docs != [] {
      LinesOfStream(docs[1..]);
      assert Frames(docs)[1..] == Frames(docs[1..]);
      assert Texts(docs) == [Serialize(docs[0])] + Texts(docs[1..]);
      LinesOfLine(Serialize(docs[0]), Stream(Frames(docs[1..])));
    }
  }

  // ---------------------------------------------------------------- time stamps

  /** A date and time as Python's `datetime` holds it. */
  datatype DateTime = DateTime(year: int, month: int, day: int, hour: int, minute: int, second: int, microsecond: int)

  predicate IsLeapYear(y: int) {
    y % 4 == 0 && (y % 100 != 0 || y % 400 == 0)
  }

  function DaysInMonth(y: int, m: int): int
    requires 1 <= m <= 12
  {
    if m == 2 then (if IsLeapYear(y) then 29 else 28)
    else if m == 4 || m == 6 || m == 9 || m == 11 then 30
    else 31
  }

  /** A valid `datetime` whose year has four digits. */
  predicate ValidDateTime(t: DateTime) {
    1000 <= t.year <= 9999 && 1 <= t.month <= 12 && 1 <= t.day <= DaysInMonth(t.year, t.month)
    && 0 <= t.hour < 24 && 0 <= t.minute < 60 && 0 <= t.second < 60 && 0 <= t.microsecond < 1000000
  }

  function Pow10(w: nat): (p: nat)
    ensures p >= 1
  {
    if w == 0 then 1 else 10 * Pow10(w - 1)
  }

  /** `n` in exactly `w` decimal digits with leading zeros, as `strftime` writes its numeric fields. */
  function Pad(n: nat, w: nat): (r: string)
    requires n < Pow10(w)
    ensures |r| == w && forall i :: 0 <= i < w ==> '0' <= r[i] <= '9'
  {
    if w == 0 then "" else Pad(n / 10, w - 1) + [DigitChar(n % 10)]
  }

  predicate AllDigits(s: string) {
    forall i :: 0 <= i < |s| ==> '0' <= s[i] <= '9'
  }

  lemma DigitsSlice(s: string, i: nat, j: nat)
    requires AllDigits(s) && i <= j <= |s|
    ensures AllDigits(s[i..j])
  {
  }

  /** The number a string of decimal digits stands for. */
  function DigitsValue(s: string): nat
    requires AllDigits(s)
  {
    if s == [] then 0 else DigitsValue(s[..|s| - 1]) * 10 + (s[|s| - 1] as int - '0' as int)
  }

  /** Padding loses nothing: the digits read back as the number. */
  lemma {:induction false} DigitsValueOfPad(n: nat, w: nat)
    requires n < Pow10(w)
    ensures DigitsValue(Pad(n, w)) == n
  {
    if w > 0 {
      DigitsValueOfPad(n / 10, w - 1);
      var r := Pad(n, w);
      assert r[..|r| - 1] == Pad(n / 10, w - 1);
    }
  }

  /** Year, month and day (or hour, minute and second) run together, the first in `w` digits. */
  function Triple(a: nat, b: nat, c: nat, w: nat): (r: string)
    requires a < Pow10(w) && b < 100 && c < 100
    ensures |r| == w + 4 && AllDigits(r)
  {
    Pad(a, w) + Pad(b, 2) + Pad(c, 2)
  }

  /** Reads back the three numbers of a `Triple` text. */
  function ReadTriple(s: string, w: nat): (nat, nat, nat)
    requires |s| == w + 4 && AllDigits(s)
  {
    DigitsSlice(s, 0, w);
    DigitsSlice(s, w, w + 2);
    DigitsSlice(s, w + 2, w + 4);
    (DigitsValue(s[0..w]), DigitsValue(s[w..w + 2]), DigitsValue(s[w + 2..w + 4]))
  }

  lemma ReadTripleOfTriple(a: nat, b: nat, c: nat, w: nat)
    requires a < Pow10(w) && b < 100 && c < 100
    ensures ReadTriple(Triple(a, b, c, w), w) == (a, b, c)
  {
    var s := Triple(a, b, c, w);
    assert s[0..w] == Pad(a, w) && s[w..w + 2] == Pad(b, 2) && s[w + 2..w + 4] == Pad(c, 2);
    DigitsValueOfPad(a, w);
    DigitsValueOfPad(b, 2);
    DigitsValueOfPad(c, 2);
  }

  /** `strftime("%Y%m%d_%H%M%S_%f")`: date, underscore, time, underscore, six digits of microseconds. */
  function StrfTime(t: DateTime): (r: string)
    requires ValidDateTime(t)
    ensures |r| == 22
  {
    Triple(t.year, t.month, t.day, 4) + "_" + Triple(t.hour, t.minute, t.second, 2) + "_" + Pad(t.microsecond, 6)
  }

  /** The formatted time is eight date digits, an underscore, six time digits, an underscore and six microsecond digits. */
  lemma StrfTimeLayout(t: DateTime)
    requires ValidDateTime(t)
    ensures StrfTime(t)[8] == '_' && StrfTime(t)[15] == '_'
    ensures AllDigits(StrfTime(t)[..8]) && AllDigits(StrfTime(t)[9..15]) && AllDigits(StrfTime(t)[16..])
  {
    var date, time, micro := Triple(t.year, t.month, t.day, 4), Triple(t.hour, t.minute, t.second, 2), Pad(t.microsecond, 6);
    var r := StrfTime(t);
    assert r == date + "_" + time + "_" + micro;
    assert r[..8] == date && r[9..15] == time && r[16..] == micro;
  }

  /** The capture timestamp: the formatted time with its last three characters dropped. */
  function Timestamp(t: DateTime): (ts: string)
    requires ValidDateTime(t)
    ensures |ts| == 19
  {
    var full := StrfTime(t);
    full[..|full| - 3]
  }

  /** What a timestamp records: the date and the time to the millisecond. */
  datatype Stamp = Stamp(year: int, month: int, day: int, hour: int, minute: int, second: int, millisecond: int)

  function StampOf(t: DateTime): Stamp {
    Stamp(t.year, t.month, t.day, t.hour, t.minute, t.second, t.microsecond / 1000)
  }

  predicate ValidStamp(s: Stamp) {
    0 <= s.year < 10000 && 0 <= s.month < 100 && 0 <= s.day < 100
    && 0 <= s.hour < 100 && 0 <= s.minute < 100 && 0 <= s.second < 100 && 0 <= s.millisecond < 1000
  }

  /** The text of a stamp: `%Y%m%d_%H%M%S_` and three digits of milliseconds. */
  function StampText(s: Stamp): (r: string)
    requires ValidStamp(s)
    ensures |r| == 19
  {
    Triple(s.year, s.month, s.day, 4) + "_" + Triple(s.hour, s.minute, s.second, 2) + "_" + Pad(s.millisecond, 3)
  }

  /** The first three of six microsecond digits are the milliseconds. */
  lemma MillisecondDigits(us: nat)
    requires us < 1000000
    ensures Pad(us, 6)[..3] == Pad(us / 1000, 3)
  {
    assert us / 10 / 10 == us / 100;
    assert us / 100 / 10 == us / 1000;
    var p := Pad(us, 6);
    assert p[..5] == Pad(us / 10, 5);
    assert p[..4] == Pad(us / 10, 5)[..4] == Pad(us / 100, 4);
    assert p[..3] == Pad(us / 100, 4)[..3] == Pad(us / 1000, 3);
  }

  /** Dropping the last three characters truncates the time to the millisecond. */
  lemma TimestampIsStampText(t: DateTime)
    requires ValidDateTime(t)
    ensures ValidStamp(StampOf(t)) && Timestamp(t) == StampText(StampOf(t))
  {
    var head := Triple(t.year, t.month, t.day, 4) + "_" + Triple(t.hour, t.minute, t.second, 2) + "_";
    var full := StrfTime(t);
    assert full == head + Pad(t.microsecond, 6);
    MillisecondDigits(t.microsecond);
    assert full[..19] == head + Pad(t.microsecond, 6)[..3];
  }

  /** Reads a timestamp back into the stamp it records. */
  function ReadTimestamp(ts: string): Option<Stamp> {
    if |ts| == 19 && ts[8] == '_' && ts[15] == '_' && AllDigits(ts[..8]) && AllDigits(ts[9..15]) && AllDigits(ts[16..]) then
      var (y, mo, d) := ReadTriple(ts[..8], 4);
      var (h, mi, se) := ReadTriple(ts[9..15], 2);
      Some(Stamp(y, mo, d, h, mi, se, DigitsValue(ts[16..])))
    else
      None
  }

  lemma ReadStampText(s: Stamp)
    requires ValidStamp(s)
    ensures ReadTimestamp(StampText(s)) == Some(s)
  {
    var date, time := Triple(s.year, s.month, s.day, 4), Triple(s.hour, s.minute, s.second, 2);
    var ms := Pad(s.millisecond, 3);
    var ts := StampText(s);
    assert ts == date + "_" + time + "_" + ms;
    assert ts[..8] == date && ts[9..15] == time && ts[16..] == ms;
    ReadTripleOfTriple(s.year, s.month, s.day, 4);
    ReadTripleOfTriple(s.hour, s.minute, s.second, 2);
    DigitsValueOfPad(s.millisecond, 3);
  }

  /** Two times give the same timestamp exactly when they agree to the millisecond. */
  lemma TimestampInjective(t1: DateTime, t2: DateTime)
    requires ValidDateTime(t1) && ValidDateTime(t2)
    ensures Timestamp(t1) == Timestamp(t2) <==> StampOf(t1) == StampOf(t2)
  {
    TimestampIsStampText(t1);
    TimestampIsStampText(t2);
    ReadStampText(StampOf(t1));
    ReadStampText(StampOf(t2));
  }

  // ---------------------------------------------------------------- screenshot file names

  const ScreenshotPrefix: string := "/shared/screenshot_"

  /** The name a screenshot taken at `t` gets when the client gives none. */
  function DefaultFilename(t: DateTime, format: string): (name: string)
    requires ValidDateTime(t)
    ensures |name| == |ScreenshotPrefix| + 19 + 1 + |format|
    ensures name[..|ScreenshotPrefix|] == ScreenshotPrefix
    ensures name[|ScreenshotPrefix|..|ScreenshotPrefix| + 19] == Timestamp(t)
    ensures name[|name| - |format| - 1..] == "." + format
  {
    ScreenshotPrefix + Timestamp(t) + "." + format
  }

  /** Default names are distinct for captures in different milliseconds or formats, and equal otherwise. */
  lemma DefaultFilenameInjective(t1: DateTime, f1: string, t2: DateTime, f2: string)
    requires ValidDateTime(t1) && ValidDateTime(t2)
    ensures DefaultFilename(t1, f1) == DefaultFilename(t2, f2) <==> StampOf(t1) == StampOf(t2) && f1 == f2
  {
    var n1, n2 := DefaultFilename(t1, f1), DefaultFilename(t2, f2);
    var p := |ScreenshotPrefix|;
    assert n1[p..p + 19] == Timestamp(t1) && n2[p..p + 19] == Timestamp(t2);
    assert n1[p + 20..] == f1 && n2[p + 20..] == f2;
    TimestampInjective(t1, t2);
  }

  /** The filename a screendump is sent with: the client's when it is truthy, the default name otherwise. */
  function ResolveFilename(filename: JsonValue, format: string, now: DateTime): (r: JsonValue)
    requires ValidDateTime(now)
    ensures Truthy(r)
    ensures Truthy(filename) ==> r == filename
  {
    if Truthy(filename) then filename else JStr(DefaultFilename(now, format))
  }

  /** An absent or empty filename is replaced by the default name for the capture time. */
  lemma ResolveMissingFilename(filename: JsonValue, format: string, now: DateTime)
    requires ValidDateTime(now) && !Truthy(filename)
    ensures ReadScreendump(ScreendumpCommand(ResolveFilename(filename, format, now), format))
      == Some((JStr(ScreenshotPrefix + Timestamp(now) + "." + format), format))
  {
    ReadScreendumpOfScreendumpCommand(JStr(DefaultFilename(now, format)), format);
  }

  /** Resolving twice changes nothing: a resolved name is kept whatever the time. */
  lemma ResolveFilenameIdempotent(filename: JsonValue, format: string, now: DateTime, later: DateTime)
    requires ValidDateTime(now) && ValidDateTime(later)
    ensures ResolveFilename(ResolveFilename(filename, format, now), format, later) == ResolveFilename(filename, format, now)
  {
  }
}
