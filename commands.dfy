/**
 * The command encoder of the J-Tech matrix client: the four functions that
 * turn a request into the exact ASCII frame sent to the switcher.  Every
 * frame ends in a single carriage return; `source` is clamped into 1..8,
 * `zone` is passed through as given.
 *
 * `Decode` is a reference reading of frames (what the device is expected to
 * understand); the round-trip lemma shows the frames are unambiguous.
 */
module Commands {
  import opened Wrappers
  import opened Decimal

  const CR: char := '\r'
  const MinSource: int := 1
  const MaxSource: int := 8

  /** The source as the encoder sends it: raised to 1 if below, lowered to 8 if above. */
  function ClampSource(source: int): (r: int)
    ensures MinSource <= r <= MaxSource
    ensures MinSource <= source <= MaxSource ==> r == source
    ensures source < MinSource ==> r == MinSource
    ensures source > MaxSource ==> r == MaxSource
  {
    var low := if source < 8 then source else 8;
    if 1 > low then 1 else low
  }

  /** The status query: `Status`, the zone in decimal, a dot, a carriage return. */
  function FormatZoneStatusRequest(zone: int): string {
    "Status" + IntToDecimal(zone) + ".\r"
  }

  /** Power on is the zone followed by `@`, power off the zone followed by `$`; then dot and carriage return. */
  function FormatSetZonePower(zone: int, power: bool): string {
    IntToDecimal(zone) + (if power then "@" else "$") + ".\r"
  }

  /** Routing one zone: the clamped source, `B`, the zone, dot and carriage return. */
  function FormatSetZoneSource(zone: int, source: int): string {
    IntToDecimal(ClampSource(source)) + "B" + IntToDecimal(zone) + ".\r"
  }

  /** Routing every zone: the clamped source, `All`, dot and carriage return. */
  function FormatSetAllZoneSource(source: int): string {
    IntToDecimal(ClampSource(source)) + "All.\r"
  }

  /** A request as the caller states it. */
  datatype Command =
    | StatusQuery(zone: int)
    | SetPower(zone: int, on: bool)
    | SetSource(zone: int, source: int)
    | SetAllSource(source: int)

  function Encode(cmd: Command): string {
    match cmd
    case StatusQuery(zone) => FormatZoneStatusRequest(zone)
    case SetPower(zone, on) => FormatSetZonePower(zone, on)
    case SetSource(zone, source) => FormatSetZoneSource(zone, source)
    case SetAllSource(source) => FormatSetAllZoneSource(source)
  }

  /** The request as it reaches the device: sources clamped, zones untouched. */
  function Normalize(cmd: Command): Command {
    match cmd
    case SetSource(zone, source) => SetSource(zone, ClampSource(source))
    case SetAllSource(source) => SetAllSource(ClampSource(source))
    case _ => cmd
  }

  /** Reads a frame back into a request, or `None` if it is not a well-formed frame. */
  function Decode(frame: string): Option<Command> {
    if |frame| < 2 || frame[|frame| - 2..] != ".\r" then None
    else DecodeBody(frame[..|frame| - 2])
  }

  /** Reads the part of a frame before its closing `.` and carriage return. */
  function DecodeBody(body: string): Option<Command> {
    if |body| >= 6 && body[..6] == "Status" then
      match ParseInt(body[6..])
      case Some(zone) => Some(StatusQuery(zone))
      case None => None
    else if |body| >= 1 && (body[|body| - 1] == '@' || body[|body| - 1] == '$') then
      match ParseInt(body[..|body| - 1])
      case Some(zone) => Some(SetPower(zone, body[|body| - 1] == '@'))
      case None => None
    else if |body| >= 2 && IsDigit(body[0]) && body[1..] == "All" then
      Some(SetAllSource(DigitValue(body[0])))
    else if |body| >= 2 && IsDigit(body[0]) && body[1] == 'B' then
      match ParseInt(body[2..])
      case Some(zone) => Some(SetSource(zone, DigitValue(body[0])))
      case None => None
    else None
  }

  /** The decoder strips the closing dot and carriage return and reads the rest. */
  lemma DecodeTerminated(body: string)
    ensures Decode(body + ".\r") == DecodeBody(body)
  {
  }

  /** A clamped source renders as the single digit that carries its value. */
  lemma ClampedSourceDigit(source: int)
    ensures IntToDecimal(ClampSource(source)) == [DigitChar(ClampSource(source))]
  {
  }

  /** The status frame names its zone exactly, with no clamping. */
  lemma DecodeStatusQuery(zone: int)
    ensures Decode(FormatZoneStatusRequest(zone)) == Some(StatusQuery(zone))
  {
    var digits := IntToDecimal(zone);
    var body := "Status" + digits;
    assert FormatZoneStatusRequest(zone) == body + ".\r";
    DecodeTerminated(body);
    assert body[..6] == "Status" && body[6..] == digits;
    IntToDecimalRoundTrip(zone);
  }

  /** The power frame names its zone and its on/off choice. */
  lemma DecodeSetPower(zone: int, on: bool)
    ensures Decode(FormatSetZonePower(zone, on)) == Some(SetPower(zone, on))
  {
    var digits := IntToDecimal(zone);
    var body := digits + (if on then "@" else "$");
    assert FormatSetZonePower(zone, on) == body + ".\r";
    DecodeTerminated(body);
    assert |body| >= 6 ==> body[..6][0] == digits[0] != 'S';
    assert body[..|body| - 1] == digits;
    IntToDecimalRoundTrip(zone);
  }

  /** The zone-source frame names its zone and the clamped source. */
  lemma DecodeSetSource(zone: int, source: int)
    ensures Decode(FormatSetZoneSource(zone, source)) == Some(SetSource(zone, ClampSource(source)))
  {
    var s := ClampSource(source);
    ClampedSourceDigit(source);
    var digits := IntToDecimal(zone);
    var body := [DigitChar(s)] + "B" + digits;
    assert FormatSetZoneSource(zone, source) == body + ".\r";
    DecodeTerminated(body);
    assert |body| >= 6 ==> body[..6][0] == DigitChar(s) != 'S';
    assert body[|body| - 1] == digits[|digits| - 1];
    assert body[1..][0] == 'B';
    assert body[2..] == digits;
    IntToDecimalRoundTrip(zone);
  }

  /** The all-zones frame names the clamped source. */
  lemma DecodeSetAllSource(source: int)
    ensures Decode(FormatSetAllZoneSource(source)) == Some(SetAllSource(ClampSource(source)))
  {
  }

  /** Every frame reads back as the request it encodes, with its source clamped. */
  lemma DecodeEncode(cmd: Command)
    ensures Decode(Encode(cmd)) == Some(Normalize(cmd))
  {
    match cmd
    case StatusQuery(zone) => DecodeStatusQuery(zone);
    case SetPower(zone, on) => DecodeSetPower(zone, on);
    case SetSource(zone, source) => DecodeSetSource(zone, source);
    case SetAllSource(source) => DecodeSetAllSource(source);
  }

  /** Distinct requests (after clamping) give distinct frames. */
  lemma EncodeInjective(a: Command, b: Command)
    requires Encode(a) == Encode(b)
    ensures Normalize(a) == Normalize(b)
  {
    DecodeEncode(a);
    DecodeEncode(b);
  }

  /** Text made of ASCII characters only. */
  predicate IsAscii(s: string) {
    forall i :: 0 <= i < |s| ==> s[i] < 128 as char
  }

  /** ASCII text without a carriage return. */
  predicate PlainText(s: string) {
    IsAscii(s) && forall i :: 0 <= i < |s| ==> s[i] != CR
  }

  /** Joining two plain texts gives a plain text. */
  lemma PlainConcat(a: string, b: string)
    requires PlainText(a) && PlainText(b)
    ensures PlainText(a + b)
  {
  }

  /** A rendered integer holds only ASCII digits and possibly a leading minus. */
  lemma DecimalIsPlain(z: int)
    ensures PlainText(IntToDecimal(z))
  {
  }

  /** A frame is ASCII and holds exactly one carriage return, at its end. */
  predicate Terminated(frame: string) {
    |frame| >= 2 && frame[|frame| - 1] == CR && PlainText(frame[..|frame| - 1])
  }

  /** Closing a plain text with a dot and carriage return gives a terminated frame. */
  lemma TerminatedOf(text: string)
    requires PlainText(text)
    ensures Terminated(text + ".\r")
  {
  }

  /** Every frame the encoder builds is terminated. */
  lemma FrameTerminated(cmd: Command)
    ensures Terminated(Encode(cmd))
  {
    match cmd
    case StatusQuery(zone) =>
      DecimalIsPlain(zone);
      PlainConcat("Status", IntToDecimal(zone));
      assert Encode(cmd) == ("Status" + IntToDecimal(zone)) + ".\r";
      TerminatedOf("Status" + IntToDecimal(zone));
    case SetPower(zone, on) =>
      var mark := if on then "@" else "$";
      DecimalIsPlain(zone);
      PlainConcat(IntToDecimal(zone), mark);
      assert Encode(cmd) == (IntToDecimal(zone) + mark) + ".\r";
      TerminatedOf(IntToDecimal(zone) + mark);
    case SetSource(zone, source) =>
      var head := IntToDecimal(ClampSource(source)) + "B";
      DecimalIsPlain(ClampSource(source));
      DecimalIsPlain(zone);
      PlainConcat(IntToDecimal(ClampSource(source)), "B");
      PlainConcat(head, IntToDecimal(zone));
      assert Encode(cmd) == (head + IntToDecimal(zone)) + ".\r";
      TerminatedOf(head + IntToDecimal(zone));
    case SetAllSource(source) =>
      DecimalIsPlain(ClampSource(source));
      PlainConcat(IntToDecimal(ClampSource(source)), "All");
      assert Encode(cmd) == (IntToDecimal(ClampSource(source)) + "All") + ".\r";
      TerminatedOf(IntToDecimal(ClampSource(source)) + "All");
  }

  /** The frames the client's tests expect. */
  lemma TestFrames()
    ensures FormatZoneStatusRequest(1) == "Status1.\r"
    ensures FormatSetZonePower(1, true) == "1@.\r"
    ensures FormatSetZonePower(1, false) == "1$.\r"
    ensures FormatSetZoneSource(1, 1) == "1B1.\r"
    ensures FormatSetZoneSource(1, 100) == "8B1.\r"
    ensures FormatSetZoneSource(1, -100) == "1B1.\r"
    ensures FormatSetZoneSource(2, 2) == "2B2.\r"
    ensures FormatSetAllZoneSource(1) == "1All.\r"
  {
  }
}
