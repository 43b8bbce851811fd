/**
 * The status parser: `ZoneStatus.from_string`.  A reply is searched, leftmost
 * first, for the fixed-width "on" shape (two routing records, e.g.
 * `AV: 02->01\r\nIR: 02->01\r`), and only if that fails for the "off" shape.
 * Both shapes are 23 characters of character classes: a non-digit, a digit,
 * a whitespace character, or a literal.  The classes are those of Python's
 * `\D`, `\d` and `\s` restricted to ASCII.
 */
module Status {
  import opened Wrappers
  import opened Decimal

  /** The observed state of one output zone. */
  datatype ZoneStatus = ZoneStatus(zone: int, power: bool, av: Option<int>, ir: Option<int>)

  /** Whitespace as Python's regular expressions see it in ASCII text: space, tab to carriage return, and the four separators 0x1C..0x1F. */
  predicate IsSpace(c: char) {
    c == ' ' || ('\t' <= c <= '\r') || ('\U{1C}' <= c <= '\U{1F}')
  }

  datatype CharClass = NonDigit | Digit | Space | Lit(ch: char)

  predicate ClassMatches(k: CharClass, c: char) {
    match k
    case NonDigit => !IsDigit(c)
    case Digit => IsDigit(c)
    case Space => IsSpace(c)
    case Lit(ch) => c == ch
  }

  const PatternWidth: nat := 23

  /**
   * Two routing records, each a three-character label, whitespace, a source
   * group of two digits, a two-character arrow, two destination digits and
   * whitespace; one more whitespace character separates the records.  The
   * AV group sits at offsets 4..5 and the IR group at 16..17.
   */
  const OnPattern: seq<CharClass> := [
    NonDigit, NonDigit, NonDigit, Space, Digit, Digit, NonDigit, NonDigit, Digit, Digit, Space,
    Space, NonDigit, NonDigit, NonDigit, Space, Digit, Digit, NonDigit, NonDigit, Digit, Digit, Space]

  const AvGroup: nat := 4
  const IrGroup: nat := 16

  /**
   * Three non-digits, the letters `OFF`, two non-digits, two digits, two
   * whitespace characters, eight non-digits, two digits and whitespace.
   */
  const OffPattern: seq<CharClass> := [
    NonDigit, NonDigit, NonDigit, Lit('O'), Lit('F'), Lit('F'), NonDigit, NonDigit, Digit, Digit, Space,
    Space, NonDigit, NonDigit, NonDigit, NonDigit, NonDigit, NonDigit, NonDigit, NonDigit, Digit, Digit, Space]

  /** The pattern matches the characters of `s` starting at index `i`. */
  predicate MatchesAt(pattern: seq<CharClass>, s: string, i: nat) {
    i + |pattern| <= |s| && forall k :: 0 <= k < |pattern| ==> ClassMatches(pattern[k], s[i + k])
  }

  /** `i` is where the leftmost match of the pattern in `s` starts. */
  predicate LeftmostMatch(pattern: seq<CharClass>, s: string, i: nat) {
    MatchesAt(pattern, s, i) && forall j :: 0 <= j < i ==> !MatchesAt(pattern, s, j)
  }

  /** A regular-expression search: the start of the leftmost match at or after `from`, if any. */
  function SearchFrom(pattern: seq<CharClass>, s: string, from: nat): (r: Option<nat>)
    requires |pattern| > 0
    ensures r.Some? ==> from <= r.value && MatchesAt(pattern, s, r.value)
    ensures r.Some? ==> forall j :: from <= j < r.value ==> !MatchesAt(pattern, s, j)
    ensures r.None? ==> forall j :: from <= j ==> !MatchesAt(pattern, s, j)
    decreases |s| - from
  {
    if from + |pattern| > |s| then None
    else if MatchesAt(pattern, s, from) then Some(from)
    else SearchFrom(pattern, s, from + 1)
  }

  function Search(pattern: seq<CharClass>, s: string): (r: Option<nat>)
    requires |pattern| > 0
    ensures r.Some? ==> LeftmostMatch(pattern, s, r.value)
    ensures r.None? ==> forall j :: 0 <= j ==> !MatchesAt(pattern, s, j)
  {
    SearchFrom(pattern, s, 0)
  }

  /** The value of the two-digit group of `s` at `i`. */
  function GroupValue(s: string, i: nat): (v: int)
    requires i + 2 <= |s| && IsDigit(s[i]) && IsDigit(s[i + 1])
    ensures v == 10 * DigitValue(s[i]) + DigitValue(s[i + 1])
    ensures 0 <= v <= 99
  {
    var group := s[i..i + 2];
    assert group == [s[i], s[i + 1]];
    TwoDigitValue(s[i], s[i + 1]);
    DecimalValue(group)
  }

  /**
   * `ZoneStatus.from_string`: absent or empty text gives `None`; otherwise the
   * leftmost "on" match gives power on with both routes, failing that an "off"
   * match anywhere gives power off, and failing both the result is `None`.
   */
  function FromString(zone: int, text: Option<string>): Option<ZoneStatus> {
    if text.None? || text.value == "" then None
    else
      var s := text.value;
      match Search(OnPattern, s)
      case Some(i) =>
        assert ClassMatches(OnPattern[AvGroup], s[i + AvGroup]) && ClassMatches(OnPattern[AvGroup + 1], s[i + AvGroup + 1]);
        assert ClassMatches(OnPattern[IrGroup], s[i + IrGroup]) && ClassMatches(OnPattern[IrGroup + 1], s[i + IrGroup + 1]);
        Some(ZoneStatus(zone, true, Some(GroupValue(s, i + AvGroup)), Some(GroupValue(s, i + IrGroup))))
      case None =>
        if Search(OffPattern, s).Some? then Some(ZoneStatus(zone, false, None, None)) else None
  }

  /** The two-digit groups of an "on" match, one for the AV route and one for the IR route. */
  lemma OnGroupsAreDigits(s: string, i: nat)
    requires MatchesAt(OnPattern, s, i)
    ensures IsDigit(s[i + AvGroup]) && IsDigit(s[i + AvGroup + 1])
    ensures IsDigit(s[i + IrGroup]) && IsDigit(s[i + IrGroup + 1])
  {
    assert ClassMatches(OnPattern[AvGroup], s[i + AvGroup]) && ClassMatches(OnPattern[AvGroup + 1], s[i + AvGroup + 1]);
    assert ClassMatches(OnPattern[IrGroup], s[i + IrGroup]) && ClassMatches(OnPattern[IrGroup + 1], s[i + IrGroup + 1]);
  }

  /** Absent input, empty input and anything shorter than a pattern parse to `None`. */
  lemma ShortTextIsAbsent(zone: int, text: Option<string>)
    requires text.None? || |text.value| < PatternWidth
    ensures FromString(zone, text) == None
  {
  }

  /**
   * When the "on" shape occurs, the zone is copied, power is on, and the AV and
   * IR routes are the two groups of the leftmost occurrence.
   */
  lemma OnReply(zone: int, s: string, i: nat)
    requires LeftmostMatch(OnPattern, s, i)
    ensures IsDigit(s[i + AvGroup]) && IsDigit(s[i + AvGroup + 1])
    ensures IsDigit(s[i + IrGroup]) && IsDigit(s[i + IrGroup + 1])
    ensures FromString(zone, Some(s)) == Some(ZoneStatus(zone, true,
      Some(10 * DigitValue(s[i + AvGroup]) + DigitValue(s[i + AvGroup + 1])),
      Some(10 * DigitValue(s[i + IrGroup]) + DigitValue(s[i + IrGroup + 1]))))
  {
    OnGroupsAreDigits(s, i);
  }

  /** Without the "on" shape, an "off" shape anywhere gives power off and no routes. */
  lemma OffReply(zone: int, s: string, i: nat)
    requires forall j :: 0 <= j ==> !MatchesAt(OnPattern, s, j)
    requires MatchesAt(OffPattern, s, i)
    ensures FromString(zone, Some(s)) == Some(ZoneStatus(zone, false, None, None))
  {
  }

  /** With neither shape anywhere, the reply is not understood. */
  lemma UnrecognisedReply(zone: int, s: string)
    requires forall j :: 0 <= j ==> !MatchesAt(OnPattern, s, j)
    requires forall j :: 0 <= j ==> !MatchesAt(OffPattern, s, j)
    ensures FromString(zone, Some(s)) == None
  {
  }

  /**
   * Every result keeps the zone it was asked for; a zone that is off has no
   * routes; a zone that is on has both routes, each a two-digit number.
   */
  lemma ResultInvariant(zone: int, text: Option<string>)
    ensures var r := FromString(zone, text);
      r.Some? ==> && r.value.zone == zone
                  && (!r.value.power ==> r.value.av.None? && r.value.ir.None?)
                  && (r.value.power ==> && r.value.av.Some? && 0 <= r.value.av.value <= 99
                                        && r.value.ir.Some? && 0 <= r.value.ir.value <= 99)
  {
  }

  /**
   * The replies of the client's tests, read as the code reads them.  The
   * single-record reply `AV: 02->01` that one test expects to read as power
   * on is shorter than the "on" shape, so the code reads it as `None`.
   */
  lemma TestReplies()
    ensures FromString(0, None) == None
    ensures FromString(1, Some("VA: 09-<01\r")) == None
    ensures FromString(10, Some("\r\n\r\n")) == None
    ensures FromString(1, Some("AV: 02->01\r")) == None
    ensures FromString(1, Some("AV: 02->01\r\nIR: 02->01\r")) == Some(ZoneStatus(1, true, Some(2), Some(2)))
  {
    ShortTextIsAbsent(0, None);
    ShortTextIsAbsent(1, Some("VA: 09-<01\r"));
    ShortTextIsAbsent(10, Some("\r\n\r\n"));
    ShortTextIsAbsent(1, Some("AV: 02->01\r"));
    var s := "AV: 02->01\r\nIR: 02->01\r";
    assert MatchesAt(OnPattern, s, 0);
    OnReply(1, s, 0);
  }

  /** An echoed request in front of the reply does not hide the routes. */
  lemma EchoedReply(zone: int)
    ensures FromString(zone, Some("Status1.\r" + "AV: 02->01\r\nIR: 02->01\r"))
         == Some(ZoneStatus(zone, true, Some(2), Some(2)))
  {
    var s := "Status1.\r" + "AV: 02->01\r\nIR: 02->01\r";
    assert MatchesAt(OnPattern, s, 9);
    forall j | 0 <= j < 9 ensures !MatchesAt(OnPattern, s, j) {
      assert !ClassMatches(OnPattern[3], s[j + 3]) || !ClassMatches(OnPattern[4], s[j + 4]);
    }
    OnReply(zone, s, 9);
  }
}
