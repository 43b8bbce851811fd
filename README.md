# pyjtech protocol core, modelled in Dafny

`pyjtech` is a client for J-Tech HDMI matrix switchers. It sends short ASCII
command frames over one TCP stream and reads textual replies, turning status
replies into a `ZoneStatus` record. This project models its protocol core:

- **Command encoder** (`commands.dfy`, module `Commands`): the four frame
  builders. A source is clamped into 1..8; a zone is written as given, in
  decimal, negative values included (`decimal.dfy`, module `Decimal`).
  A reference decoder `Decode` reads frames back. The round-trip lemmas show
  each frame determines its request, with its source clamped.
- **Status parser** (`status.dfy`, module `Status`): `ZoneStatus.from_string`.
  The two fixed-width regular expressions become 23-element sequences of
  character classes (non-digit, digit, whitespace, literal). `re.search`
  becomes a leftmost-match search. The lemmas cover every outcome: on, off,
  and not understood.
- **Response reader and facade** (`client.dfy`, module `Client`): the class
  `Connection` stands for `JtechSync`. Its field `pending` is the queue of
  chunks the device will deliver. Its field `sent` is the log of frames sent.
  `ProcessRequest` is the receive loop. It is proved against the
  specification functions `ReadReply` and `Unread`, whose stopping rule holds
  by lemma. The four facade methods each send exactly one encoded frame. The
  status query reads past 20 characters and parses the reply. The setters
  read past 0 characters and discard the reply. An exhausted queue stands for
  the socket timeout.

`wrappers.dfy` holds the `Option` type.

Where the code and its tests disagree, the model follows the code. The test
at tests/test_jtech.py:19-25 expects `zone_status(1)` to report power on with
AV route 2 when the device answers with the single record `AV: 02->01\r`.
The code cannot do this, for two reasons:

- `zone_status` reads with a threshold of 20 characters (pyjtech/__init__.py:145).
  The record is 11 characters. Even behind the 9-character echo `Status1.\r`
  the text is 20 characters, which does not exceed 20. So the read goes on
  until the socket times out, and the parser is never reached.
  `Client.SingleRecordTimesOut` and the session `Client.SingleRecordStatusQuery`
  prove this.
- Even given that text directly, `from_string` returns `None`. The "on" pattern
  at pyjtech/__init__.py:9 is 23 characters wide and can never match 11
  characters. `Status.TestReplies` proves this.

Likewise, the "on" pattern always captures both routes, so an "on" result
always carries an IR route.

## Model

| member | source | states |
|---|---|---|
| `Decimal.NatToDecimal` | pyjtech/__init__.py:78 | the decimal text of a natural number is non-empty, all digits, starts with `0` only for zero, and is one character exactly for values below 10 |
| `Decimal.IntToDecimal` | pyjtech/__init__.py:78 | the decimal text of an integer ends in a digit, starts with `-` exactly when the value is negative, and is otherwise digits |
| `Decimal.NatToDecimalRoundTrip` | pyjtech/__init__.py:78 | reading back the digits of a natural number gives that number |
| `Decimal.IntToDecimalRoundTrip` | pyjtech/__init__.py:78 | reading back the decimal text of any integer, negative ones included, gives that integer |
| `Decimal.IntToDecimalInjective` | pyjtech/__init__.py:78 | distinct integers have distinct decimal texts |
| `Decimal.TwoDigitValue` | pyjtech/__init__.py:37 | a two-digit group converts to ten times its first digit plus its second, a value below 100 |
| `Commands.FormatZoneStatusRequest` | pyjtech/__init__.py:77-78 | no contract of its own: the body is the definition, `Status`, the zone in decimal, `.` and a carriage return; its properties are `Commands.DecodeStatusQuery`, `Commands.DecodeEncode` and `Commands.FrameTerminated` |
| `Commands.FormatSetZonePower` | pyjtech/__init__.py:80-81 | no contract of its own: the body is the definition, the zone then `@` for on or `$` for off; its properties are `Commands.DecodeSetPower`, `Commands.DecodeEncode` and `Commands.FrameTerminated` |
| `Commands.FormatSetZoneSource` | pyjtech/__init__.py:83-85 | no contract of its own: the body is the definition, the clamped source, `B`, then the zone; its properties are `Commands.DecodeSetSource`, `Commands.DecodeEncode` and `Commands.FrameTerminated` |
| `Commands.FormatSetAllZoneSource` | pyjtech/__init__.py:87-89 | no contract of its own: the body is the definition, the clamped source then `All`; its properties are `Commands.DecodeSetAllSource`, `Commands.DecodeEncode` and `Commands.FrameTerminated` |
| `Commands.ClampSource` | pyjtech/__init__.py:84 | the encoded source is always in 1..8; it equals the source when already in range, 1 when below, 8 when above |
| `Commands.ClampedSourceDigit` | pyjtech/__init__.py:84-85 | a clamped source is written as exactly one digit |
| `Commands.DecodeStatusQuery` | pyjtech/__init__.py:77-78 | the status frame for any zone reads back as a status query for that same, unclamped zone |
| `Commands.DecodeSetPower` | pyjtech/__init__.py:80-81 | the power frame reads back as the same zone and the same on/off choice, so the on and off frames differ |
| `Commands.DecodeSetSource` | pyjtech/__init__.py:83-85 | the zone-source frame reads back as the same zone and the clamped source |
| `Commands.DecodeSetAllSource` | pyjtech/__init__.py:87-89 | the all-zones frame reads back as the clamped source |
| `Commands.DecodeEncode` | pyjtech/__init__.py:77-89 | every request's frame reads back as that request with its source clamped and its zone untouched |
| `Commands.EncodeInjective` | pyjtech/__init__.py:77-89 | two requests share a frame only if they agree after clamping |
| `Commands.FrameTerminated` | pyjtech/__init__.py:77-89 | every frame is ASCII, ends in a carriage return, and has no other carriage return |
| `Commands.TestFrames` | tests/test_jtech.py:28-58 | the frames the tests expect: `Status1.\r`, `1@.\r`, `1$.\r`, `1B1.\r`, 100 giving `8B1.\r`, -100 giving `1B1.\r`, `2B2.\r`, `1All.\r` |
| `Status.ZoneStatus` | pyjtech/__init__.py:16-25 | the record type: a zone, power as a `bool`, and optional AV and IR routes; `Status.ResultInvariant` states what every parse result holds |
| `Status.OnPattern` | pyjtech/__init__.py:9 | a constant: the 23 character classes of the "on" pattern, with the route groups at offsets 4-5 and 16-17 (`Status.OnGroupsAreDigits`) |
| `Status.OffPattern` | pyjtech/__init__.py:10 | a constant: the 23 character classes of the "off" pattern, with `OFF` at offsets 3-5 |
| `Status.FromString` | pyjtech/__init__.py:28-37 | no contract of its own: the body is the definition; its properties are `Status.ShortTextIsAbsent`, `Status.OnReply`, `Status.OffReply`, `Status.UnrecognisedReply` and `Status.ResultInvariant`, which together cover every input |
| `Status.IsSpace` | pyjtech/__init__.py:9-10 | no contract of its own: the definition of the whitespace class `\s` as Python's `re` reads it on text, the space, tab through carriage return, and 0x1C through 0x1F |
| `Status.SearchFrom` | pyjtech/__init__.py:31 | the search returns a position where the pattern matches, with no match between the starting point and it; it returns nothing only when no later position matches |
| `Status.Search` | pyjtech/__init__.py:31-33 | the search result is the leftmost match, and there is no result only when the pattern matches nowhere |
| `Status.GroupValue` | pyjtech/__init__.py:37 | a captured group's value is the number its two digits spell, in 0..99 |
| `Status.OnGroupsAreDigits` | pyjtech/__init__.py:9 | both capture groups of an "on" match are two digits each |
| `Status.ShortTextIsAbsent` | pyjtech/__init__.py:29-35 | absent text, empty text, and any text shorter than 23 characters parse to `None` |
| `Status.OnReply` | pyjtech/__init__.py:31-37 | when the leftmost "on" match starts at i, the result is power on for the given zone, with the AV and IR routes read from offsets i+4 and i+16 |
| `Status.OffReply` | pyjtech/__init__.py:32-36 | when "on" matches nowhere and "off" matches somewhere, the result is power off with no routes |
| `Status.UnrecognisedReply` | pyjtech/__init__.py:33-35 | when neither pattern matches anywhere, the result is `None` |
| `Status.ResultInvariant` | pyjtech/__init__.py:28-37 | every result keeps the requested zone; power off implies both routes absent; power on implies both routes present and in 0..99 |
| `Status.TestReplies` | tests/test_jtech.py:9-24 | `None` input, `VA: 09-<01\r` and `\r\n\r\n` give `None`; the two-record reply gives zone 1, power on, AV 2 and IR 2; the single record gives `None`, as the code computes it |
| `Status.EchoedReply` | pyjtech/__init__.py:31-37 | an echoed `Status1.\r` in front of a two-record reply still gives power on with AV 2 and IR 2 |
| `Client.ReadReply` | pyjtech/__init__.py:130-140 | no contract of its own: the body is the definition, the join of the first `FirstComplete` chunks or a timeout; its properties are `Client.ReadReplyStops` and `Client.ReadReplyLosesNothing` |
| `Client.Unread` | pyjtech/__init__.py:132-140 | no contract of its own: the body is the definition, the chunks after the first `FirstComplete`, or none after a timeout; its properties are `Client.ReadReplyStops` and `Client.ReadReplyLosesNothing` |
| `Client.NoTerminatorTimesOut` | pyjtech/__init__.py:132-138 | chunks none of which holds a carriage return never end a read, whatever their length: it times out and consumes everything |
| `Client.ShortStreamTimesOut` | pyjtech/__init__.py:132-138 | chunks whose joined length is at most `skip` never end a read: it times out and consumes everything |
| `Client.SingleRecordTimesOut` | pyjtech/__init__.py:145 | the reply `AV: 02->01\r`, alone or behind the echo `Status1.\r`, times out a status read, since 20 characters do not exceed the threshold of 20 |
| `Client.FirstCompleteFrom` | pyjtech/__init__.py:132-138 | the chunk count returned is the smallest that ends the read: its last chunk holds a carriage return and the text so far is longer than `skip`; no count is returned only when no prefix ends it |
| `Client.ReadReplyStops` | pyjtech/__init__.py:130-140 | a read times out exactly when no prefix of the chunks ends it; otherwise it returns the join of the shortest such prefix and leaves exactly the later chunks unread; a timeout returns no text |
| `Client.ReadReplyLosesNothing` | pyjtech/__init__.py:132-140 | the returned text followed by the unread chunks is everything the device sent; the text holds a carriage return and is longer than `skip` |
| `Client.ConcatAscii` | pyjtech/__init__.py:135 | text joined from ASCII chunks is ASCII, the alphabet the parser is modelled on |
| `Client.ReadsOneChunk` | pyjtech/__init__.py:137-138 | a first chunk that holds a carriage return and is longer than `skip` is the whole reply |
| `Client.SkipsEcho` | pyjtech/__init__.py:137-145 | a first chunk no longer than `skip` does not end the read even if it holds a carriage return; the reply runs on through the next chunk |
| `Client.Connection.constructor` | pyjtech/__init__.py:107-117 | a new connection has sent nothing, and the device's chunks are pending |
| `Client.Connection.ProcessRequest` | pyjtech/__init__.py:119-140 | appends the request to the sent log, returns `ReadReply` of the pending chunks, and leaves `Unread` of them pending; a returned reply is ASCII, so the text the status query parses is ASCII |
| `Client.Connection.ZoneStatus` | pyjtech/__init__.py:142-145 | sends exactly the status frame; on a reply read past 20 characters, returns that reply parsed for the zone; otherwise times out |
| `Client.Connection.SetZonePower` | pyjtech/__init__.py:147-150 | sends exactly the power frame, reads past 0 characters, and succeeds exactly when that read does |
| `Client.Connection.SetZoneSource` | pyjtech/__init__.py:152-155 | sends exactly the clamped zone-source frame, reads past 0 characters, and succeeds exactly when that read does |
| `Client.Connection.SetAllZoneSource` | pyjtech/__init__.py:157-160 | sends exactly the clamped all-zones frame, reads past 0 characters, and succeeds exactly when that read does |

`Client.EchoedStatusQuery`, `Client.SingleRecordStatusQuery` and
`Client.AcknowledgedPowerOn` are client sessions. They show what callers can
conclude from the class contracts alone.

## Left out

- Socket creation, `settimeout`, the connection to port 80 and the discarded greeting (pyjtech/__init__.py:111-117) are network I/O. The constructor takes the device's chunks as a queue, and the greeting is not modelled.
- The two-second timeout is replaced by running out of queued chunks. On a timeout the model consumes every pending chunk and returns no text. What a real socket keeps buffered afterwards is not modelled.
- The 2048-byte receive size is not modelled. The queue may hold chunks of any length, which covers every way a finite stream can be split.
- The socket timeout (pyjtech/__init__.py:113) bounds each `recv`, not the whole read. A device that keeps sending data with no terminator makes `_process_request` loop forever. A finite queue cannot express such a stream, so every modelled read ends; `Client.NoTerminatorTimesOut` shows only that any finite such stream times out.
- The lock and the `synchronized` decorator (pyjtech/__init__.py:97-104) only provide thread mutual exclusion. The model is sequential: each method runs to completion before the next starts, which is the linearisation the lock provides. Interleaved callers and the lock itself are not modelled.
- A chunk that fails ASCII decoding, and the empty chunk a closed peer returns forever, are excluded. `Valid()` requires every pending chunk to be non-empty ASCII.
- Python truthiness of `power` (tests/test_jtech.py:32-42) is not modelled. `power` is a `bool`, and the code's 0/1 power field is a `bool` too.
- Python's Unicode `\d`, `\s` and `int()` on non-ASCII digits and spaces are not modelled. The character classes are the ASCII ones. Text from the connection is always ASCII: `Client.Connection.ProcessRequest` ensures it, from the `Valid()` invariant on pending chunks.
- `zone` is an `int`. Calls with `None` as the zone (tests/test_jtech.py:10) are covered only where the zone is irrelevant, since the result is `None`.
- Logging (pyjtech/__init__.py:126) and the abstract `Jtech` base class (pyjtech/__init__.py:39-73), which only raises, are left out.
- `test.py` is a live-network demonstration and is not part of this model. The timeout test at tests/test_jtech.py:61-63 refers to a module the tests never import, so it is not modelled.
- The suspending (async) variant of the client does not exist in this code, so it is not modelled.
- `socket.send` (pyjtech/__init__.py:128) may send only part of a frame, or raise. The model logs the whole frame as sent.
- `int(...)` at pyjtech/__init__.py:84 and :88 also truncates a non-integer source, such as a float. The model's `source` is an `int`, so truncation is not modelled.
- CPython refuses to format an integer of more than 4300 digits and raises `ValueError`. `Decimal.IntToDecimal` renders any integer.
