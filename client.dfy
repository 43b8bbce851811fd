/**
 * The synchronous client `JtechSync`: one request/response cycle at a time
 * over a single stream.  The stream is modelled by the chunks the device
 * will deliver, in order (`pending`), and the frames the client has sent
 * (`sent`).  When no chunk is left the read is taken to have timed out.
 */
module Client {
  import opened Wrappers
  import opened Commands
  import Status

  /** The reply threshold the status query uses, past the echoed request. */
  const StatusSkip: int := 20
  /** The reply threshold of the three setters. */
  const AckSkip: int := 0

  /** The outcome of a cycle: its value, or the socket timeout. */
  datatype Reply<+T> = Done(value: T) | TimedOut

  /** The chunks joined in order. */
  function Concat(chunks: seq<string>): string {
    if chunks == [] then "" else Concat(chunks[..|chunks| - 1]) + chunks[|chunks| - 1]
  }

  /**
   * Reading the first `k` chunks ends the cycle: the `k`-th chunk holds a
   * carriage return and the text read so far is longer than `skip`.
   */
  predicate Completes(chunks: seq<string>, skip: int, k: nat) {
    1 <= k <= |chunks| && CR in chunks[k - 1] && |Concat(chunks[..k])| > skip
  }

  /** The fewest chunks after the first `n` whose reading ends the cycle. */
  function FirstCompleteFrom(chunks: seq<string>, skip: int, n: nat): (r: Option<nat>)
    requires n <= |chunks|
    ensures r.Some? ==> n < r.value <= |chunks| && Completes(chunks, skip, r.value)
    ensures r.Some? ==> forall j :: n < j < r.value ==> !Completes(chunks, skip, j)
    ensures r.None? ==> forall j :: n < j ==> !Completes(chunks, skip, j)
    decreases |chunks| - n
  {
    if n == |chunks| then None
    else if Completes(chunks, skip, n + 1) then Some(n + 1)
    else FirstCompleteFrom(chunks, skip, n + 1)
  }

  /** The fewest chunks whose reading ends the cycle. */
  function FirstComplete(chunks: seq<string>, skip: int): Option<nat> {
    FirstCompleteFrom(chunks, skip, 0)
  }

  /** What one read cycle returns when the device delivers `chunks`. */
  function ReadReply(chunks: seq<string>, skip: int): Reply<string> {
    match FirstComplete(chunks, skip)
    case Some(k) => Done(Concat(chunks[..k]))
    case None => TimedOut
  }

  /** What is left of `chunks` after one read cycle. */
  function Unread(chunks: seq<string>, skip: int): seq<string> {
    match FirstComplete(chunks, skip)
    case Some(k) => chunks[k..]
    case None => []
  }

  /** A chunk as `recv` returns it on a live connection: non-empty and ASCII. */
  predicate WellFormedChunk(chunk: string) {
    |chunk| > 0 && IsAscii(chunk)
  }

  /** Reading one more chunk appends it to the text read so far. */
  lemma ConcatStep(chunks: seq<string>, n: nat)
    requires n < |chunks|
    ensures Concat(chunks[..n + 1]) == Concat(chunks[..n]) + chunks[n]
  {
    assert chunks[..n + 1][..n] == chunks[..n];
  }

  /** Joining a prefix and the rest gives the whole. */
  lemma {:induction false} ConcatSplit(chunks: seq<string>, k: nat)
    requires k <= |chunks|
    ensures Concat(chunks[..k]) + Concat(chunks[k..]) == Concat(chunks)
    decreases |chunks|
  {
    if k == |chunks| {
      assert chunks[..k] == chunks;
      assert chunks[k..] == [];
    } else {
      var init := chunks[..|chunks| - 1];
      var last := chunks[|chunks| - 1];
      ConcatSplit(init, k);
      assert init[..k] == chunks[..k];
      assert chunks[k..][..|chunks[k..]| - 1] == init[k..];
      assert Concat(chunks[k..]) == Concat(init[k..]) + last;
    }
  }

  /**
   * The stopping rule: a cycle returns text exactly when some prefix of the
   * chunks completes it; the text is then the shortest such prefix, whose
   * last chunk holds the terminator and whose length exceeds `skip`; the
   * chunks after it are left unread and nothing is lost.
   */
  lemma ReadReplyStops(chunks: seq<string>, skip: int)
    ensures ReadReply(chunks, skip).TimedOut? <==> forall k: nat :: !Completes(chunks, skip, k)
    ensures ReadReply(chunks, skip).Done? ==>
      exists k: nat :: && Completes(chunks, skip, k)
                  && (forall j: nat :: j < k ==> !Completes(chunks, skip, j))
                  && ReadReply(chunks, skip).value == Concat(chunks[..k])
                  && Unread(chunks, skip) == chunks[k..]
    ensures ReadReply(chunks, skip).TimedOut? ==> Unread(chunks, skip) == []
  {
  }

  /** The text returned and the chunks left over make up everything the device sent. */
  lemma ReadReplyLosesNothing(chunks: seq<string>, skip: int)
    requires ReadReply(chunks, skip).Done?
    ensures ReadReply(chunks, skip).value + Concat(Unread(chunks, skip)) == Concat(chunks)
    ensures CR in ReadReply(chunks, skip).value && |ReadReply(chunks, skip).value| > skip
  {
    var k := FirstComplete(chunks, skip).value;
    ConcatSplit(chunks, k);
    var last := chunks[k - 1];
    ConcatStep(chunks, k - 1);
    var i :| 0 <= i < |last| && last[i] == CR;
    var text := Concat(chunks[..k]);
    assert text[|text| - |last| + i] == CR;
  }

  /** A reply read from ASCII chunks is ASCII: what the status parser is defined on. */
  lemma {:induction false} ConcatAscii(chunks: seq<string>)
    requires forall i :: 0 <= i < |chunks| ==> WellFormedChunk(chunks[i])
    ensures IsAscii(Concat(chunks))
    decreases |chunks|
  {
    if chunks != [] {
      var init := chunks[..|chunks| - 1];
      var last := chunks[|chunks| - 1];
      ConcatAscii(init);
      var s := Concat(chunks);
      assert s == Concat(init) + last;
      forall i | 0 <= i < |s| ensures s[i] < 128 as char {
        if i >= |Concat(init)| {
          assert s[i] == last[i - |Concat(init)|];
        }
      }
    }
  }

  /** A first chunk that is terminated and long enough is the whole reply. */
  lemma ReadsOneChunk(chunk: string, rest: seq<string>, skip: int)
    requires CR in chunk && |chunk| > skip
    ensures ReadReply([chunk] + rest, skip) == Done(chunk)
    ensures Unread([chunk] + rest, skip) == rest
  {
    var chunks := [chunk] + rest;
    assert chunks[..1] == [chunk];
    assert Concat([chunk]) == Concat([]) + chunk == chunk;
    assert Completes(chunks, skip, 1);
    assert FirstComplete(chunks, skip) == Some(1);
    assert chunks[1..] == rest;
  }

  /**
   * A first chunk no longer than `skip` (an echo) does not end the cycle even
   * when it holds the terminator; the reply runs on into the next chunk.
   */
  lemma SkipsEcho(echo: string, reply: string, rest: seq<string>, skip: int)
    requires |echo| <= skip
    requires CR in reply && |echo| + |reply| > skip
    ensures ReadReply([echo, reply] + rest, skip) == Done(echo + reply)
    ensures Unread([echo, reply] + rest, skip) == rest
  {
    var chunks := [echo, reply] + rest;
    assert chunks[..1] == [echo];
    assert Concat([echo]) == Concat([]) + echo == echo;
    ConcatStep(chunks, 1);
    assert Concat(chunks[..2]) == echo + reply;
    assert !Completes(chunks, skip, 1);
    assert Completes(chunks, skip, 2);
    assert FirstCompleteFrom(chunks, skip, 1) == Some(2);
    assert FirstComplete(chunks, skip) == Some(2);
    assert chunks[2..] == rest;
  }

  /** Chunks that together are no longer than `skip` never end a read: it times out. */
  lemma ShortStreamTimesOut(chunks: seq<string>, skip: int)
    requires |Concat(chunks)| <= skip
    ensures ReadReply(chunks, skip) == TimedOut
    ensures Unread(chunks, skip) == []
  {
    forall k: nat | k <= |chunks| ensures |Concat(chunks[..k])| <= skip {
      ConcatSplit(chunks, k);
    }
    ReadReplyStops(chunks, skip);
  }

  /**
   * Chunks none of which holds a carriage return never end a read, however
   * long they are: it times out and consumes everything.
   */
  lemma NoTerminatorTimesOut(chunks: seq<string>, skip: int)
    requires forall i :: 0 <= i < |chunks| ==> CR !in chunks[i]
    ensures ReadReply(chunks, skip) == TimedOut
    ensures Unread(chunks, skip) == []
  {
    ReadReplyStops(chunks, skip);
  }

  /**
   * The single record `AV: 02->01` is 11 characters; alone or behind the
   * 9-character echo of `Status1.` it is at most 20 characters, which does
   * not exceed the status threshold.
   */
  lemma SingleRecordTimesOut()
    ensures ReadReply(["AV: 02->01\r"], StatusSkip) == TimedOut
    ensures ReadReply(["Status1.\r", "AV: 02->01\r"], StatusSkip) == TimedOut
    ensures Unread(["Status1.\r", "AV: 02->01\r"], StatusSkip) == []
  {
  }

  /** One connection to the matrix. */
  class Connection {
    /** Chunks the device will deliver, in order. */
    var pending: seq<string>
    /** Frames sent so far, in order. */
    var sent: seq<string>

    ghost predicate Valid()
      reads this
    {
      forall i :: 0 <= i < |pending| ==> WellFormedChunk(pending[i])
    }

    constructor (incoming: seq<string>)
      requires forall i :: 0 <= i < |incoming| ==> WellFormedChunk(incoming[i])
      ensures Valid()
      ensures pending == incoming && sent == []
    {
      pending := incoming;
      sent := [];
    }

    /**
     * `_process_request`: sends `request`, then reads chunks until the
     * latest one holds a carriage return and the text read is longer than
     * `skip`.
     */
    method ProcessRequest(request: string, skip: int) returns (reply: Reply<string>)
      requires Valid()
      modifies this
      ensures Valid()
      ensures sent == old(sent) + [request]
      ensures reply == ReadReply(old(pending), skip)
      ensures pending == Unread(old(pending), skip)
      ensures reply.Done? ==> IsAscii(reply.value)
    {
      sent := sent + [request];
      ghost var chunks := pending;
      ghost var n: nat := 0;
      var response := "";
      while true
        invariant n <= |chunks| && pending == chunks[n..]
        invariant response == Concat(chunks[..n])
        invariant FirstComplete(chunks, skip) == FirstCompleteFrom(chunks, skip, n)
        invariant sent == old(sent) + [request]
        invariant Valid()
        invariant forall i :: 0 <= i < |chunks| ==> WellFormedChunk(chunks[i])
        decreases |pending|
      {
        if pending == [] {
          reply := TimedOut;
          return;
        }
        var data := pending[0];
        pending := pending[1..];
        ConcatStep(chunks, n);
        response := response + data;
        n := n + 1;
        if CR in data && |response| > skip {
          ConcatAscii(chunks[..n]);
          reply := Done(response);
          return;
        }
      }
    }

    /** `zone_status`: one status query, its reply read past `StatusSkip` characters and parsed. */
    method ZoneStatus(zone: int) returns (status: Reply<Option<Status.ZoneStatus>>)
      requires Valid()
      modifies this
      ensures Valid()
      ensures sent == old(sent) + [FormatZoneStatusRequest(zone)]
      ensures pending == Unread(old(pending), StatusSkip)
      ensures status == match ReadReply(old(pending), StatusSkip)
                        case Done(text) => Done(Status.FromString(zone, Some(text)))
                        case TimedOut => TimedOut
    {
      var reply := ProcessRequest(FormatZoneStatusRequest(zone), StatusSkip);
      match reply
      case Done(text) => status := Done(Status.FromString(zone, Some(text)));
      case TimedOut => status := TimedOut;
    }

    /** `set_zone_power`: one power frame; any terminated reply is success. */
    method SetZonePower(zone: int, power: bool) returns (outcome: Reply<()>)
      requires Valid()
      modifies this
      ensures Valid()
      ensures sent == old(sent) + [FormatSetZonePower(zone, power)]
      ensures pending == Unread(old(pending), AckSkip)
      ensures outcome.Done? <==> ReadReply(old(pending), AckSkip).Done?
    {
      var reply := ProcessRequest(FormatSetZonePower(zone, power), AckSkip);
      outcome := if reply.Done? then Done(()) else TimedOut;
    }

    /** `set_zone_source`: one source frame with the source clamped. */
    method SetZoneSource(zone: int, source: int) returns (outcome: Reply<()>)
      requires Valid()
      modifies this
      ensures Valid()
      ensures sent == old(sent) + [FormatSetZoneSource(zone, source)]
      ensures pending == Unread(old(pending), AckSkip)
      ensures outcome.Done? <==> ReadReply(old(pending), AckSkip).Done?
    {
      var reply := ProcessRequest(FormatSetZoneSource(zone, source), AckSkip);
      outcome := if reply.Done? then Done(()) else TimedOut;
    }

    /** `set_all_zone_source`: one frame routing the clamped source to every zone. */
    method SetAllZoneSource(source: int) returns (outcome: Reply<()>)
      requires Valid()
      modifies this
      ensures Valid()
      ensures sent == old(sent) + [FormatSetAllZoneSource(source)]
      ensures pending == Unread(old(pending), AckSkip)
      ensures outcome.Done? <==> ReadReply(old(pending), AckSkip).Done?
    {
      var reply := ProcessRequest(FormatSetAllZoneSource(source), AckSkip);
      outcome := if reply.Done? then Done(()) else TimedOut;
    }
  }

  /**
   * A status query against a device that echoes the request before its
   * reply: the echo holds a carriage return but is shorter than the status
   * threshold, so the reader goes on to the reply proper and leaves the next
   * chunk unread.  What the parser makes of that text is `Status.EchoedReply`.
   */
  method EchoedStatusQuery() {
    var echo := "Status1.\r";
    var reply := "AV: 02->01\r\nIR: 02->01\r";
    var next := "01 Open.\r";
    assert reply[10] == CR;
    SkipsEcho(echo, reply, [next], StatusSkip);
    assert [echo, reply] + [next] == [echo, reply, next];
    var c := new Connection([echo, reply, next]);
    var status := c.ZoneStatus(1);
    assert status == Done(Status.FromString(1, Some(echo + reply)));
    assert c.pending == [next];
    assert c.sent == [FormatZoneStatusRequest(1)];
  }

  /**
   * A status query answered by the single record `AV: 02->01`, echo or not:
   * the text never grows past the status threshold, so the read times out
   * and the parser is never reached.
   */
  method SingleRecordStatusQuery() {
    var echo := "Status1.\r";
    var record := "AV: 02->01\r";
    SingleRecordTimesOut();
    var c := new Connection([echo, record]);
    var status := c.ZoneStatus(1);
    assert status == TimedOut;
    assert c.pending == [];
  }

  /** Turning zone 1 on: the `1@.` frame is sent and the device's acknowledgement is consumed. */
  method AcknowledgedPowerOn() {
    var ack := "01 Open.\r";
    assert ack[8] == CR;
    ReadsOneChunk(ack, [], AckSkip);
    assert [ack] + [] == [ack];
    var c := new Connection([ack]);
    var done := c.SetZonePower(1, true);
    assert done.Done?;
    assert c.pending == [];
    assert FormatSetZonePower(1, true) == "1@.\r";
    assert c.sent == ["1@.\r"];
  }
}
