/**
 The wire frames of the runtime host: a length, a type and a payload, read off a byte stream.

 Whether the handler lets the connection go on is a parameter here, a function of the messages that this
 connection has sent. In the source its decision also depends on the state that all connections share and
 on the clock; only the reading of the stream is the subject.
 */
module Frames {
  import opened Ring

  const MAX_FRAME := 1048576

  const T_HELLO := 0x01
  const T_OUTPUT := 0x03
  const T_INPUT := 0x04
  const T_RESIZE := 0x05
  const T_EXIT := 0x06
  const T_PING := 0x08
  const T_WIPE := 0x0A
  const T_DELIVER_MESSAGE := 0x0C
  const T_SIGNAL := 0x0E
  const T_TERMINATE := 0x0F

  datatype ErrorCode = BadFrame | Oversize

  datatype Parsed = Incomplete | Fatal(code: ErrorCode) | Parsed(kind: byte, payload: seq<byte>, consumed: nat)

  function Big16(b: seq<byte>): nat
    requires |b| == 2
  {
    (b[0] as int) * 256 + b[1] as int
  }

  function Big32(b: seq<byte>): nat
    requires |b| == 4
  {
    (b[0] as int) * 16777216 + (b[1] as int) * 65536 + (b[2] as int) * 256 + b[3] as int
  }

  function Encode32(n: nat): (b: seq<byte>)
    requires n < 4294967296
    ensures |b| == 4 && Big32(b) == n
  {
    [n / 16777216, n / 65536 % 256, n / 256 % 256, n % 256]
  }

  function Encode64(n: nat): (b: seq<byte>)
    requires n < 18446744073709551616
    ensures |b| == 8
  {
    Encode32(n / 4294967296) + Encode32(n % 4294967296)
  }

  /** `validate`. What a HELLO payload must decode to is the parameter. */
  predicate ValidPayload(helloOk: seq<byte> -> bool, kind: byte, payload: seq<byte>) {
    if kind == T_HELLO then |payload| > 0 && helloOk(payload)
    else if kind == T_RESIZE then |payload| == 4 && 1 <= Big16(payload[..2]) <= 1000 && 1 <= Big16(payload[2..]) <= 1000
    else if kind == T_SIGNAL then |payload| == 1
    else if kind == T_TERMINATE || kind == T_PING || kind == T_WIPE then payload == []
    else kind in {T_INPUT, T_DELIVER_MESSAGE, 0x02, T_OUTPUT, T_EXIT, 0x07, 0x09, 0x0B, 0x0D, 0x10, 0x20, 0x21, 0x22,
        0x23}
  }

  /** The bound is checked on the header alone, before anything else is looked at. */
  function ParseFrame(helloOk: seq<byte> -> bool, buf: seq<byte>): Parsed {
    if |buf| < 4 then Incomplete
    else
      var length := Big32(buf[..4]);
      if length > MAX_FRAME then Fatal(Oversize)
      else if length < 1 then Fatal(BadFrame)
      else if |buf| < 4 + length then Incomplete
      else if !ValidPayload(helloOk, buf[4], buf[5..4 + length]) then Fatal(BadFrame)
      else Parsed(buf[4], buf[5..4 + length], 4 + length)
  }

  function Frame(kind: byte, payload: seq<byte>): seq<byte>
    requires |payload| < MAX_FRAME
  {
    Encode32(|payload| + 1) + [kind] + payload
  }

  /** A frame that is followed by anything at all is read back whole. */
  lemma FrameRoundTrip(helloOk: seq<byte> -> bool, kind: byte, payload: seq<byte>, rest: seq<byte>)
    requires |payload| < MAX_FRAME && ValidPayload(helloOk, kind, payload)
    ensures |Frame(kind, payload)| == 5 + |payload|
    ensures ParseFrame(helloOk, Frame(kind, payload) + rest) == Parsed(kind, payload, 5 + |payload|)
  {
    var buf := Frame(kind, payload) + rest;
    assert buf[..4] == Encode32(|payload| + 1);
    assert buf[5..5 + |payload|] == payload;
  }

  /** A frame is never read out of fewer bytes than it has, and an invalid one is refused. */
  lemma FrameNeedsAllItsBytes(helloOk: seq<byte> -> bool, kind: byte, payload: seq<byte>, k: nat)
    requires |payload| < MAX_FRAME && k < |Frame(kind, payload)|
    ensures ParseFrame(helloOk, Frame(kind, payload)[..k]) == Incomplete
    ensures !ValidPayload(helloOk, kind, payload) ==> ParseFrame(helloOk, Frame(kind, payload)) == Fatal(BadFrame)
  {
    var frame := Frame(kind, payload);
    assert frame[..4] == Encode32(|payload| + 1);
    assert k >= 4 ==> frame[..k][..4] == frame[..4];
    assert frame[5..5 + |payload|] == payload;
  }

  /** Once the parser has decided, more bytes do not change its mind. */
  lemma MoreBytesDoNotMatter(helloOk: seq<byte> -> bool, buf: seq<byte>, more: seq<byte>)
    requires ParseFrame(helloOk, buf) != Incomplete
    ensures ParseFrame(helloOk, buf + more) == ParseFrame(helloOk, buf)
  {
    assert (buf + more)[..4] == buf[..4];
    var length := Big32(buf[..4]);
    if 1 <= length <= MAX_FRAME {
      assert (buf + more)[5..4 + length] == buf[5..4 + length];
    }
  }

  lemma HeaderIsLength(b: seq<byte>)
    requires |b| == 4 && Big32(b) < 4294967296
    ensures Encode32(Big32(b)) == b
  {
    var n, x, y, z := Big32(b), b[0] as int, b[1] as int, b[2] as int;
    assert n == 256 * (256 * (256 * x + y) + z) + b[3] as int;
    assert n / 256 == 256 * (256 * x + y) + z;
    assert n / 65536 == 256 * x + y && n / 16777216 == x;
  }

  /**
   The parser takes exactly the frames. It reads a message off a buffer if and only if the buffer begins
   with the valid frame of that message; it waits if and only if the header is not complete or the buffer
   is a proper beginning of some frame within the bound; and it calls a frame oversize if and only if its
   header counts more than 1048576 bytes.
   */
  lemma ParsesExactlyFrames(helloOk: seq<byte> -> bool, buf: seq<byte>)
    ensures forall kind: byte, payload: seq<byte>, n: nat :: ParseFrame(helloOk, buf) == Parsed(kind, payload, n) <==>
              |payload| < 1048576 && ValidPayload(helloOk, kind, payload) && n == 5 + |payload| <= |buf|
              && buf[..n] == Frame(kind, payload)
    ensures ParseFrame(helloOk, buf) == Incomplete <==>
              |buf| < 4 || exists kind: byte, payload: seq<byte> ::
                |payload| < 1048576 && |buf| < 5 + |payload| && buf == Frame(kind, payload)[..|buf|]
    ensures ParseFrame(helloOk, buf) == Fatal(Oversize) <==> |buf| >= 4 && Big32(buf[..4]) > 1048576
  {
    forall kind: byte, payload: seq<byte>, n: nat
      ensures ParseFrame(helloOk, buf) == Parsed(kind, payload, n) <==>
              |payload| < 1048576 && ValidPayload(helloOk, kind, payload) && n == 5 + |payload| <= |buf|
              && buf[..n] == Frame(kind, payload)
    {
      if |payload| < 1048576 && ValidPayload(helloOk, kind, payload) && n == 5 + |payload| <= |buf|
          && buf[..n] == Frame(kind, payload) {
        FrameRoundTrip(helloOk, kind, payload, buf[n..]);
        assert buf == buf[..n] + buf[n..];
      }
      if ParseFrame(helloOk, buf) == Parsed(kind, payload, n) { ParsedIsFramed(helloOk, buf, kind, payload, n); }
    }
    if ParseFrame(helloOk, buf) == Incomplete && |buf| >= 4 { IncompleteIsBegun(helloOk, buf); }
    forall kind: byte, payload: seq<byte> | |payload| < 1048576 && |buf| < 5 + |payload|
        && buf == Frame(kind, payload)[..|buf|] ensures ParseFrame(helloOk, buf) == Incomplete {
      FrameNeedsAllItsBytes(helloOk, kind, payload, |buf|);
    }
  }

  lemma ParsedIsFramed(helloOk: seq<byte> -> bool, buf: seq<byte>, kind: byte, payload: seq<byte>, n: nat)
    requires ParseFrame(helloOk, buf) == Parsed(kind, payload, n)
    ensures |payload| < 1048576 && ValidPayload(helloOk, kind, payload) && n == 5 + |payload| <= |buf|
    ensures buf[..n] == Frame(kind, payload)
  {
    HeaderIsLength(buf[..4]);
    assert buf[..n] == buf[..4] + [buf[4]] + buf[5..n];
  }

  lemma IncompleteIsBegun(helloOk: seq<byte> -> bool, buf: seq<byte>)
    requires ParseFrame(helloOk, buf) == Incomplete && |buf| >= 4
    ensures exists kind: byte, payload: seq<byte> ::
              |payload| < 1048576 && |buf| < 5 + |payload| && buf == Frame(kind, payload)[..|buf|]
  {
    var length := Big32(buf[..4]);
    var kind: byte := if |buf| > 4 then buf[4] else 0;
    var begun := if |buf| > 5 then buf[5..] else [];
    var payload := begun + seq(length - 1 - |begun|, _ => 0);
    HeaderIsLength(buf[..4]);
    assert buf == (buf[..4] + [kind] + payload)[..|buf|];
    assert Frame(kind, payload) == buf[..4] + [kind] + payload;
  }

  // ---------------------------------------------------------------- the serve loop

  datatype Message = Message(kind: byte, payload: seq<byte>)

  /** Where a connection stands: still reading, or closed by a bad frame or by its handler. */
  datatype Stop = Open | Refused(code: ErrorCode) | Declined

  /** What a stream of bytes amounts to: the messages handled, why it stopped, and the bytes left over. */
  datatype Outcome = Outcome(handled: seq<Message>, stop: Stop, rest: seq<byte>)

  /**
   Everything that can be read off `buf`, given the messages handled before. The handler closes the
   connection after a message if `accepts` says no for the messages so far.
   */
  function Drain(helloOk: seq<byte> -> bool, accepts: seq<Message> -> bool, handled: seq<Message>,
      buf: seq<byte>): Outcome
    decreases |buf|
  {
    match ParseFrame(helloOk, buf)
    case Incomplete => Outcome(handled, Open, buf)
    case Fatal(code) => Outcome(handled, Refused(code), buf)
    case Parsed(kind, payload, consumed) =>
      var now := handled + [Message(kind, payload)];
      if accepts(now) then Drain(helloOk, accepts, now, buf[consumed..]) else Outcome(now, Declined, buf[consumed..])
  }

  /** One read of the connection. */
  function Receive(helloOk: seq<byte> -> bool, accepts: seq<Message> -> bool, o: Outcome, chunk: seq<byte>): Outcome {
    if o.stop.Open? then Drain(helloOk, accepts, o.handled, o.rest + chunk) else o
  }

  function ReceiveAll(helloOk: seq<byte> -> bool, accepts: seq<Message> -> bool, chunks: seq<seq<byte>>): Outcome {
    if chunks == [] then Outcome([], Open, [])
    else Receive(helloOk, accepts, ReceiveAll(helloOk, accepts, chunks[..|chunks| - 1]), chunks[|chunks| - 1])
  }

  class Connection {
    const helloOk: seq<byte> -> bool
    const accepts: seq<Message> -> bool
    var buf: seq<byte>
    var handled: seq<Message>
    var stop: Stop

    constructor (helloOk: seq<byte> -> bool, accepts: seq<Message> -> bool)
      ensures this.helloOk == helloOk && this.accepts == accepts && State() == Outcome([], Open, [])
    {
      this.helloOk := helloOk;
      this.accepts := accepts;
      this.buf, this.handled, this.stop := [], [], Open;
    }

    function State(): Outcome
      reads this
    {
      Outcome(handled, stop, buf)
    }

    /** `serve`: append what was read, then handle every complete frame. */
    method Read(chunk: seq<byte>)
      requires stop.Open?
      modifies this
      ensures State() == Receive(helloOk, accepts, old(State()), chunk)
    {
      buf := buf + chunk;
      ghost var goal := Drain(helloOk, accepts, handled, buf);
      while stop.Open?
        invariant stop.Open? ==> Drain(helloOk, accepts, handled, buf) == goal
        invariant !stop.Open? ==> State() == goal
        decreases if stop.Open? then 1 + |buf| else 0
      {
        var p := ParseFrame(helloOk, buf);
        if p.Incomplete? { break; }
        if p.Fatal? {
          stop := Refused(p.code);
          break;
        }
        buf := buf[p.consumed..];
        handled := handled + [Message(p.kind, p.payload)];
        if !accepts(handled) { stop := Declined; }
      }
    }
  }

  function Concat(chunks: seq<seq<byte>>): seq<byte> {
    if chunks == [] then [] else Concat(chunks[..|chunks| - 1]) + chunks[|chunks| - 1]
  }

  /** Draining now and again when more has come is draining once: the same messages, the same stop. */
  lemma {:induction false} DrainInParts(helloOk: seq<byte> -> bool, accepts: seq<Message> -> bool,
      handled: seq<Message>, buf: seq<byte>, more: seq<byte>)
    ensures var part := Drain(helloOk, accepts, handled, buf);
            var whole := Drain(helloOk, accepts, handled, buf + more);
            if part.stop.Open? then whole == Drain(helloOk, accepts, part.handled, part.rest + more)
            else whole.handled == part.handled && whole.stop == part.stop && whole.rest == part.rest + more
    decreases |buf|
  {
    var p := ParseFrame(helloOk, buf);
    if p != Incomplete {
      MoreBytesDoNotMatter(helloOk, buf, more);
      if p.Parsed? {
        var now := handled + [Message(p.kind, p.payload)];
        assert (buf + more)[p.consumed..] == buf[p.consumed..] + more;
        if accepts(now) { DrainInParts(helloOk, accepts, now, buf[p.consumed..], more); }
      }
    }
  }

  /**
   Framing does not depend on chunking: however a byte stream is cut into reads, the connection
   handles the same messages and stops for the same reason as if it had read everything at once.
   */
  lemma {:induction false} ChunkingDoesNotMatter(helloOk: seq<byte> -> bool, accepts: seq<Message> -> bool,
      chunks: seq<seq<byte>>)
    ensures var parts := ReceiveAll(helloOk, accepts, chunks);
            var whole := Drain(helloOk, accepts, [], Concat(chunks));
            && parts.handled == whole.handled && parts.stop == whole.stop
            && (parts.stop.Open? ==> parts.rest == whole.rest)
  {
    if chunks == [] {
      assert ParseFrame(helloOk, []) == Incomplete;
    } else {
      var init, last := chunks[..|chunks| - 1], chunks[|chunks| - 1];
      ChunkingDoesNotMatter(helloOk, accepts, init);
      DrainInParts(helloOk, accepts, [], Concat(init), last);
    }
  }

  function FrameAll(messages: seq<Message>): seq<byte>
    requires forall i | 0 <= i < |messages| :: |messages[i].payload| < MAX_FRAME
  {
    if messages == [] then [] else Frame(messages[0].kind, messages[0].payload) + FrameAll(messages[1..])
  }

  lemma DrainOne(helloOk: seq<byte> -> bool, accepts: seq<Message> -> bool, handled: seq<Message>, m: Message,
      rest: seq<byte>)
    requires |m.payload| < MAX_FRAME && ValidPayload(helloOk, m.kind, m.payload) && accepts(handled + [m])
    ensures Drain(helloOk, accepts, handled, Frame(m.kind, m.payload) + rest)
              == Drain(helloOk, accepts, handled + [m], rest)
  {
    var frame := Frame(m.kind, m.payload);
    FrameRoundTrip(helloOk, m.kind, m.payload, rest);
    var buf := frame + rest;
    assert buf[5 + |m.payload|..] == rest;
  }

  /** A stream of valid frames is handled message by message, in order, as long as the handler accepts. */
  lemma {:induction false} FramesAreHandled(helloOk: seq<byte> -> bool, accepts: seq<Message> -> bool,
      handled: seq<Message>, messages: seq<Message>)
    requires forall i | 0 <= i < |messages| ::
               |messages[i].payload| < MAX_FRAME && ValidPayload(helloOk, messages[i].kind, messages[i].payload)
    requires forall now | handled < now <= handled + messages :: accepts(now)
    ensures Drain(helloOk, accepts, handled, FrameAll(messages)) == Outcome(handled + messages, Open, [])
    decreases |messages|
  {
    if messages == [] {
      assert handled + messages == handled;
    } else {
      var m, rest := messages[0], messages[1..];
      var now := handled + [m];
      assert now + rest == handled + messages;
      DrainOne(helloOk, accepts, handled, m, FrameAll(rest));
      FramesAreHandled(helloOk, accepts, now, rest);
    }
  }

  /** `FuzzParse`: walks a whole input frame by frame and always ends, at the first byte it cannot use. */
  method FuzzParse(helloOk: seq<byte> -> bool, buf: seq<byte>) returns (off: nat, messages: seq<Message>)
    ensures off <= |buf| && buf[off..] == Drain(helloOk, _ => true, [], buf).rest
    ensures messages == Drain(helloOk, _ => true, [], buf).handled
  {
    off := 0;
    messages := [];
    ghost var all: seq<Message> -> bool := _ => true;
    ghost var goal := Drain(helloOk, _ => true, [], buf);
    while true
      invariant off <= |buf| && Drain(helloOk, _ => true, messages, buf[off..]) == goal
      decreases |buf| - off
    {
      var p := ParseFrame(helloOk, buf[off..]);
      if !p.Parsed? { return; }
      assert buf[off..][p.consumed..] == buf[off + p.consumed..];
      off := off + p.consumed;
      messages := messages + [Message(p.kind, p.payload)];
      if off >= |buf| {
        assert buf[off..] == [];
        return;
      }
    }
  }
}
