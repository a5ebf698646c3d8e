/** Channel results in chunks: cut up, base64-encoded, interleaved with others, and put together again. */
module ChannelResult {
  import opened Options
  import opened Ring

  const RESULT_CHUNK_BYTES := 4_096
  const MAX_RESULT_BYTES := 128 * 1024
  const RELAY_MAX_TERMINAL_BYTES := 8_192

  type RequestId = string

  datatype Frame = Frame(request: RequestId, ok: bool, index: nat, final: bool, payload: string)

  // ---------------------------------------------------------------- base64, section 4 of RFC 4648

  function Letter(n: nat): char
    requires n < 64
  {
    if n < 26 then ('A' as int + n) as char
    else if n < 52 then ('a' as int + n - 26) as char
    else if n < 62 then ('0' as int + n - 52) as char
    else if n == 62 then '+'
    else '/'
  }

  /** The value of a letter of the alphabet; 64 for anything else. */
  function LetterValue(c: char): (n: nat)
    ensures n <= 64 && (n < 64 ==> Letter(n) == c)
  {
    if 'A' <= c <= 'Z' then c as int - 'A' as int
    else if 'a' <= c <= 'z' then 26 + (c as int - 'a' as int)
    else if '0' <= c <= '9' then 52 + (c as int - '0' as int)
    else if c == '+' then 62
    else if c == '/' then 63
    else 64
  }

  lemma LetterRoundTrip(n: nat)
    requires n < 64
    ensures LetterValue(Letter(n)) == n && Letter(n) != '='
  {
  }

  /** The four groups of six bits in three bytes. */
  function Sextets(x: byte, y: byte, z: byte): (s: (nat, nat, nat, nat))
    ensures s.0 < 64 && s.1 < 64 && s.2 < 64 && s.3 < 64
  {
    (x as int / 4, x as int % 4 * 16 + y as int / 16, y as int % 16 * 4 + z as int / 64, z as int % 64)
  }

  /** The three bytes in four groups of six bits. */
  function Octets(a: nat, b: nat, c: nat, d: nat): (byte, byte, byte)
    requires a < 64 && b < 64 && c < 64 && d < 64
  {
    (a * 4 + b / 16, b % 16 * 16 + c / 4, c % 4 * 64 + d)
  }

  /** Two numbers packed into one are unpacked again. */
  lemma Unpacked(high: nat, low: nat, base: nat)
    requires low < base && base in {4, 16}
    ensures (high * base + low) / base == high && (high * base + low) % base == low
  {
  }

  lemma OctetsOfSextets(x: byte, y: byte, z: byte)
    ensures var s := Sextets(x, y, z); Octets(s.0, s.1, s.2, s.3) == (x, y, z)
  {
    Unpacked(x as int % 4, y as int / 16, 16);
    Unpacked(y as int % 16, z as int / 64, 4);
  }

  function Group(x: byte, y: byte, z: byte): (g: string)
    ensures |g| == 4
  {
    var s := Sextets(x, y, z);
    [Letter(s.0), Letter(s.1), Letter(s.2), Letter(s.3)]
  }

  /** Three bytes make four letters; one or two bytes at the end are padded. */
  function Encode(b: seq<byte>): string {
    if b == [] then ""
    else if |b| == 1 then Group(b[0], 0, 0)[..2] + "=="
    else if |b| == 2 then Group(b[0], b[1], 0)[..3] + "="
    else Group(b[0], b[1], b[2]) + Encode(b[3..])
  }

  function SextetOf(c: char): (n: nat)
    ensures n < 64
  {
    var n := LetterValue(c);
    if n < 64 then n else 0
  }

  /** The bytes of a padded base64 text. */
  function Decode(s: string): seq<byte> {
    if |s| < 4 then []
    else
      var (x, y, z) := Octets(SextetOf(s[0]), SextetOf(s[1]), SextetOf(s[2]), SextetOf(s[3]));
      if s[2] == '=' then [x] else if s[3] == '=' then [x, y] else [x, y, z] + Decode(s[4..])
  }

  lemma GroupRoundTrip(x: byte, y: byte, z: byte)
    ensures var g := Group(x, y, z);
            && Octets(SextetOf(g[0]), SextetOf(g[1]), SextetOf(g[2]), SextetOf(g[3])) == (x, y, z)
            && g[2] != '=' && g[3] != '='
  {
    var s := Sextets(x, y, z);
    LetterRoundTrip(s.0);
    LetterRoundTrip(s.1);
    LetterRoundTrip(s.2);
    LetterRoundTrip(s.3);
    OctetsOfSextets(x, y, z);
  }

  lemma LastByte(x: byte)
    ensures Decode(Group(x, 0, 0)[..2] + "==") == [x]
  {
    var s := Group(x, 0, 0)[..2] + "==";
    var t := Sextets(x, 0, 0);
    LetterRoundTrip(t.0);
    LetterRoundTrip(t.1);
    OctetsOfSextets(x, 0, 0);
    assert t.2 == 0 && t.3 == 0;
    assert SextetOf(s[0]) == t.0 && SextetOf(s[1]) == t.1 && SextetOf(s[2]) == 0 && SextetOf(s[3]) == 0;
  }

  lemma LastTwoBytes(x: byte, y: byte)
    ensures Decode(Group(x, y, 0)[..3] + "=") == [x, y]
  {
    var s := Group(x, y, 0)[..3] + "=";
    var t := Sextets(x, y, 0);
    LetterRoundTrip(t.0);
    LetterRoundTrip(t.1);
    LetterRoundTrip(t.2);
    OctetsOfSextets(x, y, 0);
    assert t.3 == 0;
    assert SextetOf(s[0]) == t.0 && SextetOf(s[1]) == t.1 && SextetOf(s[2]) == t.2 && SextetOf(s[3]) == 0;
  }

  lemma ShortRoundTrip(b: seq<byte>)
    requires |b| < 3
    ensures Decode(Encode(b)) == b
  {
    if |b| == 1 {
      LastByte(b[0]);
      assert b == [b[0]];
    } else if |b| == 2 {
      LastTwoBytes(b[0], b[1]);
      assert b == [b[0], b[1]];
    }
  }

  lemma EncodeUnfolds(b: seq<byte>, rest: seq<byte>)
    requires |b| >= 3 && rest == b[3..]
    ensures Encode(b) == Group(b[0], b[1], b[2]) + Encode(rest) && b == [b[0], b[1], b[2]] + rest
  {
  }

  lemma {:induction false} DecodeEncode(b: seq<byte>)
    ensures Decode(Encode(b)) == b
    decreases |b|
  {
    if |b| < 3 {
      ShortRoundTrip(b);
    } else {
      var rest := b[3..];
      DecodeEncode(rest);
      EncodeUnfolds(b, rest);
      DecodeEncodeGroup(b[0], b[1], b[2], Encode(rest));
    }
  }

  lemma DecodeEncodeGroup(x: byte, y: byte, z: byte, rest: string)
    ensures Decode(Group(x, y, z) + rest) == [x, y, z] + Decode(rest)
  {
    GroupRoundTrip(x, y, z);
    assert (Group(x, y, z) + rest)[4..] == rest;
  }

  function GroupCount(n: nat): nat {
    (n + 2) / 3
  }

  lemma GroupsFit(n: nat)
    requires n <= RESULT_CHUNK_BYTES
    ensures 4 * GroupCount(n) <= RELAY_MAX_TERMINAL_BYTES && 4 * GroupCount(n) % 4 == 0
  {
  }

  lemma {:induction false} EncodedLength(b: seq<byte>)
    ensures |Encode(b)| == 4 * GroupCount(|b|)
    decreases |b|
  {
    if |b| >= 3 {
      EncodedLength(b[3..]);
      assert GroupCount(|b|) == 1 + GroupCount(|b| - 3);
    }
  }

  /** Every chunk of a result fits the payload field of a frame. */
  lemma ChunkFitsTheField(b: seq<byte>)
    requires |b| <= RESULT_CHUNK_BYTES
    ensures |Encode(b)| <= RELAY_MAX_TERMINAL_BYTES && |Encode(b)| % 4 == 0
  {
    EncodedLength(b);
    GroupsFit(|b|);
  }

  // ---------------------------------------------------------------- sending

  function ChunkCount(n: nat): (k: nat)
    ensures k > 0 && (k - 1) * RESULT_CHUNK_BYTES <= n <= k * RESULT_CHUNK_BYTES
  {
    if n == 0 then 1 else (n + RESULT_CHUNK_BYTES - 1) / RESULT_CHUNK_BYTES
  }

  function Chunk(bytes: seq<byte>, i: nat): seq<byte>
    requires i * RESULT_CHUNK_BYTES <= |bytes|
  {
    bytes[i * RESULT_CHUNK_BYTES..Min((i + 1) * RESULT_CHUNK_BYTES, |bytes|)]
  }

  function FrameAt(request: RequestId, ok: bool, bytes: seq<byte>, i: nat): Frame
    requires i < ChunkCount(|bytes|)
  {
    Frame(request, ok, i, i == ChunkCount(|bytes|) - 1, Encode(Chunk(bytes, i)))
  }

  /** The first `n` frames of a result. */
  function FirstFrames(request: RequestId, ok: bool, bytes: seq<byte>, n: nat): seq<Frame>
    requires n <= ChunkCount(|bytes|)
  {
    if n == 0 then [] else FirstFrames(request, ok, bytes, n - 1) + [FrameAt(request, ok, bytes, n - 1)]
  }

  lemma NextFrame(request: RequestId, ok: bool, bytes: seq<byte>, i: nat, chunks: nat)
    requires i < chunks == ChunkCount(|bytes|)
    ensures i * RESULT_CHUNK_BYTES <= |bytes|
    ensures FirstFrames(request, ok, bytes, i + 1) == FirstFrames(request, ok, bytes, i)
              + [Frame(request, ok, i, i == chunks - 1, Encode(Chunk(bytes, i)))]
  {
  }

  /** `sendChannelResult`. */
  method SendChannelResult(request: RequestId, ok: bool, bytes: seq<byte>) returns (frames: Option<seq<Frame>>)
    ensures frames == if |bytes| > MAX_RESULT_BYTES then None
              else Some(FirstFrames(request, ok, bytes, ChunkCount(|bytes|)))
  {
    if |bytes| > MAX_RESULT_BYTES { return None; }
    var chunks := ChunkCount(|bytes|);
    var sent: seq<Frame> := [];
    var i := 0;
    while i < chunks
      invariant i <= chunks && sent == FirstFrames(request, ok, bytes, i)
    {
      NextFrame(request, ok, bytes, i, chunks);
      sent := sent + [Frame(request, ok, i, i == chunks - 1, Encode(Chunk(bytes, i)))];
      i := i + 1;
    }
    frames := Some(sent);
  }

  // ---------------------------------------------------------------- putting together

  datatype Pending = Pending(ok: bool, next: nat, bytes: seq<byte>)

  datatype Accepted = Refused | Waiting | Complete(ok: bool, bytes: seq<byte>)

  type Table = map<RequestId, Pending>

  function Accept(table: Table, f: Frame): (Table, Accepted) {
    var p := if f.request in table then table[f.request] else Pending(f.ok, 0, []);
    if p.ok != f.ok || f.index != p.next then (table - {f.request}, Refused)
    else
      var bytes := p.bytes + Decode(f.payload);
      if |bytes| > MAX_RESULT_BYTES then (table - {f.request}, Refused)
      else if f.final then (table - {f.request}, Complete(p.ok, bytes))
      else (table[f.request := Pending(p.ok, p.next + 1, bytes)], Waiting)
  }

  class ChannelResultAssembler {
    var pending: Table

    constructor ()
      ensures pending == map[]
    {
      pending := map[];
    }

    method AcceptFrame(f: Frame) returns (result: Accepted)
      modifies this
      ensures (pending, result) == Accept(old(pending), f)
    {
      var p := Pending(f.ok, 0, []);
      if f.request in pending { p := pending[f.request]; }
      if p.ok != f.ok || f.index != p.next {
        pending := pending - {f.request};
        return Refused;
      }
      var bytes := p.bytes + Decode(f.payload);
      if |bytes| > MAX_RESULT_BYTES {
        pending := pending - {f.request};
        return Refused;
      }
      if !f.final {
        pending := pending[f.request := Pending(p.ok, p.next + 1, bytes)];
        return Waiting;
      }
      pending := pending - {f.request};
      result := Complete(p.ok, bytes);
    }

    /** `clear`: forgets one request, or all of them. */
    method Clear(request: Option<RequestId>)
      modifies this
      ensures pending == if request.Some? then old(pending) - {request.value} else map[]
    {
      pending := if request.Some? then pending - {request.value} else map[];
    }
  }

  /** What the assembler holds after these frames. */
  function AcceptAll(frames: seq<Frame>): Table {
    if frames == [] then map[] else Accept(AcceptAll(frames[..|frames| - 1]), frames[|frames| - 1]).0
  }

  predicate WithinBound(bytes: seq<byte>) {
    |bytes| <= MAX_RESULT_BYTES
  }

  ghost predicate Bounded(table: Table) {
    forall r | r in table :: WithinBound(table[r].bytes)
  }

  lemma AcceptKeepsBound(table: Table, f: Frame)
    requires Bounded(table)
    ensures Bounded(Accept(table, f).0)
    ensures Accept(table, f).1.Complete? ==> WithinBound(Accept(table, f).1.bytes)
  {
  }

  /**
   Whatever frames come, in any order and for any requests: what is stored and what is handed on stays in the
   bound.
   */
  lemma {:induction false} AlwaysBounded(frames: seq<Frame>, next: Frame)
    ensures Bounded(AcceptAll(frames))
    ensures Accept(AcceptAll(frames), next).1.Complete? ==> WithinBound(Accept(AcceptAll(frames), next).1.bytes)
    decreases |frames|
  {
    if frames != [] { AlwaysBounded(frames[..|frames| - 1], frames[|frames| - 1]); }
    AcceptKeepsBound(AcceptAll(frames), next);
    if frames != [] { AcceptKeepsBound(AcceptAll(frames[..|frames| - 1]), frames[|frames| - 1]); }
  }

  // ---------------------------------------------------------------- interleaved requests

  datatype Source = Source(ok: bool, bytes: seq<byte>)

  /** The frames of some request in order, cut anywhere into others': `position` says how many of each have come. */
  ghost predicate InOrder(sources: map<RequestId, Source>, frames: seq<Frame>) {
    frames == [] ||
    (var f := frames[|frames| - 1];
     var before := frames[..|frames| - 1];
     && InOrder(sources, before) && f.request in sources
     && Count(before, f.request) < ChunkCount(|sources[f.request].bytes|)
     && f == FrameAt(f.request, sources[f.request].ok, sources[f.request].bytes, Count(before, f.request)))
  }

  function Count(frames: seq<Frame>, request: RequestId): nat {
    if frames == [] then 0 else
        Count(frames[..|frames| - 1], request) + if frames[|frames| - 1].request == request then 1 else 0
  }

  /** Half way, the assembler holds exactly the beginning of each unfinished result. */
  ghost predicate Half(table: Table, source: Source, request: RequestId, n: nat) {
    var chunks := ChunkCount(|source.bytes|);
    if n == 0 || n == chunks then request !in table
    else
      var sent := source.bytes[..Min(n * RESULT_CHUNK_BYTES, |source.bytes|)];
      n < chunks && request in table && table[request] == Pending(source.ok, n, sent)
  }

  lemma OneMoreChunk(source: Source, i: nat)
    requires i < ChunkCount(|source.bytes|)
    ensures source.bytes[..Min(i * RESULT_CHUNK_BYTES, |source.bytes|)] + Chunk(source.bytes, i)
              == source.bytes[..Min((i + 1) * RESULT_CHUNK_BYTES, |source.bytes|)]
  {
  }

  lemma AcceptNext(table: Table, request: RequestId, source: Source, i: nat)
    requires |source.bytes| <= MAX_RESULT_BYTES && i < ChunkCount(|source.bytes|) && Half(table, source, request, i)
    ensures var (table', result) := Accept(table, FrameAt(request, source.ok, source.bytes, i));
            && Half(table', source, request, i + 1)
            && result == (if i == ChunkCount(|source.bytes|) - 1 then Complete(source.ok, source.bytes) else Waiting)
            && forall r | r != request :: (r in table' <==> r in table) && (r in table ==> table'[r] == table[r])
  {
    DecodeEncode(Chunk(source.bytes, i));
    OneMoreChunk(source, i);
    assert i == 0 ==> source.bytes[..Min(i * RESULT_CHUNK_BYTES, |source.bytes|)] == [];
    if i == ChunkCount(|source.bytes|) - 1 {
      assert source.bytes[..Min((i + 1) * RESULT_CHUNK_BYTES, |source.bytes|)] == source.bytes;
    }
  }

  /** Where each result stands after `frames`. */
  ghost predicate AllHalf(sources: map<RequestId, Source>, frames: seq<Frame>, table: Table) {
    forall r | r in sources ::
      Count(frames, r) <= ChunkCount(|sources[r].bytes|) && Half(table, sources[r], r, Count(frames, r))
  }

  lemma OtherHalf(table: Table, table': Table, source: Source, r: RequestId, n: nat)
    requires Half(table, source, r, n) && (r in table' <==> r in table) && (r in table ==> table'[r] == table[r])
    ensures Half(table', source, r, n)
  {
  }

  lemma AllHalfNext(sources: map<RequestId, Source>, frames: seq<Frame>, before: seq<Frame>, request: RequestId,
      table: Table, table': Table)
    requires frames != [] && before == frames[..|frames| - 1] && request == frames[|frames| - 1].request
    requires request in sources && Count(before, request) < ChunkCount(|sources[request].bytes|)
    requires AllHalf(sources, before, table) && Half(table', sources[request], request, Count(before, request) + 1)
    requires forall r | r != request :: (r in table' <==> r in table) && (r in table ==> table'[r] == table[r])
    ensures AllHalf(sources, frames, table')
  {
    forall r | r in sources
      ensures Count(frames, r) <= ChunkCount(|sources[r].bytes|) && Half(table', sources[r], r, Count(frames, r))
    {
      var n := Count(before, r);
      assert Count(frames, r) == if r == request then n + 1 else n;
      if r != request { OtherHalf(table, table', sources[r], r, n); }
    }
  }

  lemma {:induction false} HalfWay(sources: map<RequestId, Source>, frames: seq<Frame>)
    requires (forall r | r in sources :: |sources[r].bytes| <= MAX_RESULT_BYTES) && InOrder(sources, frames)
    ensures AllHalf(sources, frames, AcceptAll(frames))
    decreases |frames|
  {
    if frames != [] {
      var before, f := frames[..|frames| - 1], frames[|frames| - 1];
      var table := AcceptAll(before);
      HalfWay(sources, before);
      AcceptNext(table, f.request, sources[f.request], Count(before, f.request));
      AllHalfNext(sources, frames, before, f.request, table, Accept(table, f).0);
    }
  }

  /**
   Chunked results reassemble. However the frames of many results are interleaved, as long as each
   result's own come in order, every frame but a last one yields nothing and the last one yields
   exactly the original bytes.
   */
  lemma ResultsReassemble(sources: map<RequestId, Source>, frames: seq<Frame>)
    requires (forall r | r in sources :: |sources[r].bytes| <= MAX_RESULT_BYTES) && InOrder(sources, frames)
    requires frames != []
    ensures var before, f := frames[..|frames| - 1], frames[|frames| - 1];
            f.request in sources &&
            Accept(AcceptAll(before), f).1 == if f.final
                then Complete(sources[f.request].ok, sources[f.request].bytes) else Waiting
  {
    var before, f := frames[..|frames| - 1], frames[|frames| - 1];
    HalfWay(sources, before);
    AcceptNext(AcceptAll(before), f.request, sources[f.request], Count(before, f.request));
  }

  // ---------------------------------------------------------------- nothing else is ever completed

  function OfRequest(frames: seq<Frame>, request: RequestId): seq<Frame> {
    if frames == [] then []
    else
      var last := frames[|frames| - 1];
      OfRequest(frames[..|frames| - 1], request) + if last.request == request then [last] else []
  }

  /** What the frames carry, one after the other. */
  function Carried(decode: string -> seq<byte>, frames: seq<Frame>): seq<byte> {
    if frames == [] then []
    else Carried(decode, frames[..|frames| - 1]) + decode(frames[|frames| - 1].payload)
  }

  /** Frames 0, 1, 2, ... of one result: all with the same flag, and none but perhaps the last final. */
  predicate Consecutive(frames: seq<Frame>, ok: bool, complete: bool) {
    forall i | 0 <= i < |frames| ::
      frames[i].index == i && frames[i].ok == ok && (frames[i].final <==> complete && i == |frames| - 1)
  }

  /** The last `n` frames of a request are consecutive and carry these bytes. */
  predicate Gathered(decode: string -> seq<byte>, mine: seq<Frame>, n: nat, ok: bool, bytes: seq<byte>,
      complete: bool) {
    n <= |mine| && Consecutive(mine[|mine| - n..], ok, complete) && bytes == Carried(decode, mine[|mine| - n..])
  }

  ghost predicate AllGathered(decode: string -> seq<byte>, frames: seq<Frame>, table: Table) {
    forall r | r in table ::
      Gathered(decode, OfRequest(frames, r), table[r].next, table[r].ok, table[r].bytes, false)
  }

  lemma OfRequestNext(frames: seq<Frame>, f: Frame, r: RequestId)
    ensures OfRequest(frames + [f], r) == if f.request == r then OfRequest(frames, r) + [f] else OfRequest(frames, r)
  {
    assert (frames + [f])[..|frames|] == frames;
  }

  lemma OneMore(mine: seq<Frame>, f: Frame, n: nat)
    requires n <= |mine|
    ensures (mine + [f])[|mine + [f]| - (n + 1)..] == mine[|mine| - n..] + [f]
  {
  }

  lemma ConsecutiveNext(decode: string -> seq<byte>, tail: seq<Frame>, f: Frame, ok: bool)
    requires Consecutive(tail, ok, false) && f.index == |tail| && f.ok == ok
    ensures Consecutive(tail + [f], ok, f.final)
    ensures Carried(decode, tail + [f]) == Carried(decode, tail) + decode(f.payload)
  {
    assert (tail + [f])[..|tail|] == tail;
  }

  lemma GatheredNext(decode: string -> seq<byte>, mine: seq<Frame>, f: Frame, n: nat, ok: bool, bytes: seq<byte>)
    requires Gathered(decode, mine, n, ok, bytes, false) && f.index == n && f.ok == ok
    ensures Gathered(decode, mine + [f], n + 1, ok, bytes + decode(f.payload), f.final)
  {
    OneMore(mine, f, n);
    ConsecutiveNext(decode, mine[|mine| - n..], f, ok);
  }

  /** What one accepted frame does, whatever it carries. */
  lemma AcceptCases(table: Table, f: Frame, part: seq<byte>)
    requires part == Decode(f.payload)
    ensures var (table', result) := Accept(table, f);
            var p := if f.request in table then table[f.request] else Pending(f.ok, 0, []);
            && (forall r | r in table' && r != f.request :: r in table && table'[r] == table[r])
            && (f.request in table' ==>
                  p.ok == f.ok && f.index == p.next && !f.final
                  && table'[f.request] == Pending(p.ok, p.next + 1, p.bytes + part))
            && (result.Complete? ==>
                  p.ok == f.ok && f.index == p.next && f.final && result == Complete(p.ok, p.bytes + part))
  {
  }

  lemma TableGathers(decode: string -> seq<byte>, frames: seq<Frame>, table: Table, table': Table, f: Frame, p: Pending)
    requires AllGathered(decode, frames, table)
    requires Gathered(decode, OfRequest(frames, f.request), p.next, p.ok, p.bytes, false)
    requires forall r | r in table' && r != f.request :: r in table && table'[r] == table[r]
    requires f.request in table' ==>
               p.ok == f.ok && f.index == p.next && !f.final
               && table'[f.request] == Pending(p.ok, p.next + 1, p.bytes + decode(f.payload))
    ensures AllGathered(decode, frames + [f], table')
  {
    forall r | r in table'
      ensures Gathered(decode, OfRequest(frames + [f], r), table'[r].next, table'[r].ok, table'[r].bytes, false)
    {
      OfRequestNext(frames, f, r);
      if r == f.request { GatheredNext(decode, OfRequest(frames, r), f, p.next, p.ok, p.bytes); }
    }
  }

  /** What is stored for the request of `f`, or the start of a result. */
  function Stored(table: Table, f: Frame): Pending {
    if f.request in table then table[f.request] else Pending(f.ok, 0, [])
  }

  lemma StoredIsGathered(decode: string -> seq<byte>, frames: seq<Frame>, table: Table, f: Frame)
    requires AllGathered(decode, frames, table)
    ensures var p := Stored(table, f);
            Gathered(decode, OfRequest(frames, f.request), p.next, p.ok, p.bytes, false)
  {
    var mine := OfRequest(frames, f.request);
    assert mine[|mine| - 0..] == [];
  }

  lemma {:induction false} RunGathers(decode: string -> seq<byte>, frames: seq<Frame>)
    requires forall f | f in frames :: decode(f.payload) == Decode(f.payload)
    ensures AllGathered(decode, frames, AcceptAll(frames))
    decreases |frames|
  {
    if frames != [] {
      var before, f := frames[..|frames| - 1], frames[|frames| - 1];
      var table := AcceptAll(before);
      RunGathers(decode, before);
      StoredIsGathered(decode, before, table, f);
      AcceptCases(table, f, decode(f.payload));
      TableGathers(decode, before, table, Accept(table, f).0, f, Stored(table, f));
      assert before + [f] == frames;
    }
  }

  /**
   Nothing else is completed. Whatever frames came before, in any order: a result is only handed on when the
   last frames of its request are number 0 to n, one after the other, with one flag and only the last one
   final; and it is exactly what they carry.
   */
  lemma CompletedOnlyInOrder(decode: string -> seq<byte>, frames: seq<Frame>, f: Frame)
    requires forall s: string :: decode(s) == Decode(s)
    requires Accept(AcceptAll(frames), f).1.Complete?
    ensures var result := Accept(AcceptAll(frames), f).1;
            && Gathered(decode, OfRequest(frames + [f], f.request), f.index + 1, result.ok, result.bytes, true)
            && |result.bytes| <= 131072
  {
    var table := AcceptAll(frames);
    RunGathers(decode, frames);
    StoredIsGathered(decode, frames, table, f);
    AcceptCases(table, f, decode(f.payload));
    OfRequestNext(frames, f, f.request);
    var p := Stored(table, f);
    GatheredNext(decode, OfRequest(frames, f.request), f, p.next, p.ok, p.bytes);
    AlwaysBounded(frames, f);
  }
}
