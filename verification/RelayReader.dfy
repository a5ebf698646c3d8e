/** The newline-delimited frame reader of the relay, and when it does not matter how a text is cut up. */
module RelayReader {
  import opened Options
  import opened Utf16
  import Artifacts
  import JsonGrammar
  import Manifest

  const RELAY_MAX_FRAME_BYTES := 16_384
  const NEWLINE: Unit := 0x0A

  /** Complete lines, and what is left after the last newline. */
  datatype Cut = Cut(lines: seq<Text>, rest: Text)

  function NewlineFrom(t: Text, from: nat): (i: nat)
    requires from <= |t|
    ensures from <= i <= |t| && (i < |t| ==> t[i] == NEWLINE) && forall k | from <= k < i :: t[k] != NEWLINE
    decreases |t| - from
  {
    if from == |t| || t[from] == NEWLINE then from else NewlineFrom(t, from + 1)
  }

  function FirstNewline(t: Text): (i: nat)
    ensures i <= |t| && (i < |t| ==> t[i] == NEWLINE) && forall k | 0 <= k < i :: t[k] != NEWLINE
  {
    NewlineFrom(t, 0)
  }

  function CutLines(t: Text): Cut
    decreases |t|
  {
    var i := FirstNewline(t);
    if i == |t| then Cut([], t)
    else
      var more := CutLines(t[i + 1..]);
      Cut([t[..i]] + more.lines, more.rest)
  }

  predicate Fits(t: Text) {
    Artifacts.Utf8Length(t) <= RELAY_MAX_FRAME_BYTES
  }

  /** One chunk on top of what was left: the lines it completes, or an error if the rest has grown too long. */
  function Pushed(buffer: Text, chunk: Text): Option<Cut> {
    var cut := CutLines(buffer + chunk);
    if Fits(cut.rest) then Some(cut) else None
  }

  /** All chunks: the lines in order and the final rest, or an error as soon as one push fails. */
  function Feed(chunks: seq<Text>): Option<Cut> {
    if chunks == [] then Some(Cut([], []))
    else
      match Feed(chunks[..|chunks| - 1])
      case None => None
      case Some(before) =>
        match Pushed(before.rest, chunks[|chunks| - 1])
        case None => None
        case Some(cut) => Some(Cut(before.lines + cut.lines, cut.rest))
  }

  class RelayFrameReader {
    var buffer: Text

    constructor ()
      ensures buffer == []
    {
      buffer := [];
    }

    method Push(chunk: Text) returns (lines: Option<seq<Text>>)
      modifies this
      ensures buffer == CutLines(old(buffer) + chunk).rest
      ensures match Pushed(old(buffer), chunk)
              case None => lines == None
              case Some(cut) => lines == Some(cut.lines) && buffer == cut.rest
    {
      buffer := buffer + chunk;
      ghost var goal := CutLines(buffer);
      var found: seq<Text> := [];
      var index := FirstNewline(buffer);
      while index < |buffer|
        invariant index == FirstNewline(buffer)
        invariant goal.lines == found + CutLines(buffer).lines && goal.rest == CutLines(buffer).rest
        decreases |buffer|
      {
        ghost var before, more := found, CutLines(buffer[index + 1..]).lines;
        CutOnce(buffer, index, buffer[index + 1..]);
        found := found + [buffer[..index]];
        assert before + ([buffer[..index]] + more) == found + more;
        buffer := buffer[index + 1..];
        index := FirstNewline(buffer);
      }
      if Artifacts.Utf8Length(buffer) > RELAY_MAX_FRAME_BYTES { return None; }
      assert found + [] == found;
      lines := Some(found);
    }
  }

  // ---------------------------------------------------------------- what a cut is

  predicate OneLine(t: Text) {
    forall i | 0 <= i < |t| :: t[i] != NEWLINE
  }

  /** The lines, each with its newline. */
  function Joined(lines: seq<Text>): Text {
    if lines == [] then [] else lines[0] + [NEWLINE] + Joined(lines[1..])
  }

  /** These lines and this rest are what `t` is made of. */
  predicate Spells(cut: Cut, t: Text) {
    && Joined(cut.lines) + cut.rest == t && OneLine(cut.rest)
    && forall i | 0 <= i < |cut.lines| :: OneLine(cut.lines[i])
  }

  /** Cutting loses and adds nothing: lines without newlines, joined by newlines, and a rest without any. */
  lemma {:induction false} CutIsExact(t: Text)
    ensures Spells(CutLines(t), t)
    decreases |t|
  {
    var i := FirstNewline(t);
    if i < |t| {
      CutIsExact(t[i + 1..]);
      CutOnce(t, i, t[i + 1..]);
      SpellsNext(t, t[..i], t[i + 1..], CutLines(t[i + 1..]));
    } else {
      assert Joined([]) + t == t;
    }
  }

  lemma SpellsNext(t: Text, line: Text, later: Text, cut: Cut)
    requires Spells(cut, later) && OneLine(line) && t == line + [NEWLINE] + later
    ensures Spells(Cut([line] + cut.lines, cut.rest), t)
  {
    JoinedNext(line, cut.lines, cut.rest);
  }

  lemma JoinedNext(line: Text, lines: seq<Text>, rest: Text)
    ensures Joined([line] + lines) + rest == line + [NEWLINE] + (Joined(lines) + rest)
  {
    assert ([line] + lines)[1..] == lines;
  }

  // ---------------------------------------------------------------- cutting in parts

  lemma {:induction false} CutInParts(a: Text, b: Text)
    ensures CutLines(a + b).lines == CutLines(a).lines + CutLines(CutLines(a).rest + b).lines
    ensures CutLines(a + b).rest == CutLines(CutLines(a).rest + b).rest
    decreases |a|
  {
    var i := FirstNewline(a);
    if i < |a| {
      CutInParts(a[i + 1..], b);
      FirstLineOfBoth(a, b, i, a[i + 1..]);
    } else {
      UncutBegins(a, b);
    }
  }

  lemma UncutBegins(a: Text, b: Text)
    requires FirstNewline(a) == |a|
    ensures CutLines(a + b).lines == CutLines(a).lines + CutLines(CutLines(a).rest + b).lines
    ensures CutLines(a + b).rest == CutLines(CutLines(a).rest + b).rest
  {
    var lines := CutLines(a + b).lines;
    assert CutLines(a) == Cut([], a);
    assert [] + lines == lines;
  }

  /** With the first line cut off both, the rest is cut alike. */
  lemma FirstLineOfBoth(a: Text, b: Text, i: nat, later: Text)
    requires i == FirstNewline(a) < |a| && later == a[i + 1..]
    requires CutLines(later + b).lines == CutLines(later).lines + CutLines(CutLines(later).rest + b).lines
    requires CutLines(later + b).rest == CutLines(CutLines(later).rest + b).rest
    ensures CutLines(a + b).lines == CutLines(a).lines + CutLines(CutLines(a).rest + b).lines
    ensures CutLines(a + b).rest == CutLines(CutLines(a).rest + b).rest
  {
    NewlineOfPrefix(a, b);
    assert (a + b)[..i] == a[..i] && (a + b)[i + 1..] == later + b;
    CutOnce(a, i, later);
    CutOnce(a + b, i, later + b);
    Regroup([a[..i]], CutLines(later).lines, CutLines(CutLines(later).rest + b).lines);
  }

  lemma Regroup(x: seq<Text>, y: seq<Text>, z: seq<Text>)
    ensures x + (y + z) == (x + y) + z
  {
  }

  lemma NewlineOfPrefix(a: Text, b: Text)
    requires FirstNewline(a) < |a|
    ensures FirstNewline(a + b) == FirstNewline(a)
  {
    var i, j := FirstNewline(a), FirstNewline(a + b);
    assert (a + b)[i] == NEWLINE;
    if j < i { assert (a + b)[j] == a[j]; }
  }

  /** Whatever the pushes made of the chunks, it is what one look at the whole text makes of it. */
  lemma {:induction false} FeedIsTheWhole(chunks: seq<Text>)
    ensures Feed(chunks).Some? ==> Feed(chunks).value == CutLines(Concat(chunks))
  {
    if chunks != [] {
      FeedIsTheWhole(chunks[..|chunks| - 1]);
      CutInParts(Concat(chunks[..|chunks| - 1]), chunks[|chunks| - 1]);
    }
  }

  function Concat(chunks: seq<Text>): Text {
    if chunks == [] then [] else Concat(chunks[..|chunks| - 1]) + chunks[|chunks| - 1]
  }

  // ---------------------------------------------------------------- the bound

  /** A beginning of a text is never longer in UTF-8 than the text. */
  lemma {:induction false} PrefixIsNoLonger(t: Text, k: nat)
    requires k <= |t|
    ensures Artifacts.Utf8Length(t[..k]) <= Artifacts.Utf8Length(t)
    decreases |t|
  {
    if k == 0 {
    } else if |t| >= 2 && JsonGrammar.IsHighSurrogate(t[0]) && JsonGrammar.IsLowSurrogate(t[1]) {
      if k >= 2 {
        assert t[..k][2..] == t[2..][..k - 2];
        PrefixIsNoLonger(t[2..], k - 2);
      } else {
        assert t[..1][1..] == [];
      }
    } else {
      assert t[..k][1..] == t[1..][..k - 1];
      PrefixIsNoLonger(t[1..], k - 1);
    }
  }

  /** Every line of the text, and what follows the last newline, is within the bound. */
  predicate Bounded(t: Text) {
    Fits(CutLines(t).rest) && forall i | 0 <= i < |CutLines(t).lines| :: Fits(CutLines(t).lines[i])
  }

  /** Then so is what is left over at any point. */
  lemma {:induction false} BoundedAnywhere(a: Text, b: Text)
    requires Bounded(a + b)
    ensures Fits(CutLines(a).rest)
    decreases |a|
  {
    var i := FirstNewline(a);
    if i < |a| {
      NewlineOfPrefix(a, b);
      assert (a + b)[i + 1..] == a[i + 1..] + b;
      LaterLinesBounded(a + b);
      BoundedAnywhere(a[i + 1..], b);
    } else {
      RestIsAPrefix(a, b);
    }
  }

  lemma LaterLinesBounded(t: Text)
    requires Bounded(t) && FirstNewline(t) < |t|
    ensures Bounded(t[FirstNewline(t) + 1..])
  {
    var whole, later := CutLines(t).lines, CutLines(t[FirstNewline(t) + 1..]).lines;
    forall k | 0 <= k < |later| ensures Fits(later[k]) { assert whole[k + 1] == later[k]; }
  }

  lemma RestIsAPrefix(a: Text, b: Text)
    requires FirstNewline(a) == |a| && Bounded(a + b)
    ensures Fits(a)
  {
    var j := FirstNewline(a + b);
    assert forall k | 0 <= k < |a| :: (a + b)[k] == a[k];
    assert (a + b)[..j][..|a|] == a;
    PrefixIsNoLonger((a + b)[..j], |a|);
    assert j == |a + b| ==> (a + b)[..j] == a + b;
    assert j < |a + b| ==> CutLines(a + b).lines[0] == (a + b)[..j];
  }

  lemma {:induction false} BoundedFeeds(chunks: seq<Text>, after: Text)
    requires Bounded(Concat(chunks) + after)
    ensures Feed(chunks) == Some(CutLines(Concat(chunks)))
    decreases |chunks|
  {
    if chunks == [] {
    } else {
      var init, last := chunks[..|chunks| - 1], chunks[|chunks| - 1];
      assert Concat(chunks) + after == Concat(init) + (last + after);
      BoundedFeeds(init, last + after);
      CutInParts(Concat(init), last);
      BoundedAnywhere(Concat(chunks), after);
      FeedIsTheWhole(chunks);
    }
  }

  lemma TwoChunks(x: Text, y: Text)
    ensures Concat([x]) == x && Concat([x, y]) == x + y
    ensures Pushed([], x) == None ==> Feed([x]) == None && Feed([x, y]) == None
  {
    assert [x][..0] == [] && [x, y][..1] == [x];
    assert Concat([]) + x == x;
  }

  /** A text with an overlong line fails for one way of cutting it: just before that line's newline. */
  lemma OverlongFails(t: Text) returns (chunks: seq<Text>)
    requires !Bounded(t)
    ensures Concat(chunks) == t && Feed(chunks) == None
  {
    if !Fits(CutLines(t).rest) {
      chunks := [t];
      NothingBefore(t);
      TwoChunks(t, []);
    } else {
      var i :| 0 <= i < |CutLines(t).lines| && !Fits(CutLines(t).lines[i]);
      chunks := OverlongLineFails(t, i);
    }
  }

  lemma NothingBefore(t: Text)
    ensures [] + t == t
  {
  }

  lemma OverlongLineFails(t: Text, i: nat) returns (chunks: seq<Text>)
    requires i < |CutLines(t).lines| && !Fits(CutLines(t).lines[i])
    ensures Concat(chunks) == t && Feed(chunks) == None
  {
    var k := UpToLine(t, i);
    var x, y := t[..k], t[k..];
    chunks := [x, y];
    NothingBefore(x);
    TwoChunks(x, y);
    assert x + y == t;
  }

  /** The place where line `i` is complete but for its newline. */
  lemma {:induction false} UpToLine(t: Text, i: nat) returns (k: nat)
    requires i < |CutLines(t).lines|
    ensures k <= |t| && CutLines(t[..k]).rest == CutLines(t).lines[i]
    decreases i
  {
    var j := FirstNewline(t);
    if i == 0 {
      k := j;
      FirstLine(t);
    } else {
      var later := t[j + 1..];
      CutOnce(t, j, later);
      LaterItem(t[..j], CutLines(later).lines, i);
      var m := UpToLine(later, i - 1);
      k := j + 1 + m;
      AfterFirstLine(t, t[..k], j, later[..m]);
    }
  }

  lemma FirstLine(t: Text)
    requires FirstNewline(t) < |t|
    ensures CutLines(t).lines[0] == t[..FirstNewline(t)] == CutLines(t[..FirstNewline(t)]).rest
  {
    NoNewline(t[..FirstNewline(t)]);
  }

  lemma CutOnce(t: Text, j: nat, later: Text)
    requires j == FirstNewline(t) < |t| && later == t[j + 1..]
    ensures CutLines(t) == Cut([t[..j]] + CutLines(later).lines, CutLines(later).rest)
  {
  }

  lemma LaterItem(first: Text, more: seq<Text>, i: nat)
    requires 0 < i <= |more|
    ensures ([first] + more)[i] == more[i - 1]
  {
  }

  lemma AfterFirstLine(t: Text, prefix: Text, j: nat, rest: Text)
    requires j == FirstNewline(t) < |t| && |rest| <= |t| - j - 1 && rest == t[j + 1..][..|rest|]
    requires prefix == t[..j + 1 + |rest|]
    ensures CutLines(prefix).rest == CutLines(rest).rest
  {
    NewlineAt(prefix, j);
    assert prefix[j + 1..] == rest;
  }

  lemma NoNewline(t: Text)
    requires forall k | 0 <= k < |t| :: t[k] != NEWLINE
    ensures FirstNewline(t) == |t|
  {
  }

  lemma NewlineAt(t: Text, j: nat)
    requires j < |t| && t[j] == NEWLINE && forall k | 0 <= k < j :: t[k] != NEWLINE
    ensures FirstNewline(t) == j
  {
  }

  /**
   The reader yields the same lines for every chunking of a text if and only if every line of the
   text, and the rest, is within the bound. The bound is only checked on what is left after a push,
   so an overlong line passes when its newline comes in the same chunk.
   */
  lemma ChunkingDoesNotMatterIffBounded(t: Text)
    ensures Bounded(t) <==> forall chunks: seq<Text> | Concat(chunks) == t :: Feed(chunks) == Some(CutLines(t))
  {
    if Bounded(t) {
      forall chunks: seq<Text> | Concat(chunks) == t ensures Feed(chunks) == Some(CutLines(t)) {
        assert t + [] == t;
        BoundedFeeds(chunks, []);
      }
    } else {
      var chunks := OverlongFails(t);
    }
  }

  // ---------------------------------------------------------------- when the reader fails

  /** The code units of a scalar: one, or a surrogate pair. */
  function UnitsOf(c: Manifest.Scalar): Text {
    if c < 0x10000 then [c] else [0xD800 + (c - 0x10000) / 1024, 0xDC00 + (c - 0x10000) % 1024]
  }

  function Units(s: Manifest.Name): Text {
    if s == [] then [] else UnitsOf(s[0]) + Units(s[1..])
  }

  /** The length that is bounded is the length in UTF-8. */
  lemma {:induction false} LengthIsUtf8(s: Manifest.Name)
    ensures Artifacts.Utf8Length(Units(s)) == |Manifest.Utf8(s)|
    decreases |s|
  {
    if s != [] {
      LengthIsUtf8(s[1..]);
      ScalarLength(s[0], Units(s[1..]));
    }
  }

  lemma ScalarLength(c: Manifest.Scalar, rest: Text)
    ensures Artifacts.Utf8Length(UnitsOf(c) + rest) == |Manifest.Utf8Of(c)| + Artifacts.Utf8Length(rest)
  {
    var t := UnitsOf(c) + rest;
    if c < 0x10000 {
      assert t[1..] == rest;
    } else {
      assert t[2..] == rest;
    }
  }

  lemma ConcatSome(chunks: seq<Text>, init: seq<Text>, k: nat)
    requires chunks != [] && init == chunks[..|chunks| - 1] && k <= |init|
    ensures chunks[..k] == init[..k]
  {
  }

  /** The rest after these chunks is longer than 16384 bytes. */
  predicate TooLong(chunks: seq<Text>) {
    Artifacts.Utf8Length(CutLines(Concat(chunks)).rest) > 16_384
  }

  /** The reader fails if and only if, after some chunk, more than 16384 bytes without a newline are left over. */
  lemma {:induction false} FailsIff(chunks: seq<Text>)
    ensures Feed(chunks) == None <==> exists k :: 0 < k <= |chunks| && TooLong(chunks[..k])
    decreases |chunks|
  {
    if chunks != [] {
      var init, last := chunks[..|chunks| - 1], chunks[|chunks| - 1];
      FailsIff(init);
      FeedIsTheWhole(init);
      CutInParts(Concat(init), last);
      assert chunks[..|chunks|] == chunks;
      forall k | 0 < k <= |init| ensures chunks[..k] == init[..k] { ConcatSome(chunks, init, k); }
      FailsNext(chunks, init);
    }
  }

  lemma FailsNext(chunks: seq<Text>, init: seq<Text>)
    requires chunks != [] && init == chunks[..|chunks| - 1]
    requires forall k | 0 < k <= |init| :: chunks[..k] == init[..k]
    requires chunks[..|chunks|] == chunks
    ensures (exists k :: 0 < k <= |chunks| && TooLong(chunks[..k]))
            <==> TooLong(chunks) || exists k :: 0 < k <= |init| && TooLong(init[..k])
  {
    if k :| 0 < k <= |chunks| && TooLong(chunks[..k]) {
      if k < |chunks| { assert TooLong(init[..k]); }
    }
    if TooLong(chunks) { assert TooLong(chunks[..|chunks|]); }
    if k :| 0 < k <= |init| && TooLong(init[..k]) { assert TooLong(chunks[..k]); }
  }
}
