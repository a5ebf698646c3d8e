/**
 What the strict parser promises: it accepts exactly the texts of the grammar in which no
 object repeats a key, with the value that the grammar assigns, and it undoes the printer.
 */
module JsonTheorems {
  import opened Utf16
  import opened JsonGrammar
  import opened JsonParser

  /** `rest` cannot be mistaken for the continuation of a number. */
  predicate Boundary(rest: Text) {
    rest == [] || !(IsDigit(rest[0]) || rest[0] == DOT || IsExponentMark(rest[0]))
  }

  lemma Uncons<T>(x: T, s: seq<T>)
    ensures ([x] + s)[0] == x && ([x] + s)[1..] == s
  {
  }

  lemma Cons<T>(s: seq<T>)
    requires s != []
    ensures s == [s[0]] + s[1..]
  {
  }

  lemma Shift<T>(acc: seq<T>, x: T, s: seq<T>)
    ensures acc + ([x] + s) == acc + [x] + s
  {
  }

  // ---------------------------------------------------------------- whitespace and digits

  lemma {:induction false} SkipWsOver(ws: Text, s: Text)
    requires AllWs(ws)
    requires s == [] || !IsWs(s[0])
    ensures SkipWs(ws + s) == s
  {
    if ws == [] {
      assert ws + s == s;
    } else {
      assert (ws + s)[1..] == ws[1..] + s;
      SkipWsOver(ws[1..], s);
    }
  }

  lemma {:induction false} SkipWsPrefix(s: Text) returns (ws: Text)
    ensures AllWs(ws) && s == ws + SkipWs(s)
  {
    if s != [] && IsWs(s[0]) {
      ws := SkipWsPrefix(s[1..]);
      ws := [s[0]] + ws;
    } else {
      ws := [];
    }
  }

  lemma {:induction false} SkipDigitsOver(digits: Text, s: Text)
    requires AllDigits(digits)
    requires s == [] || !IsDigit(s[0])
    ensures SkipDigits(digits + s) == s
  {
    if digits == [] {
      assert digits + s == s;
    } else {
      assert (digits + s)[1..] == digits[1..] + s;
      SkipDigitsOver(digits[1..], s);
    }
  }

  lemma {:induction false} SkipDigitsPrefix(s: Text) returns (digits: Text)
    ensures AllDigits(digits) && s == digits + SkipDigits(s)
    ensures s != [] && IsDigit(s[0]) ==> digits != [] && digits[0] == s[0]
  {
    if s != [] && IsDigit(s[0]) {
      digits := SkipDigitsPrefix(s[1..]);
      digits := [s[0]] + digits;
    } else {
      digits := [];
    }
  }

  lemma ParseValueSkipsWs(s: Text, strict: bool)
    ensures ParseValue(SkipWs(s), strict) == ParseValue(s, strict)
  {
    SkipWsOver([], SkipWs(s));
    assert [] + SkipWs(s) == SkipWs(s);
  }

  // ---------------------------------------------------------------- numbers

  /** The scan of a spelled number stops exactly at its end and finds digits where it needs them. */
  lemma ScanNumber(n: NumForm, rest: Text)
    requires n.Wf() && Boundary(rest)
    ensures AfterNumber(n.Spelling(rest)) == rest && NumberStart(n.Spelling(rest))
  {
    assert AfterMinus(n.Spelling(rest)) == n.WholeText(rest) by {
      assert n.WholeText(rest)[0] == n.whole[0];
    }
    ScanWhole(n, rest);
    ScanFraction(n, rest);
    ScanExponent(n, rest);
  }

  lemma ScanWhole(n: NumForm, rest: Text)
    requires n.Wf() && Boundary(rest)
    ensures n.WholeText(rest) != [] && IsDigit(n.WholeText(rest)[0])
    ensures AfterWhole(n.WholeText(rest)) == n.FractionText(rest)
  {
    var s := n.WholeText(rest);
    assert s[0] == n.whole[0];
    if s[0] == ZERO {
      assert s[1..] == n.FractionText(rest);
    } else {
      SkipDigitsOver(n.whole, n.FractionText(rest));
    }
  }

  lemma ScanFraction(n: NumForm, rest: Text)
    requires n.Wf() && Boundary(rest)
    ensures var s := n.FractionText(rest);
            && AfterFraction(s) == n.ExponentText(rest)
            && (s != [] && s[0] == DOT ==> |s| > 1 && IsDigit(s[1]))
  {
    if n.frac != [] {
      assert n.FractionText(rest)[1..] == n.frac + n.ExponentText(rest);
      SkipDigitsOver(n.frac, n.ExponentText(rest));
    }
  }

  lemma ScanExponent(n: NumForm, rest: Text)
    requires n.Wf() && Boundary(rest)
    ensures var s := n.ExponentText(rest);
            && AfterExponent(s) == rest
            && (s != [] && IsExponentMark(s[0]) ==>
                  var digits := AfterSign(s[1..]); digits != [] && IsDigit(digits[0]))
  {
    if n.mark != [] {
      var afterMark := n.ExponentText(rest)[1..];
      assert afterMark == n.sign + (n.exponent + rest);
      assert AfterSign(afterMark) == n.exponent + rest;
      SkipDigitsOver(n.exponent, rest);
    }
  }

  /** The regular expression matches exactly the spellings of the number grammar. */
  lemma MatchesNumberIff(s: Text)
    ensures MatchesNumber(s) <==> exists n: NumForm :: n.Wf() && n.Spelling([]) == s
  {
    if MatchesNumber(s) {
      var n := ReadNumForm(s);
    }
    if n: NumForm :| n.Wf() && n.Spelling([]) == s {
      ScanNumber(n, []);
    }
  }

  lemma ReadNumForm(s: Text) returns (n: NumForm)
    requires NumberStart(s)
    ensures n.Wf() && n.Spelling(AfterNumber(s)) == s
  {
    var rest := AfterNumber(s);
    var wholePart := AfterMinus(s);
    var whole := ReadWhole(wholePart);
    var frac := ReadFraction(AfterWhole(wholePart));
    var mark, sign, exponent := ReadExponent(AfterFraction(AfterWhole(wholePart)));
    n := NumForm(s[0] == MINUS, whole, frac, mark, sign, exponent);
    assert n.ExponentText(rest) == AfterFraction(AfterWhole(wholePart));
    assert n.FractionText(rest) == AfterWhole(wholePart);
    assert n.WholeText(rest) == wholePart;
    if n.negative { Cons(s); }
  }

  lemma ReadWhole(s: Text) returns (whole: Text)
    requires s != [] && IsDigit(s[0])
    ensures AllDigits(whole) && whole != [] && (whole[0] == ZERO ==> |whole| == 1)
    ensures s == whole + AfterWhole(s)
  {
    if s[0] == ZERO {
      whole := [ZERO];
    } else {
      whole := SkipDigitsPrefix(s);
    }
  }

  lemma ReadFraction(s: Text) returns (frac: Text)
    requires s != [] && s[0] == DOT ==> |s| > 1 && IsDigit(s[1])
    ensures AllDigits(frac)
    ensures s == if frac == [] then AfterFraction(s) else [DOT] + (frac + AfterFraction(s))
  {
    frac := [];
    if s != [] && s[0] == DOT {
      frac := SkipDigitsPrefix(s[1..]);
    }
  }

  lemma ReadExponent(s: Text) returns (mark: Text, sign: Text, exponent: Text)
    requires s != [] && IsExponentMark(s[0]) ==>
               var digits := AfterSign(s[1..]); digits != [] && IsDigit(digits[0])
    ensures NumForm(false, [ZERO], [], mark, sign, exponent).Wf()
    ensures s == if mark == [] then AfterExponent(s) else mark + (sign + (exponent + AfterExponent(s)))
  {
    mark, sign, exponent := [], [], [];
    if s != [] && IsExponentMark(s[0]) {
      mark := [s[0]];
      if IsExponentSign(s[1]) {
        sign := [s[1]];
      }
      exponent := SkipDigitsPrefix(AfterSign(s[1..]));
      assert s[1..] == sign + AfterSign(s[1..]);
    }
  }

  lemma NumberSpellingSplits(n: NumForm, rest: Text)
    ensures n.Spelling(rest) == n.Spelling([]) + rest
  {
    assert n.ExponentText(rest) == n.ExponentText([]) + rest;
    assert n.FractionText(rest) == n.FractionText([]) + rest;
    assert n.WholeText(rest) == n.WholeText([]) + rest;
  }

  lemma NumberComplete(n: NumForm, rest: Text)
    requires n.Wf() && Boundary(rest)
    ensures ParseNumber(n.Spelling(rest)) == Ok(Number(n.Spelling([])), rest)
    ensures var c := n.Spelling(rest)[0]; c == MINUS || IsDigit(c)
  {
    ScanNumber(n, rest);
    NumberSpellingSplits(n, rest);
    ScanNumber(n, []);
    ScanWhole(n, rest);
  }

  lemma NumberSound(s: Text) returns (n: NumForm)
    requires ParseNumber(s).Ok?
    ensures n.Wf() && s == n.Spelling(ParseNumber(s).rest) && ParseNumber(s).value == Number(n.Spelling([]))
  {
    var rest := AfterNumber(s);
    var lexeme := s[..|s| - |rest|];
    n := ReadNumForm(lexeme);
    NumberSpellingSplits(n, rest);
    AfterNumberIsSuffix(s);
  }

  ghost predicate IsSuffix(r: Text, s: Text) {
    |r| <= |s| && s == s[..|s| - |r|] + r
  }

  lemma SuffixTransitive(q: Text, r: Text, s: Text)
    requires IsSuffix(q, r) && IsSuffix(r, s)
    ensures IsSuffix(q, s)
  {
    assert s == (s[..|s| - |r|] + r[..|r| - |q|]) + q;
  }

  lemma SkipDigitsIsSuffix(s: Text)
    ensures IsSuffix(SkipDigits(s), s)
  {
    var digits := SkipDigitsPrefix(s);
    assert s[..|digits|] == digits;
  }

  lemma AfterNumberIsSuffix(s: Text)
    ensures IsSuffix(AfterNumber(s), s)
  {
    var whole := AfterMinus(s);
    var fraction := AfterWhole(whole);
    var exponent := AfterFraction(fraction);
    assert IsSuffix(whole, s);
    SkipDigitsIsSuffix(whole);
    SuffixTransitive(fraction, whole, s);
    FractionIsSuffix(fraction);
    SuffixTransitive(exponent, fraction, s);
    ExponentIsSuffix(exponent);
    SuffixTransitive(AfterExponent(exponent), exponent, s);
  }

  lemma FractionIsSuffix(s: Text)
    ensures IsSuffix(AfterFraction(s), s)
  {
    if s != [] && s[0] == DOT {
      SkipDigitsIsSuffix(s[1..]);
      SuffixTransitive(SkipDigits(s[1..]), s[1..], s);
    }
  }

  lemma ExponentIsSuffix(s: Text)
    ensures IsSuffix(AfterExponent(s), s)
  {
    if s != [] && IsExponentMark(s[0]) {
      var digits := AfterSign(s[1..]);
      assert IsSuffix(digits, s) by {
        assert s[..|s| - |digits|] == if digits == s[1..] then [s[0]] else [s[0], s[1]];
      }
      SkipDigitsIsSuffix(digits);
      SuffixTransitive(SkipDigits(digits), digits, s);
    } else {
      assert s[..0] + s == s;
    }
  }

  // ---------------------------------------------------------------- strings

  lemma {:induction false} CharsComplete(cs: seq<CharForm>, rest: Text, acc: Text)
    requires CharsWf(cs)
    ensures ParseChars(CharsText(cs, [QUOTE] + rest), acc) == Ok(acc + CharsValue(cs), rest)
  {
    if cs == [] {
      assert ([QUOTE] + rest)[1..] == rest && acc + CharsValue(cs) == acc;
    } else {
      var c := cs[0];
      var tail := CharsText(cs[1..], [QUOTE] + rest);
      var s := c.Spelling(tail);
      CharsComplete(cs[1..], rest, acc + [c.Denotes()]);
      assert acc + [c.Denotes()] + CharsValue(cs[1..]) == acc + CharsValue(cs);
      match c {
        case Raw(_) => assert s[1..] == tail;
        case Short(_) => assert s[2..] == tail;
        case Hex(_, _, _, _) => assert s[6..] == tail;
      }
    }
  }

  lemma {:induction false} CharsSound(s: Text, acc: Text) returns (cs: seq<CharForm>)
    requires ParseChars(s, acc).Ok?
    ensures CharsWf(cs)
    ensures s == CharsText(cs, [QUOTE] + ParseChars(s, acc).rest)
    ensures ParseChars(s, acc).value == acc + CharsValue(cs)
    decreases |s|
  {
    if s[0] == QUOTE {
      cs := [];
    } else {
      var c, tail := CharSound(s, acc);
      assert ParseChars(s, acc) == ParseChars(tail, acc + [c.Denotes()]);
      var more := CharsSound(tail, acc + [c.Denotes()]);
      cs := [c] + more;
      assert cs[1..] == more;
      assert acc + [c.Denotes()] + CharsValue(more) == acc + CharsValue(cs);
    }
  }

  lemma CharSound(s: Text, acc: Text) returns (c: CharForm, tail: Text)
    requires ParseChars(s, acc).Ok? && s[0] != QUOTE
    ensures c.Wf() && s == c.Spelling(tail)
    ensures ParseChars(s, acc) == ParseChars(tail, acc + [c.Denotes()])
  {
    if s[0] != BACKSLASH {
      c, tail := Raw(s[0]), s[1..];
    } else if s[1] == LETTER_U {
      c, tail := Hex(s[2], s[3], s[4], s[5]), s[6..];
    } else {
      c, tail := Short(s[1]), s[2..];
    }
  }

  // ---------------------------------------------------------------- completeness

  function Result(v: Value, unique: bool, rest: Text, strict: bool): Parsed<Value> {
    if strict && !unique then Err(DuplicateKey) else Ok(v, rest)
  }

  /** A derivation never starts with whitespace or punctuation. */
  lemma TreeTextStart(t: Tree, rest: Text)
    requires TreeWf(t)
    ensures var s := TreeText(t, rest);
            s != [] && !IsWs(s[0]) && s[0] != RBRACKET && s[0] != RBRACE && s[0] != COMMA
  {
    if t.TNumber? {
      assert t.n.WholeText(rest)[0] == t.n.whole[0];
    }
  }

  /** Text that a derivation spells is parsed to its value, unless some object repeats a key. */
  lemma {:induction false} ValueComplete(t: Tree, before: Text, rest: Text, strict: bool)
    requires TreeWf(t) && AllWs(before) && Boundary(rest)
    ensures ParseValue(before + TreeText(t, rest), strict)
              == Result(TreeValue(t), UniqueKeys(TreeValue(t)), rest, strict)
    decreases t, 1
  {
    var s := TreeText(t, rest);
    TreeTextStart(t, rest);
    SkipWsOver(before, s);
    match t {
      case TNull => assert s[..4] == NULL_TEXT && s[4..] == rest;
      case TBool(b) =>
        if b {
          assert s[..4] == TRUE_TEXT && s[4..] == rest;
        } else {
          assert s[..5] == FALSE_TEXT && s[5..] == rest;
        }
      case TNumber(n) =>
        NumberComplete(n, rest);
      case TString(cs) =>
        assert s[1..] == CharsText(cs, [QUOTE] + rest);
        CharsComplete(cs, rest, []);
        assert [] + CharsValue(cs) == CharsValue(cs);
      case TArray(pad, items) =>
        ArrayComplete(pad, items, rest, strict);
        assert s[1..] == if items == [] then pad + ([RBRACKET] + rest) else ItemsText(items, rest);
      case TObject(pad, members) =>
        ObjectComplete(pad, members, rest, strict);
        assert s[1..] == if members == [] then pad + ([RBRACE] + rest) else MembersText(members, rest);
    }
  }

  lemma {:induction false} ArrayComplete(pad: Text, items: seq<Item>, rest: Text, strict: bool)
    requires AllWs(pad) && ItemsWf(items)
    ensures ParseArray(if items == [] then pad + ([RBRACKET] + rest) else ItemsText(items, rest), strict)
         == Result(Array(ItemsValue(items)), AllUnique(ItemsValue(items)), rest, strict)
    decreases items, 1
  {
    if items == [] {
      SkipWsOver(pad, [RBRACKET] + rest);
      assert ([RBRACKET] + rest)[1..] == rest;
    } else {
      var s := ItemsText(items, rest);
      var close := if |items| == 1 then [RBRACKET] + rest else [COMMA] + ItemsText(items[1..], rest);
      TreeTextStart(items[0].tree, items[0].after + close);
      SkipWsOver(items[0].before, TreeText(items[0].tree, items[0].after + close));
      ParseValueSkipsWs(s, strict);
      ItemsComplete(items, rest, [], strict);
      assert [] + ItemsValue(items) == ItemsValue(items);
    }
  }

  lemma {:induction false} ItemsComplete(items: seq<Item>, rest: Text, acc: seq<Value>, strict: bool)
    requires items != [] && ItemsWf(items)
    ensures ParseItems(ItemsText(items, rest), acc, strict)
         == Result(Array(acc + ItemsValue(items)), AllUnique(ItemsValue(items)), rest, strict)
    decreases items, 0
  {
    var next := if |items| == 1 then [RBRACKET] + rest else [COMMA] + ItemsText(items[1..], rest);
    ValueComplete(items[0].tree, items[0].before, items[0].after + next, strict);
    ItemComplete(items[0], next, acc, strict);
    var v := TreeValue(items[0].tree);
    var values := ItemsValue(items[1..]);
    assert ItemsValue(items) == [v] + values;
    Uncons(v, values);
    Shift(acc, v, values);
    if |items| == 1 {
      Uncons(RBRACKET, rest);
      assert values == [] && acc + [v] + values == acc + [v];
    } else {
      Uncons(COMMA, ItemsText(items[1..], rest));
      ItemsComplete(items[1..], rest, acc + [v], strict);
    }
  }

  /** One turn of the item loop, given that the item is parsed as its derivation says. */
  lemma ItemComplete(item: Item, next: Text, acc: seq<Value>, strict: bool)
    requires ItemsWf([item]) && next != [] && (next[0] == COMMA || next[0] == RBRACKET)
    requires ParseValue(item.before + TreeText(item.tree, item.after + next), strict)
          == Result(TreeValue(item.tree), UniqueKeys(TreeValue(item.tree)), item.after + next, strict)
    ensures var v := TreeValue(item.tree);
            ParseItems(item.before + TreeText(item.tree, item.after + next), acc, strict) ==
            (if strict && !UniqueKeys(v) then Err(DuplicateKey)
             else if next[0] == COMMA then ParseItems(next[1..], acc + [v], strict)
             else Ok(Array(acc + [v]), next[1..]))
  {
    SkipWsOver(item.after, next);
  }

  lemma {:induction false} ObjectComplete(pad: Text, members: seq<Member>, rest: Text, strict: bool)
    requires AllWs(pad) && MembersWf(members)
    ensures ParseObject(if members == [] then pad + ([RBRACE] + rest) else MembersText(members, rest), strict)
         == Result(Object(MembersValue(members)), FieldsUnique([], MembersValue(members)), rest, strict)
    decreases members, 1
  {
    if members == [] {
      SkipWsOver(pad, [RBRACE] + rest);
      assert ([RBRACE] + rest)[1..] == rest;
    } else {
      var m := members[0];
      var next := if |members| == 1 then [RBRACE] + rest else [COMMA] + MembersText(members[1..], rest);
      var key := [QUOTE] + CharsText(m.key,
          [QUOTE] + (m.afterKey + ([COLON] + (m.beforeValue + TreeText(m.tree, m.after + next)))));
      SkipWsOver(m.before, key);
      SkipWsOver([], key);
      assert [] + key == key;
      MembersComplete(members, rest, [], strict);
      assert [] + MembersValue(members) == MembersValue(members);
    }
  }

  lemma {:induction false} MembersComplete(members: seq<Member>, rest: Text, acc: seq<Field>, strict: bool)
    requires members != [] && MembersWf(members)
    ensures ParseMembers(MembersText(members, rest), acc, strict)
         == Result(Object(acc + MembersValue(members)), FieldsUnique(acc, MembersValue(members)), rest, strict)
    decreases members, 0
  {
    var m := members[0];
    var next := if |members| == 1 then [RBRACE] + rest else [COMMA] + MembersText(members[1..], rest);
    ValueComplete(m.tree, m.beforeValue, m.after + next, strict);
    MemberComplete(m, next, acc, strict);
    var field := Field(CharsValue(m.key), TreeValue(m.tree));
    var fields := MembersValue(members[1..]);
    assert MembersValue(members) == [field] + fields;
    Uncons(field, fields);
    Shift(acc, field, fields);
    if |members| == 1 {
      Uncons(RBRACE, rest);
      assert fields == [] && acc + [field] + fields == acc + [field];
    } else {
      Uncons(COMMA, MembersText(members[1..], rest));
      MembersComplete(members[1..], rest, acc + [field], strict);
    }
  }

  /** One turn of the member loop, given that the member's value is parsed as its derivation says. */
  lemma MemberComplete(m: Member, next: Text, acc: seq<Field>, strict: bool)
    requires MembersWf([m]) && next != [] && (next[0] == COMMA || next[0] == RBRACE)
    requires ParseValue(m.beforeValue + TreeText(m.tree, m.after + next), strict)
          == Result(TreeValue(m.tree), UniqueKeys(TreeValue(m.tree)), m.after + next, strict)
    ensures var field := Field(CharsValue(m.key), TreeValue(m.tree));
            ParseMembers(MemberText(m, next), acc, strict) ==
            (if strict && (!UniqueKeys(field.value) || HasKey(acc, field.key)) then Err(DuplicateKey)
             else if next[0] == COMMA then ParseMembers(next[1..], acc + [field], strict)
             else Ok(Object(acc + [field]), next[1..]))
  {
    var colon := [COLON] + (m.beforeValue + TreeText(m.tree, m.after + next));
    KeyComplete(m, colon);
    assert colon[1..] == m.beforeValue + TreeText(m.tree, m.after + next);
    SkipWsOver(m.after, next);
  }

  /** The parser reads a member's key and stops at the colon. */
  lemma KeyComplete(m: Member, colon: Text)
    requires AllWs(m.before) && CharsWf(m.key) && AllWs(m.afterKey) && colon != [] && colon[0] == COLON
    ensures var key := [QUOTE] + CharsText(m.key, [QUOTE] + (m.afterKey + colon));
            && SkipWs(m.before + key) == key
            && ParseChars(key[1..], []) == Ok(CharsValue(m.key), m.afterKey + colon)
            && SkipWs(m.afterKey + colon) == colon
  {
    var key := [QUOTE] + CharsText(m.key, [QUOTE] + (m.afterKey + colon));
    SkipWsOver(m.before, key);
    assert key[1..] == CharsText(m.key, [QUOTE] + (m.afterKey + colon));
    CharsComplete(m.key, m.afterKey + colon, []);
    assert [] + CharsValue(m.key) == CharsValue(m.key);
    SkipWsOver(m.afterKey, colon);
  }

  // ---------------------------------------------------------------- soundness

  /** Whatever the parser accepts is spelled by some derivation of the value it returns. */
  lemma {:induction false} ValueSound(s: Text, strict: bool) returns (before: Text, t: Tree)
    requires ParseValue(s, strict).Ok?
    ensures AllWs(before) && TreeWf(t)
    ensures s == before + TreeText(t, ParseValue(s, strict).rest)
    ensures ParseValue(s, strict).value == TreeValue(t)
    ensures strict ==> UniqueKeys(TreeValue(t))
    decreases |s|, 0
  {
    var r := SkipWs(s);
    before := SkipWsPrefix(s);
    assert r == [r[0]] + r[1..];
    if r[0] == LBRACE {
      t := ObjectSound(r[1..], strict);
    } else if r[0] == LBRACKET {
      t := ArraySound(r[1..], strict);
    } else {
      t := ScalarSound(r, strict);
      ParseValueSkipsWs(s, strict);
    }
  }

  lemma ScalarSound(r: Text, strict: bool) returns (t: Tree)
    requires ParseValue(r, strict).Ok?
    requires r != [] && !IsWs(r[0]) && r[0] != LBRACE && r[0] != LBRACKET
    ensures TreeWf(t) && r == TreeText(t, ParseValue(r, strict).rest)
    ensures ParseValue(r, strict).value == TreeValue(t) && UniqueKeys(TreeValue(t))
  {
    if r[0] == QUOTE {
      var cs := CharsSound(r[1..], []);
      t := TString(cs);
      assert [] + CharsValue(cs) == CharsValue(cs);
    } else if r[0] == MINUS || IsDigit(r[0]) {
      var n := NumberSound(r);
      t := TNumber(n);
    } else {
      t := if StartsWith(r, TRUE_TEXT) then TBool(true) else if StartsWith(r, FALSE_TEXT) then TBool(false) else TNull;
      assert r == if t == TBool(false) then r[..5] + r[5..] else r[..4] + r[4..];
    }
  }

  lemma {:induction false} ArraySound(s: Text, strict: bool) returns (t: Tree)
    requires ParseArray(s, strict).Ok?
    ensures TreeWf(t) && TreeText(t, ParseArray(s, strict).rest) == [LBRACKET] + s
    ensures ParseArray(s, strict).value == TreeValue(t)
    ensures strict ==> UniqueKeys(TreeValue(t))
    decreases |s|, 2
  {
    var r := SkipWs(s);
    var pad := SkipWsPrefix(s);
    if r != [] && r[0] == RBRACKET {
      Cons(r);
      t := TArray(pad, []);
    } else {
      var items := ItemsSound(r, [], strict);
      assert [] + ItemsValue(items) == ItemsValue(items);
      var padded := PadItems(pad, items, ParseItems(r, [], strict).rest);
      t := TArray([], padded);
    }
  }

  lemma PadItems(pad: Text, items: seq<Item>, rest: Text) returns (padded: seq<Item>)
    requires AllWs(pad) && items != [] && ItemsWf(items)
    ensures padded != [] && ItemsWf(padded) && ItemsValue(padded) == ItemsValue(items)
    ensures ItemsText(padded, rest) == pad + ItemsText(items, rest)
  {
    padded := [items[0].(before := pad + items[0].before)] + items[1..];
    assert padded[1..] == items[1..];
  }

  lemma {:induction false} ItemsSound(s: Text, acc: seq<Value>, strict: bool) returns (items: seq<Item>)
    requires ParseItems(s, acc, strict).Ok?
    ensures items != [] && ItemsWf(items)
    ensures s == ItemsText(items, ParseItems(s, acc, strict).rest)
    ensures ParseItems(s, acc, strict).value == Array(acc + ItemsValue(items))
    ensures strict ==> AllUnique(ItemsValue(items))
    decreases |s|, 1
  {
    var item, next := ItemSound(s, acc, strict);
    var rest := ParseItems(s, acc, strict).rest;
    var v := TreeValue(item.tree);
    Cons(next);
    if next[0] == COMMA {
      var tail := ItemsSound(next[1..], acc + [v], strict);
      items := JoinItem(item, tail, rest);
      Shift(acc, v, ItemsValue(tail));
    } else {
      items := JoinItem(item, [], rest);
    }
  }

  /** One turn of the item loop: an item, then the comma or bracket at which the parser stops. */
  lemma {:induction false} ItemSound(s: Text, acc: seq<Value>, strict: bool) returns (item: Item, next: Text)
    requires ParseItems(s, acc, strict).Ok?
    ensures ItemsWf([item]) && (strict ==> UniqueKeys(TreeValue(item.tree)))
    ensures s == item.before + TreeText(item.tree, item.after + next)
    ensures next != [] && |next| <= |s| && (next[0] == COMMA || next[0] == RBRACKET)
    ensures next[0] == COMMA ==>
              ParseItems(s, acc, strict) == ParseItems(next[1..], acc + [TreeValue(item.tree)], strict)
    ensures next[0] == RBRACKET ==> ParseItems(s, acc, strict) == Ok(Array(acc + [TreeValue(item.tree)]), next[1..])
    decreases |s|, 1, 0
  {
    var before, t := ValueSound(s, strict);
    var afterValue := ParseValue(s, strict).rest;
    next := SkipWs(afterValue);
    var after := SkipWsPrefix(afterValue);
    item := Item(before, t, after);
  }

  lemma JoinItem(item: Item, tail: seq<Item>, rest: Text) returns (items: seq<Item>)
    requires ItemsWf([item]) && ItemsWf(tail)
    ensures items != [] && ItemsWf(items) && ItemsValue(items) == [TreeValue(item.tree)] + ItemsValue(tail)
    ensures ItemsText(items, rest) == item.before + TreeText(item.tree, item.after +
              (if tail == [] then [RBRACKET] + rest else [COMMA] + ItemsText(tail, rest)))
    ensures AllUnique(ItemsValue(items)) == (UniqueKeys(TreeValue(item.tree)) && AllUnique(ItemsValue(tail)))
  {
    items := [item] + tail;
    assert items[1..] == tail;
    assert ItemsValue(items)[1..] == ItemsValue(tail);
  }

  lemma {:induction false} ObjectSound(s: Text, strict: bool) returns (t: Tree)
    requires ParseObject(s, strict).Ok?
    ensures TreeWf(t) && TreeText(t, ParseObject(s, strict).rest) == [LBRACE] + s
    ensures ParseObject(s, strict).value == TreeValue(t)
    ensures strict ==> UniqueKeys(TreeValue(t))
    decreases |s|, 2
  {
    var r := SkipWs(s);
    var pad := SkipWsPrefix(s);
    if r != [] && r[0] == RBRACE {
      Cons(r);
      t := TObject(pad, []);
    } else {
      var members := MembersSound(r, [], strict);
      assert [] + MembersValue(members) == MembersValue(members);
      var padded := PadMembers(pad, members, ParseMembers(r, [], strict).rest);
      t := TObject([], padded);
    }
  }

  lemma PadMembers(pad: Text, members: seq<Member>, rest: Text) returns (padded: seq<Member>)
    requires AllWs(pad) && members != [] && MembersWf(members)
    ensures padded != [] && MembersWf(padded) && MembersValue(padded) == MembersValue(members)
    ensures MembersText(padded, rest) == pad + MembersText(members, rest)
  {
    padded := [members[0].(before := pad + members[0].before)] + members[1..];
    assert padded[1..] == members[1..];
  }

  lemma {:induction false} MembersSound(s: Text, acc: seq<Field>, strict: bool) returns (members: seq<Member>)
    requires ParseMembers(s, acc, strict).Ok?
    ensures members != [] && MembersWf(members)
    ensures s == MembersText(members, ParseMembers(s, acc, strict).rest)
    ensures ParseMembers(s, acc, strict).value == Object(acc + MembersValue(members))
    ensures strict ==> FieldsUnique(acc, MembersValue(members))
    decreases |s|, 1
  {
    var m, next := MemberSound(s, acc, strict);
    var rest := ParseMembers(s, acc, strict).rest;
    var field := Field(CharsValue(m.key), TreeValue(m.tree));
    Cons(next);
    if next[0] == COMMA {
      var tail := MembersSound(next[1..], acc + [field], strict);
      members := JoinMember(m, tail, rest, acc);
      Shift(acc, field, MembersValue(tail));
    } else {
      members := JoinMember(m, [], rest, acc);
    }
  }

  /** One turn of the member loop: a member, then the comma or brace at which the parser stops. */
  lemma {:induction false} MemberSound(s: Text, acc: seq<Field>, strict: bool) returns (m: Member, next: Text)
    requires ParseMembers(s, acc, strict).Ok?
    ensures MembersWf([m])
    ensures strict ==> UniqueKeys(TreeValue(m.tree)) && !HasKey(acc, CharsValue(m.key))
    ensures s == MemberText(m, next)
    ensures next != [] && |next| <= |s| && (next[0] == COMMA || next[0] == RBRACE)
    ensures var field := Field(CharsValue(m.key), TreeValue(m.tree));
            && (next[0] == COMMA ==> ParseMembers(s, acc, strict) == ParseMembers(next[1..], acc + [field], strict))
            && (next[0] == RBRACE ==> ParseMembers(s, acc, strict) == Ok(Object(acc + [field]), next[1..]))
    decreases |s|, 1, 0
  {
    var key, colon := KeySound(s, ParseChars(SkipWs(s)[1..], []));
    var beforeValue, t := ValueSound(colon[1..], strict);
    var afterValue := ParseValue(colon[1..], strict).rest;
    next := SkipWs(afterValue);
    var after := SkipWsPrefix(afterValue);
    m := key.(beforeValue := beforeValue, tree := t, after := after);
    assert colon == [COLON] + (m.beforeValue + TreeText(m.tree, m.after + next));
  }

  lemma JoinMember(m: Member, tail: seq<Member>, rest: Text, acc: seq<Field>) returns (members: seq<Member>)
    requires MembersWf([m]) && MembersWf(tail)
    ensures members != [] && MembersWf(members)
    ensures var field := Field(CharsValue(m.key), TreeValue(m.tree));
            && MembersValue(members) == [field] + MembersValue(tail)
            && FieldsUnique(acc, MembersValue(members))
            == (UniqueKeys(field.value) && !HasKey(acc, field.key) && FieldsUnique(acc + [field], MembersValue(tail)))
    ensures MembersText(members, rest)
              == MemberText(m, if tail == [] then [RBRACE] + rest else [COMMA] + MembersText(tail, rest))
  {
    members := [m] + tail;
    assert members[1..] == tail;
    assert MembersValue(members)[1..] == MembersValue(tail);
  }

  /** The blanks before an opening quote. */
  lemma QuoteSound(s: Text, body: Text) returns (before: Text)
    requires SkipWs(s) != [] && SkipWs(s)[0] == QUOTE && body == SkipWs(s)[1..]
    ensures AllWs(before) && s == before + ([QUOTE] + body)
  {
    before := SkipWsPrefix(s);
    assert SkipWs(s) == [QUOTE] + body;
  }

  /** The inside of a key, up to the colon. */
  lemma QuotedSound(body: Text, chars: Parsed<Text>) returns (key: seq<CharForm>, afterKey: Text, colon: Text)
    requires chars == ParseChars(body, []) && chars.Ok?
    ensures CharsWf(key) && AllWs(afterKey) && body == CharsText(key, [QUOTE] + (afterKey + colon))
    ensures chars.value == CharsValue(key) && SkipWs(chars.rest) == colon
  {
    key := CharsSound(body, []);
    afterKey := SkipWsPrefix(chars.rest);
    colon := SkipWs(chars.rest);
    assert [] + CharsValue(key) == CharsValue(key);
  }

  /** Where the parser stands after a key: at the colon. */
  lemma KeySound(s: Text, chars: Parsed<Text>) returns (m: Member, colon: Text)
    requires SkipWs(s) != [] && SkipWs(s)[0] == QUOTE
    requires chars == ParseChars(SkipWs(s)[1..], []) && chars.Ok?
    ensures AllWs(m.before) && CharsWf(m.key) && AllWs(m.afterKey)
    ensures s == m.before + ([QUOTE] + CharsText(m.key, [QUOTE] + (m.afterKey + colon)))
    ensures chars.value == CharsValue(m.key) && SkipWs(chars.rest) == colon
  {
    var body := SkipWs(s)[1..];
    var before := QuoteSound(s, body);
    var key, afterKey, colonAndOn := QuotedSound(body, chars);
    colon := colonAndOn;
    m := Member(before, key, afterKey, [], TNull, []);
  }

  // ---------------------------------------------------------------- the strict parser is the grammar

  /** A derivable document is parsed to the value it denotes, unless an object in it repeats a key. */
  lemma DocumentComplete(d: Document, strict: bool)
    requires d.Wf()
    ensures ParseDocument(d.Spelling(), strict)
         == if strict && !UniqueKeys(TreeValue(d.tree)) then Rejected(DuplicateKey) else Accepted(TreeValue(d.tree))
  {
    ValueComplete(d.tree, d.before, d.after, strict);
    SkipWsOver(d.after, []);
    assert d.after + [] == d.after;
  }

  /** The parser accepts a text with value `v` exactly when the grammar derives the text for `v` and keys are unique. */
  lemma StrictParserIsTheGrammar(text: Text, v: Value)
    ensures ParseDocument(text, true) == Accepted(v)
       <==> UniqueKeys(v) && exists d: Document :: d.Wf() && d.Spelling() == text && TreeValue(d.tree) == v
  {
    if ParseDocument(text, true) == Accepted(v) {
      var before, t := ValueSound(text, true);
      var after := ParseValue(text, true).rest;
      var ws := SkipWsPrefix(after);
      var d := Document(before, t, after);
      assert d.Wf() && d.Spelling() == text && TreeValue(d.tree) == v;
    }
    if d: Document :| UniqueKeys(v) && d.Wf() && d.Spelling() == text && TreeValue(d.tree) == v {
      DocumentComplete(d, true);
    }
  }

  /** No text has two readings. */
  lemma GrammarIsUnambiguous(d: Document, e: Document)
    requires d.Wf() && e.Wf() && d.Spelling() == e.Spelling()
    ensures TreeValue(d.tree) == TreeValue(e.tree)
  {
    DocumentComplete(d, false);
    DocumentComplete(e, false);
  }

  // ---------------------------------------------------------------- the printer and the parser

  /** Every number in `v` is spelled as the number grammar allows. */
  predicate Printable(v: Value)
    decreases v, 1
  {
    match v
    case Number(lexeme) => MatchesNumber(lexeme)
    case Array(items) => AllPrintable(items)
    case Object(fields) => FieldsPrintable(fields)
    case _ => true
  }

  predicate AllPrintable(items: seq<Value>)
    decreases items, 0
  {
    items == [] || (Printable(items[0]) && AllPrintable(items[1..]))
  }

  predicate FieldsPrintable(fields: seq<Field>)
    decreases fields, 0
  {
    fields == [] || (Printable(fields[0].value) && FieldsPrintable(fields[1..]))
  }

  lemma PrintUnitForm(u: Unit, rest: Text) returns (c: CharForm)
    ensures c.Wf() && c.Denotes() == u && c.Spelling(rest) == PrintUnit(u, rest)
  {
    if u == QUOTE || u == BACKSLASH {
      c := Short(u);
    } else if u == 0x08 {
      c := Short(0x62);
    } else if u == 0x0C {
      c := Short(0x66);
    } else if u == 0x0A {
      c := Short(0x6E);
    } else if u == 0x0D {
      c := Short(0x72);
    } else if u == 0x09 {
      c := Short(0x74);
    } else if u < 0x20 || IsHighSurrogate(u) || IsLowSurrogate(u) {
      c := HexEscape(u);
    } else {
      c := Raw(u);
    }
  }

  lemma {:induction false} PrintUnitsForm(s: Text, rest: Text) returns (cs: seq<CharForm>)
    ensures CharsWf(cs) && CharsValue(cs) == s && CharsText(cs, rest) == PrintUnits(s, rest)
    decreases |s|
  {
    if s == [] {
      cs := [];
    } else if |s| >= 2 && IsHighSurrogate(s[0]) && IsLowSurrogate(s[1]) {
      var more := PrintUnitsForm(s[2..], rest);
      var second := ConsForm(Raw(s[1]), more, rest);
      cs := ConsForm(Raw(s[0]), second, rest);
      assert s == [s[0]] + ([s[1]] + s[2..]);
    } else {
      var more := PrintUnitsForm(s[1..], rest);
      var c := PrintUnitForm(s[0], PrintUnits(s[1..], rest));
      cs := ConsForm(c, more, rest);
      Cons(s);
    }
  }

  lemma ConsForm(c: CharForm, more: seq<CharForm>, rest: Text) returns (cs: seq<CharForm>)
    requires c.Wf() && CharsWf(more)
    ensures CharsWf(cs) && CharsValue(cs) == [c.Denotes()] + CharsValue(more)
    ensures CharsText(cs, rest) == c.Spelling(CharsText(more, rest))
  {
    cs := [c] + more;
    assert cs[1..] == more;
  }

  /** What the printer writes is a derivation of the value that was printed. */
  lemma {:induction false} PrintForm(v: Value, rest: Text) returns (t: Tree)
    requires Printable(v)
    ensures TreeWf(t) && TreeValue(t) == v && TreeText(t, rest) == PrintThen(v, rest)
    decreases v, 1
  {
    match v {
      case Null => t := TNull;
      case Bool(b) => t := TBool(b);
      case Number(lexeme) =>
        MatchesNumberIff(lexeme);
        var n: NumForm :| n.Wf() && n.Spelling([]) == lexeme;
        NumberSpellingSplits(n, rest);
        t := TNumber(n);
      case Str(s) =>
        var cs := PrintUnitsForm(s, [QUOTE] + rest);
        t := TString(cs);
      case Array(items) =>
        var forms: seq<Item> := [];
        if items != [] { forms := PrintItemsForm(items, rest); }
        t := TArray([], forms);
        assert [] + ([RBRACKET] + rest) == [RBRACKET] + rest;
      case Object(fields) =>
        var forms: seq<Member> := [];
        if fields != [] { forms := PrintFieldsForm(fields, rest); }
        t := TObject([], forms);
        assert [] + ([RBRACE] + rest) == [RBRACE] + rest;
    }
  }

  lemma {:induction false} PrintItemsForm(items: seq<Value>, rest: Text) returns (forms: seq<Item>)
    requires items != [] && AllPrintable(items)
    ensures forms != [] && ItemsWf(forms) && ItemsValue(forms) == items
    ensures ItemsText(forms, rest) == PrintItems(items, rest)
    decreases items, 0
  {
    var next := if |items| == 1 then [RBRACKET] + rest else [COMMA] + PrintItems(items[1..], rest);
    var t := PrintForm(items[0], next);
    var more: seq<Item> := [];
    if |items| > 1 { more := PrintItemsForm(items[1..], rest); }
    forms := JoinItem(Item([], t, []), more, rest);
    assert [] + next == next && [] + TreeText(t, next) == TreeText(t, next);
    Cons(items);
  }

  lemma {:induction false} PrintFieldsForm(fields: seq<Field>, rest: Text) returns (forms: seq<Member>)
    requires fields != [] && FieldsPrintable(fields)
    ensures forms != [] && MembersWf(forms) && MembersValue(forms) == fields
    ensures MembersText(forms, rest) == PrintFields(fields, rest)
    decreases fields, 0
  {
    var next := if |fields| == 1 then [RBRACE] + rest else [COMMA] + PrintFields(fields[1..], rest);
    var t := PrintForm(fields[0].value, next);
    var colon := [COLON] + TreeText(t, next);
    var cs := PrintUnitsForm(fields[0].key, [QUOTE] + colon);
    var more: seq<Member> := [];
    if |fields| > 1 { more := PrintFieldsForm(fields[1..], rest); }
    var m := Member([], cs, [], [], t, []);
    forms := JoinMember(m, more, rest, []);
    PlainMemberText(m, next);
    Cons(fields);
  }

  /** A member without insignificant whitespace. */
  lemma PlainMemberText(m: Member, next: Text)
    requires m.before == [] && m.afterKey == [] && m.beforeValue == [] && m.after == []
    ensures MemberText(m, next) == [QUOTE] + CharsText(m.key, [QUOTE] + ([COLON] + TreeText(m.tree, next)))
  {
    assert [] + next == next;
    assert [] + TreeText(m.tree, next) == TreeText(m.tree, next);
    assert [] + ([COLON] + TreeText(m.tree, next)) == [COLON] + TreeText(m.tree, next);
  }

  /** Parsing what was printed gives the value back, exactly when no object in it repeats a key. */
  lemma PrintThenParse(v: Value)
    requires Printable(v)
    ensures ParseDocument(Print(v), true) == if UniqueKeys(v) then Accepted(v) else Rejected(DuplicateKey)
  {
    var t := PrintForm(v, []);
    var d := Document([], t, []);
    assert d.Spelling() == Print(v);
    DocumentComplete(d, true);
  }

  /** Different values are printed differently. */
  lemma PrintInjective(v: Value, w: Value)
    requires Printable(v) && Printable(w) && Print(v) == Print(w)
    ensures v == w
  {
    var t := PrintForm(v, []);
    var u := PrintForm(w, []);
    var d, e := Document([], t, []), Document([], u, []);
    assert d.Spelling() == Print(v) && e.Spelling() == Print(w);
    GrammarIsUnambiguous(d, e);
  }

  /** Decimal numbers are printable. */
  lemma DecimalIsNumber(n: nat)
    ensures MatchesNumber(Decimal(n))
  {
    var d := Decimal(n);
    var form := NumForm(false, d, [], [], [], []);
    assert form.Spelling([]) == d;
    MatchesNumberIff(d);
  }
}
