/**
 The strict JSON parser used for enrollment artifacts and relay frames.

 `ParseValue` and its companions describe the parser as functions of the text that is still
 unread; `StrictJsonParser` is the parser itself, with its shared position and its loops, and
 every method is proved to compute the corresponding function.
 */
module JsonParser {
  import opened Utf16
  import opened JsonGrammar

  datatype JsonError =
    | UnexpectedEnd
    | UnexpectedToken
    | ExpectedKey
    | ExpectedColon
    | DuplicateKey
    | ExpectedCommaOrBrace
    | ExpectedCommaOrBracket
    | InvalidUnicodeEscape
    | InvalidEscape
    | ControlCharacter
    | UnterminatedString
    | InvalidNumber
    | TrailingContent

  datatype Parsed<T> = Ok(value: T, rest: Text) | Err(error: JsonError)

  // ---------------------------------------------------------------- the parser as functions

  function SkipWs(s: Text): (r: Text)
    ensures |r| <= |s| && (r == [] || !IsWs(r[0]))
  {
    if s != [] && IsWs(s[0]) then SkipWs(s[1..]) else s
  }

  function SkipDigits(s: Text): (r: Text)
    ensures |r| <= |s| && (r == [] || !IsDigit(r[0]))
    ensures s != [] && IsDigit(s[0]) ==> |r| < |s|
  {
    if s != [] && IsDigit(s[0]) then SkipDigits(s[1..]) else s
  }

  function AfterMinus(s: Text): Text {
    if s != [] && s[0] == MINUS then s[1..] else s
  }

  function AfterWhole(s: Text): Text {
    if s != [] && s[0] == ZERO then s[1..] else SkipDigits(s)
  }

  function AfterFraction(s: Text): Text {
    if s != [] && s[0] == DOT then SkipDigits(s[1..]) else s
  }

  function AfterSign(s: Text): Text {
    if s != [] && IsExponentSign(s[0]) then s[1..] else s
  }

  function AfterExponent(s: Text): Text {
    if s != [] && IsExponentMark(s[0]) then SkipDigits(AfterSign(s[1..])) else s
  }

  /** What the greedy scan of a number leaves unread. */
  function AfterNumber(s: Text): (r: Text)
    ensures |r| <= |s|
  {
    AfterExponent(AfterFraction(AfterWhole(AfterMinus(s))))
  }

  /** The regular expression of the source, run over the whole of `s`. */
  predicate MatchesNumber(s: Text) {
    NumberStart(s) && AfterNumber(s) == []
  }

  /** Digits stand wherever the number grammar asks for at least one. */
  predicate NumberStart(s: Text) {
    var whole := AfterMinus(s);
    var fraction := AfterWhole(whole);
    var exponent := AfterFraction(fraction);
    && whole != [] && IsDigit(whole[0])
    && (fraction != [] && fraction[0] == DOT ==> |fraction| > 1 && IsDigit(fraction[1]))
    && (exponent != [] && IsExponentMark(exponent[0]) ==>
          var digits := AfterSign(exponent[1..]); digits != [] && IsDigit(digits[0]))
  }

  predicate StartsWith(s: Text, word: Text) {
    |word| <= |s| && s[..|word|] == word
  }

  function ParseNumber(s: Text): (p: Parsed<Value>)
    ensures p.Ok? ==> |p.rest| < |s|
  {
    var rest := AfterNumber(s);
    var lexeme := s[..|s| - |rest|];
    if MatchesNumber(lexeme) then Ok(Number(lexeme), rest) else Err(InvalidNumber)
  }

  /** Reads up to the closing quote, appending to `acc`. */
  function ParseChars(s: Text, acc: Text): (p: Parsed<Text>)
    ensures p.Ok? ==> |p.rest| < |s|
    decreases |s|
  {
    if s == [] then Err(UnterminatedString)
    else if s[0] == QUOTE then Ok(acc, s[1..])
    else if s[0] == BACKSLASH then
      if |s| >= 2 && s[1] == LETTER_U then
        if |s| >= 6 && IsHex(s[2]) && IsHex(s[3]) && IsHex(s[4]) && IsHex(s[5]) then
          ParseChars(s[6..], acc + [HexValue(s[2], s[3], s[4], s[5])])
        else Err(InvalidUnicodeEscape)
      else if |s| >= 2 && ShortEscape(s[1]).Escaped? then ParseChars(s[2..], acc + [ShortEscape(s[1]).u])
      else Err(InvalidEscape)
    else if s[0] < 0x20 then Err(ControlCharacter)
    else ParseChars(s[1..], acc + [s[0]])
  }

  /**
   `strict` is the source's parser; with `strict` off the same parser keeps members with
   repeated keys, which is what lets the grammar be shown unambiguous.
   */
  function ParseValue(s: Text, strict: bool): (p: Parsed<Value>)
    ensures p.Ok? ==> |p.rest| < |s|
    decreases |s|, 0
  {
    var r := SkipWs(s);
    if r == [] then Err(UnexpectedEnd)
    else if r[0] == LBRACE then ParseObject(r[1..], strict)
    else if r[0] == LBRACKET then ParseArray(r[1..], strict)
    else if r[0] == QUOTE then
      match ParseChars(r[1..], [])
      case Ok(chars, rest) => Ok(Str(chars), rest)
      case Err(e) => Err(e)
    else if r[0] == MINUS || IsDigit(r[0]) then ParseNumber(r)
    else if StartsWith(r, TRUE_TEXT) then Ok(Bool(true), r[4..])
    else if StartsWith(r, FALSE_TEXT) then Ok(Bool(false), r[5..])
    else if StartsWith(r, NULL_TEXT) then Ok(Null, r[4..])
    else Err(UnexpectedToken)
  }

  /** What stands after the opening bracket. */
  function ParseArray(s: Text, strict: bool): (p: Parsed<Value>)
    ensures p.Ok? ==> |p.rest| < |s|
    decreases |s|, 2
  {
    var r := SkipWs(s);
    if r != [] && r[0] == RBRACKET then Ok(Array([]), r[1..])
    else ParseItems(r, [], strict)
  }

  function ParseItems(s: Text, acc: seq<Value>, strict: bool): (p: Parsed<Value>)
    ensures p.Ok? ==> |p.rest| < |s|
    decreases |s|, 1
  {
    match ParseValue(s, strict)
    case Err(e) => Err(e)
    case Ok(v, afterValue) =>
      var r := SkipWs(afterValue);
      if r != [] && r[0] == COMMA then ParseItems(r[1..], acc + [v], strict)
      else if r != [] && r[0] == RBRACKET then Ok(Array(acc + [v]), r[1..])
      else Err(ExpectedCommaOrBracket)
  }

  /** What stands after the opening brace. */
  function ParseObject(s: Text, strict: bool): (p: Parsed<Value>)
    ensures p.Ok? ==> |p.rest| < |s|
    decreases |s|, 2
  {
    var r := SkipWs(s);
    if r != [] && r[0] == RBRACE then Ok(Object([]), r[1..])
    else ParseMembers(r, [], strict)
  }

  function ParseMembers(s: Text, acc: seq<Field>, strict: bool): (p: Parsed<Value>)
    ensures p.Ok? ==> |p.rest| < |s|
    decreases |s|, 1
  {
    var r := SkipWs(s);
    if r == [] || r[0] != QUOTE then Err(ExpectedKey)
    else
      match ParseChars(r[1..], [])
      case Err(e) => Err(e)
      case Ok(key, afterKey) =>
        var colon := SkipWs(afterKey);
        if colon == [] || colon[0] != COLON then Err(ExpectedColon)
        else
          match ParseValue(colon[1..], strict)
          case Err(e) => Err(e)
          case Ok(v, afterValue) =>
            if strict && HasKey(acc, key) then Err(DuplicateKey)
            else
              var next := SkipWs(afterValue);
              if next != [] && next[0] == COMMA then ParseMembers(next[1..], acc + [Field(key, v)], strict)
              else if next != [] && next[0] == RBRACE then Ok(Object(acc + [Field(key, v)]), next[1..])
              else Err(ExpectedCommaOrBrace)
  }

  datatype Outcome = Accepted(value: Value) | Rejected(error: JsonError)

  function ParseDocument(text: Text, strict: bool): Outcome {
    match ParseValue(text, strict)
    case Err(e) => Rejected(e)
    case Ok(v, rest) => if SkipWs(rest) == [] then Accepted(v) else Rejected(TrailingContent)
  }

  // ---------------------------------------------------------------- the parser itself

  datatype Step<T> = Done(value: T) | Failed(error: JsonError)

  class StrictJsonParser {
    const text: Text
    var i: nat

    constructor (text: Text)
      ensures this.text == text && i == 0
    {
      this.text := text;
      i := 0;
    }

    ghost predicate Valid()
      reads this
    {
      i <= |text|
    }

    ghost function Unread(): Text
      reads this
      requires Valid()
    {
      text[i..]
    }

    /** A step agrees with the function result: same value, same unread text, same error. */
    ghost predicate Agrees<T>(step: Step<T>, p: Parsed<T>)
      reads this
    {
      match step
      case Done(v) => Valid() && p == Ok(v, Unread())
      case Failed(e) => p == Err(e)
    }

    predicate At(u: Unit)
      reads this
      requires Valid()
      ensures At(u) <==> Unread() != [] && Unread()[0] == u
    {
      i < |text| && text[i] == u
    }

    method Advance(n: nat)
      requires Valid() && i + n <= |text|
      modifies this
      ensures Valid() && i == old(i) + n && Unread() == old(Unread())[n..]
    {
      i := i + n;
    }

    method SkipWhitespace()
      requires Valid()
      modifies this
      ensures Valid() && old(i) <= i
      ensures Unread() == SkipWs(old(Unread()))
    {
      while i < |text| && IsWs(text[i])
        invariant Valid() && old(i) <= i
        invariant SkipWs(Unread()) == SkipWs(old(Unread()))
      {
        Advance(1);
      }
    }

    method SkipDigitRun()
      requires Valid()
      modifies this
      ensures Valid() && old(i) <= i
      ensures Unread() == SkipDigits(old(Unread()))
    {
      while i < |text| && IsDigit(text[i])
        invariant Valid() && old(i) <= i
        invariant SkipDigits(Unread()) == SkipDigits(old(Unread()))
      {
        Advance(1);
      }
    }

    /** Steps over the next code unit if it is `u`. */
    method SkipIf(u: Unit) returns (skipped: bool)
      requires Valid()
      modifies this
      ensures Valid() && i == old(i) + (if skipped then 1 else 0)
      ensures skipped <==> old(At(u))
      ensures Unread() == if skipped then old(Unread())[1..] else old(Unread())
    {
      skipped := At(u);
      if skipped { Advance(1); }
    }

    /** The digits after an exponent mark, when there is one. */
    method SkipExponent()
      requires Valid()
      modifies this
      ensures Valid() && old(i) <= i
      ensures Unread() == AfterExponent(old(Unread()))
    {
      if i < |text| && IsExponentMark(text[i]) {
        Advance(1);
        if i < |text| && IsExponentSign(text[i]) { Advance(1); }
        SkipDigitRun();
      }
    }

    method SkipNumber()
      requires Valid()
      modifies this
      ensures Valid() && old(i) <= i
      ensures Unread() == AfterNumber(old(Unread()))
    {
      ghost var s := Unread();
      var skipped := SkipIf(MINUS);
      ghost var whole := Unread();
      assert whole == AfterMinus(s);
      skipped := SkipIf(ZERO);
      if !skipped { SkipDigitRun(); }
      ghost var fraction := Unread();
      assert fraction == AfterWhole(whole);
      skipped := SkipIf(DOT);
      if skipped { SkipDigitRun(); }
      assert Unread() == AfterFraction(fraction);
      SkipExponent();
    }

    method ReadNumber() returns (step: Step<Value>)
      requires Valid()
      modifies this
      ensures Valid() && old(i) <= i
      ensures Agrees(step, ParseNumber(old(Unread())))
    {
      var start := i;
      SkipNumber();
      var lexeme := text[start..i];
      assert lexeme == text[start..][..i - start];
      step := if MatchesNumber(lexeme) then Done(Number(lexeme)) else Failed(InvalidNumber);
    }

    /** Called at the opening quote. */
    method ReadString() returns (step: Step<Text>)
      requires Valid() && i < |text|
      modifies this
      ensures Valid() && old(i) < i
      ensures Agrees(step, ParseChars(old(Unread())[1..], []))
    {
      ghost var goal := ParseChars(Unread()[1..], []);
      Advance(1);
      var result: Text := [];
      while i < |text|
        invariant Valid() && old(i) < i
        invariant ParseChars(Unread(), result) == goal
        decreases |text| - i
      {
        ghost var s := Unread();
        var c := text[i];
        assert s[0] == c;
        if c == QUOTE {
          Advance(1);
          return Done(result);
        }
        if c == BACKSLASH {
          if i + 1 < |text| && text[i + 1] == LETTER_U {
            if i + 6 <= |text| && IsHex(text[i + 2]) && IsHex(text[i + 3]) && IsHex(text[i + 4]) && IsHex(text[i + 5]) {
              result := result + [HexValue(text[i + 2], text[i + 3], text[i + 4], text[i + 5])];
              Advance(6);
            } else {
              Advance(1);
              return Failed(InvalidUnicodeEscape);
            }
          } else if i + 1 < |text| && ShortEscape(text[i + 1]).Escaped? {
            result := result + [ShortEscape(text[i + 1]).u];
            Advance(2);
          } else {
            Advance(1);
            return Failed(InvalidEscape);
          }
        } else if c < 0x20 {
          return Failed(ControlCharacter);
        } else {
          result := result + [c];
          Advance(1);
        }
      }
      step := Failed(UnterminatedString);
    }

    method ReadValue() returns (step: Step<Value>)
      requires Valid()
      modifies this
      ensures Valid() && old(i) <= i && (step.Done? ==> old(i) < i)
      ensures Agrees(step, ParseValue(old(Unread()), true))
      decreases |text| - i, 1
    {
      ghost var start := i;
      SkipWhitespace();
      ghost var r := Unread();
      if i >= |text| { return Failed(UnexpectedEnd); }
      var c := text[i];
      assert |r| >= 4 ==> r[..4] == text[i..i + 4];
      assert |r| >= 5 ==> r[..5] == text[i..i + 5];
      if c == LBRACE {
        step := ReadObject();
      } else if c == LBRACKET {
        step := ReadArray();
      } else if c == QUOTE {
        var chars := ReadString();
        match chars {
          case Done(s) => step := Done(Str(s));
          case Failed(e) => step := Failed(e);
        }
      } else if c == MINUS || IsDigit(c) {
        step := ReadNumber();
      } else if i + 4 <= |text| && text[i..i + 4] == TRUE_TEXT {
        Advance(4);
        step := Done(Bool(true));
      } else if i + 5 <= |text| && text[i..i + 5] == FALSE_TEXT {
        Advance(5);
        step := Done(Bool(false));
      } else if i + 4 <= |text| && text[i..i + 4] == NULL_TEXT {
        Advance(4);
        step := Done(Null);
      } else {
        step := Failed(UnexpectedToken);
      }
    }

    /** Called at the opening bracket. */
    method ReadArray() returns (step: Step<Value>)
      requires Valid() && i < |text|
      modifies this
      ensures Valid() && old(i) < i
      ensures Agrees(step, ParseArray(old(Unread())[1..], true))
      decreases |text| - i, 0
    {
      Advance(1);
      var result: seq<Value> := [];
      SkipWhitespace();
      if At(RBRACKET) {
        Advance(1);
        return Done(Array(result));
      }
      ghost var goal := ParseItems(Unread(), [], true);
      while true
        invariant Valid() && old(i) < i
        invariant ParseItems(Unread(), result, true) == goal
        decreases |text| - i
      {
        var item := ReadValue();
        if item.Failed? { return item; }
        result := result + [item.value];
        SkipWhitespace();
        if At(COMMA) {
          Advance(1);
        } else if At(RBRACKET) {
          Advance(1);
          return Done(Array(result));
        } else {
          return Failed(ExpectedCommaOrBracket);
        }
      }
    }

    /** Called at the opening brace. */
    method ReadObject() returns (step: Step<Value>)
      requires Valid() && i < |text|
      modifies this
      ensures Valid() && old(i) < i
      ensures Agrees(step, ParseObject(old(Unread())[1..], true))
      decreases |text| - i, 0
    {
      Advance(1);
      var result: seq<Field> := [];
      SkipWhitespace();
      if At(RBRACE) {
        Advance(1);
        return Done(Object(result));
      }
      ghost var goal := ParseMembers(Unread(), [], true);
      while true
        invariant Valid() && old(i) < i
        invariant ParseMembers(Unread(), result, true) == goal
        decreases |text| - i
      {
        SkipWhitespace();
        if !At(QUOTE) { return Failed(ExpectedKey); }
        var key := ReadString();
        if key.Failed? { return Failed(key.error); }
        SkipWhitespace();
        if !At(COLON) { return Failed(ExpectedColon); }
        Advance(1);
        var value := ReadValue();
        if value.Failed? { return value; }
        if HasKey(result, key.value) { return Failed(DuplicateKey); }
        result := result + [Field(key.value, value.value)];
        SkipWhitespace();
        if At(COMMA) {
          Advance(1);
        } else if At(RBRACE) {
          Advance(1);
          return Done(Object(result));
        } else {
          return Failed(ExpectedCommaOrBrace);
        }
      }
    }
  }

  /** `parseEnrollmentArtifactJson`. */
  method ParseArtifactJson(text: Text) returns (outcome: Outcome)
    ensures outcome == ParseDocument(text, true)
  {
    var parser := new StrictJsonParser(text);
    assert parser.Unread() == text;
    var step := parser.ReadValue();
    match step {
      case Failed(e) => outcome := Rejected(e);
      case Done(v) =>
        parser.SkipWhitespace();
        outcome := if parser.i == |text| then Accepted(v) else Rejected(TrailingContent);
    }
  }
}
