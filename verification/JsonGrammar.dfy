/**
 JSON values, the concrete syntax of sections 2 to 7 of RFC 8259, and the printer.

 A `Tree` is a derivation of the grammar: it remembers every choice that the grammar leaves
 open (insignificant whitespace, how a character is escaped, how a number is spelled).
 `TreeText` spells a derivation out and `TreeValue` is the value that it denotes, so "text t
 is JSON for v" means that some well-formed derivation has text t and value v.

 Every spelling function takes the text that follows as its last argument, so that a spelling
 is built from the right by putting short texts in front of longer ones.
 */
module JsonGrammar {
  import opened Utf16

  const QUOTE: Unit := 0x22
  const BACKSLASH: Unit := 0x5C
  const LBRACE: Unit := 0x7B
  const RBRACE: Unit := 0x7D
  const LBRACKET: Unit := 0x5B
  const RBRACKET: Unit := 0x5D
  const COLON: Unit := 0x3A
  const COMMA: Unit := 0x2C
  const MINUS: Unit := 0x2D
  const PLUS: Unit := 0x2B
  const DOT: Unit := 0x2E
  const ZERO: Unit := 0x30
  const LETTER_U: Unit := 0x75

  const TRUE_TEXT: Text := [0x74, 0x72, 0x75, 0x65]
  const FALSE_TEXT: Text := [0x66, 0x61, 0x6C, 0x73, 0x65]
  const NULL_TEXT: Text := [0x6E, 0x75, 0x6C, 0x6C]

  /** Objects keep their members in order; numbers are kept as they are spelled. */
  datatype Value =
    | Null
    | Bool(b: bool)
    | Number(lexeme: Text)
    | Str(s: Text)
    | Array(items: seq<Value>)
    | Object(fields: seq<Field>)

  datatype Field = Field(key: Text, value: Value)

  predicate HasKey(fields: seq<Field>, key: Text) {
    exists i | 0 <= i < |fields| :: fields[i].key == key
  }

  predicate IsWs(u: Unit) {
    u == 0x20 || u == 0x09 || u == 0x0A || u == 0x0D
  }

  predicate AllWs(s: Text) {
    forall i | 0 <= i < |s| :: IsWs(s[i])
  }

  predicate AllDigits(s: Text) {
    forall i | 0 <= i < |s| :: IsDigit(s[i])
  }

  predicate IsExponentMark(u: Unit) {
    u == 0x65 || u == 0x45
  }

  predicate IsExponentSign(u: Unit) {
    u == PLUS || u == MINUS
  }

  /** The character that a two-character escape denotes, if the letter is one of the eight allowed. */
  datatype Escape = Escaped(u: Unit) | NotAnEscape

  function ShortEscape(u: Unit): Escape {
    if u == QUOTE || u == BACKSLASH || u == 0x2F then Escaped(u)
    else if u == 0x62 then Escaped(0x08)
    else if u == 0x66 then Escaped(0x0C)
    else if u == 0x6E then Escaped(0x0A)
    else if u == 0x72 then Escaped(0x0D)
    else if u == 0x74 then Escaped(0x09)
    else NotAnEscape
  }

  function HexValue(h0: Unit, h1: Unit, h2: Unit, h3: Unit): Unit
    requires IsHex(h0) && IsHex(h1) && IsHex(h2) && IsHex(h3)
  {
    0x1000 * HexDigitValue(h0) + 0x100 * HexDigitValue(h1) + 0x10 * HexDigitValue(h2) + HexDigitValue(h3)
  }

  // ---------------------------------------------------------------- derivations

  /** One character of a string literal, with the spelling chosen for it. */
  datatype CharForm = Raw(u: Unit) | Short(letter: Unit) | Hex(h0: Unit, h1: Unit, h2: Unit, h3: Unit) {
    predicate Wf() {
      match this
      case Raw(u) => u != QUOTE && u != BACKSLASH && u >= 0x20
      case Short(letter) => ShortEscape(letter).Escaped?
      case Hex(h0, h1, h2, h3) => IsHex(h0) && IsHex(h1) && IsHex(h2) && IsHex(h3)
    }

    function Spelling(rest: Text): Text {
      match this
      case Raw(u) => [u] + rest
      case Short(letter) => [BACKSLASH, letter] + rest
      case Hex(h0, h1, h2, h3) => [BACKSLASH, LETTER_U, h0, h1, h2, h3] + rest
    }

    function Denotes(): Unit
      requires Wf()
    {
      match this
      case Raw(u) => u
      case Short(letter) => ShortEscape(letter).u
      case Hex(h0, h1, h2, h3) => HexValue(h0, h1, h2, h3)
    }
  }

  predicate CharsWf(cs: seq<CharForm>) {
    forall i | 0 <= i < |cs| :: cs[i].Wf()
  }

  function CharsText(cs: seq<CharForm>, rest: Text): Text {
    if cs == [] then rest else cs[0].Spelling(CharsText(cs[1..], rest))
  }

  function CharsValue(cs: seq<CharForm>): (s: Text)
    requires CharsWf(cs)
    ensures |s| == |cs|
  {
    if cs == [] then [] else [cs[0].Denotes()] + CharsValue(cs[1..])
  }

  /** A number: `frac` is empty when there is no fraction, `mark` when there is no exponent. */
  datatype NumForm = NumForm(negative: bool, whole: Text, frac: Text, mark: Text, sign: Text, exponent: Text) {
    predicate Wf() {
      && AllDigits(whole) && whole != [] && (whole[0] == ZERO ==> |whole| == 1)
      && AllDigits(frac)
      && (mark == [] ==> sign == [] && exponent == [])
      && (mark != [] ==> |mark| == 1 && IsExponentMark(mark[0]) && AllDigits(exponent) && exponent != [])
      && |sign| <= 1 && (sign != [] ==> IsExponentSign(sign[0]))
    }

    function ExponentText(rest: Text): Text {
      if mark == [] then rest else mark + (sign + (exponent + rest))
    }

    function FractionText(rest: Text): Text {
      if frac == [] then ExponentText(rest) else [DOT] + (frac + ExponentText(rest))
    }

    function WholeText(rest: Text): Text {
      whole + FractionText(rest)
    }

    function Spelling(rest: Text): Text {
      if negative then [MINUS] + WholeText(rest) else WholeText(rest)
    }
  }

  datatype Tree =
    | TNull
    | TBool(b: bool)
    | TNumber(n: NumForm)
    | TString(cs: seq<CharForm>)
    | TArray(pad: Text, items: seq<Item>)      // pad: what stands between the brackets of an empty array
    | TObject(pad: Text, members: seq<Member>)

  datatype Item = Item(before: Text, tree: Tree, after: Text)

  datatype Member = Member(before: Text, key: seq<CharForm>, afterKey: Text, beforeValue: Text, tree: Tree, after: Text)

  predicate TreeWf(t: Tree)
    decreases t, 1
  {
    match t
    case TNull => true
    case TBool(_) => true
    case TNumber(n) => n.Wf()
    case TString(cs) => CharsWf(cs)
    case TArray(pad, items) => AllWs(pad) && (items != [] ==> pad == []) && ItemsWf(items)
    case TObject(pad, members) => AllWs(pad) && (members != [] ==> pad == []) && MembersWf(members)
  }

  predicate ItemsWf(items: seq<Item>)
    decreases items, 0
  {
    items == [] || (AllWs(items[0].before) && AllWs(items[0].after) && TreeWf(items[0].tree) && ItemsWf(items[1..]))
  }

  predicate MembersWf(members: seq<Member>)
    decreases members, 0
  {
    members == [] ||
    (var m := members[0];
     && AllWs(m.before) && CharsWf(m.key) && AllWs(m.afterKey) && AllWs(m.beforeValue) && TreeWf(m.tree)
        && AllWs(m.after)
     && MembersWf(members[1..]))
  }

  function TreeText(t: Tree, rest: Text): Text
    decreases t, 1
  {
    match t
    case TNull => NULL_TEXT + rest
    case TBool(b) => (if b then TRUE_TEXT else FALSE_TEXT) + rest
    case TNumber(n) => n.Spelling(rest)
    case TString(cs) => [QUOTE] + CharsText(cs, [QUOTE] + rest)
    case TArray(pad, items) => [LBRACKET] + (if items == [] then pad + ([RBRACKET] + rest) else ItemsText(items, rest))
    case TObject(pad, members) =>
        [LBRACE] + (if members == [] then pad + ([RBRACE] + rest) else MembersText(members, rest))
  }

  /** The items of a non-empty array with the commas between them and the closing bracket. */
  function ItemsText(items: seq<Item>, rest: Text): Text
    requires items != []
    decreases items, 0
  {
    items[0].before + TreeText(items[0].tree, items[0].after +
      (if |items| == 1 then [RBRACKET] + rest else [COMMA] + ItemsText(items[1..], rest)))
  }

  /** The members of a non-empty object with the commas between them and the closing brace. */
  function MembersText(members: seq<Member>, rest: Text): Text
    requires members != []
    decreases members, 0
  {
    MemberText(members[0], if |members| == 1 then [RBRACE] + rest else [COMMA] + MembersText(members[1..], rest))
  }

  function MemberText(m: Member, next: Text): Text
    decreases m, 0
  {
    m.before + ([QUOTE] + CharsText(m.key,
        [QUOTE] + (m.afterKey + ([COLON] + (m.beforeValue + TreeText(m.tree, m.after + next))))))
  }

  function TreeValue(t: Tree): Value
    requires TreeWf(t)
    decreases t, 1
  {
    match t
    case TNull => Null
    case TBool(b) => Bool(b)
    case TNumber(n) => Number(n.Spelling([]))
    case TString(cs) => Str(CharsValue(cs))
    case TArray(_, items) => Array(ItemsValue(items))
    case TObject(_, members) => Object(MembersValue(members))
  }

  function ItemsValue(items: seq<Item>): (vs: seq<Value>)
    requires ItemsWf(items)
    decreases items, 0
  {
    if items == [] then [] else [TreeValue(items[0].tree)] + ItemsValue(items[1..])
  }

  function MembersValue(members: seq<Member>): (fs: seq<Field>)
    requires MembersWf(members)
    decreases members, 0
  {
    if members == [] then []
    else [Field(CharsValue(members[0].key), TreeValue(members[0].tree))] + MembersValue(members[1..])
  }

  /** No object, at any depth, holds the same decoded key twice. */
  predicate UniqueKeys(v: Value)
    decreases v, 1
  {
    match v
    case Array(items) => AllUnique(items)
    case Object(fields) => FieldsUnique([], fields)
    case _ => true
  }

  predicate AllUnique(items: seq<Value>)
    decreases items, 0
  {
    items == [] || (UniqueKeys(items[0]) && AllUnique(items[1..]))
  }

  /** `fields` may follow the members `earlier`: no key comes back and every value is unique inside. */
  predicate FieldsUnique(earlier: seq<Field>, fields: seq<Field>)
    decreases fields, 0
  {
    fields == [] ||
    (&& UniqueKeys(fields[0].value)
     && !HasKey(earlier, fields[0].key)
     && FieldsUnique(earlier + [fields[0]], fields[1..]))
  }

  /** A whole document: a value between insignificant whitespace. */
  datatype Document = Document(before: Text, tree: Tree, after: Text) {
    predicate Wf() {
      AllWs(before) && TreeWf(tree) && AllWs(after)
    }

    function Spelling(): Text {
      before + TreeText(tree, after)
    }
  }

  // ---------------------------------------------------------------- printing

  predicate IsHighSurrogate(u: Unit) {
    0xD800 <= u <= 0xDBFF
  }

  predicate IsLowSurrogate(u: Unit) {
    0xDC00 <= u <= 0xDFFF
  }

  function HexEscape(u: Unit): (c: CharForm)
    ensures c.Hex? && c.Wf() && c.Denotes() == u
  {
    var q1 := u / 16;
    var q2 := q1 / 16;
    var q3 := q2 / 16;
    assert u == 0x1000 * q3 + 0x100 * (q2 % 16) + 0x10 * (q1 % 16) + u % 16 && q3 < 16;
    Hex(HexDigit(q3), HexDigit(q2 % 16), HexDigit(q1 % 16), HexDigit(u % 16))
  }

  /** How the printer spells one code unit that is not half of a surrogate pair. */
  function PrintUnit(u: Unit, rest: Text): Text {
    if u == QUOTE || u == BACKSLASH then [BACKSLASH, u] + rest
    else if u == 0x08 then [BACKSLASH, 0x62] + rest
    else if u == 0x0C then [BACKSLASH, 0x66] + rest
    else if u == 0x0A then [BACKSLASH, 0x6E] + rest
    else if u == 0x0D then [BACKSLASH, 0x72] + rest
    else if u == 0x09 then [BACKSLASH, 0x74] + rest
    else if u < 0x20 || IsHighSurrogate(u) || IsLowSurrogate(u) then HexEscape(u).Spelling(rest)
    else [u] + rest
  }

  /** The inside of a string literal: surrogate pairs stay as they are, lone halves are escaped. */
  function PrintUnits(s: Text, rest: Text): Text {
    if s == [] then rest
    else if |s| >= 2 && IsHighSurrogate(s[0]) && IsLowSurrogate(s[1]) then [s[0]] + ([s[1]] + PrintUnits(s[2..], rest))
    else PrintUnit(s[0], PrintUnits(s[1..], rest))
  }

  function PrintString(s: Text, rest: Text): Text {
    [QUOTE] + PrintUnits(s, [QUOTE] + rest)
  }

  /** `JSON.stringify` without an indent argument, in front of `rest`. */
  function PrintThen(v: Value, rest: Text): Text
    decreases v, 1
  {
    match v
    case Null => NULL_TEXT + rest
    case Bool(b) => (if b then TRUE_TEXT else FALSE_TEXT) + rest
    case Number(lexeme) => lexeme + rest
    case Str(s) => PrintString(s, rest)
    case Array(items) => [LBRACKET] + (if items == [] then [RBRACKET] + rest else PrintItems(items, rest))
    case Object(fields) => [LBRACE] + (if fields == [] then [RBRACE] + rest else PrintFields(fields, rest))
  }

  function PrintItems(items: seq<Value>, rest: Text): Text
    requires items != []
    decreases items, 0
  {
    PrintThen(items[0], if |items| == 1 then [RBRACKET] + rest else [COMMA] + PrintItems(items[1..], rest))
  }

  function PrintFields(fields: seq<Field>, rest: Text): Text
    requires fields != []
    decreases fields, 0
  {
    PrintString(fields[0].key, [COLON] + PrintThen(fields[0].value,
      if |fields| == 1 then [RBRACE] + rest else [COMMA] + PrintFields(fields[1..], rest)))
  }

  function Print(v: Value): Text {
    PrintThen(v, [])
  }
}
