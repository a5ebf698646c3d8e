/** The canonical manifest of a skill snapshot: the same bytes exactly for the same set of files. */
module Manifest {
  import opened Ring

  /** A Unicode scalar value: what a well-formed JavaScript string is made of. */
  type Scalar = c: int | 0 <= c < 0xD800 || 0xE000 <= c < 0x110000

  type Name = seq<Scalar>

  // ---------------------------------------------------------------- UTF-8

  function Utf8Of(c: Scalar): (b: seq<byte>)
    ensures 1 <= |b| <= 4
  {
    if c < 0x80 then [c]
    else if c < 0x800 then [0xC0 + c / 64, 0x80 + c % 64]
    else if c < 0x10000 then [0xE0 + c / 4096, 0x80 + c / 64 % 64, 0x80 + c % 64]
    else [0xF0 + c / 262144, 0x80 + c / 4096 % 64, 0x80 + c / 64 % 64, 0x80 + c % 64]
  }

  function Utf8(s: Name): seq<byte> {
    if s == [] then [] else Utf8Of(s[0]) + Utf8(s[1..])
  }

  /** The bytes of a lead byte's scalar after the lead, six bits each. */
  function Tail(b: seq<byte>, i: nat): int
    requires i < |b|
  {
    b[i] as int - 0x80
  }

  /** The first scalar of an encoded text, read back from its bytes. */
  function First(b: seq<byte>): int {
    if b == [] then -1
    else
      var lead := b[0] as int;
      if lead < 0x80 then lead
      else if lead < 0xE0 && |b| >= 2 then (lead - 0xC0) * 64 + Tail(b, 1)
      else if lead < 0xF0 && |b| >= 3 then (lead - 0xE0) * 4096 + Tail(b, 1) * 64 + Tail(b, 2)
      else if |b| >= 4 then (lead - 0xF0) * 262144 + Tail(b, 1) * 4096 + Tail(b, 2) * 64 + Tail(b, 3)
      else -1
  }

  lemma FirstOf(c: Scalar, rest: seq<byte>)
    ensures First(Utf8Of(c) + rest) == c
  {
    var b := Utf8Of(c) + rest;
    assert forall i | 0 <= i < |Utf8Of(c)| :: b[i] == Utf8Of(c)[i];
    Sextets(c);
  }

  /** A scalar is the sum of its groups of six bits. */
  lemma Sextets(c: nat)
    ensures c == c / 64 * 64 + c % 64
    ensures c / 64 == c / 4096 * 64 + c / 64 % 64
    ensures c / 4096 == c / 262144 * 64 + c / 4096 % 64
  {
  }

  lemma {:induction false} Utf8Injective(s: Name, t: Name)
    requires Utf8(s) == Utf8(t)
    ensures s == t
    decreases |s|
  {
    if s != [] && t != [] {
      FirstOf(s[0], Utf8(s[1..]));
      FirstOf(t[0], Utf8(t[1..]));
      assert Utf8(s)[|Utf8Of(s[0])|..] == Utf8(s[1..]);
      assert Utf8(t)[|Utf8Of(t[0])|..] == Utf8(t[1..]);
      Utf8Injective(s[1..], t[1..]);
    }
  }

  /** A name without NUL is encoded without NUL. */
  lemma {:induction false} NoNul(s: Name)
    requires 0 !in s
    ensures 0 !in Utf8(s)
  {
    if s != [] { NoNul(s[1..]); }
  }

  // ---------------------------------------------------------------- the order

  function Sign(n: int): int {
    if n < 0 then -1 else if n > 0 then 1 else 0
  }

  /** Unsigned byte order; a beginning comes first. */
  function Compare(a: seq<byte>, b: seq<byte>): (r: int)
    ensures -1 <= r <= 1
  {
    if a == [] || b == [] then Sign(|a| - |b|)
    else if a[0] != b[0] then Sign(a[0] as int - b[0] as int)
    else Compare(a[1..], b[1..])
  }

  /** `compareUtf8`: the loop over the common length. */
  method CompareUtf8(left: Name, right: Name) returns (r: int)
    ensures Sign(r) == Compare(Utf8(left), Utf8(right))
  {
    var a, b := Utf8(left), Utf8(right);
    var length := Min(|a|, |b|);
    var index := 0;
    while index < length
      invariant index <= length && Compare(a[index..], b[index..]) == Compare(a, b)
    {
      if a[index] != b[index] { return a[index] as int - b[index] as int; }
      assert a[index..][1..] == a[index + 1..] && b[index..][1..] == b[index + 1..];
      index := index + 1;
    }
    r := |a| - |b|;
  }

  lemma {:induction false} CompareReverses(a: seq<byte>, b: seq<byte>)
    ensures Compare(b, a) == -Compare(a, b)
    decreases |a|
  {
    if a != [] && b != [] && a[0] == b[0] { CompareReverses(a[1..], b[1..]); }
  }

  lemma {:induction false} CompareEqual(a: seq<byte>, b: seq<byte>)
    ensures Compare(a, b) == 0 <==> a == b
    decreases |a|
  {
    if a != [] && b != [] && a[0] == b[0] {
      CompareEqual(a[1..], b[1..]);
      assert a == [a[0]] + a[1..] && b == [b[0]] + b[1..];
    }
  }

  lemma {:induction false} CompareTransitive(a: seq<byte>, b: seq<byte>, c: seq<byte>)
    requires Compare(a, b) <= 0 && Compare(b, c) <= 0
    ensures Compare(a, c) <= 0
    decreases |a|
  {
    if a != [] && b != [] && c != [] && a[0] == b[0] == c[0] { CompareTransitive(a[1..], b[1..], c[1..]); }
  }

  /** `x` comes before `y` by code points: it is a beginning of `y`, or smaller where they first differ. */
  ghost predicate Before(x: Name, y: Name) {
    exists k | 0 <= k <= |x| && k <= |y| && x[..k] == y[..k] ::
      k < |y| && (k == |x| || x[k] < y[k])
  }

  lemma {:induction false} SmallerAt(a: seq<byte>, b: seq<byte>, k: nat)
    requires k < |a| && k < |b| && a[..k] == b[..k] && a[k] < b[k]
    ensures Compare(a, b) == -1
    decreases k
  {
    if k > 0 {
      assert a[0] == a[..k][0] && b[0] == b[..k][0];
      assert a[1..][..k - 1] == a[..k][1..] && b[1..][..k - 1] == b[..k][1..];
      SmallerAt(a[1..], b[1..], k - 1);
    }
  }

  lemma {:induction false} CompareCommon(p: seq<byte>, a: seq<byte>, b: seq<byte>)
    ensures Compare(p + a, p + b) == Compare(a, b)
    decreases |p|
  {
    if p == [] {
      assert p + a == a && p + b == b;
    } else {
      assert (p + a)[1..] == p[1..] + a && (p + b)[1..] == p[1..] + b;
      CompareCommon(p[1..], a, b);
    }
  }

  /** The first of two numbers in groups of six bits decides, unless it is the same. */
  lemma HighDecides(c: nat, d: nat, base: nat)
    requires c < d && base in {64, 4096, 262144}
    ensures c / base < d / base || (c / base == d / base && c % base < d % base)
  {
  }

  predicate DiffersAt(a: seq<byte>, b: seq<byte>, k: nat) {
    k < |a| && k < |b| && a[..k] == b[..k] && a[k] < b[k]
  }

  lemma TwoBytes(c: Scalar, d: Scalar) returns (k: nat)
    requires 0x80 <= c < d < 0x800
    ensures DiffersAt(Utf8Of(c), Utf8Of(d), k)
  {
    HighDecides(c, d, 64);
    k := if c / 64 < d / 64 then 0 else 1;
  }

  lemma ThreeBytes(c: Scalar, d: Scalar) returns (k: nat)
    requires 0x800 <= c < d < 0x10000
    ensures DiffersAt(Utf8Of(c), Utf8Of(d), k)
  {
    Sextets(c);
    Sextets(d);
    k := if c / 4096 < d / 4096 then 0 else if c / 64 < d / 64 then 1 else 2;
  }

  lemma FourBytes(c: Scalar, d: Scalar) returns (k: nat)
    requires 0x10000 <= c < d
    ensures DiffersAt(Utf8Of(c), Utf8Of(d), k)
  {
    Sextets(c);
    Sextets(d);
    k := if c / 262144 < d / 262144 then 0 else if c / 4096 < d / 4096 then 1 else if c / 64 < d / 64 then 2 else 3;
  }

  /** Where the encodings of two scalars first differ, the smaller scalar has the smaller byte. */
  lemma FirstDifference(c: Scalar, d: Scalar) returns (k: nat)
    requires c < d
    ensures DiffersAt(Utf8Of(c), Utf8Of(d), k)
  {
    if 0x80 <= c && d < 0x800 {
      k := TwoBytes(c, d);
    } else if 0x800 <= c && d < 0x10000 {
      k := ThreeBytes(c, d);
    } else if 0x10000 <= c {
      k := FourBytes(c, d);
    } else {
      k := 0;
    }
  }

  lemma SmallerScalar(c: Scalar, d: Scalar, a: seq<byte>, b: seq<byte>)
    requires c < d
    ensures Compare(Utf8Of(c) + a, Utf8Of(d) + b) == -1
  {
    var k := FirstDifference(c, d);
    var x, y := Utf8Of(c) + a, Utf8Of(d) + b;
    assert x[..k] == Utf8Of(c)[..k] && y[..k] == Utf8Of(d)[..k];
    SmallerAt(x, y, k);
  }

  lemma BeforeInTails(x: Name, y: Name)
    requires x != [] && y != [] && x[0] == y[0]
    ensures Before(x, y) <==> Before(x[1..], y[1..])
  {
    if Before(x, y) {
      var k :| 0 <= k <= |x| && k <= |y| && x[..k] == y[..k] && k < |y| && (k == |x| || x[k] < y[k]);
      assert k > 0;
      assert x[1..][..k - 1] == x[..k][1..] && y[1..][..k - 1] == y[..k][1..];
    }
    if Before(x[1..], y[1..]) {
      var v, w := x[1..], y[1..];
      var k :| 0 <= k <= |v| && k <= |w| && v[..k] == w[..k] && k < |w| && (k == |v| || v[k] < w[k]);
      assert x[..k + 1] == [x[0]] + v[..k] && y[..k + 1] == [y[0]] + w[..k];
    }
  }

  /** The order of `compareUtf8` is the order of the code points, one after the other. */
  lemma {:induction false} CompareIsCodePointOrder(x: Name, y: Name)
    ensures Compare(Utf8(x), Utf8(y)) == -1 <==> Before(x, y)
    decreases |x|
  {
    if x == [] || y == [] {
      assert x[..0] == y[..0];
    } else if x[0] == y[0] {
      CompareCommon(Utf8Of(x[0]), Utf8(x[1..]), Utf8(y[1..]));
      BeforeInTails(x, y);
      CompareIsCodePointOrder(x[1..], y[1..]);
    } else if x[0] < y[0] {
      SmallerScalar(x[0], y[0], Utf8(x[1..]), Utf8(y[1..]));
      assert x[..0] == y[..0];
    } else {
      SmallerScalar(y[0], x[0], Utf8(y[1..]), Utf8(x[1..]));
      CompareReverses(Utf8(y), Utf8(x));
      NotBefore(x, y);
    }
  }

  lemma NotBefore(x: Name, y: Name)
    requires x != [] && y != [] && x[0] > y[0]
    ensures !Before(x, y)
  {
    if Before(x, y) {
      var k :| 0 <= k <= |x| && k <= |y| && x[..k] == y[..k] && k < |y| && (k == |x| || x[k] < y[k]);
      SameFirst(x, y, k);
    }
  }

  lemma SameFirst(x: Name, y: Name, k: nat)
    requires k <= |x| && k <= |y| && x[..k] == y[..k]
    ensures k > 0 ==> x[0] == y[0]
  {
    if k > 0 { assert x[..k][0] == x[0] && y[..k][0] == y[0]; }
  }

  /** `compareUtf8` is a total order on names: antisymmetric up to equality, transitive, and never undecided. */
  lemma CompareIsATotalOrder(x: Name, y: Name, z: Name)
    ensures Compare(Utf8(y), Utf8(x)) == -Compare(Utf8(x), Utf8(y))
    ensures Compare(Utf8(x), Utf8(y)) == 0 <==> x == y
    ensures Compare(Utf8(x), Utf8(y)) <= 0 && Compare(Utf8(y), Utf8(z)) <= 0 ==> Compare(Utf8(x), Utf8(z)) <= 0
  {
    CompareReverses(Utf8(x), Utf8(y));
    CompareEqual(Utf8(x), Utf8(y));
    if Utf8(x) == Utf8(y) { Utf8Injective(x, y); }
    if Compare(Utf8(x), Utf8(y)) <= 0 && Compare(Utf8(y), Utf8(z)) <= 0 {
      CompareTransitive(Utf8(x), Utf8(y), Utf8(z));
    }
  }

  // ---------------------------------------------------------------- the manifest

  datatype File = File(path: Name, sha256: Name, size: nat, executable: bool)

  function Digits(n: nat): Name {
    if n < 10 then [0x30 + n] else Digits(n / 10) + [0x30 + n % 10]
  }

  function FlagName(b: bool): Name {
    if b then [0x74, 0x72, 0x75, 0x65] else [0x66, 0x61, 0x6C, 0x73, 0x65]
  }

  predicate Sorted(files: seq<File>) {
    forall i, j | 0 <= i < j < |files| :: Compare(Utf8(files[i].path), Utf8(files[j].path)) <= 0
  }

  /** A stable insertion into a sorted list, and the sort that `Array.prototype.sort` amounts to. */
  function Insert(f: File, files: seq<File>): seq<File> {
    if files == [] || Compare(Utf8(f.path), Utf8(files[0].path)) < 0 then [f] + files
        else [files[0]] + Insert(f, files[1..])
  }

  function Sort(files: seq<File>): seq<File> {
    if files == [] then [] else Insert(files[|files| - 1], Sort(files[..|files| - 1]))
  }

  /** A field and the NUL that ends it. */
  function Field(s: Name): seq<byte> {
    Utf8(s) + [0]
  }

  /** What follows the path and the hash of a record. */
  function SizeAndFlag(f: File): seq<byte> {
    Field(Digits(f.size)) + Field(FlagName(f.executable))
  }

  function Record(f: File): seq<byte> {
    Field(f.path) + (Field(f.sha256) + SizeAndFlag(f))
  }

  function Records(files: seq<File>): seq<byte> {
    if files == [] then [] else Record(files[0]) + Records(files[1..])
  }

  const SCHEMA: Name := [0x72, 0x6F, 0x6F, 0x6D, 0x73, 0x2D, 0x73, 0x6B, 0x69, 0x6C, 0x6C, 0x2D, 0x73, 0x6E, 0x61,
      0x70, 0x73, 0x68, 0x6F, 0x74, 0x2D, 0x76, 0x31]

  /** `canonicalSkillSnapshotManifest`. */
  function CanonicalManifest(files: seq<File>): seq<byte> {
    Field(SCHEMA) + Records(Sort(files))
  }

  predicate Plain(f: File) {
    0 !in f.path && 0 !in f.sha256
  }

  // ---------------------------------------------------------------- reading it back

  /** A text is cut at its first NUL in one way only. */
  lemma FirstNul(a: seq<byte>, x: seq<byte>, b: seq<byte>, y: seq<byte>)
    requires 0 !in a && 0 !in b && a + [0] + x == b + [0] + y
    ensures a == b && x == y
  {
    var s := a + [0] + x;
    assert s[|a|] == 0 && s[|b|] == 0;
    assert forall i | 0 <= i < |a| :: s[i] == a[i];
    assert forall i | 0 <= i < |b| :: s[i] == b[i];
    assert |a| == |b|;
    assert a == s[..|a|] && b == s[..|b|];
    assert x == s[|a| + 1..] && y == s[|b| + 1..];
  }

  lemma FieldsAgree(s: Name, x: seq<byte>, t: Name, y: seq<byte>)
    requires 0 !in s && 0 !in t && Field(s) + x == Field(t) + y
    ensures s == t && x == y
  {
    NoNul(s);
    NoNul(t);
    FirstNul(Utf8(s), x, Utf8(t), y);
    Utf8Injective(s, t);
  }

  function DigitsValue(s: Name): int {
    if s == [] then 0 else 10 * DigitsValue(s[..|s| - 1]) + (s[|s| - 1] as int - 0x30)
  }

  lemma {:induction false} DigitsReadBack(n: nat)
    ensures DigitsValue(Digits(n)) == n && 0 !in Digits(n)
  {
    if n >= 10 {
      DigitsReadBack(n / 10);
      assert Digits(n)[..|Digits(n)| - 1] == Digits(n / 10);
    } else {
      assert [0x30 + n][..0] == [];
    }
  }

  lemma SizeAndFlagAgree(f: File, x: seq<byte>, g: File, y: seq<byte>)
    requires SizeAndFlag(f) + x == SizeAndFlag(g) + y
    ensures f.size == g.size && f.executable == g.executable && x == y
  {
    var f1, g1 := Field(FlagName(f.executable)) + x, Field(FlagName(g.executable)) + y;
    assert SizeAndFlag(f) + x == Field(Digits(f.size)) + f1 && SizeAndFlag(g) + y == Field(Digits(g.size)) + g1;
    DigitsReadBack(f.size);
    DigitsReadBack(g.size);
    FieldsAgree(Digits(f.size), f1, Digits(g.size), g1);
    FieldsAgree(FlagName(f.executable), x, FlagName(g.executable), y);
    assert FlagName(f.executable)[0] == FlagName(g.executable)[0];
  }

  lemma Regroup(p: seq<byte>, q: seq<byte>, r: seq<byte>, x: seq<byte>)
    ensures p + (q + r) + x == p + (q + (r + x))
  {
    assert p + (q + r) + x == p + ((q + r) + x);
    assert (q + r) + x == q + (r + x);
  }

  lemma RecordsAgree(f: File, x: seq<byte>, g: File, y: seq<byte>)
    requires Plain(f) && Plain(g) && Record(f) + x == Record(g) + y
    ensures f == g && x == y
  {
    var f2, g2 := SizeAndFlag(f) + x, SizeAndFlag(g) + y;
    var f1, g1 := Field(f.sha256) + f2, Field(g.sha256) + g2;
    Regroup(Field(f.path), Field(f.sha256), SizeAndFlag(f), x);
    Regroup(Field(g.path), Field(g.sha256), SizeAndFlag(g), y);
    FieldsAgree(f.path, f1, g.path, g1);
    FieldsAgree(f.sha256, f2, g.sha256, g2);
    SizeAndFlagAgree(f, x, g, y);
  }

  lemma RecordsEmpty(files: seq<File>)
    ensures Records(files) == [] <==> files == []
  {
    if files != [] { assert |Field(files[0].path)| > 0; }
  }

  lemma {:induction false} RecordListsAgree(files: seq<File>, others: seq<File>)
    requires (forall i | 0 <= i < |files| :: Plain(files[i])) && (forall i | 0 <= i < |others| :: Plain(others[i]))
    requires Records(files) == Records(others)
    ensures files == others
    decreases |files|
  {
    RecordsEmpty(files);
    RecordsEmpty(others);
    if files != [] {
      RecordsAgree(files[0], Records(files[1..]), others[0], Records(others[1..]));
      RecordListsAgree(files[1..], others[1..]);
      assert files == [files[0]] + files[1..] && others == [others[0]] + others[1..];
    }
  }

  // ---------------------------------------------------------------- sorting

  lemma {:induction false} InsertAdds(f: File, files: seq<File>)
    ensures multiset(Insert(f, files)) == multiset(files) + multiset{f}
    decreases |files|
  {
    if files != [] && Compare(Utf8(f.path), Utf8(files[0].path)) >= 0 {
      assert files == [files[0]] + files[1..];
      InsertAdds(f, files[1..]);
    }
  }

  lemma {:induction false} InsertSorts(f: File, files: seq<File>)
    requires Sorted(files)
    ensures Sorted(Insert(f, files))
    decreases |files|
  {
    if files == [] {
    } else if Compare(Utf8(f.path), Utf8(files[0].path)) < 0 {
      HeadIsLeast(f, files);
    } else {
      InsertSorts(f, files[1..]);
      InsertAdds(f, files[1..]);
      CompareReverses(Utf8(f.path), Utf8(files[0].path));
      HeadStays(f, files);
    }
  }

  lemma HeadIsLeast(f: File, files: seq<File>)
    requires files != [] && Sorted(files) && Compare(Utf8(f.path), Utf8(files[0].path)) <= 0
    ensures Sorted([f] + files)
  {
    forall j | 0 <= j < |files| ensures Compare(Utf8(f.path), Utf8(files[j].path)) <= 0 {
      CompareEqual(Utf8(files[0].path), Utf8(files[0].path));
      CompareTransitive(Utf8(f.path), Utf8(files[0].path), Utf8(files[j].path));
    }
  }

  lemma HeadStays(f: File, files: seq<File>)
    requires files != [] && Sorted(files) && Sorted(Insert(f, files[1..]))
    requires Compare(Utf8(files[0].path), Utf8(f.path)) <= 0
    requires multiset(Insert(f, files[1..])) == multiset(files[1..]) + multiset{f}
    ensures Sorted([files[0]] + Insert(f, files[1..]))
  {
    var rest := Insert(f, files[1..]);
    forall j | 0 <= j < |rest| ensures Compare(Utf8(files[0].path), Utf8(rest[j].path)) <= 0 {
      OldOrNew(rest, files[1..], f, j);
      if rest[j] != f {
        var k :| 0 <= k < |files[1..]| && files[1..][k] == rest[j];
        assert files[k + 1] == rest[j];
      }
    }
    LeastInFront(files[0], rest);
  }

  lemma OldOrNew(rest: seq<File>, files: seq<File>, f: File, j: nat)
    requires j < |rest| && multiset(rest) == multiset(files) + multiset{f}
    ensures rest[j] == f || rest[j] in files
  {
    assert rest[j] in multiset(rest);
  }

  lemma LeastInFront(least: File, rest: seq<File>)
    requires Sorted(rest) && forall j | 0 <= j < |rest| :: Compare(Utf8(least.path), Utf8(rest[j].path)) <= 0
    ensures Sorted([least] + rest)
  {
  }

  lemma LastFile(files: seq<File>)
    requires files != []
    ensures multiset(files) == multiset(files[..|files| - 1]) + multiset{files[|files| - 1]}
  {
    assert files == files[..|files| - 1] + [files[|files| - 1]];
  }

  lemma {:induction false} SortKeeps(files: seq<File>)
    ensures multiset(Sort(files)) == multiset(files) && Sorted(Sort(files))
    decreases |files|
  {
    if files != [] {
      var init, last := files[..|files| - 1], files[|files| - 1];
      SortKeeps(init);
      LastFile(files);
      InsertAdds(last, Sort(init));
      InsertSorts(last, Sort(init));
    }
  }

  predicate DistinctPaths(files: seq<File>) {
    forall i, j | 0 <= i < j < |files| :: files[i].path != files[j].path
  }

  ghost predicate DistinctIn(files: multiset<File>) {
    forall f, g | f in files && g in files && f.path == g.path :: f == g && files[f] == 1
  }

  lemma DistinctAsMultiset(files: seq<File>)
    requires DistinctPaths(files)
    ensures DistinctIn(multiset(files))
  {
    forall f, g | f in multiset(files) && g in multiset(files) && f.path == g.path ensures f == g
        && multiset(files)[f] == 1 {
      var i :| 0 <= i < |files| && files[i] == f;
      var j :| 0 <= j < |files| && files[j] == g;
      assert i == j;
      assert files == files[..i] + [f] + files[i + 1..];
      assert f !in files[..i] && f !in files[i + 1..];
    }
  }

  lemma TailFiles(files: seq<File>)
    requires files != []
    ensures multiset(files[1..]) == multiset(files) - multiset{files[0]}
  {
    assert files == [files[0]] + files[1..];
  }

  lemma TwiceCounted(files: seq<File>, i: nat, j: nat)
    requires i < j < |files| && files[i] == files[j]
    ensures multiset(files)[files[i]] >= 2
  {
    assert files == files[..j] + [files[j]] + files[j + 1..];
    assert files[..j][i] == files[i] && files[i] in multiset(files[..j]);
  }

  lemma DistinctAsSequence(files: seq<File>)
    requires DistinctIn(multiset(files))
    ensures DistinctPaths(files)
  {
    forall i, j | 0 <= i < j < |files| ensures files[i].path != files[j].path {
      assert files[i] in multiset(files) && files[j] in multiset(files);
      if files[i] == files[j] { TwiceCounted(files, i, j); }
    }
  }

  lemma SortedTail(files: seq<File>)
    requires files != [] && Sorted(files) && DistinctPaths(files)
    ensures Sorted(files[1..]) && DistinctPaths(files[1..]) && files == [files[0]] + files[1..]
  {
  }

  /** Two sorted lists of the same files are the same list, if no two files share a path. */
  lemma {:induction false} SortedListsAgree(files: seq<File>, others: seq<File>)
    requires Sorted(files) && Sorted(others) && DistinctPaths(files) && DistinctPaths(others)
    requires multiset(files) == multiset(others)
    ensures files == others
    decreases |files|
  {
    assert |multiset(files)| == |files| && |multiset(others)| == |others|;
    if files != [] {
      LeastIsFirst(files, others);
      TailFiles(files);
      TailFiles(others);
      SortedTail(files);
      SortedTail(others);
      SortedListsAgree(files[1..], others[1..]);
    }
  }

  lemma LeastIsFirst(files: seq<File>, others: seq<File>)
    requires files != [] && others != [] && Sorted(files) && Sorted(others) && DistinctPaths(files)
    requires multiset(files) == multiset(others)
    ensures files[0] == others[0]
  {
    assert files[0] in multiset(others) && others[0] in multiset(files);
    var i :| 0 <= i < |others| && others[i] == files[0];
    var j :| 0 <= j < |files| && files[j] == others[0];
    var a, b := Utf8(files[0].path), Utf8(others[0].path);
    CompareEqual(a, a);
    CompareEqual(b, b);
    assert Compare(b, a) <= 0 && Compare(a, b) <= 0;
    CompareReverses(a, b);
    CompareEqual(a, b);
    Utf8Injective(files[0].path, others[0].path);
  }

  /**
   The canonical manifest decides equality. For lists of files with distinct NUL-free paths and
   NUL-free hashes, two manifests are the same bytes exactly when one list is a permutation of the other.
   */
  lemma ManifestDecidesEquality(files: seq<File>, others: seq<File>)
    requires (forall i | 0 <= i < |files| :: Plain(files[i])) && (forall i | 0 <= i < |others| :: Plain(others[i]))
    requires DistinctPaths(files) && DistinctPaths(others)
    ensures CanonicalManifest(files) == CanonicalManifest(others) <==> multiset(files) == multiset(others)
  {
    SortKeeps(files);
    SortKeeps(others);
    if CanonicalManifest(files) == CanonicalManifest(others) {
      var n := |Field(SCHEMA)|;
      assert CanonicalManifest(files)[n..] == Records(Sort(files))
          && CanonicalManifest(others)[n..] == Records(Sort(others));
      PlainWhenSorted(files);
      PlainWhenSorted(others);
      RecordListsAgree(Sort(files), Sort(others));
    }
    if multiset(files) == multiset(others) {
      DistinctWhenSorted(files);
      DistinctWhenSorted(others);
      SortedListsAgree(Sort(files), Sort(others));
    }
  }

  lemma DistinctWhenSorted(files: seq<File>)
    requires DistinctPaths(files)
    ensures DistinctPaths(Sort(files))
  {
    SortKeeps(files);
    DistinctAsMultiset(files);
    DistinctAsSequence(Sort(files));
  }

  lemma PlainWhenSorted(files: seq<File>)
    requires forall i | 0 <= i < |files| :: Plain(files[i])
    ensures forall i | 0 <= i < |Sort(files)| :: Plain(Sort(files)[i])
  {
    SortKeeps(files);
    forall i | 0 <= i < |Sort(files)| ensures Plain(Sort(files)[i]) {
      assert Sort(files)[i] in multiset(Sort(files));
      assert Sort(files)[i] in files;
    }
  }
}
