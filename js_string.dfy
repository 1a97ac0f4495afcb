/** JavaScript strings as the client code sees them: sequences of UTF-16 code
    units, compared code unit by code unit, with the whitespace that
    `String.prototype.trim` removes. */
module JsString {

  /** One UTF-16 code unit, the element type of a JavaScript string. */
  type CodeUnit = u: int | 0 <= u < 0x1_0000

  predicate IsHighSurrogate(u: int) { 0xD800 <= u < 0xDC00 }
  predicate IsLowSurrogate(u: int) { 0xDC00 <= u < 0xE000 }

  /** The UTF-16 encoding of one Unicode scalar value: one code unit inside
      the Basic Multilingual Plane, a surrogate pair outside it. */
  function Utf16(c: char): (r: seq<CodeUnit>)
    ensures 1 <= |r| <= 2
    ensures |r| == 1 <==> c as int < 0x1_0000
    ensures |r| == 1 ==> !IsHighSurrogate(r[0]) && !IsLowSurrogate(r[0])
    ensures |r| == 2 ==> IsHighSurrogate(r[0]) && IsLowSurrogate(r[1])
  {
    var n := c as int;
    if n < 0x1_0000 then [n]
    else [0xD800 + (n - 0x1_0000) / 0x400, 0xDC00 + (n - 0x1_0000) % 0x400]
  }

  /** Inverse of Utf16 on one encoded character. */
  function DecodeUnits(r: seq<CodeUnit>): int
    requires 1 <= |r| <= 2
  {
    if |r| == 1 then r[0] as int
    else 0x1_0000 + (r[0] as int - 0xD800) * 0x400 + (r[1] as int - 0xDC00)
  }

  lemma Utf16RoundTrip(c: char)
    ensures DecodeUnits(Utf16(c)) == c as int
  {
  }

  /** The JavaScript view of a string: its UTF-16 code units. */
  function CodeUnits(s: string): (r: seq<CodeUnit>)
    ensures |s| <= |r| <= 2 * |s|
    ensures s == [] <==> r == []
  {
    if s == [] then [] else Utf16(s[0]) + CodeUnits(s[1..])
  }

  /** Distinct strings have distinct code-unit sequences, so comparing the
      JavaScript view of two strings compares the strings themselves. */
  lemma {:induction false} CodeUnitsInjective(a: string, b: string)
    requires CodeUnits(a) == CodeUnits(b)
    ensures a == b
  {
    if a != [] && b != [] {
      var ua, ub := Utf16(a[0]), Utf16(b[0]);
      assert CodeUnits(a) == ua + CodeUnits(a[1..]);
      assert CodeUnits(b) == ub + CodeUnits(b[1..]);
      assert ua[0] == CodeUnits(a)[0] == CodeUnits(b)[0] == ub[0];
      assert |ua| == |ub| by {
        assert |ua| == 2 <==> IsHighSurrogate(ua[0]);
        assert |ub| == 2 <==> IsHighSurrogate(ub[0]);
      }
      assert ua == CodeUnits(a)[..|ua|] == CodeUnits(b)[..|ub|] == ub;
      Utf16RoundTrip(a[0]);
      Utf16RoundTrip(b[0]);
      assert a[0] == b[0];
      assert CodeUnits(a[1..]) == CodeUnits(a)[|ua|..] == CodeUnits(b)[|ub|..] == CodeUnits(b[1..]);
      CodeUnitsInjective(a[1..], b[1..]);
      assert a == [a[0]] + a[1..];
      assert b == [b[0]] + b[1..];
    }
  }

  /** JavaScript's `<` on strings: lexicographic order on code units, where
      a proper prefix is smaller. */
  predicate LexLess(a: seq<CodeUnit>, b: seq<CodeUnit>)
  {
    if a == [] then b != []
    else if b == [] then false
    else if a[0] != b[0] then a[0] < b[0]
    else LexLess(a[1..], b[1..])
  }

  lemma {:induction false} LexLessIrreflexive(a: seq<CodeUnit>)
    ensures !LexLess(a, a)
  {
    if a != [] { LexLessIrreflexive(a[1..]); }
  }

  /** For two different code-unit sequences exactly one is below the other. */
  lemma {:induction false} LexLessTrichotomy(a: seq<CodeUnit>, b: seq<CodeUnit>)
    requires a != b
    ensures LexLess(a, b) != LexLess(b, a)
  {
    if a != [] && b != [] && a[0] == b[0] {
      assert a == [a[0]] + a[1..];
      assert b == [b[0]] + b[1..];
      LexLessTrichotomy(a[1..], b[1..]);
    }
  }

  /** `a < b` for two JavaScript strings. */
  predicate JsLess(a: string, b: string)
  {
    LexLess(CodeUnits(a), CodeUnits(b))
  }

  /** For two different strings exactly one of `a < b` and `b < a` holds;
      for equal strings neither does. */
  lemma JsLessTrichotomy(a: string, b: string)
    ensures a == b ==> !JsLess(a, b)
    ensures a != b ==> JsLess(a, b) != JsLess(b, a)
  {
    if a == b {
      LexLessIrreflexive(CodeUnits(a));
    } else {
      if CodeUnits(a) == CodeUnits(b) { CodeUnitsInjective(a, b); }
      LexLessTrichotomy(CodeUnits(a), CodeUnits(b));
    }
  }

  /** The code units that ECMAScript counts as WhiteSpace or LineTerminator,
      which `trim` strips from both ends. */
  predicate IsJsWhitespace(u: CodeUnit)
  {
    || u == 0x09 || u == 0x0A || u == 0x0B || u == 0x0C || u == 0x0D
    || u == 0x20 || u == 0xA0 || u == 0x1680
    || (0x2000 <= u <= 0x200A)
    || u == 0x2028 || u == 0x2029 || u == 0x202F || u == 0x205F
    || u == 0x3000 || u == 0xFEFF
  }

  /** Strips leading whitespace: the result is the suffix of `s` that starts
      at its first non-whitespace code unit. */
  function TrimStart(s: seq<CodeUnit>): (r: seq<CodeUnit>)
    ensures |r| <= |s| && r == s[|s| - |r|..]
    ensures forall k :: 0 <= k < |s| - |r| ==> IsJsWhitespace(s[k])
    ensures r == [] || !IsJsWhitespace(r[0])
  {
    if s != [] && IsJsWhitespace(s[0]) then TrimStart(s[1..]) else s
  }

  /** Strips trailing whitespace: the result is the prefix of `s` that ends
      at its last non-whitespace code unit. */
  function TrimEnd(s: seq<CodeUnit>): (r: seq<CodeUnit>)
    ensures |r| <= |s| && r == s[..|r|]
    ensures forall k :: |r| <= k < |s| ==> IsJsWhitespace(s[k])
    ensures r == [] || !IsJsWhitespace(r[|r| - 1])
  {
    if s != [] && IsJsWhitespace(s[|s| - 1]) then TrimEnd(s[..|s| - 1]) else s
  }

  /** `String.prototype.trim`. */
  function Trim(s: seq<CodeUnit>): seq<CodeUnit>
  {
    TrimEnd(TrimStart(s))
  }

  /** `trim` keeps exactly the slice between the first and the last
      non-whitespace code unit; it is empty exactly when `s` is all
      whitespace. */
  lemma TrimSpec(s: seq<CodeUnit>)
    ensures Trim(s) == [] <==> forall k :: 0 <= k < |s| ==> IsJsWhitespace(s[k])
    ensures Trim(s) != [] ==> Trim(s)[0] == TrimStart(s)[0]
    ensures Trim(s) != [] ==> !IsJsWhitespace(Trim(s)[0]) && !IsJsWhitespace(Trim(s)[|Trim(s)| - 1])
  {
  }
}
