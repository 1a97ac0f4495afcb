/** The avatar helpers of the chat client: `colorFromId`, which hashes a
    member id to a hue, and `getFirstWord`, which picks the avatar letter. */
module ChatUtils {
  import opened Wrappers
  import opened JsString

  const TwoTo31: int := 0x8000_0000
  const TwoTo32: int := 0x1_0000_0000

  predicate IsInt32(x: int) { -TwoTo31 <= x < TwoTo31 }

  /** JavaScript's `x | 0` on an integral number: reduction modulo 2^32 into
      the signed 32-bit range. */
  function ToInt32(x: int): (r: int)
    ensures IsInt32(r)
    ensures (x - r) % TwoTo32 == 0
    ensures IsInt32(x) ==> r == x
  {
    var m := x % TwoTo32;
    if m >= TwoTo31 then m - TwoTo32 else m
  }

  /** Two numbers congruent modulo 2^32 have the same `| 0`. */
  lemma ToInt32Congruent(x: int, y: int)
    requires (x - y) % TwoTo32 == 0
    ensures ToInt32(x) == ToInt32(y)
  {
    var q := (x - y) / TwoTo32;
    assert x == y + q * TwoTo32;
    ModOfMultiple(y, q);
  }

  lemma ModOfMultiple(y: int, q: int)
    ensures (y + q * TwoTo32) % TwoTo32 == y % TwoTo32
  {
  }

  /** The rolling hash of `colorFromId` after the code units `id`: it starts
      at 0 and each step is `hash = (hash * 31 + code) | 0`. */
  function Hash(id: seq<CodeUnit>): (h: int)
    ensures IsInt32(h)
  {
    if id == [] then 0 else ToInt32(Hash(id[..|id| - 1]) * 31 + id[|id| - 1])
  }

  /** The same hash without any 32-bit reduction: the polynomial
      sum of code[i] * 31^(n-1-i). */
  function PolyHash(id: seq<CodeUnit>): int
  {
    if id == [] then 0 else PolyHash(id[..|id| - 1]) * 31 + id[|id| - 1]
  }

  /** Reducing at every step gives the same value as reducing the exact
      polynomial hash once at the end: the int32 hash is the low 32 bits of
      the polynomial hash, read as a signed number. */
  lemma {:induction false} HashIsReducedPolyHash(id: seq<CodeUnit>)
    ensures Hash(id) == ToInt32(PolyHash(id))
  {
    if id != [] {
      var init, c := id[..|id| - 1], id[|id| - 1];
      HashIsReducedPolyHash(init);
      var h, p := Hash(init), PolyHash(init);
      // h == ToInt32(p), so h - p is a multiple of 2^32, and so is 31 * (h - p).
      var q := (p - h) / TwoTo32;
      assert p - h == q * TwoTo32;
      assert (h * 31 + c) - (p * 31 + c) == (-31 * q) * TwoTo32;
      ModOfMultiple(0, -31 * q);
      ToInt32Congruent(h * 31 + c, p * 31 + c);
    }
  }

  function Abs(x: int): nat { if x < 0 then -x else x }

  /** The hue `Math.abs(hash) % 360` of an id. */
  function Hue(id: seq<CodeUnit>): (hue: nat)
    ensures hue < 360
  {
    Abs(Hash(id)) % 360
  }

  /** The empty id has hash 0 and so hue 0. */
  lemma EmptyIdHue()
    ensures Hash([]) == 0 && Hue([]) == 0
  {
  }

  /** The decimal digits of a non-negative integer, as a template literal
      prints it. */
  function Decimal(n: nat): (s: string)
    ensures |s| >= 1
    ensures forall k :: 0 <= k < |s| ==> '0' <= s[k] <= '9'
  {
    var d := ['0' + (n % 10) as char];
    if n < 10 then d else Decimal(n / 10) + d
  }

  /** Reads decimal digits back into a number. */
  function ParseDecimal(s: string): int
  {
    if s == [] then 0 else ParseDecimal(s[..|s| - 1]) * 10 + (s[|s| - 1] as int - '0' as int)
  }

  /** The printed hue reads back as the hue: Decimal loses nothing. */
  lemma {:induction false} DecimalRoundTrip(n: nat)
    ensures ParseDecimal(Decimal(n)) == n
  {
    var s := Decimal(n);
    assert s[..|s| - 1] == if n < 10 then [] else Decimal(n / 10);
    if n >= 10 { DecimalRoundTrip(n / 10); }
  }

  /** The CSS colour string `hsl(<hue> 70% 55%)`. */
  function Hsl(hue: nat): string
  {
    "hsl(" + Decimal(hue) + " 70% 55%)"
  }

  /** `colorFromId`: a loop over the code units of `id` updating the 32-bit
      hash, then the hue and the colour string. */
  method ColorFromId(id: seq<CodeUnit>) returns (color: string)
    ensures color == Hsl(Hue(id))
  {
    var hash := 0;
    for i := 0 to |id|
      invariant hash == Hash(id[..i])
    {
      assert id[..i + 1][..i] == id[..i];
      hash := ToInt32(hash * 31 + id[i]);
    }
    assert id[..|id|] == id;
    var hue := Abs(hash) % 360;
    color := "hsl(" + Decimal(hue) + " 70% 55%)";
  }

  /** ASCII `toUpperCase` of one code unit: 'a'..'z' become 'A'..'Z';
      everything else is left as it is. */
  function ToUpperAscii(u: CodeUnit): (r: CodeUnit)
    ensures !(0x61 <= r <= 0x7A)
    ensures 0x41 <= r <= 0x5A <==> (0x41 <= u <= 0x5A || 0x61 <= u <= 0x7A)
  {
    if 0x61 <= u <= 0x7A then u - 0x20 else u
  }

  /** `getFirstWord`: the first code unit of the trimmed name, upper-cased.
      `None` stands for the TypeError the source throws when the trimmed
      name is empty and `s[0]` is undefined. */
  function GetFirstWord(name: seq<CodeUnit>): (r: Option<CodeUnit>)
    ensures r.None? <==> forall k :: 0 <= k < |name| ==> IsJsWhitespace(name[k])
    ensures r.Some? ==> exists i :: 0 <= i < |name| && !IsJsWhitespace(name[i])
                           && (forall k :: 0 <= k < i ==> IsJsWhitespace(name[k]))
                           && r.value == ToUpperAscii(name[i])
  {
    var s := Trim(name);
    TrimSpec(name);
    if s == [] then None
    else
      var i := |name| - |TrimStart(name)|;
      assert name[i] == TrimStart(name)[0];
      Some(ToUpperAscii(s[0]))
  }
}
