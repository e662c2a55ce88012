/** String helpers shared by the routes and the UI: prefixes, JavaScript's
    `||` fallback on strings, `slice`/`substring` clamping, the
    "first n characters then ..." shortening, and decimal rendering of
    integers (`Number.prototype.toString()` on integral values). */
module Text {
  import opened Optional

  const Ellipsis: string := "..."

  predicate IsPrefix<T(==)>(p: seq<T>, s: seq<T>) {
    |p| <= |s| && s[..|p|] == p
  }

  /** `a` is `b` with some elements left out, the rest in order. */
  predicate IsSubsequence<T(==)>(a: seq<T>, b: seq<T>)
    decreases |b|
  {
    if a == [] then true
    else if b == [] then false
    else (a[0] == b[0] && IsSubsequence(a[1..], b[1..])) || IsSubsequence(a, b[1..])
  }

  predicate StartsWith(s: string, p: string) {
    IsPrefix(p, s)
  }

  predicate EndsWith(s: string, q: string) {
    |q| <= |s| && s[|s| - |q|..] == q
  }

  /** JavaScript truthiness of an optional string: present and non-empty. */
  predicate Truthy(o: Option<string>) {
    o.Some? && o.value != ""
  }

  /** `o || fallback` for an optional string. */
  function Or(o: Option<string>, fallback: string): (r: string)
    ensures Truthy(o) ==> r == o.value
    ensures !Truthy(o) ==> r == fallback
  {
    if Truthy(o) then o.value else fallback
  }

  function Max0(n: int): nat {
    if n < 0 then 0 else n
  }

  /** Where `s.slice(0, end)` stops: a negative `end` counts from the back. */
  function SliceEnd(len: nat, end: int): (k: nat)
    ensures k <= len
    ensures 0 <= end <= len ==> k == end
    ensures end > len ==> k == len
    ensures end < 0 ==> k == Max0(len + end)
  {
    if end < 0 then Max0(len + end)
    else if end > len then len
    else end
  }

  /** `s.slice(0, end)`. */
  function Slice<T>(s: seq<T>, end: int): (r: seq<T>)
    ensures IsPrefix(r, s)
  {
    s[..SliceEnd(|s|, end)]
  }

  /** `s.length > n ? s.substring(0, n) + "..." : s`. `substring` clamps a
      negative bound to 0. */
  function Ellipsize(s: string, n: int): (r: string)
    ensures |s| <= n ==> r == s
    ensures |s| > n ==> EndsWith(r, Ellipsis) && |r| == Max0(n) + 3
    ensures |s| > n ==> IsPrefix(r[..|r| - 3], s)
    ensures |r| <= Max0(n) + 3
  {
    if |s| > n then s[..Max0(n)] + Ellipsis else s
  }

  /** Shortening twice is shortening once: the shortened text is longer than
      the bound, so it is cut at the same place and gets the same ellipsis. */
  lemma EllipsizeIdempotent(s: string, n: int)
    requires n >= 0
    ensures Ellipsize(Ellipsize(s, n), n) == Ellipsize(s, n)
  {
    if |s| > n {
      var r := Ellipsize(s, n);
      assert r[..n] == s[..n];
    }
  }

  /** What shortening can produce: a prefix of the input, possibly followed by
      the ellipsis, never longer than the bound plus three. */
  lemma EllipsizeIsPrefixPlusEllipsis(s: string, n: int)
    ensures var r := Ellipsize(s, n);
      exists k :: 0 <= k <= |s| && k <= Max0(n) && (r == s[..k] || r == s[..k] + Ellipsis)
  {
    var r := Ellipsize(s, n);
    if |s| > n {
      assert r == s[..Max0(n)] + Ellipsis;
    } else {
      assert r == s[..|s|];
    }
  }

  // ----- decimal digits -----

  predicate IsDigit(c: char) {
    '0' <= c <= '9'
  }

  predicate AllDigits(s: string) {
    forall i :: 0 <= i < |s| ==> IsDigit(s[i])
  }

  function DigitChar(d: nat): (c: char)
    requires d < 10
    ensures IsDigit(c)
    ensures c as int - '0' as int == d
  {
    (d + '0' as int) as char
  }

  function DigitValue(c: char): (d: nat)
    requires IsDigit(c)
    ensures d < 10
  {
    c as int - '0' as int
  }

  /** Decimal rendering of a natural number, without leading zeros. */
  function NatToString(n: nat): (r: string)
    ensures |r| >= 1
    ensures AllDigits(r)
    ensures r[0] == '0' <==> n == 0
    decreases n
  {
    if n < 10 then [DigitChar(n)]
    else NatToString(n / 10) + [DigitChar(n % 10)]
  }

  /** The value a string of decimal digits denotes. */
  function ParseDigits(s: string): nat
    requires AllDigits(s)
    decreases |s|
  {
    if s == [] then 0
    else ParseDigits(s[..|s| - 1]) * 10 + DigitValue(s[|s| - 1])
  }

  /** Rendering then reading back gives the number: the rendering loses
      nothing. */
  lemma {:induction false} NatToStringRoundTrip(n: nat)
    ensures ParseDigits(NatToString(n)) == n
    decreases n
  {
    if n >= 10 {
      var s := NatToString(n);
      assert s[..|s| - 1] == NatToString(n / 10);
      NatToStringRoundTrip(n / 10);
    }
  }

  /** Different numbers render differently. */
  lemma NatToStringInjective(a: nat, b: nat)
    requires NatToString(a) == NatToString(b)
    ensures a == b
  {
    NatToStringRoundTrip(a);
    NatToStringRoundTrip(b);
  }

  /** `n.toString()` for an integral number. */
  function IntToString(n: int): (r: string)
    ensures |r| >= 1
    ensures n >= 0 ==> r == NatToString(n)
    ensures n < 0 ==> r[0] == '-' && r[1..] == NatToString(-n)
  {
    if n < 0 then "-" + NatToString(-n) else NatToString(n)
  }
}
