/**
 * The PHP built-ins whose exact behaviour the gateway's logic depends on:
 * `empty()` on a string, the `(int)` cast of a number, `round($x, 2)`, and
 * `trim`/`rtrim`. PHP floats are modelled as exact reals, so none of the
 * binary floating-point drift of the running program appears here.
 */
module Php {

  /**
   * `empty($s)` on a string holds for "" and for "0": any string of two or
   * more characters, "00" and " " included, is not empty.
   */
  predicate Empty(s: string): (isEmpty: bool)
    ensures s == [] ==> isEmpty
    ensures isEmpty ==> |s| <= 1
    ensures |s| == 1 ==> (isEmpty <==> s[0] == '0')
  {
    s == "" || s == "0"
  }

  /** `(int) $x` on a finite float: truncation toward zero. */
  function Trunc(x: real): (r: int)
    ensures 0.0 <= x ==> r as real <= x < r as real + 1.0
    ensures x < 0.0 ==> r as real - 1.0 < x <= r as real
  {
    if x >= 0.0 then x.Floor else -((-x).Floor)
  }

  /** The integer PHP's `round($x)` picks: halves go away from zero. */
  function RoundHalfAway(x: real): (r: int)
    ensures 0.0 <= x ==> r as real - 0.5 <= x < r as real + 0.5
    ensures x < 0.0 ==> r as real - 0.5 < x <= r as real + 0.5
  {
    if x >= 0.0 then (x + 0.5).Floor else -((-x + 0.5).Floor)
  }

  /** A real that is a whole number of hundredths (exact to the cent). */
  predicate IsCents(x: real) {
    (x * 100.0).Floor as real == x * 100.0
  }

  /** `round($x, 2)`: the nearest hundredth, halves away from zero. */
  function Round2(x: real): (r: real)
    ensures IsCents(r)
    ensures 0.0 <= x ==> r - 0.005 <= x < r + 0.005
    ensures x < 0.0 ==> r - 0.005 < x <= r + 0.005
  {
    RoundHalfAway(x * 100.0) as real / 100.0
  }

  /** A rounded amount is positive exactly when the exact amount reaches half a cent. */
  lemma Round2Positive(x: real)
    ensures Round2(x) > 0.0 <==> x >= 0.005
  {
    var n := RoundHalfAway(x * 100.0);
    if x >= 0.005 {
      assert n as real >= 0.5;
    } else if x >= 0.0 {
      assert n as real < 1.0;
    }
  }

  /** Rounding an amount that is already exact to the cent leaves it alone. */
  lemma Round2OfCents(x: real)
    requires IsCents(x)
    ensures Round2(x) == x
  {
    var k := (x * 100.0).Floor;
    assert RoundHalfAway(x * 100.0) == k;
  }

  /** The default character list of PHP's `trim`: " \t\n\r\0\x0B". */
  const TrimChars: set<char> := {' ', '\t', '\n', '\r', '\0', '\U{000B}'}

  /** `rtrim($s, $chars)`: drops every trailing character that is in `chars`. */
  function RTrim(s: string, chars: set<char>): (r: string)
    ensures r <= s
    ensures r == [] || r[|r| - 1] !in chars
    ensures forall k :: |r| <= k < |s| ==> s[k] in chars
    decreases |s|
  {
    if s != [] && s[|s| - 1] in chars then RTrim(s[..|s| - 1], chars) else s
  }

  /** `ltrim($s, $chars)`: drops every leading character that is in `chars`. */
  function LTrim(s: string, chars: set<char>): (r: string)
    ensures |r| <= |s| && r == s[|s| - |r|..]
    ensures r == [] || r[0] !in chars
    ensures forall k :: 0 <= k < |s| - |r| ==> s[k] in chars
    decreases |s|
  {
    if s != [] && s[0] in chars then LTrim(s[1..], chars) else s
  }

  /**
   * `r` is the slice of `s` that starts at `i`, and every character of `s`
   * before or after that slice is a trimmed character.
   */
  predicate TrimmedAt(s: string, r: string, i: int) {
    && 0 <= i <= |s| - |r|
    && r == s[i..i + |r|]
    && (forall k :: 0 <= k < i ==> s[k] in TrimChars)
    && (forall k :: i + |r| <= k < |s| ==> s[k] in TrimChars)
  }

  /** `trim($s)` with PHP's default character list. */
  function Trim(s: string): (r: string)
    ensures r == [] || (r[0] !in TrimChars && r[|r| - 1] !in TrimChars)
    ensures exists i :: TrimmedAt(s, r, i)
  {
    var right := RTrim(s, TrimChars);
    var both := LTrim(right, TrimChars);
    var i := |right| - |both|;
    assert both == s[i..i + |both|] by {
      assert right == s[..|right|];
    }
    assert TrimmedAt(s, both, i);
    both
  }

  /** A value with nothing to trim at either end is its own trim. */
  lemma TrimKeepsClean(s: string)
    requires s == [] || (s[0] !in TrimChars && s[|s| - 1] !in TrimChars)
    ensures Trim(s) == s
  {
  }

  /** Trimming twice is trimming once. */
  lemma TrimIdempotent(s: string)
    ensures Trim(Trim(s)) == Trim(s)
  {
    TrimKeepsClean(Trim(s));
  }
}
