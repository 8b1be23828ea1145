/** String helpers for the template literals of the storefront:
    `${n}` of a whole number and `Array.prototype.join`. */
module Text {

  function DigitChar(d: nat): (c: char)
    requires d < 10
    ensures '0' <= c <= '9'
  {
    (48 + d) as char
  }

  /** The number a string of decimal digits denotes, read left to right. */
  function DigitsValue(s: string): nat
    requires forall i :: 0 <= i < |s| ==> '0' <= s[i] <= '9'
  {
    if s == [] then 0 else 10 * DigitsValue(s[..|s| - 1]) + ((s[|s| - 1] as int) - 48)
  }

  /** Decimal rendering of a whole number, as JavaScript prints one below 10^21 (and exact
      below 2^53) in a template literal: digits only, no leading zero, and reading them back
      gives `n`. Larger numbers, which JavaScript prints in exponent form, do not occur here. */
  function NatToString(n: nat): (s: string)
    ensures 1 <= |s|
    ensures n < 10 <==> |s| == 1
    ensures forall i :: 0 <= i < |s| ==> '0' <= s[i] <= '9'
    ensures s[0] == '0' ==> n == 0
    ensures DigitsValue(s) == n
    decreases n
  {
    if n < 10 then
      [DigitChar(n)]
    else
      var front := NatToString(n / 10);
      var s := front + [DigitChar(n % 10)];
      assert s[..|s| - 1] == front;
      s
  }

  function LengthSum(parts: seq<string>): nat
  {
    if parts == [] then 0 else |parts[0]| + LengthSum(parts[1..])
  }

  /** `parts.join(sep)`: the parts in order with `sep` between neighbours and nowhere else. */
  function Join(parts: seq<string>, sep: string): (r: string)
    ensures parts == [] ==> r == ""
    ensures parts != [] ==> |r| == LengthSum(parts) + |sep| * (|parts| - 1)
    ensures parts != [] ==> r[..|parts[0]|] == parts[0]
  {
    if parts == [] then ""
    else if |parts| == 1 then parts[0]
    else parts[0] + sep + Join(parts[1..], sep)
  }

  /** Where part `i` begins in `Join(parts, sep)`: the parts before it and one `sep` after each. */
  function PartStart(parts: seq<string>, sep: string, i: nat): nat
    requires i <= |parts|
  {
    LengthSum(parts[..i]) + i * |sep|
  }

  lemma PartStartStep(parts: seq<string>, sep: string, i: nat)
    requires i < |parts|
    ensures PartStart(parts, sep, i + 1) == |parts[0]| + |sep| + PartStart(parts[1..], sep, i)
  {
    assert parts[..i + 1][0] == parts[0];
    assert parts[..i + 1][1..] == parts[1..][..i];
  }

  lemma PartStartZero(parts: seq<string>, sep: string)
    ensures PartStart(parts, sep, 0) == 0
  {
    assert parts[..0] == [];
  }

  lemma SliceOfConcat(x: string, y: string, a: nat, b: nat)
    requires a <= b <= |y|
    ensures (x + y)[|x| + a..|x| + b] == y[a..b]
  {
    assert forall k :: 0 <= k < b - a ==> (x + y)[|x| + a..|x| + b][k] == y[a..b][k];
  }

  lemma SliceOfWrapped(x: string, y: string, z: string, a: nat, b: nat)
    requires a <= b <= |y|
    ensures (x + y + z)[|x| + a..|x| + b] == y[a..b]
  {
    assert x + y + z == x + (y + z);
    SliceOfConcat(x, y + z, a, b);
    assert (y + z)[a..b] == y[a..b];
  }

  /** Part `i` of `parts.join(sep)` sits at `PartStart(parts, sep, i)`. */
  lemma {:induction false} JoinPartAt(parts: seq<string>, sep: string, i: nat)
    requires i < |parts|
    ensures PartStart(parts, sep, i) + |parts[i]| <= |Join(parts, sep)|
    ensures Join(parts, sep)[PartStart(parts, sep, i)..PartStart(parts, sep, i) + |parts[i]|] == parts[i]
  {
    if i == 0 {
      PartStartZero(parts, sep);
    } else {
      var x := parts[0] + sep;
      JoinPartAt(parts[1..], sep, i - 1);
      PartStartStep(parts, sep, i - 1);
      assert Join(parts, sep) == x + Join(parts[1..], sep);
      var a := PartStart(parts[1..], sep, i - 1);
      SliceOfConcat(x, Join(parts[1..], sep), a, a + |parts[i]|);
    }
  }

  /** Between part `i` and part `i + 1` of `parts.join(sep)` stands exactly one `sep`. */
  lemma {:induction false} JoinSepAt(parts: seq<string>, sep: string, i: nat)
    requires i + 1 < |parts|
    ensures PartStart(parts, sep, i) + |parts[i]| + |sep| == PartStart(parts, sep, i + 1)
    ensures PartStart(parts, sep, i + 1) <= |Join(parts, sep)|
    ensures Join(parts, sep)[PartStart(parts, sep, i) + |parts[i]|..PartStart(parts, sep, i + 1)] == sep
  {
    var x := parts[0] + sep;
    assert Join(parts, sep) == x + Join(parts[1..], sep);
    PartStartStep(parts, sep, i);
    if i == 0 {
      PartStartZero(parts, sep);
      PartStartZero(parts[1..], sep);
      assert (x + Join(parts[1..], sep))[|parts[0]|..|x|] == sep;
    } else {
      JoinSepAt(parts[1..], sep, i - 1);
      PartStartStep(parts, sep, i - 1);
      var a := PartStart(parts[1..], sep, i - 1) + |parts[i]|;
      SliceOfConcat(x, Join(parts[1..], sep), a, a + |sep|);
    }
  }
}
