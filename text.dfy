/** The few string operations of JavaScript the wizard relies on:
    `String.prototype.trim`, `startsWith` and the `\s` character class. */
module Text {

  /** The characters that JavaScript's `trim` removes and that the regular
      expression class `\s` matches: the WhiteSpace code points (TAB, VT, FF,
      ZWNBSP and every space separator) and the LineTerminator ones. */
  predicate IsSpace(c: char)
  {
    var n := c as int;
    || n == 0x09 || n == 0x0A || n == 0x0B || n == 0x0C || n == 0x0D
    || n == 0x20 || n == 0xA0 || n == 0x1680 || 0x2000 <= n <= 0x200A
    || n == 0x2028 || n == 0x2029 || n == 0x202F || n == 0x205F
    || n == 0x3000 || n == 0xFEFF
  }

  predicate AllSpace(s: string)
  {
    forall i :: 0 <= i < |s| ==> IsSpace(s[i])
  }

  /** No white space at either end. */
  predicate Unpadded(s: string)
  {
    s == [] || (!IsSpace(s[0]) && !IsSpace(s[|s| - 1]))
  }

  /** The index of the first character of `s` at or after `i` that is not
      white space, or `|s|` when there is none. */
  function SkipSpace(s: string, i: nat): (n: nat)
    requires i <= |s|
    ensures i <= n <= |s|
    ensures forall m :: i <= m < n ==> IsSpace(s[m])
    ensures n == |s| || !IsSpace(s[n])
    decreases |s| - i
  {
    if i < |s| && IsSpace(s[i]) then SkipSpace(s, i + 1) else i
  }

  /** The index just after the last character of `s[lo..j]` that is not
      white space, or `lo` when there is none. */
  function SkipSpaceBack(s: string, lo: nat, j: nat): (n: nat)
    requires lo <= j <= |s|
    ensures lo <= n <= j
    ensures forall m :: n <= m < j ==> IsSpace(s[m])
    ensures n == lo || !IsSpace(s[n - 1])
  {
    if lo < j && IsSpace(s[j - 1]) then SkipSpaceBack(s, lo, j - 1) else j
  }

  /** JavaScript's `s.trim()`: the input between its leading and its trailing
      white space runs. */
  function Trim(s: string): (r: string)
    ensures |r| <= |s|
    ensures Unpadded(r)
  {
    var k := SkipSpace(s, 0);
    s[k..SkipSpaceBack(s, k, |s|)]
  }

  /** `trim` removes white space at both ends of its input and nothing else:
      the result is the slice of the input that starts after its leading
      white space run `s[..k]`, and only white space follows it. With
      `Unpadded(Trim(s))` this fixes the result: no other slice of `s` has
      these properties. */
  lemma TrimSpan(s: string)
    ensures var k := SkipSpace(s, 0);
      && k + |Trim(s)| <= |s| && Trim(s) == s[k..k + |Trim(s)|]
      && AllSpace(s[..k]) && AllSpace(s[k + |Trim(s)|..])
  {
  }

  /** `s.startsWith(p)`: `p` is the first `|p|` characters of `s`. */
  predicate StartsWith(s: string, p: string): (b: bool)
    ensures b <==> |p| <= |s| && s[..|p|] == p
  {
    p <= s
  }

  /** A string without white space at its ends is its own trim. */
  lemma TrimUnpadded(s: string)
    requires Unpadded(s)
    ensures Trim(s) == s
  {
  }

  /** Trimming twice is trimming once. */
  lemma TrimIdempotent(s: string)
    ensures Trim(Trim(s)) == Trim(s)
  {
    TrimUnpadded(Trim(s));
  }

  /** `trim` gives the empty string exactly for blank input, the input a
      JavaScript `if (s.trim())` treats as false. */
  lemma TrimBlank(s: string)
    ensures Trim(s) == [] <==> AllSpace(s)
  {
  }
}
