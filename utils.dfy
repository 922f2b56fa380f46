/** `stripBase64Prefix` of services/utils.ts: drops the data-URL header
    `data:image/<subtype>;base64,` that the pattern `^data:image\/[a-z]+;base64,`
    matches at the very start of a string, and only there, and only once. */
module Utils {

  const DataImage: string := "data:image/"
  const Base64Marker: string := ";base64,"

  predicate IsLower(c: char)
  {
    'a' <= c <= 'z'
  }

  /** What `[a-z]+` accepts: one or more lower-case ASCII letters. */
  predicate IsSubtype(t: string)
  {
    |t| > 0 && forall i :: 0 <= i < |t| ==> IsLower(t[i])
  }

  /** The header for image subtype `t`, e.g. `data:image/png;base64,`. */
  function DataUrlPrefix(t: string): string
  {
    DataImage + t + Base64Marker
  }

  /** Whether `s` begins with the header of some image subtype. */
  ghost predicate HasDataUrlPrefix(s: string)
  {
    exists t, x :: IsSubtype(t) && s == DataUrlPrefix(t) + x
  }

  /** The length of the (greedy) run of lower-case letters at the start of `s`. */
  function LowerRun(s: string): (n: nat)
    ensures n <= |s|
    ensures forall i :: 0 <= i < n ==> IsLower(s[i])
    ensures n == |s| || !IsLower(s[n])
  {
    if |s| > 0 && IsLower(s[0]) then 1 + LowerRun(s[1..]) else 0
  }

  /** The length of the text the anchored pattern matches, or 0 when it does not match. */
  function HeaderLength(s: string): (n: nat)
    ensures n <= |s|
    ensures n == 0 || |DataImage| + |Base64Marker| < n
  {
    if DataImage <= s then
      var n := LowerRun(s[|DataImage|..]);
      if n > 0 && Base64Marker <= s[|DataImage| + n..] then |DataImage| + n + |Base64Marker| else 0
    else 0
  }

  /** `base64.replace(/^data:image\/[a-z]+;base64,/, '')`. */
  function StripBase64Prefix(s: string): (r: string)
    ensures |r| <= |s| && r == s[|s| - |r|..]
  {
    s[HeaderLength(s)..]
  }

  lemma {:induction false} LowerRunStops(t: string, y: string)
    requires forall i :: 0 <= i < |t| ==> IsLower(t[i])
    requires y == [] || !IsLower(y[0])
    ensures LowerRun(t + y) == |t|
  {
    if t != [] {
      assert (t + y)[1..] == t[1..] + y;
      LowerRunStops(t[1..], y);
    } else {
      assert t + y == y;
    }
  }

  /** The header of any lower-case subtype is removed and the payload is returned as is. */
  lemma StripRoundTrip(t: string, x: string)
    requires IsSubtype(t)
    ensures StripBase64Prefix(DataUrlPrefix(t) + x) == x
  {
    var s := DataUrlPrefix(t) + x;
    var n := |DataImage|;
    assert s[..n] == DataImage;
    assert s[n..] == t + (Base64Marker + x);
    LowerRunStops(t, Base64Marker + x);
    assert s[n + |t|..] == Base64Marker + x;
    assert s[n + |t| + |Base64Marker|..] == x;
  }

  /** The result differs from the input exactly when the input starts with a header. */
  lemma StripChangesOnlyPrefixed(s: string)
    ensures StripBase64Prefix(s) != s <==> HasDataUrlPrefix(s)
  {
    if HeaderLength(s) > 0 {
      var n := LowerRun(s[|DataImage|..]);
      var t := s[|DataImage|..|DataImage| + n];
      var x := s[|DataImage| + n + |Base64Marker|..];
      assert IsSubtype(t) by {
        forall i | 0 <= i < |t| ensures IsLower(t[i]) {
          assert t[i] == s[|DataImage|..][i];
        }
      }
      assert s[|DataImage| + n..] [..|Base64Marker|] == Base64Marker;
      assert s == DataUrlPrefix(t) + x;
    } else if HasDataUrlPrefix(s) {
      var t, x :| IsSubtype(t) && s == DataUrlPrefix(t) + x;
      StripRoundTrip(t, x);
      assert false;
    }
  }

  /** A header whose subtype is not `[a-z]+` leaves the string unchanged,
      whatever the payload. (A subtype holding `;` is left out: in
      `data:image/a;base64,;base64,` the pattern does match `a`.) */
  lemma StripKeepsNonSubtypes(t: string, x: string)
    requires !IsSubtype(t) && ';' !in t
    ensures StripBase64Prefix(DataUrlPrefix(t) + x) == DataUrlPrefix(t) + x
  {
    var s := DataUrlPrefix(t) + x;
    var m := |DataImage|;
    assert s[..m] == DataImage;
    var rest := s[m..];
    assert rest == t + (Base64Marker + x);
    var n := LowerRun(rest);
    if n > 0 {
      var i :| 0 <= i < |t| && !IsLower(t[i]);
      assert rest[i] == t[i];
      assert s[m + n..][0] == t[n];
    }
  }

  /** Instances: an upper-case subtype and `svg+xml` keep their header. */
  lemma StripKeepsOtherSubtypes(x: string)
    ensures StripBase64Prefix("data:image/PNG;base64," + x) == "data:image/PNG;base64," + x
    ensures StripBase64Prefix("data:image/svg+xml;base64," + x) == "data:image/svg+xml;base64," + x
  {
    var upper, svg := "PNG", "svg+xml";
    assert !IsLower(upper[0]) && !IsLower(svg[3]);
    assert ';' !in upper && ';' !in svg;
    assert DataUrlPrefix(upper) == "data:image/PNG;base64,";
    assert DataUrlPrefix(svg) == "data:image/svg+xml;base64,";
    StripKeepsNonSubtypes(upper, x);
    StripKeepsNonSubtypes(svg, x);
  }

  /** Only one header is removed: the function is not idempotent on doubled headers. */
  lemma StripRemovesOneHeader(t: string, x: string)
    requires IsSubtype(t)
    ensures StripBase64Prefix(DataUrlPrefix(t) + DataUrlPrefix(t) + x) == DataUrlPrefix(t) + x
    ensures StripBase64Prefix(StripBase64Prefix(DataUrlPrefix(t) + DataUrlPrefix(t) + x)) == x
  {
    assert DataUrlPrefix(t) + DataUrlPrefix(t) + x == DataUrlPrefix(t) + (DataUrlPrefix(t) + x);
    StripRoundTrip(t, DataUrlPrefix(t) + x);
    StripRoundTrip(t, x);
  }
}
