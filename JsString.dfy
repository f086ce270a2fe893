/** The JavaScript string built-ins the core relies on: `startsWith`, the
    regular-expression class `\s`, and `String.prototype.trim`. */
module JsString {

  /** `s.startsWith(prefix)`. */
  predicate StartsWith(s: string, prefix: string)
  {
    |prefix| <= |s| && s[..|prefix|] == prefix
  }

  /** The characters matched by `\s` and removed by `trim`: the ECMAScript
      WhiteSpace and LineTerminator code points. */
  predicate IsWhitespace(c: char)
  {
    var code := c as int;
    code == 0x09 || code == 0x0A || code == 0x0B || code == 0x0C || code == 0x0D
    || code == 0x20 || code == 0xA0 || code == 0x1680
    || (0x2000 <= code <= 0x200A)
    || code == 0x2028 || code == 0x2029 || code == 0x202F || code == 0x205F
    || code == 0x3000 || code == 0xFEFF
  }

  predicate AllWhitespace(s: string)
  {
    forall k :: 0 <= k < |s| ==> IsWhitespace(s[k])
  }

  /** `s` is `r` with only whitespace before it, which starts at `i`, and
      only whitespace after it. */
  predicate Surrounds(s: string, r: string, i: int)
  {
    && 0 <= i && i + |r| <= |s| && s[i..i + |r|] == r
    && (forall k :: 0 <= k < i ==> IsWhitespace(s[k]))
    && (forall k :: i + |r| <= k < |s| ==> IsWhitespace(s[k]))
  }

  /** Drops leading whitespace: the result is the longest suffix of `s`
      that does not start with whitespace. */
  function TrimStart(s: string): (r: string)
    ensures |r| <= |s| && r == s[|s| - |r|..]
    ensures forall k :: 0 <= k < |s| - |r| ==> IsWhitespace(s[k])
    ensures r != "" ==> !IsWhitespace(r[0])
  {
    if s == [] || !IsWhitespace(s[0]) then s
    else
      var r := TrimStart(s[1..]);
      assert forall k :: 1 <= k < |s| ==> s[1..][k - 1] == s[k];
      r
  }

  /** Drops trailing whitespace: the result is the longest prefix of `s`
      that does not end with whitespace. */
  function TrimEnd(s: string): (r: string)
    ensures |r| <= |s| && r == s[..|r|]
    ensures forall k :: |r| <= k < |s| ==> IsWhitespace(s[k])
    ensures r != "" ==> !IsWhitespace(r[|r| - 1])
  {
    if s == [] || !IsWhitespace(s[|s| - 1]) then s
    else
      var r := TrimEnd(s[..|s| - 1]);
      assert forall k :: 0 <= k < |s| - 1 ==> s[..|s| - 1][k] == s[k];
      r
  }

  /** `s.trim()`: a contiguous slice of `s` that neither starts nor ends
      with whitespace; it is empty exactly when `s` is all whitespace. */
  function Trim(s: string): (r: string)
    ensures |r| <= |s|
    ensures r == "" <==> AllWhitespace(s)
    ensures r != "" ==> !IsWhitespace(r[0]) && !IsWhitespace(r[|r| - 1])
  {
    var t := TrimStart(s);
    var r := TrimEnd(t);
    TrimEmpty(s, t, r);
    TrimFirst(t, r);
    r
  }

  /** Trimming the end of a string that does not start with whitespace
      keeps that first character. */
  lemma TrimFirst(t: string, r: string)
    requires t != "" ==> !IsWhitespace(t[0])
    requires r == TrimEnd(t)
    ensures r != "" ==> !IsWhitespace(r[0])
  {
    if r != "" {
      assert t[0] == r[0];
    }
  }

  /** What `Trim` keeps is a contiguous part of its input, with only
      whitespace before and after it. */
  lemma TrimKeepsMiddle(s: string)
    ensures exists i :: Surrounds(s, Trim(s), i)
  {
    var t := TrimStart(s);
    TrimIsSlice(s, t, TrimEnd(t));
    assert Surrounds(s, Trim(s), |s| - |t|);
  }

  /** The same, one step at a time: `t` is what `TrimStart` leaves of `s`,
      and `r` what `TrimEnd` leaves of `t`. */
  lemma TrimIsSlice(s: string, t: string, r: string)
    requires |t| <= |s| && t == s[|s| - |t|..]
    requires forall k :: 0 <= k < |s| - |t| ==> IsWhitespace(s[k])
    requires |r| <= |t| && r == t[..|r|]
    requires forall k :: |r| <= k < |t| ==> IsWhitespace(t[k])
    ensures Surrounds(s, r, |s| - |t|)
  {
    var i := |s| - |t|;
    forall k | i + |r| <= k < |s| ensures IsWhitespace(s[k]) {
      assert s[k] == t[k - i];
    }
  }

  /** `Trim` leaves nothing exactly when everything was whitespace. */
  lemma TrimEmpty(s: string, t: string, r: string)
    requires |t| <= |s| && t == s[|s| - |t|..]
    requires forall k :: 0 <= k < |s| - |t| ==> IsWhitespace(s[k])
    requires t != "" ==> !IsWhitespace(t[0])
    requires |r| <= |t| && r == t[..|r|]
    requires forall k :: |r| <= k < |t| ==> IsWhitespace(t[k])
    requires r != "" ==> !IsWhitespace(r[|r| - 1])
    ensures r == "" <==> AllWhitespace(s)
  {
    if r == "" {
      assert t == [];
    } else {
      var i := |s| - |t|;
      assert s[i + |r| - 1] == r[|r| - 1];
    }
  }
}
