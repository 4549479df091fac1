/**
 * The part of JavaScript's string semantics the translation code relies on:
 * `String.prototype.trim`, which strips leading and trailing white space and
 * line terminators, and the truthiness of a string (only "" is falsy).
 */
module JsString {

  /** ECMAScript's WhiteSpace (TAB, VT, FF, SP, NBSP, ZWNBSP and the Zs
      space separators) and LineTerminator (LF, CR, LS, PS) code points. */
  predicate IsWhitespace(c: char) {
    var n := c as int;
    n == 0x09 || n == 0x0A || n == 0x0B || n == 0x0C || n == 0x0D || n == 0x20
    || n == 0xA0 || n == 0x1680 || (0x2000 <= n <= 0x200A)
    || n == 0x2028 || n == 0x2029 || n == 0x202F || n == 0x205F
    || n == 0x3000 || n == 0xFEFF
  }

  /** Every character of `s` is white space (vacuously so for ""). */
  predicate AllWhitespace(s: string) {
    forall i :: 0 <= i < |s| ==> IsWhitespace(s[i])
  }

  /** Neither end of `s` is white space: what `trim` leaves behind. */
  predicate Trimmed(s: string) {
    s == [] || (!IsWhitespace(s[0]) && !IsWhitespace(s[|s| - 1]))
  }

  /** `s` is `r` placed at offset `i`, with only white space before and
      after it. */
  predicate Encloses(s: string, i: int, r: string) {
    && 0 <= i <= |s| - |r|
    && s[i..i + |r|] == r
    && AllWhitespace(s[..i])
    && AllWhitespace(s[i + |r|..])
  }

  /** JavaScript truthiness of a string value. */
  predicate Truthy(s: string) {
    s != ""
  }

  /** Drops the leading white space of `s`; what is left does not start
      with white space (`TrimStartEncloses` says it is a suffix of `s`). */
  function TrimStart(s: string): (r: string)
    ensures |r| <= |s|
    ensures r == [] || !IsWhitespace(r[0])
  {
    if s != [] && IsWhitespace(s[0]) then TrimStart(s[1..]) else s
  }

  /** Drops the trailing white space of `s`; what is left does not end with
      white space (`TrimEndEncloses` says it is a prefix of `s`). */
  function TrimEnd(s: string): (r: string)
    ensures |r| <= |s|
    ensures r == [] || !IsWhitespace(r[|r| - 1])
  {
    if s != [] && IsWhitespace(s[|s| - 1]) then TrimEnd(s[..|s| - 1]) else s
  }

  /** `String.prototype.trim`: no white space is left at either end
      (`TrimEncloses` and `TrimEmptyIff` say what was cut). */
  function Trim(s: string): (r: string)
    ensures |r| <= |s|
    ensures Trimmed(r)
  {
    var t := TrimStart(s);
    TrimEndEncloses(t);
    assert TrimEnd(t) == [] || TrimEnd(t)[0] == t[0];
    TrimEnd(t)
  }

  /** `TrimStart` cuts a white-space prefix and nothing else. */
  lemma {:induction false} TrimStartEncloses(s: string)
    ensures Encloses(s, |s| - |TrimStart(s)|, TrimStart(s))
  {
    if s != [] && IsWhitespace(s[0]) {
      var u := s[1..];
      var r := TrimStart(u);
      assert TrimStart(s) == r;
      TrimStartEncloses(u);
      assert s == [s[0]] + u;
      ConsEncloses(s[0], u, |u| - |r|, r);
      assert |s| - |r| == |u| - |r| + 1;
    } else {
      assert TrimStart(s) == s;
      assert s[0..|s|] == s && s[..0] == [] && s[|s|..] == [];
    }
  }

  /** One more white-space character in front keeps the enclosure, one
      position further on. */
  lemma ConsEncloses(c: char, u: string, i: int, r: string)
    requires IsWhitespace(c) && Encloses(u, i, r)
    ensures Encloses([c] + u, i + 1, r)
  {
    var s := [c] + u;
    assert s[i + 1..i + 1 + |r|] == u[i..i + |r|];
    assert s[i + 1 + |r|..] == u[i + |r|..];
    assert s[..i + 1] == [c] + u[..i];
    AllWhitespaceConcat([c], u[..i]);
  }

  /** `TrimEnd` cuts a white-space suffix and nothing else. */
  lemma {:induction false} TrimEndEncloses(s: string)
    ensures Encloses(s, 0, TrimEnd(s))
  {
    if s != [] && IsWhitespace(s[|s| - 1]) {
      var u := s[..|s| - 1];
      var r := TrimEnd(u);
      assert TrimEnd(s) == r;
      TrimEndEncloses(u);
      assert s == u + [s[|s| - 1]];
      SnocEncloses(u, s[|s| - 1], r);
    } else {
      assert TrimEnd(s) == s;
      assert s[0..|s|] == s && s[..0] == [] && s[|s|..] == [];
    }
  }

  /** One more white-space character behind keeps a prefix enclosure. */
  lemma SnocEncloses(u: string, c: char, r: string)
    requires IsWhitespace(c) && Encloses(u, 0, r)
    ensures Encloses(u + [c], 0, r)
  {
    var s := u + [c];
    assert s[0..|r|] == u[0..|r|];
    assert s[|r|..] == u[|r|..] + [c];
    AllWhitespaceConcat(u[|r|..], [c]);
  }

  /** `trim` cuts white space from the two ends of `s` and nothing else. */
  lemma TrimEncloses(s: string)
    ensures Encloses(s, |s| - |TrimStart(s)|, Trim(s))
  {
    var t := TrimStart(s);
    var r := Trim(s);
    var i := |s| - |t|;
    TrimStartEncloses(s);
    TrimEndEncloses(t);
    assert i + |t| == |s| && s[i..i + |t|] == t;
    assert s[i..] == t;
    assert s[i..i + |r|] == t[..|r|];
    assert s[i + |r|..] == t[|r|..];
  }

  /** `trim` returns "" exactly for a string of white space only. */
  lemma TrimEmptyIff(s: string)
    ensures Trim(s) == [] <==> AllWhitespace(s)
  {
    var t := TrimStart(s);
    var i := |s| - |t|;
    TrimEncloses(s);
    if Trim(s) == [] {
      assert s == s[..i] + s[i..];
      AllWhitespaceConcat(s[..i], s[i..]);
    }
  }

  /** White space followed by white space is white space. */
  lemma AllWhitespaceConcat(a: string, b: string)
    requires AllWhitespace(a) && AllWhitespace(b)
    ensures AllWhitespace(a + b)
  {
    forall k | 0 <= k < |a + b| ensures IsWhitespace((a + b)[k]) {
      if k >= |a| {
        assert (a + b)[k] == b[k - |a|];
      }
    }
  }

  /** Characterisation of `trim` independent of how it is computed: whatever
      sits between a white-space prefix and a white-space suffix, with no
      white space at its own ends, is exactly what `trim` returns. */
  lemma {:induction false} TrimUnique(pre: string, mid: string, post: string)
    requires AllWhitespace(pre) && AllWhitespace(post)
    requires Trimmed(mid)
    ensures Trim(pre + mid + post) == mid
  {
    var s := pre + mid + post;
    if mid == [] {
      assert s == pre + post;
      AllWhitespaceConcat(pre, post);
      TrimEmptyIff(s);
      return;
    }
    assert s == pre + (mid + post);
    assert (mid + post)[0] == mid[0];
    TrimStartDropsWhitespace(pre, mid + post);
    TrimEndDropsWhitespace(mid, post);
  }

  /** `TrimStart` removes exactly a white-space prefix in front of a string
      that does not itself start with white space. */
  lemma {:induction false} TrimStartDropsWhitespace(pre: string, rest: string)
    requires AllWhitespace(pre)
    requires rest == [] || !IsWhitespace(rest[0])
    ensures TrimStart(pre + rest) == rest
  {
    if pre == [] {
      assert pre + rest == rest;
    } else {
      assert (pre + rest)[1..] == pre[1..] + rest;
      TrimStartDropsWhitespace(pre[1..], rest);
    }
  }

  /** `TrimEnd` removes exactly a white-space suffix behind a string that does
      not itself end with white space. */
  lemma {:induction false} TrimEndDropsWhitespace(rest: string, post: string)
    requires AllWhitespace(post)
    requires rest == [] || !IsWhitespace(rest[|rest| - 1])
    ensures TrimEnd(rest + post) == rest
  {
    if post == [] {
      assert rest + post == rest;
    } else {
      var s := rest + post;
      assert s[..|s| - 1] == rest + post[..|post| - 1];
      TrimEndDropsWhitespace(rest, post[..|post| - 1]);
    }
  }

  /** Trimming twice is trimming once. */
  lemma TrimIdempotent(s: string)
    ensures Trim(Trim(s)) == Trim(s)
  {
    var r := Trim(s);
    assert r == [] + r + [];
    TrimUnique([], r, []);
  }
}
