/**
 * Go's `http.Header` as a map from key to value list, with the three
 * accessors the proxy uses and the token matching of `httpguts` and
 * `strings.EqualFold` that the WebSocket upgrade test relies on.
 *
 * `Get`, `Set` and `Del` canonicalise their key in Go; every key the proxy
 * passes to them is already canonical, so here they act on the exact key.
 * Raw indexing (`h[k]`) is `Values`.
 */
module Headers {

  type Header = map<string, seq<string>>

  /** `h[k]` in Go: the list stored under exactly `k`, or nil (the empty list). */
  function Values(h: Header, k: string): seq<string>
  {
    if k in h then h[k] else []
  }

  /** `h.Get(k)`: the first value, or "" when the key is absent or its list is empty. */
  function Get(h: Header, k: string): string
  {
    if k in h && |h[k]| > 0 then h[k][0] else ""
  }

  /** `h.Set(k, v)`: the key now holds exactly `[v]`. */
  function Set(h: Header, k: string, v: string): Header
  {
    h[k := [v]]
  }

  /** `h.Del(k)`. */
  function Del(h: Header, k: string): Header
  {
    h - {k}
  }

  // ---------------------------------------------------------------------
  // Token lists (`httpguts.HeaderValuesContainsToken`)
  // ---------------------------------------------------------------------

  /** Optional white space: space or horizontal tab. */
  predicate IsOws(c: char)
  {
    c == ' ' || c == '\t'
  }

  function TrimLeftOws(s: string): (t: string)
    ensures |t| <= |s| && t == s[|s| - |t|..]
    ensures t != [] ==> !IsOws(t[0])
  {
    if |s| > 0 && IsOws(s[0]) then TrimLeftOws(s[1..]) else s
  }

  function TrimRightOws(s: string): (t: string)
    ensures |t| <= |s| && t == s[..|t|]
    ensures t != [] ==> !IsOws(t[|t| - 1])
  {
    if |s| > 0 && IsOws(s[|s| - 1]) then TrimRightOws(s[..|s| - 1]) else s
  }

  /** A token with the optional white space around it removed. */
  function TrimOws(s: string): string
  {
    TrimRightOws(TrimLeftOws(s))
  }

  function LowerAscii(c: char): char
  {
    if 'A' <= c <= 'Z' then (c as int + 32) as char else c
  }

  /**
   * `tokenEqual`: equal length and equal up to ASCII case; a token that
   * holds a non-ASCII character never matches. `t2` is always an ASCII
   * literal here, so counting characters and counting bytes agree.
   */
  predicate TokenEqual(t1: string, t2: string)
  {
    |t1| == |t2| &&
    forall i :: 0 <= i < |t1| ==> t1[i] < '\U{80}' && LowerAscii(t1[i]) == LowerAscii(t2[i])
  }

  /** `strings.IndexByte(v, ',')`: the index of the first comma, or -1. */
  function FirstComma(v: string): (i: int)
    ensures -1 <= i < |v|
    ensures i == -1 ==> forall k :: 0 <= k < |v| ==> v[k] != ','
    ensures 0 <= i ==> v[i] == ',' && forall k :: 0 <= k < i ==> v[k] != ','
  {
    if v == [] then -1
    else if v[0] == ',' then 0
    else
      var j := FirstComma(v[1..]);
      if j == -1 then -1 else j + 1
  }

  /**
   * `headerValueContainsToken`: walk the comma-separated elements of one
   * header value, left to right, and compare each trimmed element with `token`.
   */
  function ValueContainsToken(v: string, token: string): bool
    decreases |v|
  {
    var comma := FirstComma(v);
    if comma == -1 then TokenEqual(TrimOws(v), token)
    else TokenEqual(TrimOws(v[..comma]), token) || ValueContainsToken(v[comma + 1..], token)
  }

  /** `HeaderValuesContainsToken`: some value of the list contains the token. */
  predicate ValuesContainToken(values: seq<string>, token: string)
  {
    exists n :: 0 <= n < |values| && ValueContainsToken(values[n], token)
  }

  /** `v[i..j]` is one whole comma-separated element of `v`. */
  ghost predicate IsElement(v: string, i: int, j: int)
  {
    && 0 <= i <= j <= |v|
    && (i == 0 || v[i - 1] == ',')
    && (j == |v| || v[j] == ',')
    && forall k :: i <= k < j ==> v[k] != ','
  }

  ghost predicate ElementIsToken(v: string, i: int, j: int, token: string)
  {
    IsElement(v, i, j) && TokenEqual(TrimOws(v[i..j]), token)
  }

  /** The reference reading of section 7.6.1 of RFC 9110: some element of the list, trimmed, is the token. */
  ghost predicate HasTokenElement(v: string, token: string)
  {
    exists i, j :: ElementIsToken(v, i, j, token)
  }

  /** An element of the rest of `v` after its first comma is an element of `v`, shifted. */
  lemma ShiftElement(v: string, c: int, i: int, j: int, token: string)
    requires 0 <= c < |v| && v[c] == ','
    requires ElementIsToken(v[c + 1..], i, j, token)
    ensures ElementIsToken(v, i + c + 1, j + c + 1, token)
  {
    var rest := v[c + 1..];
    assert v[i + c + 1..j + c + 1] == rest[i..j];
    forall k | i + c + 1 <= k < j + c + 1 ensures v[k] != ',' {
      assert v[k] == rest[k - c - 1];
    }
  }

  /** Without a comma the whole value is the one element of `v`. */
  lemma SoleElement(v: string, token: string)
    requires FirstComma(v) == -1
    ensures HasTokenElement(v, token) <==> TokenEqual(TrimOws(v), token)
  {
    assert v[0..|v|] == v;
    if TokenEqual(TrimOws(v), token) {
      assert ElementIsToken(v, 0, |v|, token);
    }
    if HasTokenElement(v, token) {
      var i, j :| ElementIsToken(v, i, j, token);
      assert v[i..j] == v;
    }
  }

  /** An element of `v` is either the part before the first comma or an element of the rest, shifted. */
  lemma UnshiftIsElement(v: string, c: int, i: int, j: int)
    requires c == FirstComma(v) && 0 <= c
    requires IsElement(v, i, j)
    ensures (i == 0 && j == c) || (c < i && IsElement(v[c + 1..], i - c - 1, j - c - 1))
  {
    var rest := v[c + 1..];
    if 0 < i {
      assert v[i - 1] == ',';
      var i', j' := i - c - 1, j - c - 1;
      forall k | i' <= k < j' ensures rest[k] != ',' {
        assert rest[k] == v[k + c + 1];
      }
      if i' > 0 { assert rest[i' - 1] == v[i - 1]; }
      if j' < |rest| { assert rest[j'] == v[j]; }
    }
  }

  lemma UnshiftElement(v: string, c: int, i: int, j: int, token: string)
    requires c == FirstComma(v) && 0 <= c
    requires ElementIsToken(v, i, j, token)
    ensures (i == 0 && TokenEqual(TrimOws(v[..c]), token)) || ElementIsToken(v[c + 1..], i - c - 1, j - c - 1, token)
  {
    UnshiftIsElement(v, c, i, j);
    if i == 0 {
      assert v[i..j] == v[..c];
    } else {
      assert v[c + 1..][i - c - 1..j - c - 1] == v[i..j];
    }
  }

  /** The left-to-right scan finds the token exactly when some element of the list is the token. */
  lemma {:induction false} ValueContainsTokenIffElement(v: string, token: string)
    ensures ValueContainsToken(v, token) <==> HasTokenElement(v, token)
    decreases |v|
  {
    var comma := FirstComma(v);
    if comma == -1 {
      SoleElement(v, token);
    } else {
      var rest := v[comma + 1..];
      ValueContainsTokenIffElement(rest, token);
      if ValueContainsToken(v, token) {
        if TokenEqual(TrimOws(v[..comma]), token) {
          assert v[0..comma] == v[..comma];
          assert ElementIsToken(v, 0, comma, token);
        } else {
          var i, j :| ElementIsToken(rest, i, j, token);
          ShiftElement(v, comma, i, j, token);
        }
      }
      if HasTokenElement(v, token) {
        var i, j :| ElementIsToken(v, i, j, token);
        UnshiftElement(v, comma, i, j, token);
      }
    }
  }

  // ---------------------------------------------------------------------
  // Case-insensitive comparison (`strings.EqualFold`)
  // ---------------------------------------------------------------------

  predicate IsAscii(s: string)
  {
    forall i :: 0 <= i < |s| ==> s[i] < '\U{80}'
  }

  /**
   * `a` folds to the ASCII character `b` under Unicode simple case folding:
   * the same character, the other ASCII case, or one of the two non-ASCII
   * characters whose fold orbit contains an ASCII letter: U+017F (long s)
   * with s, and U+212A (Kelvin sign) with k.
   */
  predicate FoldsTo(a: char, b: char)
  {
    || a == b
    || (('A' <= a <= 'Z' || 'a' <= a <= 'z') && LowerAscii(a) == LowerAscii(b))
    || (a == '\U{017F}' && LowerAscii(b) == 's')
    || (a == '\U{212A}' && LowerAscii(b) == 'k')
  }

  /** `strings.EqualFold(s, t)` for an ASCII `t`: same number of characters, pairwise folding. */
  predicate EqualFold(s: string, t: string)
    requires IsAscii(t)
  {
    |s| == |t| && forall i :: 0 <= i < |s| ==> FoldsTo(s[i], t[i])
  }
}
