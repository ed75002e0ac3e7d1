/**
 * The three `String.prototype` methods the command router uses: `trim`,
 * `startsWith` and `replace` with a string pattern. `trim` is given both as an
 * algorithm and as an independent characterisation (`IsTrimOf`), and the two
 * are proved to agree.
 */
module JsStrings {
  import opened JsValues

  /**
   * The code points `trim` removes: ECMAScript WhiteSpace (tab, vertical tab,
   * form feed, no-break space, byte order mark and the Unicode space
   * separators) and LineTerminator (line feed, carriage return, line and
   * paragraph separators).
   */
  predicate IsSpace(c: char) {
    || c == '\t' || c == '\n' || c == '\U{000B}' || c == '\U{000C}' || c == '\r'
    || c == ' ' || c == '\U{00A0}' || c == '\U{1680}'
    || ('\U{2000}' <= c <= '\U{200A}')
    || c == '\U{2028}' || c == '\U{2029}' || c == '\U{202F}' || c == '\U{205F}'
    || c == '\U{3000}' || c == '\U{FEFF}'
  }

  /** Every character of `s` in positions `lo` to `hi - 1` is white space. */
  ghost predicate SpaceBetween(s: string, lo: int, hi: int)
    requires 0 <= lo && hi <= |s|
  {
    forall k :: lo <= k < hi ==> IsSpace(s[k])
  }

  ghost predicate AllSpace(s: string) {
    SpaceBetween(s, 0, |s|)
  }

  /** Neither starts nor ends with white space. */
  ghost predicate Bare(s: string) {
    s == [] || (!IsSpace(s[0]) && !IsSpace(s[|s| - 1]))
  }

  /**
   * `r` is what is left of `s` once its leading and trailing white space are
   * removed: `s` is white space, then `r`, then white space, and `r` is bare.
   */
  ghost predicate IsTrimOf(s: string, r: string) {
    Bare(r) && exists i :: TrimmedAt(s, r, i)
  }

  /** `s` is white space up to `i`, then `r`, then white space to its end. */
  ghost predicate TrimmedAt(s: string, r: string, i: int) {
    && 0 <= i <= |s| - |r|
    && s[i..i + |r|] == r
    && SpaceBetween(s, 0, i)
    && SpaceBetween(s, i + |r|, |s|)
  }

  /** Removes leading white space. */
  function TrimStart(s: string): (r: string)
    ensures |r| <= |s| && r == s[|s| - |r|..]
    ensures SpaceBetween(s, 0, |s| - |r|)
    ensures r == [] || !IsSpace(r[0])
  {
    if s != [] && IsSpace(s[0]) then
      var r := TrimStart(s[1..]);
      assert forall k :: 1 <= k < |s| - |r| ==> s[k] == s[1..][k - 1];
      r
    else
      s
  }

  /** Removes trailing white space. */
  function TrimEnd(s: string): (r: string)
    ensures |r| <= |s| && r == s[..|r|]
    ensures SpaceBetween(s, |r|, |s|)
    ensures r == [] || !IsSpace(r[|r| - 1])
  {
    if s != [] && IsSpace(s[|s| - 1]) then
      var r := TrimEnd(s[..|s| - 1]);
      assert forall k :: |r| <= k < |s| - 1 ==> s[k] == s[..|s| - 1][k];
      r
    else
      s
  }

  /** Leading white space up to a suffix `t`, then `r` and trailing white space within `t`. */
  lemma TrimmedAtSplit(s: string, t: string, r: string)
    requires |t| <= |s| && t == s[|s| - |t|..] && SpaceBetween(s, 0, |s| - |t|)
    requires |r| <= |t| && r == t[..|r|] && SpaceBetween(t, |r|, |t|)
    ensures TrimmedAt(s, r, |s| - |t|)
  {
    var i := |s| - |t|;
    assert s[i..i + |r|] == t[..|r|];
    assert forall k :: i + |r| <= k < |s| ==> s[k] == t[k - i];
  }

  /** `s.trim()`. */
  function Trim(s: string): (r: string)
    ensures IsTrimOf(s, r)
  {
    var t := TrimStart(s);
    var r := TrimEnd(t);
    TrimmedAtSplit(s, t, r);
    assert r != [] ==> r[0] == t[0];
    r
  }

  /** There is only one way to trim a string. */
  lemma TrimOfUnique(s: string, r1: string, r2: string)
    requires IsTrimOf(s, r1) && IsTrimOf(s, r2)
    ensures r1 == r2
  {
    var i1 :| TrimmedAt(s, r1, i1);
    var i2 :| TrimmedAt(s, r2, i2);
    if r1 != [] && r2 != [] {
      // The first and last bare characters pin both slices to the same place.
      assert s[i1] == r1[0] && s[i2] == r2[0];
      assert s[i1 + |r1| - 1] == r1[|r1| - 1] && s[i2 + |r2| - 1] == r2[|r2| - 1];
      assert i1 == i2;
      assert i1 + |r1| == i2 + |r2|;
    }
  }

  /** A string trims to nothing exactly when it is all white space. */
  lemma TrimEmptyIff(s: string)
    ensures Trim(s) == [] <==> AllSpace(s)
  {
    if AllSpace(s) {
      assert TrimmedAt(s, [], 0);
      TrimOfUnique(s, Trim(s), []);
    }
  }

  /** Trimming an already trimmed string changes nothing. */
  lemma TrimIdempotent(s: string)
    ensures Trim(Trim(s)) == Trim(s)
  {
    var r := Trim(s);
    assert r[0..|r|] == r;
    assert TrimmedAt(r, r, 0);
    TrimOfUnique(r, Trim(r), r);
  }

  /** Padding a trimmed-at split with white space shifts it by the left padding. */
  lemma TrimmedAtPadded(a: string, t: string, b: string, r: string, i: int)
    requires AllSpace(a) && AllSpace(b) && TrimmedAt(t, r, i)
    ensures TrimmedAt(a + t + b, r, |a| + i)
  {
    var s := a + t + b;
    var j := |a| + i;
    assert s[j..j + |r|] == t[i..i + |r|];
    assert forall k :: 0 <= k < |a| ==> s[k] == a[k];
    assert forall k :: |a| <= k < |a| + |t| ==> s[k] == t[k - |a|];
    assert forall k :: |a| + |t| <= k < |s| ==> s[k] == b[k - |a| - |t|];
  }

  /** Surrounding white space does not reach the result of `trim`. */
  lemma TrimPadded(a: string, t: string, b: string)
    requires AllSpace(a) && AllSpace(b)
    ensures Trim(a + t + b) == Trim(t)
  {
    var r := Trim(t);
    var i :| TrimmedAt(t, r, i);
    TrimmedAtPadded(a, t, b, r, i);
    TrimOfUnique(a + t + b, Trim(a + t + b), r);
  }

  /** A bare string is its own trim. */
  lemma TrimBare(s: string)
    requires Bare(s)
    ensures Trim(s) == s
  {
    assert s[0..|s|] == s;
    assert TrimmedAt(s, s, 0);
    TrimOfUnique(s, Trim(s), s);
  }

  /** `s.startsWith(prefix)`. */
  predicate StartsWith(s: string, prefix: string) {
    prefix <= s
  }

  /** `startsWith` compares character by character from the start of `s`. */
  lemma StartsWithChars(s: string, prefix: string)
    ensures StartsWith(s, prefix) <==>
      |prefix| <= |s| && forall k :: 0 <= k < |prefix| ==> s[k] == prefix[k]
  {
    if |prefix| <= |s| && forall k :: 0 <= k < |prefix| ==> s[k] == prefix[k] {
      assert s[..|prefix|] == prefix;
    }
  }

  /**
   * `s.indexOf(pattern, from)` for `from <= |s|`: the first position at or
   * after `from` where `pattern` occurs, or `None` (JavaScript's -1).
   */
  function IndexOf(s: string, pattern: string, from: nat): (r: Option<nat>)
    requires from <= |s|
    ensures r.Some? ==> from <= r.value <= |s| && StartsWith(s[r.value..], pattern)
    ensures r.Some? ==> forall j :: from <= j < r.value ==> !StartsWith(s[j..], pattern)
    ensures r.None? ==> forall j :: from <= j <= |s| ==> !StartsWith(s[j..], pattern)
    decreases |s| - from
  {
    if StartsWith(s[from..], pattern) then Some(from)
    else if from == |s| then None
    else IndexOf(s, pattern, from + 1)
  }

  /**
   * `s.replace(pattern, "")` for a string pattern: the first occurrence of
   * `pattern` is removed; without an occurrence `s` is returned unchanged.
   */
  function RemoveFirst(s: string, pattern: string): (r: string)
    ensures (forall j :: 0 <= j <= |s| ==> !StartsWith(s[j..], pattern)) ==> r == s
    ensures forall i :: 0 <= i <= |s| && StartsWith(s[i..], pattern)
                        && (forall j :: 0 <= j < i ==> !StartsWith(s[j..], pattern))
                        ==> r == s[..i] + s[i + |pattern|..]
  {
    match IndexOf(s, pattern, 0)
    case None => s
    case Some(i) => s[..i] + s[i + |pattern|..]
  }

  /** When `s` starts with `pattern`, its first occurrence is the leading one. */
  lemma RemoveFirstOfPrefix(s: string, pattern: string)
    requires StartsWith(s, pattern)
    ensures RemoveFirst(s, pattern) == s[|pattern|..]
  {
    assert s[0..] == s;
    assert IndexOf(s, pattern, 0) == Some(0);
  }

  /** Without an occurrence of `pattern`, `replace` leaves `s` as it is. */
  lemma RemoveFirstAbsent(s: string, pattern: string)
    requires forall j :: 0 <= j <= |s| ==> !StartsWith(s[j..], pattern)
    ensures RemoveFirst(s, pattern) == s
  {
  }
}
