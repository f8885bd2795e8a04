/**
 * Python's `str.strip()` with no arguments: remove leading and trailing
 * whitespace. The handler applies it to the raw experience before its length
 * check, to the scenario and raw experience before rendering the prompt, and to
 * the completion text before returning it.
 */
module Text {

  /**
   * The characters `str.isspace()` accepts, which are the ones `strip()`
   * removes: the ASCII controls TAB..CR and FS..US, SPACE, NEL, NBSP and the
   * Unicode space and separator characters.
   */
  predicate IsSpace(c: char)
    ensures c in " \t\n\r\U{B}\U{C}" ==> IsSpace(c)
    ensures 'a' <= c <= 'z' || 'A' <= c <= 'Z' || '0' <= c <= '9' ==> !IsSpace(c)
  {
    || '\U{9}' <= c <= '\U{D}'
    || '\U{1C}' <= c <= '\U{20}'
    || c == '\U{85}' || c == '\U{A0}' || c == '\U{1680}'
    || '\U{2000}' <= c <= '\U{200A}'
    || c == '\U{2028}' || c == '\U{2029}' || c == '\U{202F}' || c == '\U{205F}'
    || c == '\U{3000}'
  }

  predicate AllSpace(s: string) {
    forall i :: 0 <= i < |s| ==> IsSpace(s[i])
  }

  /** Neither end of `s` is whitespace. */
  predicate Bare(s: string) {
    s == [] || (!IsSpace(s[0]) && !IsSpace(s[|s| - 1]))
  }

  /** The length of the longest all-whitespace prefix of `s`. */
  function LeadingSpace(s: string): (n: nat)
    ensures n <= |s| && AllSpace(s[..n])
    ensures n < |s| ==> !IsSpace(s[n])
  {
    if s != [] && IsSpace(s[0]) then
      var m := LeadingSpace(s[1..]);
      assert forall i :: 1 <= i < 1 + m ==> s[i] == s[1..][..m][i - 1];
      1 + m
    else
      0
  }

  /** The length of the longest all-whitespace suffix of `s`. */
  function TrailingSpace(s: string): (n: nat)
    ensures n <= |s| && AllSpace(s[|s| - n..])
    ensures n < |s| ==> !IsSpace(s[|s| - n - 1])
  {
    if s != [] && IsSpace(s[|s| - 1]) then
      var init := s[..|s| - 1];
      var m := TrailingSpace(init);
      assert forall i :: |s| - 1 - m <= i < |s| - 1 ==> s[i] == init[|init| - m..][i - (|s| - 1 - m)];
      1 + m
    else
      0
  }

  /** `str.lstrip()` */
  function TrimStart(s: string): (r: string)
    ensures r == [] || !IsSpace(r[0])
  {
    s[LeadingSpace(s)..]
  }

  /** `str.rstrip()` */
  function TrimEnd(s: string): (r: string)
    ensures r == [] || !IsSpace(r[|r| - 1])
  {
    s[..|s| - TrailingSpace(s)]
  }

  /** `str.strip()`: the result has no whitespace at either end. */
  function Trim(s: string): (r: string)
    ensures Bare(r)
    ensures |r| <= |s|
  {
    var u := TrimStart(s);
    var r := TrimEnd(u);
    assert r != [] ==> r[0] == u[0];
    r
  }

  /**
   * `Trim(s)` is the contiguous slice `s[i..j]` of its input, and what lies
   * outside the slice is whitespace only.
   */
  lemma TrimIsSlice(s: string) returns (i: nat, j: nat)
    ensures i <= j <= |s|
    ensures Trim(s) == s[i..j]
    ensures AllSpace(s[..i]) && AllSpace(s[j..])
  {
    i := LeadingSpace(s);
    var u := s[i..];
    var k := TrailingSpace(u);
    j := i + |u| - k;
    assert Trim(s) == u[..|u| - k] == s[i..j];
    assert s[j..] == u[|u| - k..];
  }

  /** Whitespace in front of a part that does not start with whitespace is exactly the leading run. */
  lemma {:induction false} LeadingSpaceOf(a: string, t: string)
    requires AllSpace(a)
    requires t == [] || !IsSpace(t[0])
    ensures LeadingSpace(a + t) == |a|
  {
    if a != [] {
      assert (a + t)[1..] == a[1..] + t;
      LeadingSpaceOf(a[1..], t);
    }
  }

  /** Whitespace after a part that does not end with whitespace is exactly the trailing run. */
  lemma {:induction false} TrailingSpaceOf(t: string, b: string)
    requires AllSpace(b)
    requires t == [] || !IsSpace(t[|t| - 1])
    ensures TrailingSpace(t + b) == |b|
  {
    if b != [] {
      assert (t + b)[..|t + b| - 1] == t + b[..|b| - 1];
      TrailingSpaceOf(t, b[..|b| - 1]);
    }
  }

  /**
   * Trim is characterised by its result: for any split `s == a + r + b` with
   * whitespace-only `a` and `b` and a bare `r`, `Trim(s)` is `r`.
   */
  lemma TrimUnique(a: string, r: string, b: string)
    requires AllSpace(a) && AllSpace(b) && Bare(r)
    ensures Trim(a + r + b) == r
  {
    var s := a + r + b;
    if r == [] {
      assert s == (a + b) + [];
      assert AllSpace(a + b);
      LeadingSpaceOf(a + b, []);
      assert TrimStart(s) == [];
    } else {
      assert s == a + (r + b);
      LeadingSpaceOf(a, r + b);
      assert TrimStart(s) == r + b;
      TrailingSpaceOf(r, b);
      assert TrimEnd(r + b) == r;
    }
  }

  /** Trimming twice is the same as trimming once. */
  lemma TrimIdempotent(s: string)
    ensures Trim(Trim(s)) == Trim(s)
  {
    var r := Trim(s);
    assert [] + r + [] == r;
    TrimUnique([], r, []);
  }

  lemma AllSpaceConcat(x: string, y: string)
    requires AllSpace(x) && AllSpace(y)
    ensures AllSpace(x + y)
  {
    forall i | 0 <= i < |x + y|
      ensures IsSpace((x + y)[i])
    {
      if i >= |x| {
        assert (x + y)[i] == y[i - |x|];
      }
    }
  }

  lemma Regroup(a: string, x: string, y: string, z: string, b: string)
    ensures a + (x + y + z) + b == (a + x) + y + (z + b)
  {
  }

  /** Whitespace added around a text does not change what `strip()` gives. */
  lemma TrimIgnoresPadding(a: string, s: string, b: string)
    requires AllSpace(a) && AllSpace(b)
    ensures Trim(a + s + b) == Trim(s)
  {
    var i, j := TrimIsSlice(s);
    var r := s[i..j];
    var front, back := s[..i], s[j..];
    assert s == front + r + back;
    var a', b' := a + front, back + b;
    Regroup(a, front, r, back, b);
    AllSpaceConcat(a, front);
    AllSpaceConcat(back, b);
    TrimUnique(a', r, b');
  }
}
