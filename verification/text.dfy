/** Substring search and trimming, as the standard library of the source does them.
    A `string` here is a sequence of Unicode code points; every needle the source
    searches for is ASCII, so finding it in the encoded text is the same search. */
module Text {

  /** `needle` stands in `s` at position `k`. */
  predicate At(s: string, needle: string, k: int) {
    && 0 <= k && k + |needle| <= |s|
    && forall i :: 0 <= i < |needle| ==> s[k + i] == needle[i]
  }

  ghost predicate Occurs(s: string, needle: string) {
    exists k :: At(s, needle, k)
  }

  /** `i` is the first position of `needle` in `s`, or -1 when there is none. */
  predicate First(s: string, needle: string, i: int) {
    && -1 <= i <= |s|
    && (i >= 0 ==> At(s, needle, i))
    && forall k :: 0 <= k <= |s| && (i < 0 || k < i) ==> !At(s, needle, k)
  }

  lemma {:induction false} FirstExists(s: string, needle: string, from: nat)
    requires from <= |s| + 1
    requires forall k :: 0 <= k < from ==> !At(s, needle, k)
    ensures exists i :: First(s, needle, i)
    decreases |s| - from + 1
  {
    if from > |s| {
      assert First(s, needle, -1);
    } else if At(s, needle, from) {
      assert First(s, needle, from);
    } else {
      FirstExists(s, needle, from + 1);
    }
  }

  /** strings.Index */
  function IndexOf(s: string, needle: string): (i: int)
    ensures -1 <= i
    ensures i >= 0 ==> At(s, needle, i)
    ensures forall k :: 0 <= k && (i < 0 || k < i) ==> !At(s, needle, k)
  {
    FirstExists(s, needle, 0);
    var i :| First(s, needle, i);
    i
  }

  /** A needle whose first character is missing does not occur. */
  lemma {:induction false} NeedsFirstChar(s: string, needle: string)
    requires needle != "" && needle[0] !in s
    ensures !Occurs(s, needle)
  {
    forall k ensures !At(s, needle, k) {
      if 0 <= k && k + |needle| <= |s| {
        assert s[k] in s;
        assert s[k + 0] != needle[0];
      }
    }
  }

  lemma {:induction false} AtMeansSlice(s: string, needle: string, k: int)
    requires At(s, needle, k)
    ensures s[k..k + |needle|] == needle
    ensures s == s[..k] + needle + s[k + |needle|..]
  {
  }

  lemma {:induction false} IndexMissing(s: string, needle: string)
    ensures IndexOf(s, needle) < 0 <==> !Occurs(s, needle)
  {
    if IndexOf(s, needle) >= 0 { assert At(s, needle, IndexOf(s, needle)); }
  }

  /** Where an occurrence in `a + b` can stand: in `a`, in `b`, or across the seam. */
  lemma {:induction false} SeamCases(a: string, b: string, p: string, k: int)
    ensures At(a + b, p, k) ==>
              || At(a, p, k)
              || At(b, p, k - |a|)
              || (0 < |a| - k < |p| && 0 < |b|
                  && p[|a| - k] == b[0] && p[|a| - k - 1] == a[|a| - 1])
  {
    if At(a + b, p, k) {
      if k >= |a| {
        forall i | 0 <= i < |p| ensures b[k - |a| + i] == p[i] { assert (a + b)[k + i] == p[i]; }
      } else if k + |p| > |a| {
        assert (a + b)[k + (|a| - k)] == p[|a| - k] && (a + b)[k + (|a| - k - 1)] == p[|a| - k - 1];
      }
    }
  }

  lemma {:induction false} OccursInPart(s: string, i: int, j: int, p: string)
    requires 0 <= i <= j <= |s|
    requires Occurs(s[i..j], p)
    ensures Occurs(s, p)
  {
    var k :| At(s[i..j], p, k);
    forall n | 0 <= n < |p| ensures s[i + k + n] == p[n] { assert s[i..j][k + n] == p[n]; }
    assert At(s, p, i + k);
  }

  /** A boundary character foreign to `p` keeps occurrences on either side of the seam. */
  lemma {:induction false} Separated(a: string, b: string, p: string)
    requires !Occurs(a, p) && !Occurs(b, p)
    requires a == "" || b == "" || b[0] !in p || a[|a| - 1] !in p
    ensures !Occurs(a + b, p)
  {
    forall k ensures !At(a + b, p, k) {
      SeamCases(a, b, p, k);
    }
  }

  ghost predicate Overlaps(p: string, j: int)
    requires 0 <= j <= |p|
  {
    forall i :: 0 <= i < |p| - j ==> p[j + i] == p[i]
  }

  /** No proper suffix of `p` is also a prefix of it, so occurrences of `p` never overlap. */
  ghost predicate Borderless(p: string) {
    p != "" && forall j :: 0 < j < |p| ==> !Overlaps(p, j)
  }

  lemma {:induction false} NoEarlierStart(a: string, p: string, rest: string, k: int)
    requires Borderless(p) && !Occurs(a, p) && 0 <= k < |a|
    ensures !At(a + p + rest, p, k)
  {
    var s := a + p + rest;
    var j := |a| - k;
    if j < |p| {
      assert !Overlaps(p, j);
      var i :| 0 <= i < |p| - j && p[j + i] != p[i];
      assert s[k + (j + i)] == p[i];
    } else {
      assert !At(a, p, k);
      var i :| 0 <= i < |p| && a[k + i] != p[i];
      assert s[k + i] == a[k + i];
    }
  }

  /** Before a borderless `p` the preceding text cannot start an earlier occurrence. */
  lemma {:induction false} FirstAfter(a: string, p: string, rest: string)
    requires Borderless(p) && !Occurs(a, p)
    ensures IndexOf(a + p + rest, p) == |a|
  {
    var s := a + p + rest;
    assert At(s, p, |a|);
    forall k | 0 <= k < |a| ensures !At(s, p, k) {
      NoEarlierStart(a, p, rest, k);
    }
  }

  // ---- trimming -----------------------------------------------------------

  /** unicode.IsSpace */
  predicate IsSpace(c: char) {
    || '\t' <= c <= '\r' || c == ' ' || c == '\U{0085}' || c == '\U{00A0}' || c == '\U{1680}'
    || '\U{2000}' <= c <= '\U{200A}' || c == '\U{2028}' || c == '\U{2029}' || c == '\U{202F}'
    || c == '\U{205F}' || c == '\U{3000}'
  }

  /** The 25 code points with Unicode's White_Space property. */
  const SPACES := "\U{0009}\U{000A}\U{000B}\U{000C}\U{000D} \U{0085}\U{00A0}\U{1680}\U{2000}\U{2001}\U{2002}\U{2003}"
                  + "\U{2004}\U{2005}\U{2006}\U{2007}\U{2008}\U{2009}\U{200A}\U{2028}\U{2029}\U{202F}\U{205F}\U{3000}"

  lemma {:induction false} SpacesAreListed(c: char)
    ensures IsSpace(c) <==> c in SPACES
  {
    if IsSpace(c) {
      assert '\t' <= c <= '\r' ==> c == SPACES[c as int - 9];
      assert '\U{2000}' <= c <= '\U{200A}' ==> c == SPACES[c as int - 0x2000 + 9];
      assert SPACES[5] == ' ' && SPACES[6] == '\U{0085}' && SPACES[7] == '\U{00A0}' && SPACES[8] == '\U{1680}';
      assert SPACES[20] == '\U{2028}' && SPACES[21] == '\U{2029}' && SPACES[22] == '\U{202F}';
      assert SPACES[23] == '\U{205F}' && SPACES[24] == '\U{3000}';
    }
  }

  ghost predicate Blank(s: string) {
    forall i :: 0 <= i < |s| ==> IsSpace(s[i])
  }

  /** Neither end is white space. */
  predicate Tight(s: string) {
    s == "" || (!IsSpace(s[0]) && !IsSpace(s[|s| - 1]))
  }

  /** The first position at or after `i` that is not white space. */
  function SkipSpace(s: string, i: nat): (j: nat)
    requires i <= |s|
    ensures i <= j <= |s| && (j < |s| ==> !IsSpace(s[j]))
    ensures forall k :: i <= k < j ==> IsSpace(s[k])
    decreases |s| - i
  {
    if i < |s| && IsSpace(s[i]) then SkipSpace(s, i + 1) else i
  }

  /** The end of `s[..j]` without its trailing white space, not going below `i`. */
  function CutSpace(s: string, i: nat, j: nat): (e: nat)
    requires i <= j <= |s|
    ensures i <= e <= j && (i < e ==> !IsSpace(s[e - 1]))
    ensures forall k :: e <= k < j ==> IsSpace(s[k])
    decreases j
  {
    if i < j && IsSpace(s[j - 1]) then CutSpace(s, i, j - 1) else j
  }

  /** strings.TrimSpace */
  function Trim(s: string): string {
    var i := SkipSpace(s, 0);
    s[i..CutSpace(s, i, |s|)]
  }

  /** Trimming cuts white space off both ends and nothing else. */
  lemma {:induction false} TrimSplits(s: string) returns (i: nat, j: nat)
    ensures i <= j <= |s| && Trim(s) == s[i..j] && Tight(s[i..j])
    ensures forall k :: 0 <= k < i || j <= k < |s| ==> IsSpace(s[k])
  {
    i := SkipSpace(s, 0);
    j := CutSpace(s, i, |s|);
  }

  lemma {:induction false} BlankAround(left: string, middle: string, right: string)
    requires Blank(left) && Blank(right)
    ensures var s := left + middle + right;
            && s[|left|..|left| + |middle|] == middle
            && forall k :: 0 <= k < |left| || |left| + |middle| <= k < |s| ==> IsSpace(s[k])
  {
    var s, n := left + middle + right, |left| + |middle|;
    forall k | 0 <= k < |left| || n <= k < |s| ensures IsSpace(s[k]) {
      assert s[k] == if k < |left| then left[k] else right[k - n];
    }
  }

  lemma {:induction false} TightEnds(s: string, i: nat, j: nat)
    requires i < j <= |s| && Tight(s[i..j])
    ensures !IsSpace(s[i]) && !IsSpace(s[j - 1])
  {
    assert s[i..j][0] == s[i] && s[i..j][j - i - 1] == s[j - 1];
  }

  /** ... and there is only one way to do that. */
  lemma {:induction false} TrimUnique(left: string, middle: string, right: string)
    requires Blank(left) && Blank(right) && Tight(middle)
    ensures Trim(left + middle + right) == middle
  {
    var s := left + middle + right;
    var i, j := TrimSplits(s);
    var m, n := |left|, |left| + |middle|;
    BlankAround(left, middle, right);
    if m < n { TightEnds(s, m, n); }
    if i < j { TightEnds(s, i, j); }
    SameSpan(s, i, j, m, n);
  }

  lemma {:induction false} SameSpan(s: string, i: nat, j: nat, m: nat, n: nat)
    requires i <= j <= |s| && m <= n <= |s|
    requires forall k :: 0 <= k < i || j <= k < |s| ==> IsSpace(s[k])
    requires forall k :: 0 <= k < m || n <= k < |s| ==> IsSpace(s[k])
    requires i < j ==> !IsSpace(s[i]) && !IsSpace(s[j - 1])
    requires m < n ==> !IsSpace(s[m]) && !IsSpace(s[n - 1])
    ensures s[i..j] == s[m..n]
  {
  }

  lemma {:induction false} TrimKeepsOut(s: string, p: string)
    requires !Occurs(s, p)
    ensures !Occurs(Trim(s), p)
  {
    var i, j := TrimSplits(s);
    forall k ensures !At(s[i..j], p, k) {
      if At(s[i..j], p, k) { OccursInPart(s, i, j, p); }
    }
  }

  /** A needle without white space survives trimming. */
  lemma {:induction false} TrimKeepsIn(s: string, p: string)
    requires Occurs(s, p) && p != "" && !IsSpace(p[0]) && !IsSpace(p[|p| - 1])
    ensures Occurs(Trim(s), p)
  {
    var i, j := TrimSplits(s);
    var k :| At(s, p, k);
    assert s[k + 0] == p[0] && s[k + (|p| - 1)] == p[|p| - 1];
    assert At(s[i..j], p, k - i);
  }

  /** The concatenation of a list of texts. */
  function Concat(parts: seq<string>): string {
    if parts == [] then "" else Concat(parts[..|parts| - 1]) + parts[|parts| - 1]
  }

  lemma {:induction false} ConcatJoins(a: seq<string>, b: seq<string>, s: string)
    ensures Concat([]) == "" && Concat([s]) == s && Concat(a + b) == Concat(a) + Concat(b)
  {
    if b == [] {
      assert a + b == a;
    } else {
      var front := b[..|b| - 1];
      assert (a + b)[..|a + b| - 1] == a + front;
      ConcatJoins(a, front, s);
    }
  }
}
