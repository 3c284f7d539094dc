/** The last bracketed array of a text (intake.go, extractJSONArray). */
module JsonArray {

  function Weight(c: char): int {
    if c == ']' then 1 else if c == '[' then -1 else 0
  }

  /** Closing minus opening brackets in `s[i..j]`. */
  function Net(s: string, i: int, j: int): int
    requires 0 <= i <= j <= |s|
    decreases j - i
  {
    if i == j then 0 else Weight(s[i]) + Net(s, i + 1, j)
  }

  /** `s[i..j]` has as many opening as closing brackets and no shorter piece ending at `j` has. */
  ghost predicate Shortest(s: string, i: int, j: int) {
    && 0 <= i < j <= |s| && Net(s, i, j) == 0
    && forall k :: i < k < j ==> Net(s, k, j) != 0
  }

  /** The last closing bracket of `s` stands just before `stop`. */
  ghost predicate LastClose(s: string, stop: int) {
    0 < stop <= |s| && s[stop - 1] == ']' && forall k :: stop <= k < |s| ==> s[k] != ']'
  }

  /** What the source promises of its result: the shortest slice ending at the last closing
      bracket with as many opening as closing ones, or nothing exactly when there is none. */
  ghost predicate Extracted(s: string, r: string) {
    if ']' !in s then r == ""
    else exists stop :: LastClose(s, stop) && ExtractedAt(s, stop, r)
  }

  ghost predicate ExtractedAt(s: string, stop: int, r: string)
    requires 0 <= stop <= |s|
  {
    || (exists i :: Shortest(s, i, stop) && r == s[i..stop])
    || (r == "" && forall i :: 0 <= i < stop ==> Net(s, i, stop) != 0)
  }

  /** One past strings.LastIndex for a closing bracket; 0 when there is none. */
  method AfterLastClose(s: string) returns (stop: int)
    ensures stop == 0 ==> ']' !in s
    ensures stop != 0 ==> LastClose(s, stop)
  {
    stop := |s|;
    while stop > 0 && s[stop - 1] != ']'
      invariant 0 <= stop <= |s|
      invariant forall k :: stop <= k < |s| ==> s[k] != ']'
    {
      stop := stop - 1;
    }
  }

  method ExtractJSONArray(s: string) returns (r: string)
    ensures Extracted(s, r)
  {
    var stop := AfterLastClose(s);
    if stop == 0 {
      return "";
    }
    var depth := 0;
    var i := stop;
    while i > 0
      invariant 0 <= i <= stop
      invariant depth == Net(s, i, stop) && depth >= 0
      invariant forall k :: i <= k < stop ==> Net(s, k, stop) > 0
    {
      i := i - 1;
      if s[i] == ']' {
        depth := depth + 1;
      } else if s[i] == '[' {
        depth := depth - 1;
        if depth == 0 {
          assert Shortest(s, i, stop);
          return s[i..stop];
        }
      }
    }
    return "";
  }

  /** The result is determined by the text. */
  lemma {:induction false} ExtractedIsUnique(s: string, r: string, r': string)
    requires Extracted(s, r) && Extracted(s, r')
    ensures r == r'
  {
    if ']' in s {
      var stop :| LastClose(s, stop) && ExtractedAt(s, stop, r);
      var stop' :| LastClose(s, stop') && ExtractedAt(s, stop', r');
      assert stop == stop';
    }
  }

  // ---- balanced text -------------------------------------------------------

  /** Text with nested brackets: plain characters and bracketed parts in sequence. */
  datatype Doc = Nil | Plain(c: char, next: Doc) | Array(items: Doc, next: Doc)

  predicate BracketFree(d: Doc) {
    match d
    case Nil => true
    case Plain(c, next) => Weight(c) == 0 && BracketFree(next)
    case Array(items, next) => BracketFree(items) && BracketFree(next)
  }

  function Print(d: Doc): string {
    match d
    case Nil => ""
    case Plain(c, next) => [c] + Print(next)
    case Array(items, next) => "[" + Print(items) + "]" + Print(next)
  }

  lemma {:induction false} NetSplit(s: string, i: int, m: int, j: int)
    requires 0 <= i <= m <= j <= |s|
    ensures Net(s, i, j) == Net(s, i, m) + Net(s, m, j)
    decreases m - i
  {
    if i < m { NetSplit(s, i + 1, m, j); }
  }

  /** The count only looks at the characters between. */
  lemma {:induction false} NetShift(s: string, i: int, j: int, t: string, d: int)
    requires 0 <= i <= j <= |s| && 0 <= i + d && j + d <= |t|
    requires forall k :: i <= k < j ==> s[k] == t[k + d]
    ensures Net(s, i, j) == Net(t, i + d, j + d)
    decreases j - i
  {
    if i < j { NetShift(s, i + 1, j, t, d); }
  }

  /** Every suffix has at least as many closing as opening brackets, and the whole as many. */
  ghost predicate Balanced(s: string) {
    Net(s, 0, |s|) == 0 && forall k :: 0 <= k <= |s| ==> Net(s, k, |s|) >= 0
  }

  lemma {:induction false} SuffixOfJoin(a: string, b: string, k: int)
    requires 0 <= k <= |a| + |b|
    ensures Net(a + b, k, |a + b|)
            == if k < |a| then Net(a, k, |a|) + Net(b, 0, |b|) else Net(b, k - |a|, |b|)
  {
    var s := a + b;
    if k < |a| {
      NetSplit(s, k, |a|, |s|);
      NetShift(a, k, |a|, s, 0);
      NetShift(b, 0, |b|, s, |a|);
    } else {
      NetShift(b, k - |a|, |b|, s, |a|);
    }
  }

  lemma {:induction false} BalancedJoin(a: string, b: string)
    requires Balanced(a) && Balanced(b)
    ensures Balanced(a + b)
  {
    forall k | 0 <= k <= |a| + |b| ensures Net(a + b, k, |a + b|) >= 0 { SuffixOfJoin(a, b, k); }
    SuffixOfJoin(a, b, 0);
  }

  /** The suffixes of a bracketed text count one more than those of its inside. */
  lemma {:induction false} SuffixOfWrap(a: string, k: int)
    requires 0 < k < |a| + 2
    ensures Net("[" + a + "]", k, |"[" + a + "]"|) == Net(a, k - 1, |a|) + 1
  {
    var s := "[" + a + "]";
    var n := |s|;
    assert Net(s, n - 1, n) == 1 + Net(s, n, n);
    NetSplit(s, k, n - 1, n);
    NetShift(a, k - 1, |a|, s, 1);
  }

  lemma {:induction false} BalancedWrap(a: string)
    requires Balanced(a)
    ensures Balanced("[" + a + "]") && Shortest("[" + a + "]", 0, |"[" + a + "]"|)
  {
    var s := "[" + a + "]";
    forall k | 0 < k < |s| ensures Net(s, k, |s|) > 0 { SuffixOfWrap(a, k); }
    SuffixOfWrap(a, 1);
    assert Net(s, 0, |s|) == -1 + Net(s, 1, |s|);
  }

  lemma {:induction false} PrintedIsBalanced(d: Doc)
    requires BracketFree(d)
    ensures Balanced(Print(d))
  {
    match d
    case Nil =>
    case Plain(c, next) =>
      PrintedIsBalanced(next);
      assert Net([c], 0, 1) == Weight(c) + Net([c], 1, 1);
      BalancedJoin([c], Print(next));
    case Array(items, next) =>
      PrintedIsBalanced(items);
      PrintedIsBalanced(next);
      BalancedWrap(Print(items));
      BalancedJoin("[" + Print(items) + "]", Print(next));
  }

  /** The first place after `from` where the suffix counts even again. */
  lemma {:induction false} Matching(s: string, from: int) returns (j: int)
    requires Balanced(s) && 1 <= from <= |s|
    requires forall k :: 1 <= k <= from ==> Net(s, k, |s|) > 0
    ensures from < j <= |s| && Net(s, j, |s|) == 0
    ensures forall k :: 1 <= k < j ==> Net(s, k, |s|) > 0
    decreases |s| - from
  {
    assert Net(s, |s|, |s|) == 0;
    j := from + 1;
    if Net(s, j, |s|) != 0 {
      j := Matching(s, j);
    }
  }

  lemma {:induction false} BalancedTail(s: string)
    requires Balanced(s) && s != "" && s[0] != '['
    ensures Weight(s[0]) == 0 && Balanced(s[1..])
  {
    var rest := s[1..];
    assert Net(s, 0, |s|) == Weight(s[0]) + Net(s, 1, |s|);
    forall k | 0 <= k <= |rest| ensures Net(rest, k, |rest|) == Net(s, k + 1, |s|) {
      NetShift(rest, k, |rest|, s, 1);
    }
  }

  lemma {:induction false} BalancedPeel(s: string, j: int)
    requires Balanced(s) && 1 < j <= |s| && s[0] == '[' && Net(s, j, |s|) == 0
    requires forall k :: 1 <= k < j ==> Net(s, k, |s|) > 0
    ensures s[j - 1] == ']' && Balanced(s[1..j - 1]) && Balanced(s[j..])
    ensures s == "[" + s[1..j - 1] + "]" + s[j..]
  {
    var n := |s|;
    assert Net(s, 0, n) == -1 + Net(s, 1, n) && Net(s, j - 1, n) == Weight(s[j - 1]) + Net(s, j, n);
    var items, rest := s[1..j - 1], s[j..];
    forall k | 0 <= k <= |items| ensures Net(items, k, |items|) == Net(s, k + 1, n) - 1 {
      NetShift(items, k, |items|, s, 1);
      NetSplit(s, k + 1, j - 1, n);
    }
    forall k | 0 <= k <= |rest| ensures Net(rest, k, |rest|) == Net(s, k + j, n) {
      NetShift(rest, k, |rest|, s, j);
    }
  }

  /** Conversely every balanced text is printed from such a structure. */
  lemma {:induction false} BalancedIsPrinted(s: string) returns (d: Doc)
    requires Balanced(s)
    ensures BracketFree(d) && Print(d) == s
    decreases |s|
  {
    if s == "" {
      return Nil;
    } else if s[0] != '[' {
      BalancedTail(s);
      var next := BalancedIsPrinted(s[1..]);
      return Plain(s[0], next);
    } else {
      assert Net(s, 0, |s|) == -1 + Net(s, 1, |s|);
      var j := Matching(s, 1);
      BalancedPeel(s, j);
      var items := BalancedIsPrinted(s[1..j - 1]);
      var next := BalancedIsPrinted(s[j..]);
      return Array(items, next);
    }
  }

  lemma {:induction false} ShortestInPlace(before: string, a: string, after: string)
    ensures Shortest(before + a + after, |before|, |before| + |a|) <==> Shortest(a, 0, |a|)
  {
    var s := before + a + after;
    var i, j := |before|, |before| + |a|;
    forall k | i <= k <= j ensures Net(s, k, j) == Net(a, k - i, |a|) {
      NetShift(s, k, j, a, -i);
    }
    forall k | 0 <= k <= |a| ensures Net(a, k, |a|) == Net(s, k + i, j) {
      NetShift(a, k, |a|, s, i);
    }
  }

  /** An array printed after any text and before text without a closing bracket comes back
      whole exactly when its inside is balanced. */
  lemma {:induction false} ArrayComesBack(before: string, items: string, after: string)
    requires ']' !in after
    ensures Extracted(before + ("[" + items + "]") + after, "[" + items + "]") <==> Balanced(items)
  {
    var a := "[" + items + "]";
    var s := before + a + after;
    var stop := |before| + |a|;
    assert s[stop - 1] == a[|a| - 1] == ']';
    assert forall k :: stop <= k < |s| ==> s[k] == after[k - stop];
    assert LastClose(s, stop) && s[|before|..stop] == a;
    ShortestInPlace(before, a, after);
    WholeIsBalanced(items);
    if Balanced(items) {
      BalancedWrap(items);
      assert ExtractedAt(s, stop, a);
    }
    if Extracted(s, a) {
      var stop' :| LastClose(s, stop') && ExtractedAt(s, stop', a);
      assert stop' == stop;
      var i :| Shortest(s, i, stop) && a == s[i..stop];
      assert i == |before|;
    }
  }

  lemma {:induction false} WholeIsBalanced(items: string)
    ensures var a := "[" + items + "]"; Shortest(a, 0, |a|) ==> Balanced(items)
  {
    var a := "[" + items + "]";
    var n := |a|;
    if Shortest(a, 0, n) {
      SuffixOfWrap(items, n - 1);
      StaysPositive(a, n - 1);
      forall k | 0 <= k <= |items| ensures Net(items, k, |items|) >= 0 { SuffixOfWrap(items, k + 1); }
      SuffixOfWrap(items, 1);
      assert Net(a, 0, n) == -1 + Net(a, 1, n);
    }
  }

  lemma {:induction false} StaysPositive(a: string, from: int)
    requires 0 < from < |a| && Shortest(a, 0, |a|)
    requires forall k :: from <= k < |a| ==> Net(a, k, |a|) > 0
    ensures forall k :: 0 < k < |a| ==> Net(a, k, |a|) > 0
    decreases from
  {
    if from > 1 {
      assert Net(a, from - 1, |a|) == Weight(a[from - 1]) + Net(a, from, |a|);
      StaysPositive(a, from - 1);
    }
  }
}
