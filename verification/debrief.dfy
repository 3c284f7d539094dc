/** The debrief of a run: a printed list of actions that confirmations edit in place
    (execute.go writeRunDebrief, event_receiver.go handleFileWritten). */
module Debrief {
  import opened Text

  datatype Progress = Dispatched | Committed(sha: string)

  datatype Line =
    | FileWrite(path: string, branch: string, progress: Progress)
    | BranchCreate(name: string, repo: string)
    | Other(topic: string)

  const HEADER := "## Actions Dispatched\n"

  // ---- text cut at its backticks -------------------------------------------

  const TICK := "`"

  datatype Ticked = One(text: string) | More(text: string, rest: Ticked)

  function Glue(c: Ticked): string {
    if c.One? then c.text else c.text + TICK + Glue(c.rest)
  }

  ghost predicate Tickless(c: Ticked) {
    '`' !in c.text && (c.More? ==> Tickless(c.rest))
  }

  function Stamp(p: Progress): string {
    match p
    case Dispatched => "[dispatched]"
    case Committed(sha) => "[committed: " + sha + "]"
  }

  function Named(lead: string, word: string, key: string, value: string, key': string, value': string,
                 tail: string): Ticked {
    More(lead, More(word, More(key, More(value, More(key', More(value', One(tail)))))))
  }

  function Cut(l: Line): Ticked {
    match l
    case FileWrite(path, branch, progress) =>
      Named("- ", "git.file.write", " path=", path, " branch=", branch, " " + Stamp(progress) + "\n")
    case BranchCreate(name, repo) =>
      Named("- ", "git.branch.create", " name=", name, " repo=", repo, " [dispatched]\n")
    case Other(topic) =>
      More("- ", More(topic, One(" [dispatched]\n")))
  }

  function LineText(l: Line): string {
    Glue(Cut(l))
  }

  function Render(lines: seq<Line>): string {
    if lines == [] then HEADER else Render(lines[..|lines| - 1]) + LineText(lines[|lines| - 1])
  }

  /** What a confirmation looks for, and what it puts there. */
  function Entry(path: string, branch: string, progress: Progress): Ticked {
    More("path=", More(path, More(" branch=", More(branch, One(" " + Stamp(progress))))))
  }

  function Marker(path: string, branch: string): string {
    Glue(Entry(path, branch, Dispatched))
  }

  lemma {:induction false} Chain(a: string, b: string, c: string, d: string)
    ensures a + b + c + d == a + (b + c + d) && a + (b + (c + d)) == a + (b + c + d)
  {
  }

  lemma {:induction false} GlueMore(text: string, rest: Ticked)
    ensures Glue(More(text, rest)) == text + ("`" + Glue(rest))
  {
  }

  lemma {:induction false} Ticks(a: string, b: string, y: string)
    ensures a + ("`" + (b + ("`" + y))) == (a + "`" + b + "`") + y
  {
  }

  lemma {:induction false} Flatten(a: string, v: string, b: string, w: string, c: string)
    ensures a + (v + (b + (w + c))) == a + v + b + w + c
  {
  }

  lemma {:induction false} NamedReads(lead: string, word: string, key: string, value: string, key': string,
                                      value': string, tail: string)
    ensures Glue(Named(lead, word, key, value, key', value', tail))
            == (lead + "`" + word + "`" + key + "`") + value + ("`" + key' + "`") + value' + ("`" + tail)
  {
    var c2, c3 := "`" + key' + "`", "`" + tail;
    assert Glue(More(value, More(key', More(value', One(tail))))) == value + (c2 + (value' + c3)) by {
      GlueMore(value', One(tail));
      GlueMore(key', More(value', One(tail)));
      GlueMore(value, More(key', More(value', One(tail))));
      Ticks("", key', value' + c3);
    }
    KeyedReads(lead, word, key, More(value, More(key', More(value', One(tail)))));
    Flatten(lead + "`" + word + "`" + key + "`", value, c2, value', c3);
  }

  lemma {:induction false} KeyedReads(lead: string, word: string, key: string, rest: Ticked)
    ensures Glue(More(lead, More(word, More(key, rest)))) == (lead + "`" + word + "`" + key + "`") + Glue(rest)
  {
    GlueMore(key, rest);
    GlueMore(word, More(key, rest));
    GlueMore(lead, More(word, More(key, rest)));
    Ticks(lead, word, key + ("`" + Glue(rest)));
    Chain(lead + "`" + word + "`", key, "`", Glue(rest));
  }

  lemma {:induction false} DispatchedReads(path: string, branch: string)
    ensures LineText(FileWrite(path, branch, Dispatched))
            == "- `git.file.write` path=`" + path + "` branch=`" + branch + "` [dispatched]\n"
  {
    NamedReads("- ", "git.file.write", " path=", path, " branch=", branch, " [dispatched]\n");
    assert "- " + "`" + "git.file.write" + "`" + " path=" + "`" == "- `git.file.write` path=`";
    assert "`" + " branch=" + "`" == "` branch=`" && "`" + " [dispatched]\n" == "` [dispatched]\n";
    assert " " + Stamp(Dispatched) + "\n" == " [dispatched]\n";
  }

  lemma {:induction false} CommittedReads(path: string, branch: string, sha: string)
    ensures LineText(FileWrite(path, branch, Committed(sha)))
            == "- `git.file.write` path=`" + path + "` branch=`" + branch + ("` [committed: " + sha + "]\n")
  {
    NamedReads("- ", "git.file.write", " path=", path, " branch=", branch, " " + Stamp(Committed(sha)) + "\n");
    assert "- " + "`" + "git.file.write" + "`" + " path=" + "`" == "- `git.file.write` path=`";
    assert "`" + " branch=" + "`" == "` branch=`";
    CommittedTail(sha);
  }

  lemma {:induction false} CommittedTail(sha: string)
    ensures "`" + (" " + Stamp(Committed(sha)) + "\n") == "` [committed: " + sha + "]\n"
  {
    Flatten("`", " ", "[committed: ", sha, "]\n");
    assert "`" + " " + "[committed: " == "` [committed: ";
  }

  lemma {:induction false} BranchReads(name: string, repo: string)
    ensures LineText(BranchCreate(name, repo))
            == "- `git.branch.create` name=`" + name + "` repo=`" + repo + "` [dispatched]\n"
  {
    NamedReads("- ", "git.branch.create", " name=", name, " repo=", repo, " [dispatched]\n");
    assert "- " + "`" + "git.branch.create" + "`" + " name=" + "`" == "- `git.branch.create` name=`";
    assert "`" + " repo=" + "`" == "` repo=`" && "`" + " [dispatched]\n" == "` [dispatched]\n";
  }

  lemma {:induction false} OtherReads(topic: string)
    ensures LineText(Other(topic)) == "- `" + topic + "` [dispatched]\n"
  {
    assert Glue(More(topic, One(" [dispatched]\n"))) == topic + "`" + " [dispatched]\n";
    assert "- " + "`" == "- `" && "`" + " [dispatched]\n" == "` [dispatched]\n";
    Chain("- ", "`", topic, "` [dispatched]\n");
  }

  // ---- strings.ReplaceAll --------------------------------------------------

  function ReplaceAll(s: string, old_: string, new_: string): string
    requires old_ != ""
    decreases |s|
  {
    var i := IndexOf(s, old_);
    if i < 0 then s else s[..i] + new_ + ReplaceAll(s[i + |old_|..], old_, new_)
  }

  lemma {:induction false} IndexInHead(a: string, b: string, needle: string)
    requires IndexOf(a, needle) >= 0
    ensures IndexOf(a + b, needle) == IndexOf(a, needle)
  {
    var i := IndexOf(a, needle);
    assert At(a + b, needle, i);
    forall k | 0 <= k < i ensures !At(a + b, needle, k) {
      assert At(a + b, needle, k) ==> At(a, needle, k);
    }
  }

  lemma {:induction false} IndexPastLine(a: string, b: string, needle: string)
    requires IndexOf(a, needle) < 0 && needle != "" && '\n' !in needle
    requires a == "" || a[|a| - 1] == '\n'
    ensures var j := IndexOf(b, needle); IndexOf(a + b, needle) == if j < 0 then -1 else |a| + j
  {
    forall k ensures At(a + b, needle, k) ==> k >= |a| && At(b, needle, k - |a|) {
      SeamCases(a, b, needle, k);
    }
    var j := IndexOf(b, needle);
    assert j >= 0 ==> At(a + b, needle, |a| + j);
  }

  lemma {:induction false} ReplaceTurn(s: string, old_: string, new_: string, before: string, rest: string)
    requires old_ != "" && IndexOf(s, old_) == |before|
    requires s[..|before|] == before && s[|before| + |old_|..] == rest
    ensures ReplaceAll(s, old_, new_) == before + new_ + ReplaceAll(rest, old_, new_)
  {
  }

  // ---- texts with a needle in known places -----------------------------------

  /** A text with gaps, to be filled with one needle or another. */
  datatype Gaps = End(text: string) | Gap(text: string, rest: Gaps)

  function Fill(g: Gaps, m: string): string {
    if g.End? then g.text else g.text + (m + Fill(g.rest, m))
  }

  /** Searched from the left, the filled text shows the needle at its gaps and nowhere before. */
  ghost predicate Clear(g: Gaps, m: string) {
    if g.End? then !Occurs(g.text, m) else IndexOf(g.text + m, m) == |g.text| && Clear(g.rest, m)
  }

  lemma {:induction false} ReplaceShows(s: string, old_: string, new_: string, d: nat)
    requires d < |old_| && d < |new_| && old_[d] != new_[d] && IndexOf(s, old_) >= 0
    ensures var i := IndexOf(s, old_); var r := ReplaceAll(s, old_, new_);
            i + d < |r| && r[..i] == s[..i] && r[i + d] == new_[d] && s[i + d] == old_[d]
  {
    var i := IndexOf(s, old_);
    ReplaceTurn(s, old_, new_, s[..i], s[i + |old_|..]);
  }

  lemma {:induction false} FillAfter(text: string, m: string, old_: string, new_: string, d: nat, i: nat)
    requires d < |old_| && d < |new_| && old_[..d] == new_[..d]
    requires At(text + old_, old_, i) && i < |text|
    ensures (text + new_ + m)[i + d] == old_[d]
  {
    assert (text + old_)[i + d] == old_[d];
    if i + d >= |text| {
      assert new_[..d][i + d - |text|] == old_[..d][i + d - |text|];
    }
  }

  lemma {:induction false} GoesAstray(text: string, tail: string, filled: string, old_: string, new_: string, d: nat)
    requires d < |old_| && d < |new_| && old_[d] != new_[d] && old_[..d] == new_[..d]
    requires var i := IndexOf(text + old_, old_); 0 <= i < |text| && IndexOf(text + old_ + tail, old_) == i
    ensures ReplaceAll(text + old_ + tail, old_, new_) != text + (new_ + filled)
  {
    var i := IndexOf(text + old_, old_);
    ReplaceShows(text + old_ + tail, old_, new_, d);
    FillAfter(text, filled, old_, new_, d, i);
    assert text + (new_ + filled) == text + new_ + filled;
  }

  /** Replacing everywhere is refilling the gaps exactly when the text is clear: the first
      place where the search goes astray shows in the result. */
  lemma {:induction false} ReplaceRefills(g: Gaps, old_: string, new_: string, d: nat)
    requires d < |old_| && d < |new_| && old_[d] != new_[d] && old_[..d] == new_[..d]
    ensures ReplaceAll(Fill(g, old_), old_, new_) == Fill(g, new_) <==> Clear(g, old_)
  {
    var s := Fill(g, old_);
    if g.End? {
      IndexMissing(s, old_);
      if IndexOf(s, old_) >= 0 { ReplaceShows(s, old_, new_, d); }
    } else {
      var head, tail := g.text + old_, Fill(g.rest, old_);
      assert At(head, old_, |g.text|);
      assert s == head + tail;
      IndexInHead(head, tail, old_);
      var i := IndexOf(head, old_);
      if i == |g.text| {
        ReplaceTurn(s, old_, new_, g.text, tail);
        ReplaceRefills(g.rest, old_, new_, d);
        SameTail(g.text, new_, ReplaceAll(tail, old_, new_), Fill(g.rest, new_));
      } else {
        GoesAstray(g.text, tail, Fill(g.rest, new_), old_, new_, d);
      }
    }
  }

  lemma {:induction false} SameTail(a: string, b: string, c: string, d: string)
    ensures a + b + c == a + (b + d) <==> c == d
  {
    if a + b + c == a + (b + d) {
      assert c == (a + b + c)[|a + b|..] && d == (a + (b + d))[|a + b|..];
    }
  }

  /** One text with gaps after another. */
  function Extend(g: Gaps, h: Gaps): Gaps {
    if g.Gap? then Gap(g.text, Extend(g.rest, h))
    else if h.Gap? then Gap(g.text + h.text, h.rest)
    else End(g.text + h.text)
  }

  lemma {:induction false} FillExtend(g: Gaps, h: Gaps, m: string)
    ensures Fill(Extend(g, h), m) == Fill(g, m) + Fill(h, m)
  {
    if g.Gap? {
      FillExtend(g.rest, h, m);
      assert g.text + (m + (Fill(g.rest, m) + Fill(h, m))) == g.text + (m + Fill(g.rest, m)) + Fill(h, m);
    } else if h.Gap? {
      assert g.text + h.text + (m + Fill(h.rest, m)) == g.text + (h.text + (m + Fill(h.rest, m)));
    }
  }

  ghost predicate EndsLine(g: Gaps) {
    if g.Gap? then EndsLine(g.rest) else g.text != "" && g.text[|g.text| - 1] == '\n'
  }

  /** A needle within a line is searched for line by line. */
  lemma {:induction false} ClearExtend(g: Gaps, h: Gaps, m: string)
    requires EndsLine(g) && m != "" && '\n' !in m
    ensures Clear(Extend(g, h), m) <==> Clear(g, m) && Clear(h, m)
    ensures EndsLine(h) ==> EndsLine(Extend(g, h))
  {
    if g.Gap? {
      ClearExtend(g.rest, h, m);
    } else {
      var a, b := g.text, if h.Gap? then h.text + m else h.text;
      IndexMissing(a, m);
      IndexMissing(b, m);
      IndexMissing(a + b, m);
      if IndexOf(a, m) < 0 {
        IndexPastLine(a, b, m);
      } else {
        IndexInHead(a, b, m);
      }
      if h.Gap? {
        assert g.text + h.text + m == a + b;
        assert At(b, m, |h.text|);
      }
    }
  }

  // ---- where an entry can stand in a line ----------------------------------

  /** `m` reads along `s` from its start, piece by piece. */
  ghost predicate Starts(m: Ticked, s: Ticked) {
    if m.One? then m.text <= s.text
    else s.More? && s.text == m.text && Starts(m.rest, s.rest)
  }

  /** `m` starts at position `k` of the glued `s`, its first piece ending a piece of `s`. */
  ghost predicate StandsAt(m: Ticked, s: Ticked, k: int)
    requires m.More?
  {
    s.More? && 0 <= k &&
    if k <= |s.text| then s.text[k..] == m.text && Starts(m.rest, s.rest)
    else StandsAt(m, s.rest, k - |s.text| - 1)
  }

  lemma {:induction false} SameUpToTick(a: string, b: string, c: string, d: string)
    requires '`' !in a && '`' !in c && a + TICK + b <= c + TICK + d
    ensures a == c && b <= d
  {
    var s, t := a + TICK + b, c + TICK + d;
    assert forall i :: 0 <= i < |a| ==> s[i] == a[i] && a[i] in a;
    assert forall i :: 0 <= i < |c| ==> t[i] == c[i] && c[i] in c;
    assert s[|a|] == '`' && t[|c|] == '`';
    assert forall i :: 0 <= i < |s| ==> s[i] == t[i];
    assert s[|a| + 1..] == b && t[|c| + 1..] == d;
  }

  lemma {:induction false} NoTickNoMatch(a: string, b: string, c: string)
    requires '`' !in c
    ensures !(a + TICK + b <= c)
  {
    assert (a + TICK + b)[|a|] == '`';
    assert forall i :: 0 <= i < |c| ==> c[i] in c;
  }

  lemma {:induction false} PrefixStarts(m: Ticked, s: Ticked)
    requires Tickless(m) && Tickless(s) && Glue(m) <= Glue(s)
    ensures Starts(m, s)
  {
    match (m, s)
    case (One(x), One(_)) =>
    case (One(x), More(y, r)) =>
      var t := y + TICK + Glue(r);
      assert t[|y|] == '`';
      assert forall i :: 0 <= i < |x| ==> x[i] == t[i] && x[i] in x;
      assert t[..|y|] == y;
    case (More(x, q), One(y)) =>
      NoTickNoMatch(x, Glue(q), y);
    case (More(x, q), More(y, r)) =>
      SameUpToTick(x, Glue(q), y, Glue(r));
      PrefixStarts(q, r);
  }

  lemma {:induction false} SliceAt(s: string, p: string, k: int)
    requires At(s, p, k)
    ensures p <= s[k..]
  {
  }

  lemma {:induction false} AtStands(m: Ticked, s: Ticked, k: int)
    requires Tickless(m) && Tickless(s) && m.More? && At(Glue(s), Glue(m), k)
    ensures StandsAt(m, s, k)
    decreases s
  {
    var text := Glue(s);
    SliceAt(text, Glue(m), k);
    if s.One? {
      NoTickNoMatch(m.text, Glue(m.rest), text[k..]);
    } else if k <= |s.text| {
      assert text[k..] == s.text[k..] + TICK + Glue(s.rest);
      SameUpToTick(m.text, Glue(m.rest), s.text[k..], Glue(s.rest));
      PrefixStarts(m.rest, s.rest);
    } else {
      var n := k - |s.text| - 1;
      forall i | 0 <= i < |Glue(m)| ensures Glue(s.rest)[n + i] == Glue(m)[i] { assert text[k + i] == Glue(m)[i]; }
      AtStands(m, s.rest, n);
    }
  }

  // ---- one line ------------------------------------------------------------

  predicate Plain(s: string) {
    '`' !in s && '\n' !in s
  }

  predicate PlainLine(l: Line) {
    match l
    case FileWrite(path, branch, progress) =>
      Plain(path) && Plain(branch) && (progress.Committed? ==> Plain(progress.sha))
    case BranchCreate(name, repo) => Plain(name) && Plain(repo)
    case Other(topic) => Plain(topic)
  }

  /** The structured update. */
  function Mark(l: Line, path: string, branch: string, sha: string): Line {
    if l == FileWrite(path, branch, Dispatched) then l.(progress := Committed(sha)) else l
  }

  lemma {:induction false} DispatchedStamp(progress: Progress)
    ensures " [dispatched]" <= " " + Stamp(progress) + "\n" ==> progress == Dispatched
  {
    if progress.Committed? {
      assert (" " + Stamp(progress) + "\n")[2] == 'c' && " [dispatched]"[2] == 'd';
    }
  }

  function Pieces(c: Ticked): nat {
    if c.One? then 1 else 1 + Pieces(c.rest)
  }

  lemma {:induction false} StartsNeedsPieces(m: Ticked, s: Ticked)
    ensures Starts(m, s) ==> Pieces(m) <= Pieces(s)
  {
    if m.More? && s.More? { StartsNeedsPieces(m.rest, s.rest); }
  }

  lemma {:induction false} StandsNeedsPieces(m: Ticked, s: Ticked, k: int)
    requires m.More?
    ensures StandsAt(m, s, k) ==> Pieces(m) <= Pieces(s)
    decreases s
  {
    if s.More? {
      StartsNeedsPieces(m.rest, s.rest);
      StandsNeedsPieces(m, s.rest, k - |s.text| - 1);
    }
  }

  lemma {:induction false} EntryPieces(l: Line, path: string, branch: string)
    ensures Pieces(Entry(path, branch, Dispatched)) == 5
    ensures Pieces(Cut(l)) == if l.Other? then 3 else 7
    ensures !l.Other? ==> Pieces(Cut(l).rest.rest.rest) == 4
  {
    var m, s := Entry(path, branch, Dispatched), Cut(l);
    assert Pieces(m.rest.rest.rest) == 2 && Pieces(m.rest.rest) == 3;
    assert l.Other? ==> Pieces(s.rest) == 2;
    assert !l.Other? ==> Pieces(s.rest.rest.rest.rest.rest) == 2 && Pieces(s.rest.rest.rest.rest) == 3;
    assert !l.Other? ==> Pieces(s.rest.rest.rest) == 4 && Pieces(s.rest.rest) == 5;
  }

  /** Where a piece can end with the first word of an entry. */
  lemma {:induction false} EndsWithPath(x: string, k: int)
    ensures 0 <= k <= |x| && x[k..] == "path=" ==> |x| == k + 5 && x[k + 1] == 'a' && x[|x| - 1] == '='
  {
    assert "path="[1] == 'a' && "path="[4] == '=';
    if 0 <= k <= |x| && x[k..] == "path=" {
      assert x[k..][1] == x[k + 1] && x[k..][4] == x[k + 4];
    }
  }

  lemma {:induction false} OneStep(m: Ticked, s: Ticked, k: int)
    requires m.More? && StandsAt(m, s, k)
    ensures s.More? && 0 <= k
    ensures k <= |s.text| ==> s.text[k..] == m.text && Starts(m.rest, s.rest)
    ensures k > |s.text| ==> StandsAt(m, s.rest, k - |s.text| - 1)
  {
  }

  lemma {:induction false} EntryInTail(l: Line, path: string, branch: string, k: int)
    requires PlainLine(l) && Plain(path) && Plain(branch) && !l.Other?
    requires StandsAt(Entry(path, branch, Dispatched), Cut(l).rest.rest, k)
    ensures l == FileWrite(path, branch, Dispatched) && k == 1
  {
    var m := Entry(path, branch, Dispatched);
    var s2 := Cut(l).rest.rest;
    var s3, s4, s5 := s2.rest, s2.rest.rest, s2.rest.rest.rest;
    EntryPieces(l, path, branch);
    StandsNeedsPieces(m, s3, k - |s2.text| - 1);
    OneStep(m, s2, k);
    EndsWithPath(s2.text, k);
    assert " name="[2] == 'a' && " name="[1] == 'n' && " path="[1] == 'p' && "path="[0] == 'p';
    assert s2.text[k..][0] == s2.text[k];
    assert Starts(m.rest, s3) && Starts(m.rest.rest, s4) && Starts(m.rest.rest.rest, s5);
    assert Starts(m.rest.rest.rest.rest, s5.rest);
    assert l.FileWrite?;
    DispatchedStamp(l.progress);
    assert " " + Stamp(Dispatched) == " [dispatched]";
  }

  /** An entry stands in a printed line only where the line is that very entry. */
  lemma {:induction false} EntryInLine(l: Line, path: string, branch: string, k: int)
    requires PlainLine(l) && Plain(path) && Plain(branch)
    requires StandsAt(Entry(path, branch, Dispatched), Cut(l), k)
    ensures l == FileWrite(path, branch, Dispatched) && k == 19
  {
    var m, s := Entry(path, branch, Dispatched), Cut(l);
    EntryPieces(l, path, branch);
    StandsNeedsPieces(m, s, k);
    OneStep(m, s, k);
    EndsWithPath(s.text, k);
    OneStep(m, s.rest, k - 3);
    EndsWithPath(s.rest.text, k - 3);
    assert "git.file.write"[13] == 'e' && "git.branch.create"[16] == 'e';
    EntryInTail(l, path, branch, k - 3 - |s.rest.text| - 1);
  }

  lemma {:induction false} NamedIsTickless(a: string, b: string, c: string, d: string, e: string, f: string, g: string)
    requires '`' !in a && '`' !in b && '`' !in c && '`' !in d && '`' !in e && '`' !in f && '`' !in g
    ensures Tickless(Named(a, b, c, d, e, f, g))
  {
    var s := Named(a, b, c, d, e, f, g);
    assert Tickless(s.rest.rest.rest.rest.rest) && Tickless(s.rest.rest.rest.rest);
    assert Tickless(s.rest.rest.rest) && Tickless(s.rest.rest);
  }

  lemma {:induction false} CutIsTickless(l: Line)
    requires PlainLine(l)
    ensures Tickless(Cut(l))
  {
    match l
    case FileWrite(path, branch, progress) =>
      NamedIsTickless("- ", "git.file.write", " path=", path, " branch=", branch, " " + Stamp(progress) + "\n");
    case BranchCreate(name, repo) =>
      NamedIsTickless("- ", "git.branch.create", " name=", name, " repo=", repo, " [dispatched]\n");
    case Other(topic) =>
      assert Tickless(Cut(l).rest.rest);
  }

  lemma {:induction false} EntryIsTickless(path: string, branch: string)
    requires Plain(path) && Plain(branch)
    ensures Tickless(Entry(path, branch, Dispatched))
  {
    var m := Entry(path, branch, Dispatched);
    assert Tickless(m.rest.rest.rest.rest) && Tickless(m.rest.rest.rest) && Tickless(m.rest.rest);
  }

  lemma {:induction false} MarkerIsOneLine(path: string, branch: string)
    ensures |Marker(path, branch)| > 1
    ensures '\n' !in path && '\n' !in branch ==> '\n' !in Marker(path, branch)
  {
    var m := Entry(path, branch, Dispatched);
    assert |Glue(m)| >= |m.text| == 5;
    if '\n' !in path && '\n' !in branch {
      assert '\n' !in Glue(m.rest.rest.rest.rest);
      assert '\n' !in Glue(m.rest.rest.rest);
      assert '\n' !in Glue(m.rest.rest);
      assert '\n' !in Glue(m.rest);
    }
  }

  const LEAD := "- `git.file.write` "

  lemma {:induction false} GlueNamed(a: string, b: string, c: string, d: string, e: string, f: string, g: string)
    ensures Glue(Named(a, b, c, d, e, f, g))
            == a + TICK + (b + TICK + (c + TICK + (d + TICK + (e + TICK + (f + TICK + g)))))
  {
    var s := Named(a, b, c, d, e, f, g);
    assert Glue(s.rest.rest.rest.rest.rest) == f + TICK + g;
    assert Glue(s.rest.rest.rest.rest) == e + TICK + (f + TICK + g);
    assert Glue(s.rest.rest.rest) == d + TICK + (e + TICK + (f + TICK + g));
    assert Glue(s.rest.rest) == c + TICK + (d + TICK + (e + TICK + (f + TICK + g)));
  }

  lemma {:induction false} GlueEntry(path: string, branch: string, progress: Progress)
    ensures Glue(Entry(path, branch, progress))
            == "path=" + TICK + (path + TICK + (" branch=" + TICK + (branch + TICK + (" " + Stamp(progress)))))
  {
    var m := Entry(path, branch, progress);
    assert Glue(m.rest.rest.rest) == branch + TICK + (" " + Stamp(progress));
    assert Glue(m.rest.rest) == " branch=" + TICK + (branch + TICK + (" " + Stamp(progress)));
  }

  lemma {:induction false} MoveEnd(a: string, b: string, c: string)
    ensures a + TICK + (b + c) == a + TICK + b + c
  {
  }

  /** A file-write line is its entry between a fixed lead and a newline. */
  lemma {:induction false} LineHoldsEntry(path: string, branch: string, progress: Progress)
    ensures LineText(FileWrite(path, branch, progress)) == LEAD + Glue(Entry(path, branch, progress)) + "\n"
  {
    var g := " " + Stamp(progress);
    GlueNamed("- ", "git.file.write", " path=", path, " branch=", branch, g + "\n");
    GlueEntry(path, branch, progress);
    MoveEnd(branch, g, "\n");
    MoveEnd(" branch=", branch + TICK + g, "\n");
    MoveEnd(path, " branch=" + TICK + (branch + TICK + g), "\n");
    var body := path + TICK + (" branch=" + TICK + (branch + TICK + g));
    assert " path=" == " " + "path=";
    assert LEAD == "- " + TICK + "git.file.write" + TICK + " ";
    LeadMoves("- ", "git.file.write", " ", "path=", body, "\n");
  }

  lemma {:induction false} LeadMoves(a: string, b: string, c: string, d: string, body: string, nl: string)
    ensures a + TICK + (b + TICK + (c + d + TICK + (body + nl)))
            == a + TICK + b + TICK + c + (d + TICK + body) + nl
  {
  }

  lemma {:induction false} LineEndsLine(l: Line)
    ensures LineText(l) != "" && LineText(l)[|LineText(l)| - 1] == '\n'
  {
    match l
    case FileWrite(path, branch, progress) => LineHoldsEntry(path, branch, progress);
    case BranchCreate(_, _) =>
      var s := Cut(l);
      assert Glue(s.rest.rest.rest.rest.rest.rest)[|" [dispatched]\n"| - 1] == '\n';
      assert Glue(s.rest.rest.rest.rest.rest) == s.rest.rest.rest.rest.rest.text + TICK + " [dispatched]\n";
      EndsAlike(s.rest.rest.rest.rest);
      EndsAlike(s.rest.rest.rest);
      EndsAlike(s.rest.rest);
      EndsAlike(s.rest);
      EndsAlike(s);
    case Other(_) =>
      EndsAlike(Cut(l).rest);
      EndsAlike(Cut(l));
  }

  lemma {:induction false} EndsAlike(c: Ticked)
    requires c.More?
    ensures var r := Glue(c.rest); r != "" ==> Glue(c) != "" && Glue(c)[|Glue(c)| - 1] == r[|r| - 1]
  {
  }

  lemma {:induction false} RenderEndsLine(lines: seq<Line>)
    ensures Render(lines) != "" && Render(lines)[|Render(lines)| - 1] == '\n'
  {
    if lines != [] {
      LineEndsLine(lines[|lines| - 1]);
    }
  }

  // ---- the edit ------------------------------------------------------------

  /** handleFileWritten's rewriting of a debrief. */
  function Confirm(text: string, path: string, branch: string, sha: string): string {
    MarkerIsOneLine(path, branch);
    ReplaceAll(text, Marker(path, branch), Glue(Entry(path, branch, Committed(sha))))
  }

  lemma {:induction false} EntriesDiffer(path: string, branch: string, sha: string)
    ensures var old_, new_ := Marker(path, branch), Glue(Entry(path, branch, Committed(sha)));
            exists d: nat :: d < |old_| && d < |new_| && old_[d] != new_[d] && old_[..d] == new_[..d]
  {
    GlueEntry(path, branch, Dispatched);
    GlueEntry(path, branch, Committed(sha));
    StampsPart(sha);
    PartAt("path=", path, " branch=", branch, " [", "dispatched]", "committed: " + sha + "]");
  }

  lemma {:induction false} StampsPart(sha: string)
    ensures " " + Stamp(Dispatched) == " [" + "dispatched]"
    ensures " " + Stamp(Committed(sha)) == " [" + ("committed: " + sha + "]")
  {
  }

  lemma {:induction false} PartAt(a: string, b: string, c: string, d: string, e: string, u: string, v: string)
    requires u != "" && v != "" && u[0] != v[0]
    ensures var x, y := a + TICK + (b + TICK + (c + TICK + (d + TICK + (e + u)))),
                        a + TICK + (b + TICK + (c + TICK + (d + TICK + (e + v))));
            exists i: nat :: i < |x| && i < |y| && x[i] != y[i] && x[..i] == y[..i]
  {
    var start := a + TICK + (b + TICK + (c + TICK + (d + TICK + e)));
    var x, y := a + TICK + (b + TICK + (c + TICK + (d + TICK + (e + u)))),
                a + TICK + (b + TICK + (c + TICK + (d + TICK + (e + v))));
    Reassociate(a, b, c, d, e, u);
    Reassociate(a, b, c, d, e, v);
    assert x == start + u && y == start + v;
    assert x[|start|] == u[0] && y[|start|] == v[0] && x[..|start|] == start == y[..|start|];
  }

  lemma {:induction false} Reassociate(a: string, b: string, c: string, d: string, e: string, u: string)
    ensures a + TICK + (b + TICK + (c + TICK + (d + TICK + (e + u))))
            == a + TICK + (b + TICK + (c + TICK + (d + TICK + e))) + u
  {
  }

  /** A line around the entry that a confirmation is for, if it holds one. */
  function LineGaps(l: Line, path: string, branch: string): Gaps {
    if l == FileWrite(path, branch, Dispatched) then Gap(LEAD, End("\n")) else End(LineText(l))
  }

  /** The whole debrief around those entries. */
  function DebriefGaps(lines: seq<Line>, path: string, branch: string): Gaps {
    if lines == [] then End(HEADER)
    else Extend(DebriefGaps(lines[..|lines| - 1], path, branch), LineGaps(lines[|lines| - 1], path, branch))
  }

  lemma {:induction false} FillLine(l: Line, path: string, branch: string, sha: string)
    ensures Fill(LineGaps(l, path, branch), Marker(path, branch)) == LineText(l)
    ensures Fill(LineGaps(l, path, branch), Glue(Entry(path, branch, Committed(sha))))
            == LineText(Mark(l, path, branch, sha))
  {
    if l == FileWrite(path, branch, Dispatched) {
      LineHoldsEntry(path, branch, Dispatched);
      LineHoldsEntry(path, branch, Committed(sha));
      assert Fill(End("\n"), Marker(path, branch)) == "\n";
      assert Fill(End("\n"), Glue(Entry(path, branch, Committed(sha)))) == "\n";
    }
  }

  lemma {:induction false} FillDebrief(lines: seq<Line>, path: string, branch: string, sha: string)
    ensures Fill(DebriefGaps(lines, path, branch), Marker(path, branch)) == Render(lines)
    ensures Fill(DebriefGaps(lines, path, branch), Glue(Entry(path, branch, Committed(sha))))
            == Render(MarkAll(lines, path, branch, sha))
  {
    var old_, new_ := Marker(path, branch), Glue(Entry(path, branch, Committed(sha)));
    if lines != [] {
      var front, last := lines[..|lines| - 1], lines[|lines| - 1];
      FillDebrief(front, path, branch, sha);
      FillLine(last, path, branch, sha);
      FillExtend(DebriefGaps(front, path, branch), LineGaps(last, path, branch), old_);
      FillExtend(DebriefGaps(front, path, branch), LineGaps(last, path, branch), new_);
      var marked := MarkAll(lines, path, branch, sha);
      assert marked[..|marked| - 1] == MarkAll(front, path, branch, sha);
    }
  }

  /** The line is the entry confirmed, or does not spell it. */
  ghost predicate Unmistaken(l: Line, path: string, branch: string) {
    l == FileWrite(path, branch, Dispatched) || !Occurs(LineText(l), Marker(path, branch))
  }

  /** What no confirmation can mistake: the lead of a file-write line, and the header. */
  lemma {:induction false} LineIsClear(l: Line, path: string, branch: string)
    ensures Clear(LineGaps(l, path, branch), Marker(path, branch))
            <==> Unmistaken(l, path, branch)
  {
    var m := Marker(path, branch);
    MarkerStarts(path, branch);
    if l == FileWrite(path, branch, Dispatched) {
      assert At(LEAD + m, m, |LEAD|);
      forall k | 0 <= k < |LEAD| ensures !At(LEAD + m, m, k) {
        assert (LEAD + m)[k + 0] == LEAD[k] && LEAD[k] != 'p';
      }
      NeedsChar("\n", m, 0);
    }
  }

  lemma {:induction false} MarkerStarts(path: string, branch: string)
    ensures |Marker(path, branch)| > 5 && Marker(path, branch)[0] == 'p' && Marker(path, branch)[4] == '='
  {
    GlueEntry(path, branch, Dispatched);
    assert "path="[0] == 'p' && "path="[4] == '=';
  }

  lemma {:induction false} NeedsChar(s: string, needle: string, i: nat)
    requires i < |needle| && needle[i] !in s
    ensures !Occurs(s, needle)
  {
    forall k ensures !At(s, needle, k) {
      if 0 <= k && k + |needle| <= |s| { assert s[k + i] in s; }
    }
  }

  /** On one line, whatever it holds, the edit is the update exactly when the line is the entry
      confirmed or does not spell it. */
  lemma {:induction false} ConfirmLine(l: Line, path: string, branch: string, sha: string)
    ensures Confirm(LineText(l), path, branch, sha) == LineText(Mark(l, path, branch, sha))
            <==> Unmistaken(l, path, branch)
  {
    var old_, new_ := Marker(path, branch), Glue(Entry(path, branch, Committed(sha)));
    EntriesDiffer(path, branch, sha);
    var d: nat :| d < |old_| && d < |new_| && old_[d] != new_[d] && old_[..d] == new_[..d];
    FillLine(l, path, branch, sha);
    ReplaceRefills(LineGaps(l, path, branch), old_, new_, d);
    LineIsClear(l, path, branch);
  }

  function MarkAll(lines: seq<Line>, path: string, branch: string, sha: string): (marked: seq<Line>)
    ensures |marked| == |lines|
    ensures forall i :: 0 <= i < |lines| ==> marked[i] == Mark(lines[i], path, branch, sha)
  {
    seq(|lines|, i requires 0 <= i < |lines| => Mark(lines[i], path, branch, sha))
  }

  ghost predicate PlainLines(lines: seq<Line>) {
    forall i :: 0 <= i < |lines| ==> PlainLine(lines[i])
  }

  /** Editing the printed text is printing the updated list exactly when a search from the left
      finds the confirmed entry first at the lines that are it: for any lines and any names. */
  lemma {:induction false} EditIsUpdate(lines: seq<Line>, path: string, branch: string, sha: string)
    ensures Confirm(Render(lines), path, branch, sha) == Render(MarkAll(lines, path, branch, sha))
            <==> Clear(DebriefGaps(lines, path, branch), Marker(path, branch))
  {
    var old_, new_ := Marker(path, branch), Glue(Entry(path, branch, Committed(sha)));
    EntriesDiffer(path, branch, sha);
    var d: nat :| d < |old_| && d < |new_| && old_[d] != new_[d] && old_[..d] == new_[..d];
    FillDebrief(lines, path, branch, sha);
    ReplaceRefills(DebriefGaps(lines, path, branch), old_, new_, d);
  }

  /** No line but the confirmed entry itself spells the entry. */
  ghost predicate Unspelled(lines: seq<Line>, path: string, branch: string) {
    forall i :: 0 <= i < |lines| ==> Unmistaken(lines[i], path, branch)
  }

  lemma {:induction false} UnspelledSnoc(front: seq<Line>, last: Line, path: string, branch: string)
    ensures Unspelled(front + [last], path, branch)
            <==> Unspelled(front, path, branch) && Unmistaken(last, path, branch)
  {
    var lines := front + [last];
    if Unspelled(lines, path, branch) {
      assert forall i :: 0 <= i < |front| ==> front[i] == lines[i];
      assert lines[|front|] == last;
    }
  }

  lemma {:induction false} HeaderIsClear(path: string, branch: string)
    ensures Clear(End(HEADER), Marker(path, branch)) && EndsLine(End(HEADER))
  {
    MarkerStarts(path, branch);
    NeedsChar(HEADER, Marker(path, branch), 4);
  }

  lemma {:induction false} LineGapsEndLine(l: Line, path: string, branch: string)
    ensures EndsLine(LineGaps(l, path, branch))
  {
    LineEndsLine(l);
    assert EndsLine(End("\n"));
  }

  lemma {:induction false} DebriefIsClear(lines: seq<Line>, path: string, branch: string)
    requires '\n' !in Marker(path, branch)
    ensures Clear(DebriefGaps(lines, path, branch), Marker(path, branch)) <==> Unspelled(lines, path, branch)
    ensures EndsLine(DebriefGaps(lines, path, branch))
  {
    if lines == [] {
      HeaderIsClear(path, branch);
    } else {
      var front, last := lines[..|lines| - 1], lines[|lines| - 1];
      assert lines == front + [last];
      DebriefIsClear(front, path, branch);
      LineIsClear(last, path, branch);
      LineGapsEndLine(last, path, branch);
      MarkerStarts(path, branch);
      ClearExtend(DebriefGaps(front, path, branch), LineGaps(last, path, branch), Marker(path, branch));
      UnspelledSnoc(front, last, path, branch);
    }
  }

  /** For names without line breaks that can be read off the lines one by one. */
  lemma {:induction false} EditIsUpdateByLine(lines: seq<Line>, path: string, branch: string, sha: string)
    requires '\n' !in path && '\n' !in branch
    ensures Confirm(Render(lines), path, branch, sha) == Render(MarkAll(lines, path, branch, sha))
            <==> Unspelled(lines, path, branch)
  {
    MarkerIsOneLine(path, branch);
    EditIsUpdate(lines, path, branch, sha);
    DebriefIsClear(lines, path, branch);
  }

  lemma {:induction false} PlainIsUnspelled(lines: seq<Line>, path: string, branch: string)
    requires PlainLines(lines) && Plain(path) && Plain(branch)
    ensures Unspelled(lines, path, branch)
  {
    EntryIsTickless(path, branch);
    forall i, k | 0 <= i < |lines| && At(LineText(lines[i]), Marker(path, branch), k)
      ensures lines[i] == FileWrite(path, branch, Dispatched)
    {
      CutIsTickless(lines[i]);
      AtStands(Entry(path, branch, Dispatched), Cut(lines[i]), k);
      EntryInLine(lines[i], path, branch, k);
    }
  }

  /** Among names without backticks and line breaks the edit is always the update. */
  lemma {:induction false} EditRefinesUpdate(lines: seq<Line>, path: string, branch: string, sha: string)
    requires PlainLines(lines) && Plain(path) && Plain(branch)
    ensures Confirm(Render(lines), path, branch, sha) == Render(MarkAll(lines, path, branch, sha))
  {
    PlainIsUnspelled(lines, path, branch);
    EditIsUpdateByLine(lines, path, branch, sha);
  }

  datatype Confirmation = Confirmation(path: string, branch: string, sha: string)

  predicate PlainConfirmation(c: Confirmation) {
    Plain(c.path) && Plain(c.branch) && Plain(c.sha)
  }

  /** Deliveries one after another. */
  function ConfirmAll(text: string, cs: seq<Confirmation>): string {
    if cs == [] then text
    else
      var c := cs[|cs| - 1];
      Confirm(ConfirmAll(text, cs[..|cs| - 1]), c.path, c.branch, c.sha)
  }

  /** A file-write line takes the first confirmation that names it. */
  function Final(l: Line, cs: seq<Confirmation>): Line {
    if cs == [] then l
    else
      var c := cs[|cs| - 1];
      Mark(Final(l, cs[..|cs| - 1]), c.path, c.branch, c.sha)
  }

  function FinalAll(lines: seq<Line>, cs: seq<Confirmation>): (r: seq<Line>)
    ensures |r| == |lines| && forall i :: 0 <= i < |lines| ==> r[i] == Final(lines[i], cs)
  {
    seq(|lines|, i requires 0 <= i < |lines| => Final(lines[i], cs))
  }

  lemma {:induction false} FinalIsPlain(l: Line, cs: seq<Confirmation>)
    requires PlainLine(l) && forall i :: 0 <= i < |cs| ==> PlainConfirmation(cs[i])
    ensures PlainLine(Final(l, cs))
  {
    if cs != [] {
      FinalIsPlain(l, cs[..|cs| - 1]);
    }
  }

  /** Any sequence of deliveries edits the text as it updates the list. */
  lemma {:induction false} DeliveriesRefine(lines: seq<Line>, cs: seq<Confirmation>)
    requires PlainLines(lines) && forall i :: 0 <= i < |cs| ==> PlainConfirmation(cs[i])
    ensures ConfirmAll(Render(lines), cs) == Render(FinalAll(lines, cs))
    decreases |cs|
  {
    if cs == [] {
      assert FinalAll(lines, cs) == lines;
    } else {
      var front, c := cs[..|cs| - 1], cs[|cs| - 1];
      DeliveriesRefine(lines, front);
      forall i | 0 <= i < |lines| ensures PlainLine(FinalAll(lines, front)[i]) { FinalIsPlain(lines[i], front); }
      EditRefinesUpdate(FinalAll(lines, front), c.path, c.branch, c.sha);
      assert MarkAll(FinalAll(lines, front), c.path, c.branch, c.sha) == FinalAll(lines, cs);
    }
  }

  /** A dispatched write stays so exactly while no delivery names it. */
  lemma {:induction false} FinalDispatched(path: string, branch: string, cs: seq<Confirmation>)
    ensures Final(FileWrite(path, branch, Dispatched), cs).FileWrite?
    ensures Final(FileWrite(path, branch, Dispatched), cs).progress == Dispatched
            <==> forall i :: 0 <= i < |cs| ==> cs[i].path != path || cs[i].branch != branch
    ensures var l := Final(FileWrite(path, branch, Dispatched), cs); l.path == path && l.branch == branch
  {
    if cs != [] {
      var front := cs[..|cs| - 1];
      FinalDispatched(path, branch, front);
      assert forall i :: 0 <= i < |front| ==> front[i] == cs[i];
    }
  }

  /** Deliveries for different files commute on the text. */
  lemma {:induction false} ConfirmationsCommute(lines: seq<Line>, c: Confirmation, d: Confirmation)
    requires PlainLines(lines) && PlainConfirmation(c) && PlainConfirmation(d)
    requires c.path != d.path || c.branch != d.branch
    ensures ConfirmAll(Render(lines), [c, d]) == ConfirmAll(Render(lines), [d, c])
  {
    DeliveriesRefine(lines, [c, d]);
    DeliveriesRefine(lines, [d, c]);
    forall i | 0 <= i < |lines| ensures Final(lines[i], [c, d]) == Final(lines[i], [d, c]) {
      TwoDeliveries(lines[i], c, d);
      TwoDeliveries(lines[i], d, c);
    }
    assert FinalAll(lines, [c, d]) == FinalAll(lines, [d, c]);
  }

  lemma {:induction false} TwoDeliveries(l: Line, c: Confirmation, d: Confirmation)
    ensures Final(l, [c, d]) == Mark(Mark(l, c.path, c.branch, c.sha), d.path, d.branch, d.sha)
  {
    assert [c, d][..1] == [c] && [c][..0] == [];
    assert Final(l, [c]) == Mark(Final(l, []), c.path, c.branch, c.sha);
  }

  /** A repeated delivery changes nothing, whatever commit it names. */
  lemma {:induction false} RepeatChangesNothing(lines: seq<Line>, c: Confirmation, sha: string)
    requires PlainLines(lines) && PlainConfirmation(c)
    ensures var once := Confirm(Render(lines), c.path, c.branch, c.sha);
            Confirm(once, c.path, c.branch, sha) == once
  {
    var marked := MarkAll(lines, c.path, c.branch, c.sha);
    EditRefinesUpdate(lines, c.path, c.branch, c.sha);
    EditRefinesUpdate(marked, c.path, c.branch, sha);
    assert MarkAll(marked, c.path, c.branch, sha) == marked;
  }

  /** Once every file has been confirmed, in any order, the text shows no dispatched write. */
  lemma {:induction false} AllConfirmed(lines: seq<Line>, cs: seq<Confirmation>)
    requires PlainLines(lines) && forall i :: 0 <= i < |cs| ==> PlainConfirmation(cs[i])
    requires forall i :: 0 <= i < |lines| && lines[i].FileWrite? ==>
               lines[i].progress == Dispatched
               && exists j :: 0 <= j < |cs| && cs[j].path == lines[i].path && cs[j].branch == lines[i].branch
    ensures ConfirmAll(Render(lines), cs) == Render(FinalAll(lines, cs))
    ensures forall i :: 0 <= i < |lines| && lines[i].FileWrite? ==>
              FinalAll(lines, cs)[i].FileWrite? && FinalAll(lines, cs)[i].progress.Committed?
  {
    DeliveriesRefine(lines, cs);
    forall i | 0 <= i < |lines| && lines[i].FileWrite?
      ensures FinalAll(lines, cs)[i].FileWrite? && FinalAll(lines, cs)[i].progress.Committed?
    {
      FinalDispatched(lines[i].path, lines[i].branch, cs);
    }
  }

  lemma {:induction false} EditShows(text: string, path: string, branch: string, sha: string)
    requires Occurs(text, Marker(path, branch))
    ensures Confirm(text, path, branch, sha) != text
  {
    var old_, new_ := Marker(path, branch), Glue(Entry(path, branch, Committed(sha)));
    IndexMissing(text, old_);
    MarkerIsOneLine(path, branch);
    var i := IndexOf(text, old_);
    ReplaceTurn(text, old_, new_, text[..i], text[i + |old_|..]);
    GlueEntry(path, branch, Dispatched);
    GlueEntry(path, branch, Committed(sha));
    var d := |"path=" + TICK + path + TICK + " branch=" + TICK + branch + TICK| + 2;
    assert old_[d] == (" " + Stamp(Dispatched))[2] == 'd';
    assert new_[d] == (" " + Stamp(Committed(sha)))[2] == 'c';
    assert text[i + d] == 'd' && Confirm(text, path, branch, sha)[i + d] == 'c';
  }

  /** A topic that spells an entry up to its progress. */
  function Spelled(path: string, branch: string): string {
    "x " + "path=" + TICK + path + TICK + " branch=" + TICK + branch
  }

  lemma {:induction false} SpelledHoldsMarker(path: string, branch: string)
    ensures LineText(Other(Spelled(path, branch))) == "- " + TICK + "x " + Marker(path, branch) + "\n"
  {
    var topic := Spelled(path, branch);
    GlueEntry(path, branch, Dispatched);
    assert Glue(More(topic, One(" [dispatched]\n"))) == topic + TICK + " [dispatched]\n";
    assert " [dispatched]\n" == " " + Stamp(Dispatched) + "\n";
    TopicSpells("- ", "x ", "path=", path, " branch=", branch, " " + Stamp(Dispatched));
  }

  lemma {:induction false} OccursWithin(a: string, b: string, c: string, needle: string)
    ensures Occurs(a + (b + needle + c), needle)
  {
    assert At(a + (b + needle + c), needle, |a| + |b|);
  }

  /** Backticks break the refinement: a topic that spells an entry is edited like one. */
  lemma {:induction false} TickedTopicIsEdited(path: string, branch: string, sha: string)
    ensures var lines := [Other(Spelled(path, branch))];
            Confirm(Render(lines), path, branch, sha) != Render(MarkAll(lines, path, branch, sha))
  {
    var lines := [Other(Spelled(path, branch))];
    assert lines[..0] == [];
    assert Render(lines) == Render([]) + LineText(lines[0]) == HEADER + LineText(lines[0]);
    SpelledHoldsMarker(path, branch);
    OccursWithin(HEADER, "- " + TICK + "x ", "\n", Marker(path, branch));
    EditShows(Render(lines), path, branch, sha);
    assert MarkAll(lines, path, branch, sha) == lines;
  }

  lemma {:induction false} TopicSpells(a: string, x: string, p: string, path: string, b: string, branch: string,
                                       g: string)
    ensures a + TICK + ((x + p + TICK + path + TICK + b + TICK + branch) + TICK + (g + "\n"))
            == (a + TICK + x) + (p + TICK + (path + TICK + (b + TICK + (branch + TICK + g)))) + "\n"
  {
  }
}
