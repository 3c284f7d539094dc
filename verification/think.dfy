/** Reading `<think>` blocks back out of a model's text (intake.go, actions.go).

    `Scan` reads the text once from left to right. `ExtractThinkContents` follows it;
    `StripThinkBlocks` instead deletes a block and searches again from the start.
    Everything is stated for any usable pair of tags; the source uses `THINK`. */
module Think {
  import opened Text

  datatype Tags = Tags(open: string, close: string)

  const THINK := Tags("<think>", "</think>")

  /** As far as both reach, `open` from position `k` on reads like `close`. */
  ghost predicate Agrees(close: string, open: string, k: nat) {
    forall i :: 0 <= i < |close| && k + i < |open| ==> open[k + i] == close[i]
  }

  /** No occurrence of `close` starts inside `open`. */
  ghost predicate StartsNowhereIn(close: string, open: string) {
    forall k: nat :: k < |open| ==> !Agrees(close, open, k)
  }

  /** Neither tag overlaps itself or holds a newline, no closing tag starts inside an opening
      one, and the opening tag neither starts nor ends with white space. */
  ghost predicate Usable(t: Tags) {
    && '\n' !in t.open && '\n' !in t.close
    && Borderless(t.open) && Borderless(t.close)
    && StartsNowhereIn(t.close, t.open)
    && !IsSpace(t.open[0]) && !IsSpace(t.open[|t.open| - 1])
  }

  lemma {:induction false} ThinkIsUsable()
    ensures Usable(THINK)
  {
    var open, close := THINK.open, THINK.close;
    forall j | 0 < j < |open| ensures !Overlaps(open, j) { assert open[j + 0] != open[0]; }
    forall j | 0 < j < |close| ensures !Overlaps(close, j) { assert close[j + 0] != close[0]; }
    forall k: nat | k < |open| ensures !Agrees(close, open, k) {
      var i := if k == 0 then 1 else 0;
      assert open[k + i] != close[i];
    }
    assert open[0] == '<' && open[|open| - 1] == '>';
  }

  // ---- the forward scan ---------------------------------------------------

  /** A text cut at its tags: outside text, then either nothing more, or an unclosed block,
      or a block and the rest. */
  datatype Pieces =
    | Plain(outside: string)
    | Unclosed(outside: string, inside: string)
    | Block(outside: string, inside: string, rest: Pieces)

  function Scan(t: Tags, s: string): Pieces
    requires t.open != ""
    decreases |s|
  {
    var open := IndexOf(s, t.open);
    if open < 0 then Plain(s)
    else
      var inner := s[open + |t.open|..];
      var close := IndexOf(inner, t.close);
      if close < 0 then Unclosed(s[..open], inner)
      else Block(s[..open], inner[..close], Scan(t, inner[close + |t.close|..]))
  }

  /** Put the tags back. */
  function Rebuild(t: Tags, ps: Pieces): string {
    match ps
    case Plain(outside) => outside
    case Unclosed(outside, inside) => outside + t.open + inside
    case Block(outside, inside, rest) => outside + t.open + (inside + t.close + Rebuild(t, rest))
  }

  function OutsideText(ps: Pieces): string {
    if ps.Block? then ps.outside + OutsideText(ps.rest) else ps.outside
  }

  function InsideText(ps: Pieces): string {
    match ps
    case Plain(_) => ""
    case Unclosed(_, inside) => inside
    case Block(_, inside, rest) => inside + InsideText(rest)
  }

  /** No piece holds the tag that would end it. */
  ghost predicate Clean(t: Tags, ps: Pieces) {
    && !Occurs(ps.outside, t.open)
    && (ps.Plain? || !Occurs(ps.inside, t.close))
    && (ps.Block? ==> Clean(t, ps.rest))
  }

  lemma {:induction false} BeforeFirst(s: string, needle: string)
    requires needle != "" && IndexOf(s, needle) >= 0
    ensures !Occurs(s[..IndexOf(s, needle)], needle)
  {
    var i := IndexOf(s, needle);
    forall k ensures !At(s[..i], needle, k) {
      assert At(s[..i], needle, k) ==> At(s, needle, k);
    }
  }

  lemma {:induction false} CutAtFirst(s: string, needle: string)
    requires needle != ""
    ensures var i := IndexOf(s, needle);
            if i < 0 then !Occurs(s, needle)
            else !Occurs(s[..i], needle) && s == s[..i] + needle + s[i + |needle|..]
  {
    IndexMissing(s, needle);
    if IndexOf(s, needle) >= 0 {
      BeforeFirst(s, needle);
      AtMeansSlice(s, needle, IndexOf(s, needle));
    }
  }

  lemma {:induction false} TakeApart(a: string, b: string, c: string)
    ensures (a + b + c)[..|a|] == a && (a + b + c)[|a| + |b|..] == c
    ensures (a + b + c)[|a|..] == b + c
  {
  }

  /** The scan loses nothing and cuts exactly at the tags. */
  lemma {:induction false} ScanRebuilds(t: Tags, s: string)
    requires Usable(t)
    ensures Rebuild(t, Scan(t, s)) == s && Clean(t, Scan(t, s))
    decreases |s|
  {
    var open := IndexOf(s, t.open);
    CutAtFirst(s, t.open);
    if open >= 0 {
      var inner := s[open + |t.open|..];
      var close := IndexOf(inner, t.close);
      CutAtFirst(inner, t.close);
      if close >= 0 {
        ScanRebuilds(t, inner[close + |t.close|..]);
      }
    }
  }

  lemma {:induction false} ScanBlock(t: Tags, out: string, inside: string, rest: string)
    requires Usable(t) && !Occurs(out, t.open) && !Occurs(inside, t.close)
    ensures Scan(t, out + t.open + (inside + t.close + rest)) == Block(out, inside, Scan(t, rest))
  {
    var inner := inside + t.close + rest;
    FirstAfter(out, t.open, inner);
    TakeApart(out, t.open, inner);
    FirstAfter(inside, t.close, rest);
    TakeApart(inside, t.close, rest);
  }

  lemma {:induction false} ScanUnclosed(t: Tags, out: string, inside: string)
    requires Usable(t) && !Occurs(out, t.open) && !Occurs(inside, t.close)
    ensures Scan(t, out + t.open + inside) == Unclosed(out, inside)
  {
    FirstAfter(out, t.open, inside);
    TakeApart(out, t.open, inside);
    IndexMissing(inside, t.close);
  }

  /** Conversely, printing any clean pieces and scanning gives those pieces back. */
  lemma {:induction false} ScanInverts(t: Tags, ps: Pieces)
    requires Usable(t) && Clean(t, ps)
    ensures Scan(t, Rebuild(t, ps)) == ps
  {
    match ps
    case Plain(out) => IndexMissing(out, t.open);
    case Unclosed(out, inside) => ScanUnclosed(t, out, inside);
    case Block(out, inside, rest) =>
      ScanBlock(t, out, inside, Rebuild(t, rest));
      ScanInverts(t, rest);
  }

  // ---- extractThinkContents ----------------------------------------------

  /** actions.go's extractThinkContents: the inside pieces of the scan, in order. */
  method ExtractThinkContents(t: Tags, text: string) returns (r: string)
    requires Usable(t)
    ensures r == InsideText(Scan(t, text))
  {
    var s := text;
    r := "";
    while true
      invariant r + InsideText(Scan(t, s)) == InsideText(Scan(t, text))
      decreases |s|
    {
      var open := IndexOf(s, t.open);
      if open == -1 {
        return;
      }
      var inner := s[open + |t.open|..];
      var closeRel := IndexOf(inner, t.close);
      if closeRel == -1 {
        r := r + inner;
        return;
      }
      Regroup(r, inner[..closeRel], InsideText(Scan(t, inner[closeRel + |t.close|..])));
      r := r + inner[..closeRel];
      s := inner[closeRel + |t.close|..];
    }
  }

  lemma {:induction false} Regroup(a: string, b: string, c: string)
    ensures a + b + c == a + (b + c)
  {
  }

  // ---- stripThinkBlocks ---------------------------------------------------

  /** One turn of the loop: the text is done, or it goes round with a block deleted. */
  datatype Turn = Done(text: string) | Again(text: string)

  function StripTurn(t: Tags, s: string): (turn: Turn)
    requires t.open != "" && t.close != ""
    ensures turn.Again? ==> |turn.text| < |s|
  {
    var open := IndexOf(s, t.open);
    if open < 0 then Done(s)
    else
      var close := IndexOf(s[open..], t.close);
      if close < 0 then Done(s[..open]) else Again(s[..open] + s[open + close + |t.close|..])
  }

  /** Delete the first block and search again from the start, as the source does. */
  function StripLoop(t: Tags, s: string): string
    requires t.open != "" && t.close != ""
    decreases |s|
  {
    match StripTurn(t, s)
    case Done(text) => text
    case Again(text) => StripLoop(t, text)
  }

  lemma {:induction false} StripLeavesNoTag(t: Tags, s: string)
    requires t.open != "" && t.close != ""
    ensures !Occurs(StripLoop(t, s), t.open)
    decreases |s|
  {
    CutAtFirst(s, t.open);
    var turn := StripTurn(t, s);
    if turn.Again? {
      StripLeavesNoTag(t, turn.text);
    }
  }

  function Strip(t: Tags, s: string): (r: string)
    requires t.open != "" && t.close != ""
    ensures !Occurs(r, t.open)
  {
    StripLeavesNoTag(t, s);
    TrimKeepsOut(StripLoop(t, s), t.open);
    Trim(StripLoop(t, s))
  }

  /** intake.go's stripThinkBlocks: it ends, and leaves no opening tag, on every input. */
  method StripThinkBlocks(t: Tags, text: string) returns (r: string)
    requires Usable(t)
    ensures r == Strip(t, text)
    ensures !Occurs(r, t.open)
  {
    var s := text;
    while true
      invariant StripLoop(t, s) == StripLoop(t, text)
      decreases |s|
    {
      var open := IndexOf(s, t.open);
      if open == -1 {
        return Trim(s);
      }
      var close := IndexOf(s[open..], t.close);
      if close == -1 {
        return Trim(s[..open]);
      }
      s := s[..open] + s[open + close + |t.close|..];
    }
  }

  lemma {:induction false} IndexShift(a: string, b: string, needle: string)
    requires forall k :: 0 <= k < |a| ==> !At(a + b, needle, k)
    requires needle != ""
    ensures var c := IndexOf(b, needle); IndexOf(a + b, needle) == if c < 0 then -1 else c + |a|
  {
    forall k: int ensures At(a + b, needle, k) ==> At(b, needle, k - |a|) { SeamCases(a, b, needle, k); }
    var c := IndexOf(b, needle);
    assert c >= 0 ==> At(a + b, needle, c + |a|);
    IndexMissing(a + b, needle);
  }

  /** Searching for the closing tag from the opening one, or just after it, is the same. */
  lemma {:induction false} CloseFromOpen(t: Tags, inner: string)
    requires Usable(t)
    ensures var c := IndexOf(inner, t.close);
            IndexOf(t.open + inner, t.close) == if c < 0 then -1 else c + |t.open|
  {
    forall k: nat | k < |t.open| ensures !At(t.open + inner, t.close, k) {
      assert !Agrees(t.close, t.open, k);
      var i :| 0 <= i < |t.close| && k + i < |t.open| && t.open[k + i] != t.close[i];
      assert (t.open + inner)[k + i] == t.open[k + i];
    }
    IndexShift(t.open, inner, t.close);
  }

  lemma {:induction false} DropTwice(a: string, b: string, n: nat)
    requires n <= |b|
    ensures (a + b)[|a| + n..] == b[n..]
  {
  }

  /** Where the loop looks, at text whose first opening tag follows `seen`. */
  lemma {:induction false} StripLooks(t: Tags, seen: string, inner: string)
    requires Usable(t) && !Occurs(seen, t.open)
    ensures var s := seen + t.open + inner;
            && IndexOf(s, t.open) == |seen|
            && s[..|seen|] == seen && s[|seen|..] == t.open + inner
            && var c := IndexOf(inner, t.close);
               IndexOf(t.open + inner, t.close) == if c < 0 then -1 else c + |t.open|
  {
    FirstAfter(seen, t.open, inner);
    TakeApart(seen, t.open, inner);
    CloseFromOpen(t, inner);
  }

  /** One turn of the loop there. */
  lemma {:induction false} StripBlock(t: Tags, seen: string, inner: string)
    requires Usable(t) && !Occurs(seen, t.open)
    ensures var c := IndexOf(inner, t.close);
            StripTurn(t, seen + t.open + inner)
            == if c < 0 then Done(seen) else Again(seen + inner[c + |t.close|..])
  {
    StripLooks(t, seen, inner);
    var c := IndexOf(inner, t.close);
    if c >= 0 {
      DropTwice(seen + t.open, inner, c + |t.close|);
    }
  }

  lemma {:induction false} PrefixClean(a: string, b: string, needle: string)
    requires !Occurs(a + b, needle)
    ensures !Occurs(a, needle)
  {
    forall k ensures !At(a, needle, k) { assert At(a, needle, k) ==> At(a + b, needle, k); }
  }

  lemma {:induction false} Resplit(a: string, b: string, c: string, d: string)
    ensures a + (b + c + d) == a + b + c + d && a + (b + c) == a + b + c
  {
  }

  /** Rescanning from the start finds the next block where a forward scan finds it. */
  lemma {:induction false} StripFollowsScan(t: Tags, kept: string, ps: Pieces)
    requires Usable(t) && Clean(t, ps) && !Occurs(kept + OutsideText(ps), t.open)
    ensures StripLoop(t, kept + Rebuild(t, ps)) == kept + OutsideText(ps)
    decreases ps
  {
    var out := ps.outside;
    var seen := kept + out;
    match ps
    case Plain(_) =>
      IndexMissing(seen, t.open);
    case Unclosed(_, inside) =>
      Resplit(kept, out, t.open, inside);
      StripBlock(t, seen, inside);
      IndexMissing(inside, t.close);
    case Block(_, inside, rest) =>
      var after := Rebuild(t, rest);
      Resplit(kept, out, t.open, inside + t.close + after);
      Resplit(kept, out, OutsideText(rest), "");
      PrefixClean(seen, OutsideText(rest), t.open);
      StripBlock(t, seen, inside + t.close + after);
      FirstAfter(inside, t.close, after);
      TakeApart(inside, t.close, after);
      StripFollowsScan(t, seen, rest);
  }

  /** The iterated strip keeps the outside pieces exactly when gluing them together
      does not spell a new opening tag. */
  lemma {:induction false} StripIsOutside(t: Tags, s: string)
    requires Usable(t)
    ensures Strip(t, s) == Trim(OutsideText(Scan(t, s))) <==> !Occurs(OutsideText(Scan(t, s)), t.open)
  {
    var o := OutsideText(Scan(t, s));
    assert "" + o == o && "" + s == s;
    if Occurs(o, t.open) {
      TrimKeepsIn(o, t.open);
    } else {
      ScanRebuilds(t, s);
      StripFollowsScan(t, "", Scan(t, s));
    }
  }

  /** After one block goes, an opening tag that is never closed swallows the rest. */
  lemma {:induction false} StripsToNothing(t: Tags, head: string, inside: string, rest: string, after: string)
    requires Usable(t) && !Occurs(head, t.open) && !Occurs(inside, t.close)
    requires head + rest == t.open + after && !Occurs(after, t.close)
    ensures StripLoop(t, head + t.open + (inside + t.close + rest)) == ""
  {
    StripBlock(t, head, inside + t.close + rest);
    FirstAfter(inside, t.close, rest);
    TakeApart(inside, t.close, rest);
    assert head + rest == "" + t.open + after;
    StripBlock(t, "", after);
    IndexMissing(after, t.close);
  }

  /** Such texts exist whenever the opening tag can be cut in two: deleting a block joins the
      halves, and the loop then drops everything after them, which the scan had kept. */
  lemma {:induction false} GluedTag(t: Tags, head: string, tail: string, inside: string, after: string)
    requires Usable(t) && t.open == head + tail
    requires !Occurs(head, t.open) && !Occurs(inside, t.close)
    requires !Occurs(tail + after, t.open) && !Occurs(after, t.close)
    ensures var s := head + t.open + (inside + t.close + (tail + after));
            StripLoop(t, s) == "" && OutsideText(Scan(t, s)) == t.open + after
  {
    ScanBlock(t, head, inside, tail + after);
    IndexMissing(tail + after, t.open);
    Resplit(head, tail, after, "");
    StripsToNothing(t, head, inside, tail + after, after);
  }

  /** One concrete text on which the strip is not the outside text of the scan. */
  lemma {:induction false} GluedExample()
    ensures var s := "<th" + THINK.open + ("x" + THINK.close + ("ink>" + "y"));
            StripLoop(THINK, s) == "" && OutsideText(Scan(THINK, s)) == THINK.open + "y"
  {
    ThinkIsUsable();
    assert "ink>" + "y" == "ink>y" && "<th" + "ink>" == THINK.open;
    forall k ensures !At("<th", THINK.open, k) && !At("x", THINK.close, k)
                  && !At("ink>y", THINK.open, k) && !At("y", THINK.close, k) {}
    GluedTag(THINK, "<th", "ink>", "x", "y");
  }
}
