/** The fenced actions block a model appends to its text (actions.go).
    JSON decoding stays a parameter: all that matters is whether a text is invalid, the
    null literal, or a list. */
module Actions {
  import opened Text
  import opened Think
  import opened Stream

  datatype Fence = Fence(open: string, close: string)

  const ACTIONS := Fence("```actions\n", "```")

  const NEWLINE := "\n"

  /** The opening fence is a line of its own and does not overlap itself; the closing one
      holds no newline. */
  ghost predicate Fencing(f: Fence) {
    && Borderless(f.open) && |f.open| > 1 && f.open[|f.open| - 1] == '\n'
    && Tight(f.open[..|f.open| - 1])
    && f.close != "" && '\n' !in f.close && Tight(f.close)
  }

  lemma {:induction false} ActionsFences()
    ensures Fencing(ACTIONS)
  {
    var open := ACTIONS.open;
    forall j | 0 < j < |open| ensures !Overlaps(open, j) {
      var i := if j == 1 then 2 else if j == 2 then 1 else 0;
      assert open[0] == '`' && open[1] == '`' && open[2] == '`' && open[3] == 'a';
      assert j >= 3 ==> open[j] != '`';
      assert open[j + i] != open[i];
    }
    assert open[..|open| - 1] == "```actions";
    assert ACTIONS.close[0] == '`' && ACTIONS.close[2] == '`';
    assert "```actions"[0] == '`' && "```actions"[9] == 's';
  }

  datatype Json<A> = Invalid | Null | List(items: seq<A>)

  datatype Fault = EmptyBlock | InvalidJson | NoClosingFence

  /** A nil slice, a slice, or an error. */
  datatype Parsed<A> = NoBlock | Actions(items: seq<A>) | Malformed(fault: Fault)

  /** What a search for the first fenced block of a text comes to. */
  datatype Search = NoFence | Cut | Complete(raw: string)

  function FindActionsBlock(f: Fence, s: string): Search {
    var start := IndexOf(s, f.open);
    if start == -1 then NoFence
    else
      var rest := s[start + |f.open|..];
      var end := IndexOf(rest, f.close);
      if end == -1 then Cut else Complete(Trim(rest[..end]))
  }

  function DecodeActions<A>(json: string -> Json<A>, raw: string): Parsed<A> {
    if raw == "" then Malformed(EmptyBlock)
    else match json(raw)
      case Invalid => Malformed(InvalidJson)
      case Null => NoBlock
      case List(items) => Parsed.Actions(items)
  }

  /** What the text of a complete block stands for: an error when it is empty or no JSON, no block
      for the null literal, and otherwise the listed actions, the empty list included. */
  ghost predicate StandsFor<A>(json: string -> Json<A>, raw: string, p: Parsed<A>) {
    && (raw == "" <==> p == Malformed(EmptyBlock))
    && (raw != "" ==> && (json(raw).Invalid? <==> p == Malformed(InvalidJson))
                      && (json(raw).Null? <==> p == NoBlock)
                      && (json(raw).List? <==> p.Actions?)
                      && (json(raw).List? ==> p.items == json(raw).items))
  }

  lemma {:induction false} DecodedStandsFor<A>(json: string -> Json<A>, raw: string)
    ensures StandsFor(json, raw, DecodeActions(json, raw))
  {
  }

  /** The text after thinking decides; only when its block is cut is the reasoning asked. */
  function ParseTexts<A>(f: Fence, json: string -> Json<A>, postThink: string, thinkContents: string): Parsed<A> {
    match FindActionsBlock(f, postThink)
    case NoFence => NoBlock
    case Complete(raw) => DecodeActions(json, raw)
    case Cut =>
      match FindActionsBlock(f, thinkContents)
      case Complete(raw) => DecodeActions(json, raw)
      case _ => Malformed(NoClosingFence)
  }

  function ParseActions<A>(t: Tags, f: Fence, json: string -> Json<A>, output: string): Parsed<A>
    requires t.open != "" && t.close != ""
  {
    ParseTexts(f, json, Strip(t, output), InsideText(Scan(t, output)))
  }

  // ---- printing a block ----------------------------------------------------

  /** A block as the format rule asks for it. */
  function Fenced(f: Fence, raw: string): string {
    f.open + (raw + NEWLINE + f.close)
  }

  /** JSON the block can carry: not blank at either end and without a closing fence. */
  ghost predicate Carried(f: Fence, raw: string) {
    raw != "" && Tight(raw) && !Occurs(raw, f.close)
  }

  lemma {:induction false} CloseAfterLine(f: Fence, raw: string, after: string)
    requires Fencing(f) && !Occurs(raw, f.close)
    ensures IndexOf(raw + NEWLINE + f.close + after, f.close) == |raw| + 1
  {
    var head, tail := raw + NEWLINE, f.close + after;
    assert f.close[0] in f.close;
    NeedsFirstChar(NEWLINE, f.close);
    Separated(raw, NEWLINE, f.close);
    assert head + tail == raw + NEWLINE + f.close + after;
    assert At(head + tail, f.close, |head|);
    forall k | 0 <= k < |head| ensures !At(head + tail, f.close, k) {
      SeamCases(head, tail, f.close, k);
    }
  }

  lemma {:induction false} FenceAt(f: Fence, prose: string, inner: string)
    requires Fencing(f) && !Occurs(prose, f.open)
    ensures FindActionsBlock(f, prose + f.open + inner)
            == var end := IndexOf(inner, f.close); if end == -1 then Cut else Complete(Trim(inner[..end]))
  {
    FirstAfter(prose, f.open, inner);
    TakeApart(prose, f.open, inner);
  }

  /** Wherever a block is printed, its JSON is found, unless a fence comes before it. */
  lemma {:induction false} FindsFenced(f: Fence, prose: string, raw: string, after: string)
    requires Fencing(f) && !Occurs(prose, f.open) && Carried(f, raw)
    ensures FindActionsBlock(f, prose + Fenced(f, raw) + after) == Complete(raw)
  {
    Regrouped(prose, f.open, raw + NEWLINE + f.close, after);
    FenceAt(f, prose, raw + NEWLINE + f.close + after);
    CloseAfterLine(f, raw, after);
    TakeApart(raw + NEWLINE, f.close, after);
    TrimUnique("", raw, NEWLINE);
    assert "" + raw + NEWLINE == raw + NEWLINE;
  }

  lemma {:induction false} Regrouped(a: string, b: string, c: string, d: string)
    ensures a + (b + c) + d == a + b + (c + d)
  {
  }

  /** Trimming a text around something that is not white space leaves that in place. */
  lemma {:induction false} TrimAround(before: string, middle: string, after: string)
    returns (i: nat, j: nat)
    requires middle != "" && Tight(middle)
    ensures i <= |before| && j <= |after|
    ensures Trim(before + middle + after) == before[i..] + middle + after[..j]
  {
    var s := before + middle + after;
    var m, n := TrimSplits(s);
    assert s[|before|] == middle[0] && s[|before| + |middle| - 1] == middle[|middle| - 1];
    i, j := m, n - |before| - |middle|;
    assert s[m..n] == before[i..] + middle + after[..j];
  }

  lemma {:induction false} FencedIsTight(f: Fence, raw: string)
    requires Fencing(f)
    ensures Fenced(f, raw) != "" && Tight(Fenced(f, raw))
  {
    var s := Fenced(f, raw);
    assert s[0] == f.open[..|f.open| - 1][0] && s[|s| - 1] == f.close[|f.close| - 1];
  }

  lemma {:induction false} SuffixKeepsOut(s: string, i: nat, needle: string)
    requires i <= |s| && !Occurs(s, needle)
    ensures !Occurs(s[i..], needle)
  {
    forall k ensures !At(s[i..], needle, k) {
      if At(s[i..], needle, k) {
        assert s[i..] == s[i..|s|];
        OccursInPart(s, i, |s|, needle);
      }
    }
  }

  lemma {:induction false} TrimmedTail(before: string, middle: string, blank: string)
    returns (i: nat)
    requires Blank(blank) && middle != "" && Tight(middle)
    ensures i <= |before| && Trim(before + middle + blank) == before[i..] + middle
  {
    var j;
    i, j := TrimAround(before, middle, blank);
    var m, n := TrimSplits(before + middle + blank);
    BlankEndShows(before[i..] + middle, blank[..j]);
    assert before[i..] + middle + "" == before[i..] + middle;
  }

  lemma {:induction false} BlankEndShows(a: string, b: string)
    requires Blank(b)
    ensures b != "" ==> !Tight(a + b)
  {
    if b != "" { assert (a + b)[|a + b| - 1] == b[|b| - 1]; }
  }

  // ---- what is parsed ------------------------------------------------------

  lemma {:induction false} BlockParses<A>(f: Fence, json: string -> Json<A>, content: string, reasons: string,
                                          prose: string, raw: string, after: string)
    requires Fencing(f) && content == prose + Fenced(f, raw) + after
    requires !Occurs(prose, f.open) && Carried(f, raw)
    ensures ParseTexts(f, json, Trim(content), reasons) == DecodeActions(json, raw)
  {
    var block := Fenced(f, raw);
    FencedIsTight(f, raw);
    var i, j := TrimAround(prose, block, after);
    SuffixKeepsOut(prose, i, f.open);
    FindsFenced(f, prose[i..], raw, after[..j]);
  }

  lemma {:induction false} CutBlock<A>(f: Fence, json: string -> Json<A>, content: string, reasons: string,
                                       prose: string, core: string, blank: string)
    requires Fencing(f) && content == prose + (f.open + core) + blank && Blank(blank)
    requires core != "" && !IsSpace(core[|core| - 1])
    requires !Occurs(prose, f.open) && !Occurs(core, f.close)
    ensures ParseTexts(f, json, Trim(content), reasons)
            == match FindActionsBlock(f, reasons)
               case Complete(raw) => DecodeActions(json, raw)
               case _ => Malformed(NoClosingFence)
  {
    var middle := f.open + core;
    assert middle[0] == f.open[..|f.open| - 1][0] && middle[|middle| - 1] == core[|core| - 1];
    var i := TrimmedTail(prose, middle, blank);
    SuffixKeepsOut(prose, i, f.open);
    Resplit(prose[i..], f.open, core, "");
    FenceAt(f, prose[i..], core);
    IndexMissing(core, f.close);
  }

  lemma {:induction false} CutAtFence<A>(f: Fence, json: string -> Json<A>, content: string, reasons: string,
                                         prose: string, blank: string)
    requires Fencing(f) && content == prose + f.open + blank && Blank(blank) && !Occurs(prose, f.open)
    ensures ParseTexts(f, json, Trim(content), reasons) == NoBlock
  {
    var mark := f.open[..|f.open| - 1];
    assert f.open == mark + NEWLINE;
    assert content == prose + mark + (NEWLINE + blank);
    var i := TrimmedTail(prose, mark, NEWLINE + blank);
    SuffixKeepsOut(prose, i, f.open);
    MarkIsNoFence(f, prose[i..], mark);
  }

  lemma {:induction false} MarkIsNoFence(f: Fence, prose: string, mark: string)
    requires Fencing(f) && !Occurs(prose, f.open) && f.open == mark + NEWLINE
    ensures IndexOf(prose + mark, f.open) == -1
  {
    var s := prose + mark;
    forall k | 0 <= k < |prose| ensures !At(s, f.open, k) {
      NoEarlierStart(prose, f.open, "", k);
      assert s <= prose + f.open + "";
      assert At(s, f.open, k) ==> At(prose + f.open + "", f.open, k);
    }
    assert !Occurs(s, f.open);
    IndexMissing(s, f.open);
  }

  // ---- end to end, from deltas to actions ----------------------------------

  /** A block printed after fence-free prose is parsed back from the stream, whatever the
      reasoning held and however the text was cut into chunks. */
  lemma {:induction false} StreamedBlockParses<A>(t: Tags, f: Fence, json: string -> Json<A>, ds: seq<Delta>,
                                                  prose: string, raw: string, after: string)
    requires Usable(t) && Fencing(f) && TagFree(t, Grouped(ds))
    requires ContentText(Grouped(ds)) == prose + Fenced(f, raw) + after
    requires !Occurs(prose, f.open) && Carried(f, raw)
    ensures StandsFor(json, raw, ParseActions(t, f, json, Printed(t, Grouped(ds), true)))
  {
    StreamReadsBack(t, ds);
    BlockParses(f, json, ContentText(Grouped(ds)), ReasonText(Grouped(ds)), prose, raw, after);
    DecodedStandsFor(json, raw);
  }

  lemma {:induction false} BlankBlock<A>(f: Fence, json: string -> Json<A>, content: string, reasons: string,
                                         prose: string, blank: string, after: string)
    requires Fencing(f) && Blank(blank) && !Occurs(prose, f.open)
    requires content == prose + (f.open + (blank + f.close)) + after
    ensures ParseTexts(f, json, Trim(content), reasons) == Malformed(EmptyBlock)
  {
    var block := f.open + (blank + f.close);
    BlankBlockIsTight(f, blank);
    var i, j := TrimAround(prose, block, after);
    SuffixKeepsOut(prose, i, f.open);
    ClosesAtOnce(f, blank, after[..j]);
    assert prose[i..] + block + after[..j] == prose[i..] + f.open + (blank + f.close + after[..j]);
    FindsFirstBlock(f, Trim(content), prose[i..], blank, after[..j]);
    TrimUnique(blank, "", "");
    assert blank + "" + "" == blank;
  }

  lemma {:induction false} BlankBlockIsTight(f: Fence, blank: string)
    requires Fencing(f)
    ensures var s := f.open + (blank + f.close); s != "" && Tight(s)
  {
    var s := f.open + (blank + f.close);
    assert s[0] == f.open[..|f.open| - 1][0] && s[|s| - 1] == f.close[|f.close| - 1];
  }

  lemma {:induction false} ClosesAtOnce(f: Fence, blank: string, after: string)
    requires Fencing(f) && Blank(blank)
    ensures IndexOf(blank + f.close + after, f.close) == |blank|
  {
    var s := blank + f.close + after;
    assert At(s, f.close, |blank|);
    forall k | 0 <= k < |blank| ensures !At(s, f.close, k) {
      assert s[k + 0] == blank[k] && IsSpace(blank[k]) && !IsSpace(f.close[0]);
    }
  }

  /** A block with nothing but white space in it is an error. */
  lemma {:induction false} BlankBlockIsMalformed<A>(t: Tags, f: Fence, json: string -> Json<A>, ds: seq<Delta>,
                                                    prose: string, blank: string, after: string)
    requires Usable(t) && Fencing(f) && TagFree(t, Grouped(ds)) && Blank(blank)
    requires ContentText(Grouped(ds)) == prose + (f.open + (blank + f.close)) + after && !Occurs(prose, f.open)
    ensures ParseActions(t, f, json, Printed(t, Grouped(ds), true)) == Malformed(EmptyBlock)
  {
    StreamReadsBack(t, ds);
    BlankBlock(f, json, ContentText(Grouped(ds)), ReasonText(Grouped(ds)), prose, blank, after);
  }

  /** When the block is cut off in the middle, the first fence of the reasoning decides, in
      whatever form its block is written: a closed one is taken, otherwise it is an error.
      `core` is the cut block up to its last visible character. */
  lemma {:induction false} CutBlockAsksReasoning<A>(t: Tags, f: Fence, json: string -> Json<A>, ds: seq<Delta>,
                                                    prose: string, core: string, blank: string)
    requires Usable(t) && Fencing(f) && TagFree(t, Grouped(ds))
    requires ContentText(Grouped(ds)) == prose + (f.open + core) + blank && Blank(blank)
    requires core != "" && !IsSpace(core[|core| - 1])
    requires !Occurs(prose, f.open) && !Occurs(core, f.close)
    ensures var p := ParseActions(t, f, json, Printed(t, Grouped(ds), true));
            match FindActionsBlock(f, ReasonText(Grouped(ds)))
            case Complete(raw) => StandsFor(json, raw, p)
            case _ => p == Malformed(NoClosingFence)
  {
    StreamReadsBack(t, ds);
    CutBlock(f, json, ContentText(Grouped(ds)), ReasonText(Grouped(ds)), prose, core, blank);
    var found := FindActionsBlock(f, ReasonText(Grouped(ds)));
    if found.Complete? { DecodedStandsFor(json, found.raw); }
  }

  /** There is no opening fence, or nothing closes the first one. */
  ghost predicate NeverCloses(f: Fence, s: string) {
    var start := IndexOf(s, f.open);
    start == -1 || !Occurs(s[start + |f.open|..], f.close)
  }

  /** What the search for a block finds: the text between the first opening fence and the first
      closing one after it, trimmed; nothing when there is no such pair. */
  lemma {:induction false} FindsFirstBlock(f: Fence, s: string, thought: string, inner: string, after: string)
    requires Fencing(f) && s == thought + f.open + (inner + f.close + after)
    requires !Occurs(thought, f.open) && IndexOf(inner + f.close + after, f.close) == |inner|
    ensures FindActionsBlock(f, s) == Complete(Trim(inner))
  {
    FirstAfter(thought, f.open, inner + f.close + after);
    assert s[|thought| + |f.open|..] == inner + f.close + after;
    assert (inner + f.close + after)[..|inner|] == inner;
  }

  /** It finds nothing complete exactly when there is no such pair. */
  lemma {:induction false} NeverClosesIsNoBlock(f: Fence, s: string)
    ensures FindActionsBlock(f, s).Complete? <==> !NeverCloses(f, s)
  {
    var start := IndexOf(s, f.open);
    if start != -1 { IndexMissing(s[start + |f.open|..], f.close); }
  }

  /** So a closed block of the reasoning replaces the cut one. */
  lemma {:induction false} CutBlockFallsBack<A>(t: Tags, f: Fence, json: string -> Json<A>, ds: seq<Delta>,
                                                prose: string, core: string, blank: string,
                                                thought: string, inner: string, after: string)
    requires Usable(t) && Fencing(f) && TagFree(t, Grouped(ds))
    requires ContentText(Grouped(ds)) == prose + (f.open + core) + blank && Blank(blank)
    requires core != "" && !IsSpace(core[|core| - 1])
    requires !Occurs(prose, f.open) && !Occurs(core, f.close)
    requires ReasonText(Grouped(ds)) == thought + f.open + (inner + f.close + after)
    requires !Occurs(thought, f.open) && IndexOf(inner + f.close + after, f.close) == |inner|
    ensures StandsFor(json, Trim(inner), ParseActions(t, f, json, Printed(t, Grouped(ds), true)))
  {
    CutBlockAsksReasoning(t, f, json, ds, prose, core, blank);
    FindsFirstBlock(f, ReasonText(Grouped(ds)), thought, inner, after);
  }

  /** And without one the cut block is reported as malformed. */
  lemma {:induction false} CutBlockIsMalformed<A>(t: Tags, f: Fence, json: string -> Json<A>, ds: seq<Delta>,
                                                  prose: string, core: string, blank: string)
    requires Usable(t) && Fencing(f) && TagFree(t, Grouped(ds))
    requires ContentText(Grouped(ds)) == prose + (f.open + core) + blank && Blank(blank)
    requires core != "" && !IsSpace(core[|core| - 1])
    requires !Occurs(prose, f.open) && !Occurs(core, f.close)
    requires NeverCloses(f, ReasonText(Grouped(ds)))
    ensures ParseActions(t, f, json, Printed(t, Grouped(ds), true)) == Malformed(NoClosingFence)
  {
    CutBlockAsksReasoning(t, f, json, ds, prose, core, blank);
    NeverClosesIsNoBlock(f, ReasonText(Grouped(ds)));
  }

  /** With no fence in the content there is nothing to do, whatever the reasoning held. */
  lemma {:induction false} NoFenceIsNoBlock<A>(t: Tags, f: Fence, json: string -> Json<A>, ds: seq<Delta>)
    requires Usable(t) && TagFree(t, Grouped(ds)) && !Occurs(ContentText(Grouped(ds)), f.open)
    ensures ParseActions(t, f, json, Printed(t, Grouped(ds), true)) == NoBlock
  {
    StreamReadsBack(t, ds);
    TrimKeepsOut(ContentText(Grouped(ds)), f.open);
    IndexMissing(Trim(ContentText(Grouped(ds))), f.open);
  }

  /** A block cut off right after its opening fence is no block at all: trimming takes the
      newline that makes it a fence, so neither the error nor the fallback applies. */
  lemma {:induction false} CutAtFenceIsNoBlock<A>(t: Tags, f: Fence, json: string -> Json<A>, ds: seq<Delta>,
                                                  prose: string, blank: string)
    requires Usable(t) && Fencing(f) && TagFree(t, Grouped(ds))
    requires ContentText(Grouped(ds)) == prose + f.open + blank && Blank(blank)
    requires !Occurs(prose, f.open)
    ensures ParseActions(t, f, json, Printed(t, Grouped(ds), true)) == NoBlock
  {
    StreamReadsBack(t, ds);
    CutAtFence(f, json, ContentText(Grouped(ds)), ReasonText(Grouped(ds)), prose, blank);
  }
}
