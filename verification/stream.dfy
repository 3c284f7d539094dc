/** The frame loop of an OpenAI-compatible stream (dispatch.go), from decoded frames on,
    and what the `<think>` readers make of the text it prints. */
module Stream {
  import opened Text
  import opened Think

  datatype Choice = Choice(reasoning: string, content: string)

  datatype Usage = NoUsage | Usage(prompt: int, completion: int)

  datatype Frame = Frame(choices: seq<Choice>, usage: Usage)

  /** How the frames stop: the provider is done, the connection fails, or a frame cannot
      be decoded, in which case the loop returns on the spot. */
  datatype StreamEnd = Finished | ReadFailed | Undecodable

  /** One non-empty delta. */
  datatype Delta = Reason(text: string) | Content(text: string)

  const LEAD := "\n"
  const GAP := "\n\n"

  // ---- what was said: maximal groups of like deltas ------------------------

  function OfChoice(c: Choice): seq<Delta> {
    (if c.reasoning != "" then [Reason(c.reasoning)] else [])
    + (if c.content != "" then [Content(c.content)] else [])
  }

  function OfChoices(cs: seq<Choice>): seq<Delta> {
    if cs == [] then [] else OfChoices(cs[..|cs| - 1]) + OfChoice(cs[|cs| - 1])
  }

  function OfFrames(fs: seq<Frame>): seq<Delta> {
    if fs == [] then [] else OfFrames(fs[..|fs| - 1]) + OfChoices(fs[|fs| - 1].choices)
  }

  /** The usage of the last frame that reports one, and zero when none does. */
  ghost predicate LastUsage(fs: seq<Frame>, inputTok: int, outputTok: int) {
    || (inputTok == 0 && outputTok == 0 && forall k :: 0 <= k < |fs| ==> fs[k].usage.NoUsage?)
    || (exists k :: 0 <= k < |fs| && fs[k].usage == Usage(inputTok, outputTok)
                    && forall j :: k < j < |fs| ==> fs[j].usage.NoUsage?)
  }

  lemma {:induction false} LastUsageSnoc(fs: seq<Frame>, f: Frame, inputTok: int, outputTok: int)
    requires LastUsage(fs, inputTok, outputTok)
    ensures if f.usage.Usage? then LastUsage(fs + [f], f.usage.prompt, f.usage.completion)
            else LastUsage(fs + [f], inputTok, outputTok)
  {
    var more := fs + [f];
    assert more[|fs|] == f;
    if k :| 0 <= k < |fs| && fs[k].usage == Usage(inputTok, outputTok)
            && forall j :: k < j < |fs| ==> fs[j].usage.NoUsage? {
      assert more[k] == fs[k];
    }
  }

  /** Groups, latest first: a delta joins the newest group when it is of the same kind. */
  datatype Groups = Empty | Then(earlier: Groups, last: Delta)

  function Join(gs: Groups, d: Delta): Groups {
    match gs
    case Empty => Then(Empty, d)
    case Then(earlier, Reason(text)) =>
      if d.Reason? then Then(earlier, Reason(text + d.text)) else Then(gs, d)
    case Then(earlier, Content(text)) =>
      if d.Content? then Then(earlier, Content(text + d.text)) else Then(gs, d)
  }

  function Grouped(ds: seq<Delta>): Groups {
    if ds == [] then Empty else Join(Grouped(ds[..|ds| - 1]), ds[|ds| - 1])
  }

  predicate Alternating(gs: Groups) {
    gs.Then? && gs.earlier.Then? ==>
      gs.last.Reason? != gs.earlier.last.Reason? && Alternating(gs.earlier)
  }

  /** No group of reasoning holds a closing tag, no group of content an opening one. */
  ghost predicate TagFree(t: Tags, gs: Groups) {
    gs.Then? ==>
      && TagFree(t, gs.earlier)
      && !Occurs(gs.last.text, if gs.last.Reason? then t.close else t.open)
  }

  /** The reasoning groups, each between two newlines. */
  function ReasonText(gs: Groups): string {
    match gs
    case Empty => ""
    case Then(earlier, Reason(text)) => ReasonText(earlier) + (LEAD + text + LEAD)
    case Then(earlier, Content(_)) => ReasonText(earlier)
  }

  /** The content groups, with a blank line where reasoning stood. */
  function ContentText(gs: Groups): string {
    match gs
    case Empty => ""
    case Then(earlier, Reason(_)) => ContentText(earlier) + GAP
    case Then(earlier, Content(text)) => ContentText(earlier) + text
  }

  // ---- how it is printed ---------------------------------------------------

  /** The printed text; `over` says whether a final reasoning group is closed yet. */
  function Printed(t: Tags, gs: Groups, over: bool): string {
    match gs
    case Empty => ""
    case Then(earlier, Reason(text)) =>
      Printed(t, earlier, true) + (t.open + LEAD) + text + (if over then LEAD + t.close + GAP else "")
    case Then(earlier, Content(text)) => Printed(t, earlier, true) + text
  }

  predicate Thinking(gs: Groups) {
    gs.Then? && gs.last.Reason?
  }

  lemma {:induction false} ConcatSnoc(parts: seq<string>, part: string)
    ensures Concat(parts + [part]) == Concat(parts) + part
  {
    assert (parts + [part])[..|parts|] == parts;
  }

  lemma {:induction false} GroupedSnoc(ds: seq<Delta>, d: Delta)
    ensures Grouped(ds + [d]) == Join(Grouped(ds), d)
  {
    assert (ds + [d])[..|ds|] == ds;
  }

  lemma {:induction false} AlternatingGroups(ds: seq<Delta>)
    ensures Alternating(Grouped(ds))
  {
    if ds != [] {
      AlternatingGroups(ds[..|ds| - 1]);
    }
  }

  /** What has to be printed before a delta of the other kind. */
  function Turn(t: Tags, thinking: bool, d: Delta): string {
    if d.Reason? && !thinking then t.open + LEAD
    else if d.Content? && thinking then LEAD + t.close + GAP
    else ""
  }

  lemma {:induction false} JoinPrints(t: Tags, gs: Groups, d: Delta)
    ensures Printed(t, Join(gs, d), false) == Printed(t, gs, false) + Turn(t, Thinking(gs), d) + d.text
    ensures Thinking(Join(gs, d)) <==> d.Reason?
  {
    match gs
    case Empty =>
    case Then(earlier, Reason(text)) =>
      assert d.Reason? ==>
        Printed(t, earlier, true) + (t.open + LEAD) + (text + d.text) == Printed(t, gs, false) + "" + d.text;
      assert Printed(t, gs, true) == Printed(t, gs, false) + (LEAD + t.close + GAP);
    case Then(earlier, Content(text)) =>
      assert d.Content? ==> Printed(t, earlier, true) + (text + d.text) == Printed(t, gs, false) + "" + d.text;
      assert d.Reason? ==> Printed(t, gs, true) == Printed(t, gs, false);
  }

  /** The loop's state after some deltas: what it has printed and whether a block is open. */
  ghost predicate Follows(t: Tags, ds: seq<Delta>, chunks: seq<string>, thinkingOpen: bool) {
    && Concat(chunks) == Printed(t, Grouped(ds), false)
    && (thinkingOpen <==> Thinking(Grouped(ds)))
  }

  lemma {:induction false} FollowsOne(t: Tags, ds: seq<Delta>, chunks: seq<string>, thinkingOpen: bool, d: Delta)
    requires Follows(t, ds, chunks, thinkingOpen)
    ensures var turn := Turn(t, thinkingOpen, d);
            && Follows(t, ds + [d], chunks + [turn] + [d.text], d.Reason?)
            && (turn == "" ==> Follows(t, ds + [d], chunks + [d.text], d.Reason?))
  {
    var turn := Turn(t, thinkingOpen, d);
    GroupedSnoc(ds, d);
    JoinPrints(t, Grouped(ds), d);
    ConcatSnoc(chunks, turn);
    ConcatSnoc(chunks + [turn], d.text);
    ConcatSnoc(chunks, d.text);
    assert turn == "" ==> Concat(chunks) + turn == Concat(chunks);
  }

  lemma {:induction false} ClosePrints(t: Tags, ds: seq<Delta>, chunks: seq<string>, thinkingOpen: bool)
    requires Follows(t, ds, chunks, thinkingOpen)
    ensures Concat(if thinkingOpen then chunks + [LEAD + t.close + GAP] else chunks) == Printed(t, Grouped(ds), true)
  {
    if thinkingOpen { ConcatSnoc(chunks, LEAD + t.close + GAP); }
  }

  /** One choice of one frame. */
  method RelayChoice(t: Tags, c: Choice, chunks0: seq<string>, open0: bool, ghost ds: seq<Delta>)
    returns (chunks: seq<string>, thinkingOpen: bool)
    requires Follows(t, ds, chunks0, open0)
    ensures Follows(t, ds + OfChoice(c), chunks, thinkingOpen)
  {
    chunks, thinkingOpen := chunks0, open0;
    ghost var seen := ds;
    if c.reasoning != "" {
      FollowsOne(t, ds, chunks, thinkingOpen, Reason(c.reasoning));
      seen := ds + [Reason(c.reasoning)];
      if !thinkingOpen {
        chunks := chunks + [t.open + LEAD];
        thinkingOpen := true;
      }
      chunks := chunks + [c.reasoning];
    }
    if c.content != "" {
      FollowsOne(t, seen, chunks, thinkingOpen, Content(c.content));
      if thinkingOpen {
        chunks := chunks + [LEAD + t.close + GAP];
        thinkingOpen := false;
      }
      chunks := chunks + [c.content];
      assert ds + OfChoice(c) == seen + [Content(c.content)];
    } else {
      assert ds + OfChoice(c) == seen;
    }
  }

  /** The choices of one frame. */
  method RelayChoices(t: Tags, choices: seq<Choice>, chunks0: seq<string>, open0: bool, ghost ds: seq<Delta>)
    returns (chunks: seq<string>, thinkingOpen: bool)
    requires Follows(t, ds, chunks0, open0)
    ensures Follows(t, ds + OfChoices(choices), chunks, thinkingOpen)
  {
    chunks, thinkingOpen := chunks0, open0;
    assert ds + OfChoices(choices[..0]) == ds;
    for j := 0 to |choices|
      invariant Follows(t, ds + OfChoices(choices[..j]), chunks, thinkingOpen)
    {
      assert choices[..j + 1][..j] == choices[..j];
      assert ds + OfChoices(choices[..j]) + OfChoice(choices[j]) == ds + OfChoices(choices[..j + 1]);
      chunks, thinkingOpen := RelayChoice(t, choices[j], chunks, thinkingOpen, ds + OfChoices(choices[..j]));
    }
    assert choices[..|choices|] == choices;
  }

  /** The chunks handed to the callback spell the groups of the stream, each run of reasoning
      in its own block; usage is the last one reported, and zero when none was. */
  method RelayFrames(t: Tags, frames: seq<Frame>, end: StreamEnd)
    returns (chunks: seq<string>, inputTok: int, outputTok: int)
    ensures Concat(chunks) == Printed(t, Grouped(OfFrames(frames)), end != Undecodable)
    ensures LastUsage(frames, inputTok, outputTok)
    ensures end != Undecodable && NoWayBack(AllChoices(frames)) ==>
              Concat(chunks) == BlockOf(t, Spoken(AllChoices(frames), true)) + Spoken(AllChoices(frames), false)
    ensures end != Undecodable && Usable(t) && TagFree(t, Grouped(OfFrames(frames))) ==>
              ReadsBack(t, Concat(chunks), Grouped(OfFrames(frames)))
  {
    if end != Undecodable { StreamIsReadable(t, frames); }
    chunks, inputTok, outputTok := [], 0, 0;
    var thinkingOpen := false;
    for i := 0 to |frames|
      invariant Follows(t, OfFrames(frames[..i]), chunks, thinkingOpen)
      invariant LastUsage(frames[..i], inputTok, outputTok)
    {
      chunks, thinkingOpen := RelayChoices(t, frames[i].choices, chunks, thinkingOpen, OfFrames(frames[..i]));
      assert frames[..i + 1][..i] == frames[..i];
      LastUsageSnoc(frames[..i], frames[i], inputTok, outputTok);
      assert frames[..i + 1] == frames[..i] + [frames[i]];
      if frames[i].usage.Usage? {
        inputTok, outputTok := frames[i].usage.prompt, frames[i].usage.completion;
      }
    }
    assert frames[..|frames|] == frames;
    ClosePrints(t, OfFrames(frames), chunks, thinkingOpen);
    if thinkingOpen && end != Undecodable {
      chunks := chunks + [LEAD + t.close + GAP];
    }
  }

  // ---- the usual stream: reasoning, then an answer ---------------------------

  function AllChoices(fs: seq<Frame>): seq<Choice> {
    if fs == [] then [] else AllChoices(fs[..|fs| - 1]) + fs[|fs| - 1].choices
  }

  function Spoken(cs: seq<Choice>, reasoning: bool): string {
    if cs == [] then ""
    else Spoken(cs[..|cs| - 1], reasoning) + if reasoning then cs[|cs| - 1].reasoning else cs[|cs| - 1].content
  }

  /** Once the answer has begun there is no more reasoning. */
  ghost predicate NoWayBack(cs: seq<Choice>) {
    forall i, j :: 0 <= i < j < |cs| && cs[i].content != "" ==> cs[j].reasoning == ""
  }

  function ReasonThen(reasoning: string, content: string): Groups {
    var first := if reasoning == "" then Empty else Then(Empty, Reason(reasoning));
    if content == "" then first else Then(first, Content(content))
  }

  lemma {:induction false} OfChoicesJoin(cs: seq<Choice>, ds: seq<Choice>)
    ensures OfChoices(cs + ds) == OfChoices(cs) + OfChoices(ds)
  {
    if ds == [] {
      assert cs + ds == cs;
    } else {
      var front := ds[..|ds| - 1];
      assert (cs + ds)[..|cs + ds| - 1] == cs + front;
      OfChoicesJoin(cs, front);
    }
  }

  lemma {:induction false} FramesAreChoices(fs: seq<Frame>)
    ensures OfFrames(fs) == OfChoices(AllChoices(fs))
  {
    if fs != [] {
      FramesAreChoices(fs[..|fs| - 1]);
      OfChoicesJoin(AllChoices(fs[..|fs| - 1]), fs[|fs| - 1].choices);
    }
  }

  lemma {:induction false} OneMoreChoice(ds: seq<Delta>, c: Choice, reasoning: string, content: string)
    requires Grouped(ds) == ReasonThen(reasoning, content) && (content == "" || c.reasoning == "")
    ensures Grouped(ds + OfChoice(c)) == ReasonThen(reasoning + c.reasoning, content + c.content)
  {
    var thoughts := if c.reasoning == "" then [] else [Reason(c.reasoning)];
    assert Grouped(ds + thoughts) == ReasonThen(reasoning + c.reasoning, content) by {
      GroupedSnoc(ds, Reason(c.reasoning));
      assert ds + [] == ds && reasoning + "" == reasoning && "" + c.reasoning == c.reasoning;
    }
    assert Grouped(ds + thoughts + if c.content == "" then [] else [Content(c.content)])
           == ReasonThen(reasoning + c.reasoning, content + c.content) by {
      GroupedSnoc(ds + thoughts, Content(c.content));
      assert ds + thoughts + [] == ds + thoughts && content + "" == content && "" + c.content == c.content;
    }
    assert ds + OfChoice(c) == ds + thoughts + if c.content == "" then [] else [Content(c.content)];
  }

  lemma {:induction false} SilentSoFar(cs: seq<Choice>)
    ensures Spoken(cs, false) != "" ==> exists i :: 0 <= i < |cs| && cs[i].content != ""
  {
    if cs != [] && cs[|cs| - 1].content == "" {
      SilentSoFar(cs[..|cs| - 1]);
    }
  }

  lemma {:induction false} ReasonThenAnswer(cs: seq<Choice>)
    requires NoWayBack(cs)
    ensures Grouped(OfChoices(cs)) == ReasonThen(Spoken(cs, true), Spoken(cs, false))
  {
    if cs != [] {
      var front := cs[..|cs| - 1];
      ReasonThenAnswer(front);
      SilentSoFar(front);
      OneMoreChoice(OfChoices(front), cs[|cs| - 1], Spoken(front, true), Spoken(front, false));
    }
  }

  function BlockOf(t: Tags, reasoning: string): string {
    if reasoning == "" then "" else t.open + "\n" + reasoning + "\n" + t.close + "\n\n"
  }

  lemma {:induction false} PrintsOneBlock(t: Tags, reasoning: string, content: string)
    ensures Printed(t, ReasonThen(reasoning, content), true) == BlockOf(t, reasoning) + content
  {
    var first := if reasoning == "" then Empty else Then(Empty, Reason(reasoning));
    assert "" + (t.open + LEAD) + reasoning + (LEAD + t.close + GAP)
           == t.open + "\n" + reasoning + "\n" + t.close + "\n\n";
    assert Printed(t, first, true) == BlockOf(t, reasoning);
    assert BlockOf(t, reasoning) + "" == BlockOf(t, reasoning);
  }

  /** Such a stream prints one block of all its reasoning, then all its content. */
  lemma {:induction false} ReasoningComesFirst(t: Tags, frames: seq<Frame>)
    requires NoWayBack(AllChoices(frames))
    ensures Printed(t, Grouped(OfFrames(frames)), true)
            == BlockOf(t, Spoken(AllChoices(frames), true)) + Spoken(AllChoices(frames), false)
  {
    FramesAreChoices(frames);
    ReasonThenAnswer(AllChoices(frames));
    PrintsOneBlock(t, Spoken(AllChoices(frames), true), Spoken(AllChoices(frames), false));
  }

  lemma {:induction false} TrimSkips(blank: string, left: string, middle: string, right: string)
    requires Blank(blank) && Blank(left) && Blank(right) && Tight(middle)
    ensures Trim(blank + (left + middle + right)) == Trim(left + middle + right)
  {
    TrimUnique(blank + left, middle, right);
    TrimUnique(left, middle, right);
    Resplit(blank, left, middle, right);
  }

  lemma {:induction false} TrimSkipsBlank(blank: string, s: string)
    requires Blank(blank)
    ensures Trim(blank + s) == Trim(s)
  {
    var i, j := TrimSplits(s);
    assert s == s[..i] + s[i..j] + s[j..];
    TrimSkips(blank, s[..i], s[i..j], s[j..]);
  }

  lemma {:induction false} ReadsOneBlock(t: Tags, reasoning: string, content: string)
    requires Usable(t) && !Occurs(reasoning, t.close) && !Occurs(content, t.open)
    ensures var gs := ReasonThen(reasoning, content);
            && TagFree(t, gs) && Trim(ContentText(gs)) == Trim(content)
            && ReasonText(gs) == if reasoning == "" then "" else "\n" + reasoning + "\n"
  {
    var first := if reasoning == "" then Empty else Then(Empty, Reason(reasoning));
    assert "" + (LEAD + reasoning + LEAD) == "\n" + reasoning + "\n";
    if reasoning != "" {
      assert ReasonText(first) == ReasonText(Empty) + (LEAD + reasoning + LEAD);
    }
    assert TagFree(t, first) && ReasonText(first) == if reasoning == "" then "" else "\n" + reasoning + "\n";
    assert ContentText(first) == if reasoning == "" then "" else "\n\n";
    TrimSkipsBlank(ContentText(first), content);
    assert content == "" ==> ContentText(first) + content == ContentText(first);
    assert ContentText(ReasonThen(reasoning, content)) == ContentText(first) + content;
  }

  /** Read back, the reasoning is the block's inside and the answer is the content, trimmed. */
  lemma {:induction false} AnswerComesBack(frames: seq<Frame>)
    requires NoWayBack(AllChoices(frames))
    requires !Occurs(Spoken(AllChoices(frames), true), "</think>")
    requires !Occurs(Spoken(AllChoices(frames), false), "<think>")
    ensures var reasoning, content := Spoken(AllChoices(frames), true), Spoken(AllChoices(frames), false);
            var text := BlockOf(THINK, reasoning) + content;
            && Printed(THINK, Grouped(OfFrames(frames)), true) == text
            && InsideText(Scan(THINK, text)) == (if reasoning == "" then "" else "\n" + reasoning + "\n")
            && Strip(THINK, text) == Trim(content)
  {
    ThinkIsUsable();
    ReasoningComesFirst(THINK, frames);
    FramesAreChoices(frames);
    ReasonThenAnswer(AllChoices(frames));
    ReadsOneBlock(THINK, Spoken(AllChoices(frames), true), Spoken(AllChoices(frames), false));
    StreamReadsBack(THINK, OfFrames(frames));
  }

  lemma {:induction false} StreamIsReadable(t: Tags, frames: seq<Frame>)
    ensures Usable(t) && TagFree(t, Grouped(OfFrames(frames))) ==>
              ReadsBack(t, Printed(t, Grouped(OfFrames(frames)), true), Grouped(OfFrames(frames)))
    ensures NoWayBack(AllChoices(frames)) ==>
              Printed(t, Grouped(OfFrames(frames)), true)
              == BlockOf(t, Spoken(AllChoices(frames), true)) + Spoken(AllChoices(frames), false)
  {
    if Usable(t) && TagFree(t, Grouped(OfFrames(frames))) {
      StreamReadsBack(t, OfFrames(frames));
    }
    if NoWayBack(AllChoices(frames)) {
      ReasoningComesFirst(t, frames);
    }
  }

  // ---- reading it back -----------------------------------------------------

  function AddText(ps: Pieces, text: string): Pieces
    requires !HasUnclosed(ps)
  {
    if ps.Block? then Block(ps.outside, ps.inside, AddText(ps.rest, text)) else Plain(ps.outside + text)
  }

  function AddBlock(ps: Pieces, inside: string, after: string): Pieces
    requires !HasUnclosed(ps)
  {
    if ps.Block? then Block(ps.outside, ps.inside, AddBlock(ps.rest, inside, after))
    else Block(ps.outside, inside, Plain(after))
  }

  predicate HasUnclosed(ps: Pieces) {
    ps.Unclosed? || (ps.Block? && HasUnclosed(ps.rest))
  }

  function LastOutside(ps: Pieces): string {
    if ps.Block? then LastOutside(ps.rest) else ps.outside
  }

  lemma {:induction false} AddTextFacts(t: Tags, ps: Pieces, text: string)
    requires !HasUnclosed(ps)
    ensures var qs := AddText(ps, text);
            && !HasUnclosed(qs)
            && Rebuild(t, qs) == Rebuild(t, ps) + text
            && OutsideText(qs) == OutsideText(ps) + text
            && InsideText(qs) == InsideText(ps)
            && (Clean(t, ps) && !Occurs(LastOutside(ps) + text, t.open) ==> Clean(t, qs))
  {
    if ps.Block? {
      AddTextFacts(t, ps.rest, text);
    }
  }

  lemma {:induction false} AddBlockFacts(t: Tags, ps: Pieces, inside: string, after: string)
    requires !HasUnclosed(ps)
    ensures var qs := AddBlock(ps, inside, after);
            && !HasUnclosed(qs) && LastOutside(qs) == after
            && Rebuild(t, qs) == Rebuild(t, ps) + (t.open + inside + t.close + after)
            && OutsideText(qs) == OutsideText(ps) + after
            && InsideText(qs) == InsideText(ps) + inside
            && (Clean(t, ps) && !Occurs(inside, t.close) && !Occurs(after, t.open) ==> Clean(t, qs))
  {
    if ps.Block? {
      AddBlockFacts(t, ps.rest, inside, after);
    }
  }

  function PiecesOf(gs: Groups): (ps: Pieces)
    ensures !HasUnclosed(ps)
  {
    match gs
    case Empty => Plain("")
    case Then(earlier, Reason(text)) =>
      AddBlockFacts(THINK, PiecesOf(earlier), LEAD + text + LEAD, GAP);
      AddBlock(PiecesOf(earlier), LEAD + text + LEAD, GAP)
    case Then(earlier, Content(text)) =>
      AddTextFacts(THINK, PiecesOf(earlier), text);
      AddText(PiecesOf(earlier), text)
  }

  lemma {:induction false} NewlinesAround(text: string, needle: string)
    requires needle != "" && '\n' !in needle && !Occurs(text, needle)
    ensures !Occurs(LEAD + text + LEAD, needle) && !Occurs(GAP + text, needle) && !Occurs(GAP, needle)
  {
    assert needle[0] in needle;
    NeedsFirstChar(LEAD, needle);
    NeedsFirstChar(GAP, needle);
    Separated(LEAD, text, needle);
    Separated(LEAD + text, LEAD, needle);
    Separated(GAP, text, needle);
  }

  /** The printed text is the rebuilding of clean pieces. */
  lemma {:induction false} PrintedPieces(t: Tags, gs: Groups)
    requires Usable(t) && Alternating(gs) && TagFree(t, gs)
    ensures var ps := PiecesOf(gs);
            && Printed(t, gs, true) == Rebuild(t, ps) && Clean(t, ps)
            && OutsideText(ps) == ContentText(gs) && InsideText(ps) == ReasonText(gs)
            && (gs.Empty? || Thinking(gs) ==> LastOutside(ps) == if gs.Empty? then "" else GAP)
  {
    match gs
    case Empty =>
    case Then(earlier, Reason(text)) =>
      PrintedPieces(t, earlier);
      NewlinesAround(text, t.close);
      assert !Occurs("", t.open);
      NewlinesAround("", t.open);
      AddBlockFacts(t, PiecesOf(earlier), LEAD + text + LEAD, GAP);
      SameBlock(Printed(t, earlier, true), t.open, LEAD, text, t.close, GAP);
    case Then(earlier, Content(text)) =>
      PrintedPieces(t, earlier);
      NewlinesAround(text, t.open);
      assert "" + text == text;
      AddTextFacts(t, PiecesOf(earlier), text);
  }

  lemma {:induction false} SameBlock(p: string, open: string, lead: string, text: string, close: string, gap: string)
    ensures p + (open + lead) + text + (lead + close + gap) == p + (open + (lead + text + lead) + close + gap)
  {
  }

  lemma {:induction false} ContentStaysClean(t: Tags, gs: Groups)
    requires Usable(t) && Alternating(gs) && TagFree(t, gs)
    ensures !Occurs(ContentText(gs), t.open)
    ensures Thinking(gs) ==> ContentText(gs) != "" && ContentText(gs)[|ContentText(gs)| - 1] == '\n'
  {
    match gs
    case Empty =>
    case Then(earlier, Reason(_)) =>
      ContentStaysClean(t, earlier);
      assert !Occurs("", t.open);
      NewlinesAround("", t.open);
      Separated(ContentText(earlier), GAP, t.open);
    case Then(earlier, Content(text)) =>
      ContentStaysClean(t, earlier);
      assert earlier.Empty? ==> ContentText(earlier) == "";
      Separated(ContentText(earlier), text, t.open);
  }

  /** What the two readers get out of a text: the reasoning groups, and the content groups. */
  predicate ReadsBack(t: Tags, text: string, gs: Groups)
    requires t.open != "" && t.close != ""
  {
    InsideText(Scan(t, text)) == ReasonText(gs) && Strip(t, text) == Trim(ContentText(gs))
  }

  /** Printer and readers undo each other, however the deltas were cut into chunks:
      the think contents are the reasoning groups, the stripped text the content groups. */
  lemma {:induction false} StreamReadsBack(t: Tags, ds: seq<Delta>)
    requires Usable(t) && TagFree(t, Grouped(ds))
    ensures ReadsBack(t, Printed(t, Grouped(ds), true), Grouped(ds))
  {
    var gs := Grouped(ds);
    AlternatingGroups(ds);
    PrintedPieces(t, gs);
    ScanInverts(t, PiecesOf(gs));
    ContentStaysClean(t, gs);
    StripIsOutside(t, Printed(t, gs, true));
  }
}
