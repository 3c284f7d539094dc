/** Session limits, the token estimate, and the output sink of a streaming run
    (execute.go lines 28-55 and 188-224). */
module Budget {
  import opened Text

  // ---- limits --------------------------------------------------------------

  datatype Limits = Limits(maxSeconds: int, maxTokens: int, maxSessions: int)

  function Coalesce(first: int, second: int, default: int): int {
    if first != 0 then first else if second != 0 then second else default
  }

  /** `v` is the first of the three that is set. */
  predicate Wins(v: int, first: int, second: int, default: int) {
    && (first != 0 ==> v == first) && (first == 0 && second != 0 ==> v == second)
    && (first == 0 && second == 0 ==> v == default)
  }

  /** resolveSessionLimits: the work plan wins over the agent, the agent over the default;
      there is always at least one session. */
  function ResolveSessionLimits(agent: Limits, plan: Limits): (l: Limits)
    ensures l.maxSessions >= 1
    ensures Wins(l.maxSeconds, plan.maxSeconds, agent.maxSeconds, 300)
    ensures Wins(l.maxTokens, plan.maxTokens, agent.maxTokens, 0)
    ensures l.maxSessions > 1 ==> Wins(l.maxSessions, plan.maxSessions, agent.maxSessions, 1)
    ensures l.maxSessions == 1 ==> exists n :: n <= 1 && Wins(n, plan.maxSessions, agent.maxSessions, 1)
  {
    var sessions := Coalesce(plan.maxSessions, agent.maxSessions, 1);
    assert Wins(sessions, plan.maxSessions, agent.maxSessions, 1);
    Limits(Coalesce(plan.maxSeconds, agent.maxSeconds, 300),
           Coalesce(plan.maxTokens, agent.maxTokens, 0),
           if sessions < 1 then 1 else sessions)
  }

  // ---- the token estimate --------------------------------------------------

  /** Bytes of a code point in UTF-8. */
  function Width(c: char): nat {
    if c <= '\U{007F}' then 1 else if c <= '\U{07FF}' then 2 else if c <= '\U{FFFF}' then 3 else 4
  }

  /** The widths change where the encoding does, and nowhere else. */
  lemma {:induction false} WidthsOfUtf8(c: char)
    ensures Width(c) == 1 <==> (c as int) < 0x80
    ensures Width(c) == 2 <==> 0x80 <= (c as int) < 0x800
    ensures Width(c) == 3 <==> 0x800 <= (c as int) < 0x10000
    ensures Width(c) == 4 <==> 0x10000 <= (c as int)
  {
  }

  function ByteLen(s: string): (n: nat)
    ensures |s| <= n
  {
    if s == "" then 0 else ByteLen(s[..|s| - 1]) + Width(s[|s| - 1])
  }

  function EstimateTokens(s: string): (n: nat)
    ensures n == 0 <==> s == ""
    ensures 1 <= ByteLen(s) <= 7 ==> n == 1
    ensures ByteLen(s) >= 4 ==> 4 * n <= ByteLen(s) < 4 * n + 4
    ensures n <= ByteLen(s) <= 7 * n
  {
    var n := ByteLen(s) / 4;
    if n < 1 && ByteLen(s) > 0 then 1 else n
  }

  function Tokens(chunks: seq<string>): nat {
    if chunks == [] then 0 else Tokens(chunks[..|chunks| - 1]) + EstimateTokens(chunks[|chunks| - 1])
  }

  lemma {:induction false} ByteLenConcat(a: string, b: string)
    ensures ByteLen(a + b) == ByteLen(a) + ByteLen(b)
    decreases |b|
  {
    if b == "" {
      assert a + b == a;
    } else {
      assert (a + b)[..|a + b| - 1] == a + b[..|b| - 1];
      ByteLenConcat(a, b[..|b| - 1]);
    }
  }

  /** The estimate is within a factor of seven of the bytes that came in. */
  lemma {:induction false} TokensBoundBytes(chunks: seq<string>)
    ensures Tokens(chunks) <= ByteLen(Concat(chunks)) <= 7 * Tokens(chunks)
  {
    if chunks != [] {
      TokensBoundBytes(chunks[..|chunks| - 1]);
      ByteLenConcat(Concat(chunks[..|chunks| - 1]), chunks[|chunks| - 1]);
    }
  }

  /** The bound is met: seven bytes a chunk count as one token each. */
  lemma {:induction false} SevenBytesAToken(chunks: seq<string>)
    requires forall i :: 0 <= i < |chunks| ==> ByteLen(chunks[i]) == 7
    ensures Tokens(chunks) == |chunks| && ByteLen(Concat(chunks)) == 7 * Tokens(chunks)
  {
    if chunks != [] {
      SevenBytesAToken(chunks[..|chunks| - 1]);
      ByteLenConcat(Concat(chunks[..|chunks| - 1]), chunks[|chunks| - 1]);
    }
  }

  /** Chunks of four bytes or more lose less than a token each. */
  lemma {:induction false} TokensNearQuarter(chunks: seq<string>)
    requires forall i :: 0 <= i < |chunks| ==> ByteLen(chunks[i]) >= 4
    ensures 4 * Tokens(chunks) <= ByteLen(Concat(chunks)) <= 4 * Tokens(chunks) + 3 * |chunks|
  {
    if chunks != [] {
      TokensNearQuarter(chunks[..|chunks| - 1]);
      ByteLenConcat(Concat(chunks[..|chunks| - 1]), chunks[|chunks| - 1]);
    }
  }

  /** Every chunk counts for itself, wherever the list is cut. */
  lemma {:induction false} TokensAdd(a: seq<string>, b: seq<string>)
    ensures Tokens(a + b) == Tokens(a) + Tokens(b)
    ensures |b| == 1 ==> Tokens(b) == EstimateTokens(b[0])
  {
    if b == [] {
      assert a + b == a;
    } else {
      assert (a + b)[..|a + b| - 1] == a + b[..|b| - 1];
      TokensAdd(a, b[..|b| - 1]);
    }
  }

  predicate Tripped(maxTokens: int, chunks: seq<string>) {
    maxTokens > 0 && Tokens(chunks) >= maxTokens
  }

  lemma {:induction false} TokensGrow(chunks: seq<string>, n: nat)
    requires n <= |chunks|
    ensures Tokens(chunks[..n]) <= Tokens(chunks)
    decreases |chunks| - n
  {
    if n == |chunks| {
      assert chunks[..n] == chunks;
    } else {
      TokensGrow(chunks, n + 1);
      assert chunks[..n + 1][..n] == chunks[..n];
    }
  }

  /** The limit trips at most once and stays tripped; before it trips at most
      seven bytes for every token short of the limit have come in. */
  lemma {:induction false} BeforeTheTrip(maxTokens: int, chunks: seq<string>, n: nat)
    requires maxTokens > 0 && n <= |chunks|
    ensures Tripped(maxTokens, chunks[..n]) ==> Tripped(maxTokens, chunks)
    ensures !Tripped(maxTokens, chunks[..n]) ==> ByteLen(Concat(chunks[..n])) <= 7 * (maxTokens - 1)
  {
    TokensGrow(chunks, n);
    TokensBoundBytes(chunks[..n]);
  }

  /** One chunk of at least four bytes a token trips the limit by itself. */
  lemma {:induction false} BigChunkTrips(maxTokens: int, chunks: seq<string>, n: nat)
    requires maxTokens > 0 && n < |chunks| && ByteLen(chunks[n]) >= 4 * maxTokens
    ensures Tripped(maxTokens, chunks)
  {
    TokensGrow(chunks, n + 1);
    assert chunks[..n + 1][..n] == chunks[..n];
  }

  // ---- the sink ------------------------------------------------------------

  const FLUSH_INTERVAL := 50

  /** How many of `n` chunks have been flushed. */
  function FlushedCount(n: nat): (k: nat)
    ensures k <= n < k + FLUSH_INTERVAL
  {
    n - n % FLUSH_INTERVAL
  }

  /** The callback of one streaming call. */
  class Sink {
    const maxTokens: int
    var output: string
    var tokenCount: nat
    var chunksSinceFlush: nat
    var stored: string
    var cancelled: bool
    ghost var chunks: seq<string>

    ghost predicate Valid()
      reads this
    {
      && output == Concat(chunks)
      && tokenCount == Tokens(chunks)
      && chunksSinceFlush == |chunks| % FLUSH_INTERVAL
      && stored == Concat(chunks[..FlushedCount(|chunks|)])
      && (cancelled <==> Tripped(maxTokens, chunks))
    }

    constructor (maxTokens: int)
      ensures Valid() && chunks == [] && this.maxTokens == maxTokens
    {
      this.maxTokens := maxTokens;
      output, tokenCount, chunksSinceFlush, stored, cancelled := "", 0, 0, "", false;
      chunks := [];
    }

    /** One chunk: it is kept, counted, may trip the limit, and every fiftieth chunk the
        output so far is due to be stored. */
    method OnChunk(s: string) returns (flush: bool)
      requires Valid()
      modifies this
      ensures Valid() && chunks == old(chunks) + [s]
      ensures flush <==> |chunks| % 50 == 0
      ensures output == old(output) + s && tokenCount == old(tokenCount) + EstimateTokens(s)
      ensures cancelled <==> maxTokens > 0 && tokenCount >= maxTokens
      ensures flush ==> stored == output
      ensures !flush ==> stored == old(stored)
    {
      ghost var before := chunks;
      SnocFacts(before, s);
      FlushStep(|before|);
      chunks := chunks + [s];
      output := output + s;
      tokenCount := tokenCount + EstimateTokens(s);
      if maxTokens > 0 && tokenCount >= maxTokens {
        cancelled := true;
      }
      chunksSinceFlush := chunksSinceFlush + 1;
      flush := chunksSinceFlush >= FLUSH_INTERVAL;
      if flush {
        chunksSinceFlush := 0;
        stored := output;
      }
    }
  }

  lemma {:induction false} FlushStep(n: nat)
    ensures n % FLUSH_INTERVAL + 1 == FLUSH_INTERVAL ==> (n + 1) % FLUSH_INTERVAL == 0
    ensures n % FLUSH_INTERVAL + 1 < FLUSH_INTERVAL ==> (n + 1) % FLUSH_INTERVAL == n % FLUSH_INTERVAL + 1
  {
  }

  /** What one more chunk does to the counts and to the part that has been flushed. */
  lemma {:induction false} SnocFacts(chunks: seq<string>, s: string)
    ensures var more := chunks + [s]; var n := |more|;
            && Concat(more) == Concat(chunks) + s && Tokens(more) == Tokens(chunks) + EstimateTokens(s)
            && (n % FLUSH_INTERVAL == 0 ==> more[..FlushedCount(n)] == more)
            && (n % FLUSH_INTERVAL != 0 ==> more[..FlushedCount(n)] == chunks[..FlushedCount(|chunks|)])
  {
    var more := chunks + [s];
    assert more[..|chunks|] == chunks;
    FlushStep(|chunks|);
    if |more| % FLUSH_INTERVAL != 0 {
      assert more[..FlushedCount(|more|)] == chunks[..FlushedCount(|chunks|)];
    }
  }

  lemma {:induction false} ConcatPrefix(chunks: seq<string>, n: nat)
    requires n <= |chunks|
    ensures Concat(chunks[..n]) <= Concat(chunks)
    decreases |chunks| - n
  {
    if n == |chunks| {
      assert chunks[..n] == chunks;
    } else {
      ConcatPrefix(chunks, n + 1);
      assert chunks[..n + 1][..n] == chunks[..n];
    }
  }

  /** What is stored at any moment is the output of all but the last few chunks. */
  lemma {:induction false} StoredLagsBehind(chunks: seq<string>)
    ensures var k := FlushedCount(|chunks|);
            && |chunks| - 50 < k <= |chunks| && k % 50 == 0
            && Concat(chunks[..k]) <= Concat(chunks)
            && ByteLen(Concat(chunks)) <= ByteLen(Concat(chunks[..k])) + 7 * (Tokens(chunks) - Tokens(chunks[..k]))
  {
    var k := FlushedCount(|chunks|);
    ConcatPrefix(chunks, k);
    TailBytes(chunks, k);
  }

  lemma {:induction false} TailBytes(chunks: seq<string>, k: nat)
    requires k <= |chunks|
    ensures ByteLen(Concat(chunks)) <= ByteLen(Concat(chunks[..k])) + 7 * (Tokens(chunks) - Tokens(chunks[..k]))
    decreases |chunks| - k
  {
    if k == |chunks| {
      assert chunks[..k] == chunks;
    } else {
      TailBytes(chunks, k + 1);
      assert chunks[..k + 1][..k] == chunks[..k];
      ByteLenConcat(Concat(chunks[..k]), chunks[k]);
    }
  }
}
