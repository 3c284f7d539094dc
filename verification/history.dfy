/** Replaying a chain to the model (chain.go, dispatch.go buildMessages). */
module History {
  import opened Runs
  import opened Protocol
  import opened Chains

  datatype Role = User | Assistant

  datatype Message = Message(role: Role, content: string)

  /** The store lists every run once, in an order of its own. */
  ghost predicate Listing(runs: map<RunId, Run>, ids: seq<RunId>) {
    && (forall i :: 0 <= i < |ids| ==> ids[i] in runs)
    && (forall id :: id in runs ==> id in ids)
    && NoRepeats(ids)
  }

  predicate Earlier(r: Run, chain: ChainId, maxSegment: int) {
    r.chain == chain && r.segment < maxSegment
  }

  ghost predicate Ascending(runs: map<RunId, Run>, ids: seq<RunId>) {
    && (forall i :: 0 <= i < |ids| ==> ids[i] in runs)
    && forall i, j :: 0 <= i < j < |ids| ==> runs[ids[i]].segment <= runs[ids[j]].segment
  }

  /** The earlier runs of the chain among `ids`, each as often as listed, by segment. */
  ghost predicate EarlierRuns(runs: map<RunId, Run>, ids: seq<RunId>, chain: ChainId, maxSegment: int, r: seq<RunId>) {
    && Ascending(runs, r)
    && (forall id :: id in r <==> id in ids && id in runs && Earlier(runs[id], chain, maxSegment))
    && NoRepeats(r)
  }

  ghost predicate NoRepeats(ids: seq<RunId>) {
    forall i, j :: 0 <= i < j < |ids| ==> ids[i] != ids[j]
  }

  lemma {:induction false} InsertedAt(ids: seq<RunId>, at: nat, id: RunId)
    requires at <= |ids| && NoRepeats(ids) && id !in ids
    ensures var r := ids[..at] + [id] + ids[at..];
            NoRepeats(r) && forall k :: k in r <==> k in ids || k == id
  {
    var r := ids[..at] + [id] + ids[at..];
    assert ids == ids[..at] + ids[at..];
    forall i | 0 <= i < |r| ensures r[i] == if i < at then ids[i] else if i == at then id else ids[i - 1] {}
  }

  /** One step of sort.Slice by segment number: place `id` among sorted runs. */
  method Insert(runs: map<RunId, Run>, sorted: seq<RunId>, id: RunId) returns (r: seq<RunId>)
    requires Ascending(runs, sorted) && id in runs && id !in sorted && NoRepeats(sorted)
    ensures Ascending(runs, r) && NoRepeats(r)
    ensures forall k :: k in r <==> k in sorted || k == id
  {
    var at := |sorted|;
    while at > 0 && runs[sorted[at - 1]].segment > runs[id].segment
      invariant 0 <= at <= |sorted|
      invariant forall i :: at <= i < |sorted| ==> runs[sorted[i]].segment > runs[id].segment
    {
      at := at - 1;
    }
    InsertedAt(sorted, at, id);
    r := sorted[..at] + [id] + sorted[at..];
  }

  /** chain.go's loadChainHistory: filter the listing, sort by segment. */
  method LoadChainHistory(runs: map<RunId, Run>, ids: seq<RunId>, chain: ChainId, maxSegment: int)
    returns (history: seq<RunId>)
    requires Listing(runs, ids)
    ensures EarlierRuns(runs, ids, chain, maxSegment, history)
  {
    history := [];
    for i := 0 to |ids|
      invariant EarlierRuns(runs, ids[..i], chain, maxSegment, history)
    {
      assert forall id :: id in ids[..i + 1] <==> id in ids[..i] || id == ids[i];
      if Earlier(runs[ids[i]], chain, maxSegment) {
        history := Insert(runs, history, ids[i]);
      }
    }
    assert ids[..|ids|] == ids;
  }

  /** chain.go's buildChainConversation: two turns for each prior session. */
  method BuildChainConversation(runs: map<RunId, Run>, history: seq<RunId>) returns (turns: seq<Message>)
    requires forall i :: 0 <= i < |history| ==> history[i] in runs
    ensures |turns| == 2 * |history|
    ensures forall i :: 0 <= i < |history| ==> TurnsOf(runs[history[i]], turns, 2 * i)
  {
    turns := [];
    for i := 0 to |history|
      invariant |turns| == 2 * i
      invariant forall j :: 0 <= j < i ==> TurnsOf(runs[history[j]], turns, 2 * j)
    {
      var r := runs[history[i]];
      turns := turns + [Message(User, r.lineage.instructions), Message(Assistant, r.partial)];
    }
  }

  predicate TurnsOf(r: Run, turns: seq<Message>, at: int) {
    && 0 <= at && at + 1 < |turns|
    && turns[at] == Message(User, r.lineage.instructions)
    && turns[at + 1] == Message(Assistant, r.partial)
  }

  /** dispatch.go's buildMessages: the turns, then the user's message. */
  method BuildMessages(history: seq<Message>, user: string) returns (msgs: seq<Message>)
    ensures msgs == history + [Message(User, user)]
  {
    msgs := [];
    for i := 0 to |history|
      invariant msgs == history[..i]
    {
      msgs := msgs + [history[i]];
    }
    msgs := msgs + [Message(User, user)];
  }

  /** The conversation a session must send: every earlier segment's instructions and partial
      output in order of segment, then the user's message, and nothing else. */
  ghost predicate Replays(runs: map<RunId, Run>, chain: ChainId, segment: int, user: string, msgs: seq<Message>) {
    && |msgs| == 2 * (segment - 1) + 1
    && msgs[|msgs| - 1] == Message(User, user)
    && (forall k :: 0 <= k < |msgs| ==> (msgs[k].role.User? <==> k % 2 == 0))
    && (forall n :: 1 <= n < segment ==> ReplaysSegment(runs, chain, n, msgs))
  }

  ghost predicate ReplaysSegment(runs: map<RunId, Run>, chain: ChainId, n: int, msgs: seq<Message>) {
    exists id :: id in runs && runs[id].chain == chain && runs[id].segment == n && TurnsOf(runs[id], msgs, 2 * (n - 1))
  }

  /** By segment number, the earlier runs are exactly 1, 2, ... in their places. */
  lemma {:induction false} HistoryIsDense(runs: map<RunId, Run>, ids: seq<RunId>, id: RunId, history: seq<RunId>,
                                          k: nat)
    requires ChainsInv(runs) && Listing(runs, ids) && id in runs && runs[id].chain != NO_CHAIN
    requires EarlierRuns(runs, ids, runs[id].chain, runs[id].segment, history)
    requires k < runs[id].segment
    ensures k <= |history| && forall i :: 0 <= i < k ==> runs[history[i]].segment == i + 1
    decreases k
  {
    if k > 0 {
      HistoryIsDense(runs, ids, id, history, k - 1);
      var p := Descend(runs, id, k);
      assert p in history;
      var at :| 0 <= at < |history| && history[at] == p;
      assert at >= k - 1;
      var q := history[k - 1];
      assert q in history && Numbered(runs);
      if k > 1 {
        var before := history[k - 2];
        assert runs[before].segment == k - 1 && runs[before].segment <= runs[q].segment;
        assert before in history && Mates(runs, before, q);
      }
      assert runs[q].segment <= runs[p].segment;
    }
  }

  /** History replay is exact, whatever order the store lists its runs in. */
  method Converse(runs: map<RunId, Run>, ids: seq<RunId>, ghost id: RunId, run: Run, user: string)
    returns (msgs: seq<Message>)
    requires ChainsInv(runs) && Listing(runs, ids)
    requires id in runs && SamePlace(run, runs[id])
    ensures Replays(runs, run.chain, run.segment, user, msgs)
  {
    var history: seq<Message> := [];
    if run.chain != NO_CHAIN && run.segment > 1 {
      var prior := LoadChainHistory(runs, ids, run.chain, run.segment);
      PriorCount(runs, ids, id, prior);
      history := BuildChainConversation(runs, prior);
      msgs := BuildMessages(history, user);
      PriorReplays(runs, ids, id, prior, history, user);
    } else {
      msgs := BuildMessages(history, user);
    }
  }

  lemma {:induction false} PriorCount(runs: map<RunId, Run>, ids: seq<RunId>, id: RunId, prior: seq<RunId>)
    requires ChainsInv(runs) && Listing(runs, ids) && id in runs && runs[id].chain != NO_CHAIN
    requires EarlierRuns(runs, ids, runs[id].chain, runs[id].segment, prior)
    ensures |prior| == runs[id].segment - 1
    ensures forall i :: 0 <= i < |prior| ==> runs[prior[i]].segment == i + 1
  {
    var n := runs[id].segment - 1;
    HistoryIsDense(runs, ids, id, prior, n);
    if |prior| > n {
      assert prior[n] in prior && Numbered(runs);
      if n > 0 {
        assert prior[n - 1] in prior && runs[prior[n - 1]].segment == n;
        assert Mates(runs, prior[n - 1], prior[n]);
      }
    }
  }

  lemma {:induction false} PriorReplays(runs: map<RunId, Run>, ids: seq<RunId>, id: RunId, prior: seq<RunId>,
                                        turns: seq<Message>, user: string)
    requires ChainsInv(runs) && Listing(runs, ids) && id in runs && runs[id].chain != NO_CHAIN
    requires EarlierRuns(runs, ids, runs[id].chain, runs[id].segment, prior)
    requires |turns| == 2 * |prior| && forall i :: 0 <= i < |prior| ==> TurnsOf(runs[prior[i]], turns, 2 * i)
    ensures Replays(runs, runs[id].chain, runs[id].segment, user, turns + [Message(User, user)])
  {
    PriorCount(runs, ids, id, prior);
    var msgs := turns + [Message(User, user)];
    forall k | 0 <= k < |msgs| ensures msgs[k].role.User? <==> k % 2 == 0 {
      if k < |turns| {
        assert TurnsOf(runs[prior[k / 2]], turns, 2 * (k / 2));
      }
    }
    forall n | 1 <= n < runs[id].segment ensures ReplaysSegment(runs, runs[id].chain, n, msgs) {
      var p := prior[n - 1];
      assert p in prior && TurnsOf(runs[p], turns, 2 * (n - 1));
      assert TurnsOf(runs[p], msgs, 2 * (n - 1));
    }
  }

  /** Two conversations for the same session are the same, so the listing order is invisible. */
  lemma {:induction false} ReplayIsUnique(runs: map<RunId, Run>, chain: ChainId, segment: int, user: string,
                                          a: seq<Message>, b: seq<Message>)
    requires ChainsInv(runs) && chain != NO_CHAIN
    requires Replays(runs, chain, segment, user, a) && Replays(runs, chain, segment, user, b)
    ensures a == b
  {
    forall k | 0 <= k < |a| ensures a[k] == b[k] {
      if k < |a| - 1 {
        var n := k / 2 + 1;
        assert ReplaysSegment(runs, chain, n, a) && ReplaysSegment(runs, chain, n, b);
        var i :| i in runs && runs[i].chain == chain && runs[i].segment == n && TurnsOf(runs[i], a, 2 * (n - 1));
        var j :| j in runs && runs[j].chain == chain && runs[j].segment == n && TurnsOf(runs[j], b, 2 * (n - 1));
        assert Mates(runs, i, j);
      }
    }
  }
}
