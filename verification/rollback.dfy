/** Rolling back the runs of a workflow, on stored values (workflow_run_rollback.go). */
module Rollback {
  import opened Runs
  import opened Protocol
  import opened Chains
  import opened History
  import opened Events

  /** The statuses a rollback acts on; withdrawn and unknown ones are skipped. */
  predicate Moves(s: Status) {
    InFlight(s) || Ended(s)
  }

  /** applyTerminalStatus: a status, a reason if one was given, a completion time if none was
      set; nothing else of the record. */
  function Patched(r: Run, reason: string, now: int): Run {
    r.(status := if InFlight(r.status) then Cancelled else RolledBack,
       content := r.content.(
         rollbackReason := if reason != "" then reason else r.content.rollbackReason,
         completedAt := if r.content.completedAt.Unset? then AtTime(now) else r.content.completedAt))
  }

  function Notice(id: RunId, r: Run, reason: string): Event {
    if InFlight(r.status) then RunCancelled(id, r.lineage.workflow, r.status, reason)
    else RunRolledBack(id, r.lineage.workflow, r.status, reason)
  }

  /** The answer of a rollback, with whether it came to its end. */
  datatype Report = Rejected | Report(complete: bool, cancelled: seq<RunId>, rolledBack: seq<RunId>,
                                      skipped: seq<RunId>)

  /** Every one of `ids`, and nothing else, whose status satisfies `p`, in order and as often. */
  function Pick(runs: map<RunId, Run>, ids: seq<RunId>, p: Status -> bool): (r: seq<RunId>) {
    if ids == [] then []
    else
      var id := ids[|ids| - 1];
      Pick(runs, ids[..|ids| - 1], p) + (if id in runs && p(runs[id].status) then [id] else [])
  }

  lemma {:induction false} PickMembers(runs: map<RunId, Run>, ids: seq<RunId>, p: Status -> bool)
    ensures forall k :: k in Pick(runs, ids, p) <==> k in ids && k in runs && p(runs[k].status)
    ensures NoRepeats(ids) ==> NoRepeats(Pick(runs, ids, p))
  {
    if ids != [] {
      var front, id := ids[..|ids| - 1], ids[|ids| - 1];
      PickMembers(runs, front, p);
      assert ids == front + [id];
      if NoRepeats(ids) {
        assert NoRepeats(front);
        assert id !in front;
      }
    }
  }

  lemma {:induction false} PickSnoc(runs: map<RunId, Run>, ids: seq<RunId>, id: RunId, p: Status -> bool)
    ensures Pick(runs, ids + [id], p) == Pick(runs, ids, p) + (if id in runs && p(runs[id].status) then [id] else [])
  {
    assert (ids + [id])[..|ids|] == ids;
  }

  /** The events for a list of transitions. */
  function Notices(before: map<RunId, Run>, moved: seq<RunId>, reason: string): seq<Event>
    requires forall i :: 0 <= i < |moved| ==> moved[i] in before
  {
    seq(|moved|, i requires 0 <= i < |moved| => Notice(moved[i], before[moved[i]], reason))
  }

  /** The runs anchored to a workflow, each once. */
  ghost predicate AnchoredListing(runs: map<RunId, Run>, workflow: string, ids: seq<RunId>) {
    && NoRepeats(ids)
    && forall k :: k in ids <==> k in runs && runs[k].lineage.workflow == workflow
  }

  /** One call in retrospect: its listing, how many of it it went through before the end or a
      store error, the time, its events and its answer. */
  datatype Call = Call(ids: seq<RunId>, n: nat, now: int, told: seq<Event>, report: Report)

  /** The runs a call has transitioned, in order. */
  function Moved(before: map<RunId, Run>, c: Call): seq<RunId>
    requires c.n <= |c.ids|
  {
    Pick(before, c.ids[..c.n], Moves)
  }

  /** What became of a run. */
  ghost predicate PatchedIf(before: map<RunId, Run>, after: map<RunId, Run>, moved: seq<RunId>, reason: string,
                            now: int, k: RunId) {
    && (k in before <==> k in after)
    && (k in before ==> after[k] == if k in moved then Patched(before[k], reason, now) else before[k])
  }

  /** A call has come as far as `c` says: exactly the moving runs it went through were patched,
      told of in order, and reported by where they went. */
  ghost predicate HasCome(before: map<RunId, Run>, after: map<RunId, Run>, reason: string, c: Call) {
    && c.n <= |c.ids| && c.report.Report?
    && (forall k :: PatchedIf(before, after, Moved(before, c), reason, c.now, k))
    && (forall i :: 0 <= i < |Moved(before, c)| ==> Moved(before, c)[i] in before)
    && c.told == Notices(before, Moved(before, c), reason)
    && c.report.cancelled == Pick(before, c.ids[..c.n], InFlight)
    && c.report.rolledBack == Pick(before, c.ids[..c.n], Ended)
    && c.report.skipped == Pick(before, c.ids[..c.n], Stays)
  }

  predicate Stays(s: Status) {
    !Moves(s)
  }

  /** A call is over: it has gone through all the workflow's runs or met a store error. */
  ghost predicate RollsBack(before: map<RunId, Run>, after: map<RunId, Run>, workflow: string, reason: string,
                            c: Call) {
    && AnchoredListing(before, workflow, c.ids) && HasCome(before, after, reason, c)
    && (c.report.complete <==> c.n == |c.ids|)
  }

  /** The report with one more run on the list it belongs to. */
  function Enter(r: Report, id: RunId, s: Status): Report
    requires r.Report?
  {
    if InFlight(s) then r.(cancelled := r.cancelled + [id])
    else if Ended(s) then r.(rolledBack := r.rolledBack + [id])
    else r.(skipped := r.skipped + [id])
  }

  /** A call at its start. */
  lemma {:induction false} HasNotBegun(before: map<RunId, Run>, reason: string, ids: seq<RunId>, now: int)
    ensures HasCome(before, before, reason, Call(ids, 0, now, [], Report(false, [], [], [])))
  {
    forall k ensures PatchedIf(before, before, [], reason, now, k) {}
    assert Notices(before, [], reason) == [];
  }

  /** One run further. */
  lemma {:induction false} OneFurther(before: map<RunId, Run>, after: map<RunId, Run>, reason: string, c: Call,
                                      after': map<RunId, Run>)
    requires HasCome(before, after, reason, c) && c.n < |c.ids| && NoRepeats(c.ids) && c.ids[c.n] in before
    requires var id := c.ids[c.n]; var r := before[id];
             after' == if Moves(r.status) then after[id := Patched(r, reason, c.now)] else after
    ensures var id := c.ids[c.n]; var r := before[id];
            HasCome(before, after', reason,
                    Call(c.ids, c.n + 1, c.now, c.told + (if Moves(r.status) then [Notice(id, r, reason)] else []),
                         Enter(c.report, id, r.status)))
  {
    var id := c.ids[c.n];
    var moved := Moved(before, c);
    assert c.ids[..c.n + 1] == c.ids[..c.n] + [id];
    PickSnoc(before, c.ids[..c.n], id, Moves);
    PickSnoc(before, c.ids[..c.n], id, InFlight);
    PickSnoc(before, c.ids[..c.n], id, Ended);
    PickSnoc(before, c.ids[..c.n], id, Stays);
    var moved' := Pick(before, c.ids[..c.n + 1], Moves);
    forall k ensures PatchedIf(before, after', moved', reason, c.now, k) {
      assert PatchedIf(before, after, moved, reason, c.now, k);
    }
  }

  /** What has not been gone through is still as it was. */
  lemma {:induction false} NotYet(before: map<RunId, Run>, after: map<RunId, Run>, reason: string, c: Call, i: nat)
    requires HasCome(before, after, reason, c) && c.n <= i < |c.ids| && NoRepeats(c.ids) && c.ids[i] in before
    ensures c.ids[i] in after && after[c.ids[i]] == before[c.ids[i]]
  {
    PickMembers(before, c.ids[..c.n], Moves);
    assert PatchedIf(before, after, Moved(before, c), reason, c.now, c.ids[i]);
  }

  /** The writes a rollback has yet to make. */
  ghost function Pending(before: map<RunId, Run>, ids: seq<RunId>): set<Target> {
    set id | id in ids && id in before && Moves(before[id].status) :: TargetOf(id, before[id].status)
  }

  lemma {:induction false} PendingRest(before: map<RunId, Run>, ids: seq<RunId>, n: nat)
    requires n < |ids| && NoRepeats(ids) && ids[n] in before
    ensures var r := before[ids[n]];
            && Pending(before, ids[n..])
               == Pending(before, ids[n + 1..]) + (if Moves(r.status) then {TargetOf(ids[n], r.status)} else {})
            && TargetOf(ids[n], r.status) !in Pending(before, ids[n + 1..])
  {
    assert ids[n..] == [ids[n]] + ids[n + 1..];
  }

  lemma {:induction false} PendingAll(before: map<RunId, Run>, workflow: string, ids: seq<RunId>)
    requires AnchoredListing(before, workflow, ids)
    ensures Pending(before, ids) == TargetsFor(before, workflow)
  {
  }

  // ---- what a call promises ------------------------------------------------

  /** What one call did to one run. */
  lemma {:induction false} MovedOnce(before: map<RunId, Run>, after: map<RunId, Run>, workflow: string, reason: string,
                                     c: Call, k: RunId)
    requires RollsBack(before, after, workflow, reason, c)
    ensures NoRepeats(Moved(before, c)) && PatchedIf(before, after, Moved(before, c), reason, c.now, k)
    ensures k in Moved(before, c) ==> k in before && before[k].lineage.workflow == workflow && Moves(before[k].status)
    ensures c.report.complete && k in before && before[k].lineage.workflow == workflow && Moves(before[k].status) ==>
            k in Moved(before, c)
  {
    PickMembers(before, c.ids[..c.n], Moves);
    assert k in c.ids[..c.n] ==> k in c.ids;
    if c.report.complete { assert c.ids[..c.n] == c.ids; }
  }

  ghost predicate Waiting(s: Status) {
    s.PendingIntake? || s.PendingExecution? || s.Running? || s.Yielded?
  }

  /** On success the three lists split the workflow's runs by their previous status, each run
      is withdrawn or unknown afterwards, and everything recorded about it stays. */
  lemma {:induction false} RollbackPartitions(before: map<RunId, Run>, after: map<RunId, Run>, workflow: string,
                                              reason: string, c: Call)
    requires RollsBack(before, after, workflow, reason, c) && c.report.complete
    ensures var report := c.report;
            && NoRepeats(report.cancelled) && NoRepeats(report.rolledBack) && NoRepeats(report.skipped)
            && forall k :: k in before && before[k].lineage.workflow == workflow ==>
                 && (k in report.cancelled <==> Waiting(before[k].status))
                 && (k in report.rolledBack <==> before[k].status.Completed? || before[k].status.Failed?)
                 && (k in report.skipped <==> before[k].status.Cancelled? || before[k].status.RolledBack?
                                              || before[k].status.Unknown?)
    ensures forall k :: k in c.report.cancelled || k in c.report.rolledBack || k in c.report.skipped ==>
              k in before && before[k].lineage.workflow == workflow
  {
    assert c.ids[..c.n] == c.ids;
    PickMembers(before, c.ids, InFlight);
    PickMembers(before, c.ids, Ended);
    PickMembers(before, c.ids, Stays);
  }

  /** A rollback touches nothing outside its workflow, and of a run inside only the status, the
      reason, and a completion time that was not set. */
  lemma {:induction false} RollbackFrames(before: map<RunId, Run>, after: map<RunId, Run>, workflow: string,
                                          reason: string, c: Call, k: RunId)
    requires RollsBack(before, after, workflow, reason, c)
    ensures k in before <==> k in after
    ensures k in before && before[k].lineage.workflow != workflow ==> after[k] == before[k]
    ensures k in before && !Moves(before[k].status) ==> after[k] == before[k]
    ensures k in before ==> after[k].partial == before[k].partial && SamePlace(after[k], before[k])
    ensures k in before ==>
              var r, r' := before[k].content, after[k].content;
              && r'.output == r.output && r'.error == r.error && r'.inputTokens == r.inputTokens
              && r'.outputTokens == r.outputTokens
              && r'.writes == r.writes && r'.debrief == r.debrief
              && (!r.completedAt.Unset? ==> r'.completedAt == r.completedAt)
    ensures k in before && before[k].lineage.workflow == workflow && c.report.complete ==>
              after[k].status == (match before[k].status
                                  case Completed => RolledBack
                                  case Failed => RolledBack
                                  case RolledBack => RolledBack
                                  case Unknown(text) => Unknown(text)
                                  case _ => Cancelled)
    ensures k in before && k in after && after[k] != before[k] ==>
              && after[k].content.rollbackReason == (if reason != "" then reason else before[k].content.rollbackReason)
              && (before[k].content.completedAt.Unset? ==> after[k].content.completedAt == AtTime(c.now))
  {
    MovedOnce(before, after, workflow, reason, c, k);
  }

  // ---- what a call tells ---------------------------------------------------

  /** The runs that events tell of as cancelled, in order. */
  function ToldCancelled(evs: seq<Event>): seq<RunId> {
    if evs == [] then []
    else
      var e := evs[|evs| - 1];
      ToldCancelled(evs[..|evs| - 1]) + (if e.RunCancelled? then [e.run] else [])
  }

  /** ... and as rolled back. */
  function ToldRolledBack(evs: seq<Event>): seq<RunId> {
    if evs == [] then []
    else
      var e := evs[|evs| - 1];
      ToldRolledBack(evs[..|evs| - 1]) + (if e.RunRolledBack? then [e.run] else [])
  }

  lemma {:induction false} ToldSnoc(evs: seq<Event>, e: Event)
    ensures ToldCancelled(evs + [e]) == ToldCancelled(evs) + (if e.RunCancelled? then [e.run] else [])
    ensures ToldRolledBack(evs + [e]) == ToldRolledBack(evs) + (if e.RunRolledBack? then [e.run] else [])
  {
    assert (evs + [e])[..|evs|] == evs;
  }

  lemma {:induction false} NoticesSnoc(before: map<RunId, Run>, moved: seq<RunId>, id: RunId, reason: string)
    requires id in before && forall i :: 0 <= i < |moved| ==> moved[i] in before
    ensures forall i :: 0 <= i < |moved + [id]| ==> (moved + [id])[i] in before
    ensures var s := before[id].status;
            var evs, more := Notices(before, moved, reason), Notices(before, moved + [id], reason);
            && ToldCancelled(more) == ToldCancelled(evs) + (if InFlight(s) then [id] else [])
            && ToldRolledBack(more) == ToldRolledBack(evs) + (if InFlight(s) then [] else [id])
  {
    assert Notices(before, moved + [id], reason) == Notices(before, moved, reason) + [Notice(id, before[id], reason)];
    ToldSnoc(Notices(before, moved, reason), Notice(id, before[id], reason));
  }

  lemma {:induction false} NoticesTell(before: map<RunId, Run>, ids: seq<RunId>, reason: string)
    ensures forall i :: 0 <= i < |Pick(before, ids, Moves)| ==> Pick(before, ids, Moves)[i] in before
    ensures ToldCancelled(Notices(before, Pick(before, ids, Moves), reason)) == Pick(before, ids, InFlight)
    ensures ToldRolledBack(Notices(before, Pick(before, ids, Moves), reason)) == Pick(before, ids, Ended)
  {
    if ids != [] {
      var front, id := ids[..|ids| - 1], ids[|ids| - 1];
      NoticesTell(before, front, reason);
      if id in before && Moves(before[id].status) {
        NoticesSnoc(before, Pick(before, front, Moves), id, reason);
        assert Pick(before, ids, Moves) == Pick(before, front, Moves) + [id];
      } else {
        assert Pick(before, ids, Moves) == Pick(before, front, Moves);
      }
    }
  }

  /** An event about one run of the call. */
  ghost predicate Fits(e: Event, before: map<RunId, Run>, after: map<RunId, Run>, workflow: string, reason: string) {
    match e
    case RunCancelled(id, wf, previous, why) =>
      && id in before && id in after && wf == workflow && why == reason
      && previous == before[id].status && Waiting(previous) && after[id].status == Cancelled
    case RunRolledBack(id, wf, previous, why) =>
      && id in before && id in after && wf == workflow && why == reason
      && previous == before[id].status && (previous.Completed? || previous.Failed?) && after[id].status == RolledBack
    case _ => false
  }

  /** The events of a call are one for each run it reports as moved, in the order of the two
      lists, and each says what was and what is now stored. */
  lemma {:induction false} EventsFitOutcome(before: map<RunId, Run>, after: map<RunId, Run>, workflow: string,
                                            reason: string,
                                            c: Call)
    requires RollsBack(before, after, workflow, reason, c)
    ensures ToldCancelled(c.told) == c.report.cancelled && ToldRolledBack(c.told) == c.report.rolledBack
    ensures forall i :: 0 <= i < |c.told| ==> Fits(c.told[i], before, after, workflow, reason)
  {
    var moved := Moved(before, c);
    NoticesTell(before, c.ids[..c.n], reason);
    forall i | 0 <= i < |c.told| ensures Fits(c.told[i], before, after, workflow, reason) {
      assert moved[i] in moved;
      MovedOnce(before, after, workflow, reason, c, moved[i]);
    }
  }

  /** The lists keep the order of the listing. */
  lemma {:induction false} PickInOrder(runs: map<RunId, Run>, ids: seq<RunId>, p: Status -> bool, i: nat, j: nat)
    requires NoRepeats(ids) && i < j < |Pick(runs, ids, p)|
    ensures exists m, n :: 0 <= m < n < |ids| && ids[m] == Pick(runs, ids, p)[i] && ids[n] == Pick(runs, ids, p)[j]
  {
    var front, last := ids[..|ids| - 1], ids[|ids| - 1];
    var picked := Pick(runs, front, p);
    if j < |picked| {
      PickInOrder(runs, front, p, i, j);
      var m, n :| 0 <= m < n < |front| && front[m] == picked[i] && front[n] == picked[j];
      assert ids[m] == front[m] && ids[n] == front[n];
    } else {
      PickMembers(runs, front, p);
      assert picked[i] in picked;
      var m :| 0 <= m < |front| && front[m] == picked[i];
      assert ids[m] == front[m] && ids[|ids| - 1] == last;
    }
  }

  /** Equal records but for a completion time that the rollback itself had to set. */
  predicate SameButTime(r: Run, s: Run) {
    && r.(content := r.content.(completedAt := s.content.completedAt)) == s
    && (r.content.completedAt.Unset? <==> s.content.completedAt.Unset?)
  }

  /** What both calls together did to one run, against what one call does. */
  lemma {:induction false} RetryOne(before: map<RunId, Run>, mid: map<RunId, Run>, after: map<RunId, Run>,
                                    once: map<RunId, Run>,
                                    workflow: string, reason: string, c1: Call, c2: Call, c: Call, k: RunId)
    requires RollsBack(before, mid, workflow, reason, c1)
    requires RollsBack(mid, after, workflow, reason, c2) && c2.report.complete
    requires RollsBack(before, once, workflow, reason, c) && c.report.complete
    ensures k in after <==> k in once
    ensures k in once ==> SameButTime(after[k], once[k])
    ensures k in Moved(before, c) <==> k in Moved(before, c1) || k in Moved(mid, c2)
    ensures k in Moved(mid, c2) ==> k !in Moved(before, c1) && k in mid && k in before && mid[k] == before[k]
  {
    MovedOnce(before, mid, workflow, reason, c1, k);
    MovedOnce(mid, after, workflow, reason, c2, k);
    MovedOnce(before, once, workflow, reason, c, k);
  }

  /** After an interrupted call a complete one finishes the job: over both calls every run of
      the workflow that had to move is told of exactly once, and the stored statuses are those
      of one uninterrupted call, whatever the order of the listings. */
  lemma {:induction false} RetryConverges(before: map<RunId, Run>, mid: map<RunId, Run>, after: map<RunId, Run>,
                                          once: map<RunId, Run>,
                                          workflow: string, reason: string, c1: Call, c2: Call, c: Call)
    requires RollsBack(before, mid, workflow, reason, c1)
    requires RollsBack(mid, after, workflow, reason, c2) && c2.report.complete
    requires RollsBack(before, once, workflow, reason, c) && c.report.complete
    ensures after.Keys == once.Keys && forall k :: k in once ==> SameButTime(after[k], once[k])
    ensures var moved := Moved(before, c1) + Moved(mid, c2);
            && NoRepeats(moved) && (forall k :: k in moved <==> k in Moved(before, c))
            && (forall i :: 0 <= i < |moved| ==> moved[i] in before)
            && c1.told + c2.told == Notices(before, moved, reason)
  {
    forall k
      ensures (k in after <==> k in once) && (k in once ==> SameButTime(after[k], once[k]))
      ensures k in Moved(before, c) <==> k in Moved(before, c1) || k in Moved(mid, c2)
      ensures k in Moved(mid, c2) ==> k !in Moved(before, c1) && k in mid && k in before && mid[k] == before[k]
    {
      RetryOne(before, mid, after, once, workflow, reason, c1, c2, c, k);
    }
    TwoLists(before, mid, after, workflow, reason, c1, c2);
  }

  lemma {:induction false} NoticesJoin(before: map<RunId, Run>, mid: map<RunId, Run>, first: seq<RunId>,
                                       second: seq<RunId>, reason: string)
    requires forall i :: 0 <= i < |first| ==> first[i] in before
    requires forall i :: 0 <= i < |second| ==>
             second[i] in before && second[i] in mid && mid[second[i]] == before[second[i]]
    ensures forall i :: 0 <= i < |first + second| ==> (first + second)[i] in before
    ensures Notices(before, first, reason) + Notices(mid, second, reason) == Notices(before, first + second, reason)
  {
  }

  lemma {:induction false} JoinNoRepeats(first: seq<RunId>, second: seq<RunId>)
    requires NoRepeats(first) && NoRepeats(second) && forall i :: 0 <= i < |second| ==> second[i] !in first
    ensures NoRepeats(first + second)
  {
  }

  lemma {:induction false} TwoLists(before: map<RunId, Run>, mid: map<RunId, Run>, after: map<RunId, Run>,
                                    workflow: string, reason: string, c1: Call, c2: Call)
    requires RollsBack(before, mid, workflow, reason, c1) && RollsBack(mid, after, workflow, reason, c2)
    requires forall k :: k in Moved(mid, c2) ==>
             k !in Moved(before, c1) && k in mid && k in before && mid[k] == before[k]
    ensures var moved := Moved(before, c1) + Moved(mid, c2);
            && NoRepeats(moved)
            && (forall i :: 0 <= i < |moved| ==> moved[i] in before)
            && c1.told + c2.told == Notices(before, moved, reason)
  {
    MovedOnce(before, mid, workflow, reason, c1, 0);
    MovedOnce(mid, after, workflow, reason, c2, 0);
    var first, second := Moved(before, c1), Moved(mid, c2);
    forall i | 0 <= i < |second| ensures second[i] !in first && second[i] in before
           && mid[second[i]] == before[second[i]] {
      assert second[i] in second;
    }
    NoticesJoin(before, mid, first, second, reason);
    JoinNoRepeats(first, second);
  }

  lemma {:induction false} FirstIsIn(s: seq<RunId>)
    ensures s != [] ==> s[0] in s
  {
  }

  lemma {:induction false} NotAgain(before: map<RunId, Run>, mid: map<RunId, Run>, after: map<RunId, Run>,
                                    workflow: string,
                                    reason1: string, reason2: string, c1: Call, c2: Call, k: RunId)
    requires RollsBack(before, mid, workflow, reason1, c1) && c1.report.complete
    requires RollsBack(mid, after, workflow, reason2, c2)
    ensures (k in mid <==> k in after) && (k in mid ==> after[k] == mid[k])
    ensures k !in Moved(mid, c2) && k !in c2.report.cancelled && k !in c2.report.rolledBack
  {
    MovedOnce(before, mid, workflow, reason1, c1, k);
    MovedOnce(mid, after, workflow, reason2, c2, k);
    PickMembers(mid, c2.ids[..c2.n], InFlight);
    PickMembers(mid, c2.ids[..c2.n], Ended);
    PickMembers(mid, c2.ids[..c2.n], Moves);
  }

  /** A further call changes no stored field and tells of nothing, whatever its reason. */
  lemma {:induction false} FurtherCallIsIdle(before: map<RunId, Run>, mid: map<RunId, Run>, after: map<RunId, Run>,
                                             workflow: string,
                                             reason1: string, reason2: string, c1: Call, c2: Call)
    requires RollsBack(before, mid, workflow, reason1, c1) && c1.report.complete
    requires RollsBack(mid, after, workflow, reason2, c2)
    ensures after == mid && c2.told == [] && c2.report.cancelled == [] && c2.report.rolledBack == []
  {
    forall k ensures (k in mid <==> k in after) && (k in mid ==> after[k] == mid[k])
      ensures k !in Moved(mid, c2) && k !in c2.report.cancelled && k !in c2.report.rolledBack
    {
      NotAgain(before, mid, after, workflow, reason1, reason2, c1, c2, k);
    }
    FirstIsIn(Moved(mid, c2));
    FirstIsIn(c2.report.cancelled);
    FirstIsIn(c2.report.rolledBack);
  }

  /** A complete rollback with nothing in flight closes the workflow: from there on
      RollbackIsFinal applies. */
  lemma {:induction false} CompleteRollbackCloses(before: map<RunId, Run>, w: World, workflow: string, reason: string,
                                                  c: Call)
    requires RollsBack(before, w.runs, workflow, reason, c) && c.report.complete
    requires w.execs == map[] && w.rollbacks == {} && forall k :: k in before ==> !before[k].status.Unknown?
    ensures Closed(w, workflow)
    ensures forall k :: k in w.runs && w.runs[k].lineage.workflow == workflow ==>
              w.runs[k].status.Cancelled? || w.runs[k].status.RolledBack?
  {
    forall k | k in w.runs && w.runs[k].lineage.workflow == workflow ensures Withdrawn(w.runs[k].status) {
      RollbackFrames(before, w.runs, workflow, reason, c, k);
    }
  }
}
