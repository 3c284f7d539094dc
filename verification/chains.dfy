/** What the protocol's invariant means for chains of yielded sessions, and for runs that
    a rollback has cancelled. */
module Chains {
  import opened Runs
  import opened Protocol

  // ---- the shape of a chain ------------------------------------------------

  ghost function Members(runs: map<RunId, Run>, chain: ChainId): set<RunId> {
    set id | id in runs && runs[id].chain == chain
  }

  ghost function Lower(runs: map<RunId, Run>, chain: ChainId, n: int): set<RunId> {
    set id | id in runs && runs[id].chain == chain && runs[id].segment <= n
  }

  ghost predicate HasSegment(runs: map<RunId, Run>, chain: ChainId, n: int) {
    exists id :: id in Members(runs, chain) && runs[id].segment == n
  }

  /** The chain's runs carry the segment numbers 1..k, each exactly once; all but the last are
      yielded or cancelled; they share task, workflow, instructions and session overrides. */
  ghost predicate ChainShape(runs: map<RunId, Run>, chain: ChainId, k: nat) {
    && |Members(runs, chain)| == k
    && (forall id :: id in Members(runs, chain) ==> 1 <= runs[id].segment <= k)
    && (forall n :: 1 <= n <= k ==> HasSegment(runs, chain, n))
    && (forall i, j :: i in Members(runs, chain) && j in Members(runs, chain) ==>
          && (runs[i].segment == runs[j].segment ==> i == j)
          && runs[i].lineage == runs[j].lineage
          && (runs[i].segment < runs[j].segment ==> runs[i].status.Yielded? || runs[i].status.Cancelled?))
  }

  /** Below any segment stands one with every smaller number. */
  lemma {:induction false} Descend(runs: map<RunId, Run>, id: RunId, n: int) returns (p: RunId)
    requires ChainsInv(runs) && id in runs && runs[id].chain != NO_CHAIN && 1 <= n <= runs[id].segment
    ensures p in runs && runs[p].chain == runs[id].chain && runs[p].segment == n
    decreases runs[id].segment
  {
    if n == runs[id].segment {
      p := id;
    } else {
      assert HasPrevious(runs, id);
      var i :| Next(runs, i, id);
      p := Descend(runs, i, n);
    }
  }

  lemma {:induction false} LowerCounts(runs: map<RunId, Run>, id: RunId, n: nat)
    requires ChainsInv(runs) && id in runs && runs[id].chain != NO_CHAIN && n <= runs[id].segment
    ensures |Lower(runs, runs[id].chain, n)| == n
    decreases n
  {
    var c := runs[id].chain;
    if n == 0 {
      assert Lower(runs, c, 0) == {};
    } else {
      var p := Descend(runs, id, n);
      LowerCounts(runs, id, n - 1);
      forall q | q in Lower(runs, c, n) && q != p ensures q in Lower(runs, c, n - 1) {
        assert Mates(runs, p, q);
      }
      assert Lower(runs, c, n) == Lower(runs, c, n - 1) + {p};
    }
  }

  lemma {:induction false} HighestMember(runs: map<RunId, Run>, s: set<RunId>) returns (top: RunId)
    requires s != {} && forall id :: id in s ==> id in runs
    ensures top in s && forall id :: id in s ==> runs[id].segment <= runs[top].segment
  {
    var x :| x in s;
    top := x;
    if s != {x} {
      var y := HighestMember(runs, s - {x});
      if runs[y].segment > runs[x].segment { top := y; }
      assert forall id :: id in s ==> id == x || id in s - {x};
    }
  }

  /** Passing is not only to the next segment: whatever has any segment above it is passed. */
  lemma {:induction false} HigherMeansPassed(runs: map<RunId, Run>, i: RunId, j: RunId)
    requires ChainsInv(runs) && Mates(runs, i, j) && runs[i].segment < runs[j].segment
    ensures exists k :: Next(runs, i, k)
    ensures runs[i].status.Yielded? || runs[i].status.Cancelled?
  {
    var k := Descend(runs, j, runs[i].segment + 1);
    assert Next(runs, i, k);
  }

  lemma {:induction false} ChainsAreShaped(runs: map<RunId, Run>, chain: ChainId)
    requires ChainsInv(runs) && chain != NO_CHAIN
    ensures ChainShape(runs, chain, |Members(runs, chain)|)
  {
    var ms := Members(runs, chain);
    if ms != {} {
      var top := HighestMember(runs, ms);
      LowerCounts(runs, top, runs[top].segment);
      assert Lower(runs, chain, runs[top].segment) == ms;
      forall n | 1 <= n <= |ms| ensures HasSegment(runs, chain, n) {
        var p := Descend(runs, top, n);
        assert p in ms;
      }
      forall i, j | i in ms && j in ms
        ensures (runs[i].segment == runs[j].segment ==> i == j) && runs[i].lineage == runs[j].lineage
        ensures runs[i].segment < runs[j].segment ==> runs[i].status.Yielded? || runs[i].status.Cancelled?
      {
        assert Mates(runs, i, j);
        if runs[i].segment < runs[j].segment { HigherMeansPassed(runs, i, j); }
      }
    }
  }

  /** In every reachable world every chain has that shape, and a run without one is segment 1. */
  lemma {:induction false} ReachableChains(schedule: seq<Action>)
    requires After(schedule).Reached?
    ensures var runs := After(schedule).world.runs;
            && (forall c: ChainId :: c != NO_CHAIN ==> ChainShape(runs, c, |Members(runs, c)|))
            && (forall id :: id in runs && runs[id].chain == NO_CHAIN ==> runs[id].segment == 1)
  {
    InvAlways(schedule);
    var runs := After(schedule).world.runs;
    forall c: ChainId | c != NO_CHAIN ensures ChainShape(runs, c, |Members(runs, c)|) {
      ChainsAreShaped(runs, c);
    }
  }

  // ---- what is frozen ------------------------------------------------------

  /** A step never moves a run out of its place, except to give a lone run its chain. */
  lemma {:induction false} PlacesStay(w: World, a: Action, id: RunId)
    requires Inv(w) && Enabled(w, a) && id in w.runs
    ensures id in Apply(w, a).runs && Apply(w, a).runs[id].lineage == w.runs[id].lineage
    ensures Apply(w, a).runs[id].segment == w.runs[id].segment
    ensures w.runs[id].chain != NO_CHAIN ==> Apply(w, a).runs[id].chain == w.runs[id].chain
  {
    if a.BackFill? { assert ExecInv(w.runs, a.id, w.execs[a.id]); }
  }

  /** Once a segment has a successor its partial output never changes, so later sessions
      all replay the same text. */
  lemma {:induction false} PartialStays(w: World, a: Action, i: RunId, j: RunId)
    requires Inv(w) && Enabled(w, a) && Next(w.runs, i, j)
    ensures Apply(w, a).runs[i].partial == w.runs[i].partial && Next(Apply(w, a).runs, i, j)
  {
    PlacesStay(w, a, i);
    PlacesStay(w, a, j);
    if i in w.execs { assert ExecInv(w.runs, i, w.execs[i]); }
  }

  /** ... in any continuation of any schedule. */
  lemma {:induction false} PartialFrozen(schedule: seq<Action>, more: seq<Action>, i: RunId, j: RunId)
    requires After(schedule).Reached? && After(schedule + more).Reached?
    requires Next(After(schedule).world.runs, i, j)
    ensures Next(After(schedule + more).world.runs, i, j)
    ensures After(schedule + more).world.runs[i].partial == After(schedule).world.runs[i].partial
    decreases |more|
  {
    if more == [] {
      assert schedule + more == schedule;
    } else {
      var most := more[..|more| - 1];
      var all := schedule + more;
      assert all[..|all| - 1] == schedule + most && all[|all| - 1] == more[|more| - 1];
      PartialFrozen(schedule, most, i, j);
      InvAlways(schedule + most);
      PartialStays(After(schedule + most).world, more[|more| - 1], i, j);
    }
  }

  ghost predicate Known(runs: map<RunId, Run>) {
    forall id :: id in runs ==> !runs[id].status.Unknown?
  }

  lemma {:induction false} KnownStays(w: World, a: Action)
    requires Inv(w) && Enabled(w, a) && Known(w.runs)
    ensures Known(Apply(w, a).runs)
  {
    if a.WriteRollback? { assert TargetInv(w, a.target); }
  }

  /** No step ever stores a status the service does not know. */
  lemma {:induction false} StatusesAreKnown(schedule: seq<Action>)
    ensures After(schedule).Reached? ==> Known(After(schedule).world.runs)
  {
    if schedule != [] {
      var before := After(schedule[..|schedule| - 1]);
      var a := schedule[|schedule| - 1];
      if before.Reached? && Enabled(before.world, a) {
        StatusesAreKnown(schedule[..|schedule| - 1]);
        InvAlways(schedule[..|schedule| - 1]);
        KnownStays(before.world, a);
      }
    }
  }

  // ---- rolled-back runs ----------------------------------------------------

  predicate Withdrawn(s: Status) {
    s.Cancelled? || s.RolledBack?
  }

  /** An executor that may still write a status. */
  predicate MayWrite(pc: Pc) {
    !pc.Frozen? && !pc.Spawned?
  }

  /** Something is still on its way that would change the status of `id`. */
  ghost predicate Threatened(w: World, id: RunId)
    requires id in w.runs
  {
    || (id in w.execs && MayWrite(w.execs[id].pc))
    || exists t :: t in w.rollbacks && t.id == id && t.status != w.runs[id].status
  }

  /** A withdrawn run keeps its status under the next step exactly when nothing in flight
      threatens it: a run already executing can overwrite the cancellation. */
  lemma {:induction false} WithdrawnHolds(w: World, a: Action, id: RunId)
    requires Inv(w) && Enabled(w, a) && id in w.runs && Withdrawn(w.runs[id].status)
    requires !Threatened(w, id)
    ensures Apply(w, a).runs[id].status == w.runs[id].status && !Threatened(Apply(w, a), id)
  {
    var w' := Apply(w, a);
    assert a.WriteRollback? && a.target.id == id ==> a.target.status == w.runs[id].status;
    if id in w.execs { assert ExecInv(w.runs, id, w.execs[id]); }
    forall t | t in w'.rollbacks && t.id == id ensures t.status == w.runs[id].status {
      assert a.ListRollback? && t !in w.rollbacks ==> t in TargetsFor(w.runs, a.workflow);
    }
  }

  lemma {:induction false} ThreatenedCanMove(w: World, id: RunId) returns (a: Action)
    requires Inv(w) && id in w.runs && Withdrawn(w.runs[id].status) && Threatened(w, id)
    ensures Enabled(w, a) && Apply(w, a).runs[id].status != w.runs[id].status
  {
    if id in w.execs && MayWrite(w.execs[id].pc) {
      var e := w.execs[id];
      assert ExecInv(w.runs, id, e);
      match e.pc
      case Admitted =>
        a := if e.snap.status.PendingIntake? then Accept(id) else Launch(id);
      case Accepted => a := Launch(id);
      case Streaming => a := Complete(id, BLANK);
      case BackFilled => a := Freeze(id, "", BLANK);
      case Finishing => a := Unfound(id, BLANK);
    } else {
      var t :| t in w.rollbacks && t.id == id && t.status != w.runs[id].status;
      a := WriteRollback(t, BLANK);
    }
  }

  /** Withdrawn runs that nothing in flight will change or continue: no executor of theirs has
      anything left to do but leave. */
  ghost predicate Quiet(w: World, ids: set<RunId>) {
    forall id :: id in ids ==>
      && id in w.runs && Withdrawn(w.runs[id].status) && !Threatened(w, id)
      && (id in w.execs ==> w.execs[id].pc.Spawned?)
  }

  ghost predicate AllWithdrawn(runs: map<RunId, Run>, ids: set<RunId>) {
    forall id :: id in ids ==> id in runs && Withdrawn(runs[id].status)
  }

  ghost predicate WholeChains(runs: map<RunId, Run>, ids: set<RunId>) {
    forall i, j :: i in ids && Mates(runs, i, j) ==> j in ids
  }

  ghost function Anchored(runs: map<RunId, Run>, workflow: string): set<RunId> {
    set id | id in runs && runs[id].lineage.workflow == workflow
  }

  /** The workflow is withdrawn and nothing in flight brings any of it back. */
  ghost predicate Closed(w: World, workflow: string) {
    Quiet(w, Anchored(w.runs, workflow))
  }

  /** The runs keep their status and no segment joins their chains. */
  ghost predicate Undisturbed(runs: map<RunId, Run>, runs': map<RunId, Run>, ids: set<RunId>) {
    && (forall id :: id in ids ==> id in runs && id in runs' && runs'[id].status == runs[id].status)
    && WholeChains(runs', ids)
  }

  lemma {:induction false} QuietRun(w: World, a: Action, ids: set<RunId>, id: RunId)
    requires Inv(w) && Enabled(w, a) && Quiet(w, ids) && id in ids
    ensures var w' := Apply(w, a);
            && id in w'.runs && w'.runs[id].status == w.runs[id].status && SamePlace(w.runs[id], w'.runs[id])
            && !Threatened(w', id) && (id in w'.execs ==> w'.execs[id].pc.Spawned?)
  {
    WithdrawnHolds(w, a, id);
    PlacesStay(w, a, id);
  }

  /** Quiet runs stay quiet, unchanged in status and place, under every step. */
  lemma {:induction false} QuietStep(w: World, a: Action, ids: set<RunId>)
    requires Inv(w) && Enabled(w, a) && Quiet(w, ids) && WholeChains(w.runs, ids)
    ensures Quiet(Apply(w, a), ids) && Undisturbed(w.runs, Apply(w, a).runs, ids)
  {
    var w' := Apply(w, a);
    forall id | id in ids
      ensures id in w'.runs && w'.runs[id].status == w.runs[id].status && SamePlace(w.runs[id], w'.runs[id])
      ensures !Threatened(w', id) && (id in w'.execs ==> w'.execs[id].pc.Spawned?)
    {
      QuietRun(w, a, ids, id);
    }
    forall i, j | i in ids && Mates(w'.runs, i, j) ensures j in ids {
      QuietRun(w, a, ids, i);
      if a.Spawn? && j == a.next {
        assert ExecInv(w.runs, a.id, w.execs[a.id]);
        assert Mates(w.runs, i, a.id);
      } else {
        assert Mates(w.runs, i, j);
      }
    }
  }

  lemma {:induction false} FreshId(ids: set<RunId>) returns (id: RunId)
    ensures id !in ids && forall k :: k in ids ==> k < id
  {
    id := 0;
    if ids != {} {
      var k :| k in ids;
      var rest := FreshId(ids - {k});
      id := if k < rest then rest else k + 1;
      assert forall x :: x in ids ==> x == k || x in ids - {k};
    }
  }

  /** And only quiet runs do: otherwise some step changes a status among them, or an executor
      that has frozen its run adds a segment. */
  lemma {:induction false} UnquietCanMove(w: World, ids: set<RunId>) returns (a: Action)
    requires Inv(w) && AllWithdrawn(w.runs, ids) && WholeChains(w.runs, ids) && !Quiet(w, ids)
    ensures Enabled(w, a) && !Undisturbed(w.runs, Apply(w, a).runs, ids)
  {
    var id :| id in ids && (Threatened(w, id) || (id in w.execs && !w.execs[id].pc.Spawned?));
    if Threatened(w, id) {
      a := ThreatenedCanMove(w, id);
    } else {
      assert ExecInv(w.runs, id, w.execs[id]) && w.execs[id].pc.Frozen?;
      var next := FreshId(w.runs.Keys);
      a := Spawn(id, next);
      assert Mates(Apply(w, a).runs, id, next) && next !in ids;
    }
  }

  /** What the further steps `more` leave of the runs. */
  ghost predicate Spares(schedule: seq<Action>, more: seq<Action>, ids: set<RunId>)
    requires After(schedule).Reached?
  {
    After(schedule + more).Reached? ==>
      Undisturbed(After(schedule).world.runs, After(schedule + more).world.runs, ids)
  }

  lemma {:induction false} QuietForGood(schedule: seq<Action>, more: seq<Action>, ids: set<RunId>)
    requires After(schedule).Reached? && After(schedule + more).Reached?
    requires Quiet(After(schedule).world, ids) && WholeChains(After(schedule).world.runs, ids)
    ensures Quiet(After(schedule + more).world, ids)
    ensures Undisturbed(After(schedule).world.runs, After(schedule + more).world.runs, ids)
    decreases |more|
  {
    if more == [] {
      assert schedule + more == schedule;
    } else {
      var most := more[..|more| - 1];
      var all := schedule + more;
      assert all[..|all| - 1] == schedule + most && all[|all| - 1] == more[|more| - 1];
      QuietForGood(schedule, most, ids);
      InvAlways(schedule + most);
      QuietStep(After(schedule + most).world, more[|more| - 1], ids);
    }
  }

  /** Withdrawn chains are left alone by every continuation exactly when they are quiet. */
  lemma {:induction false} QuietIsFinal(schedule: seq<Action>, ids: set<RunId>)
    requires After(schedule).Reached?
    requires AllWithdrawn(After(schedule).world.runs, ids) && WholeChains(After(schedule).world.runs, ids)
    ensures Quiet(After(schedule).world, ids) <==> forall more :: Spares(schedule, more, ids)
  {
    var w := After(schedule).world;
    InvAlways(schedule);
    if Quiet(w, ids) {
      forall more ensures Spares(schedule, more, ids) {
        if After(schedule + more).Reached? { QuietForGood(schedule, more, ids); }
      }
    } else {
      var a := UnquietCanMove(w, ids);
      AfterStep(schedule, a);
      assert !Spares(schedule, [a], ids);
    }
  }

  /** Once every run of a workflow is withdrawn, that is final, whatever happens next, exactly
      when the workflow is closed. Chains never cross workflows. */
  lemma {:induction false} RollbackIsFinal(schedule: seq<Action>, workflow: string)
    requires After(schedule).Reached?
    requires AllWithdrawn(After(schedule).world.runs, Anchored(After(schedule).world.runs, workflow))
    ensures Closed(After(schedule).world, workflow)
            <==> forall more :: Spares(schedule, more, Anchored(After(schedule).world.runs, workflow))
  {
    InvAlways(schedule);
    QuietIsFinal(schedule, Anchored(After(schedule).world.runs, workflow));
  }

  /** The first steps of a run, up to its model call. */
  function Opening(lineage: Lineage): seq<Action> {
    [Intake(0, lineage), Admit(0), Accept(0), Launch(0)]
  }

  lemma {:induction false} AfterOpening(lineage: Lineage)
    ensures var r := FreshRun(lineage);
            After(Opening(lineage))
            == Reached(World(map[0 := r.(status := Running)], map[0 := Exec(Streaming, r, NO_CHAIN)], {}, Serving))
  {
    var start: seq<Action> := [];
    AfterStep(start, Intake(0, lineage));
    AfterStep(start + [Intake(0, lineage)], Admit(0));
    var admitted := start + [Intake(0, lineage)] + [Admit(0)];
    AfterStep(admitted, Accept(0));
    AfterStep(admitted + [Accept(0)], Launch(0));
    assert admitted + [Accept(0)] + [Launch(0)] == Opening(lineage);
  }

  /** A run that is listed for cancelling while its model call is in flight. */
  lemma {:induction false} ListedWhileStreaming(lineage: Lineage)
    requires lineage.workflow != ""
    ensures var steps := Opening(lineage) + [ListRollback(lineage.workflow)];
            && After(steps).Reached?
            && At(After(steps).world, 0, Streaming)
            && Target(0, Cancelled) in After(steps).world.rollbacks
  {
    AfterOpening(lineage);
    var w := After(Opening(lineage)).world;
    AfterStep(Opening(lineage), ListRollback(lineage.workflow));
    assert TargetOf(0, Running) in TargetsFor(w.runs, lineage.workflow);
  }

  /** The recorded open issue, as a schedule: a run that is cancelled while its model call is
      in flight ends up completed. */
  lemma {:induction false} CancelledIsOverwritten(lineage: Lineage)
    requires lineage.workflow != ""
    ensures var steps := Opening(lineage) + [ListRollback(lineage.workflow)]
            + [WriteRollback(Target(0, Cancelled), BLANK)];
            && After(steps).Reached? && After(steps).world.runs[0].status == Cancelled
            && After(steps + [Complete(0, BLANK)]).Reached?
            && After(steps + [Complete(0, BLANK)]).world.runs[0].status == Completed
  {
    ListedWhileStreaming(lineage);
    var listed := Opening(lineage) + [ListRollback(lineage.workflow)];
    AfterStep(listed, WriteRollback(Target(0, Cancelled), BLANK));
    AfterStep(listed + [WriteRollback(Target(0, Cancelled), BLANK)], Complete(0, BLANK));
  }

  /** A run that is frozen for its successor when a rollback lists the workflow. */
  lemma {:induction false} ListedWhileFrozen(lineage: Lineage, frozen: seq<Action>)
    requires lineage.workflow != "" && frozen == Opening(lineage) + [BackFill(0, 1)] + [Freeze(0, "", BLANK)]
    ensures var steps := frozen + [ListRollback(lineage.workflow)];
            && After(steps).Reached?
            && At(After(steps).world, 0, Frozen) && After(steps).world.runs.Keys == {0}
            && After(steps).world.rollbacks == {Target(0, Cancelled)}
            && After(steps).world.runs[0].lineage == lineage
  {
    AfterOpening(lineage);
    AfterStep(Opening(lineage), BackFill(0, 1));
    AfterStep(Opening(lineage) + [BackFill(0, 1)], Freeze(0, "", BLANK));
    var w := After(frozen).world;
    AfterStep(frozen, ListRollback(lineage.workflow));
    assert TargetOf(0, Yielded) in TargetsFor(w.runs, lineage.workflow);
  }

  /** Why nothing may be in flight: a successor that is created after the rollback has listed
      the workflow is not among what it withdraws, and stays active in the same workflow. */
  lemma {:induction false} SuccessorEscapes(lineage: Lineage, frozen: seq<Action>)
    requires lineage.workflow != "" && frozen == Opening(lineage) + [BackFill(0, 1)] + [Freeze(0, "", BLANK)]
    ensures var steps := frozen + [ListRollback(lineage.workflow)] + [WriteRollback(Target(0, Cancelled), BLANK)]
            + [Spawn(0, 1)];
            && After(steps).Reached? && After(steps).world.rollbacks == {}
            && var runs := After(steps).world.runs;
            && runs.Keys == {0, 1} && Next(runs, 0, 1)
            && runs[0].status == Cancelled && runs[1].status == PendingExecution
            && runs[1].lineage.workflow == lineage.workflow
  {
    ListedWhileFrozen(lineage, frozen);
    var listed := frozen + [ListRollback(lineage.workflow)];
    InvAlways(listed);
    assert ExecInv(After(listed).world.runs, 0, After(listed).world.execs[0]);
    AfterStep(listed, WriteRollback(Target(0, Cancelled), BLANK));
    AfterStep(listed + [WriteRollback(Target(0, Cancelled), BLANK)], Spawn(0, 1));
  }
}
