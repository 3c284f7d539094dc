/** The life of agent runs as a state machine over single store writes.

    Executions, rollbacks and the boot sweep are processes whose steps may interleave in any
    order; a crash may fall between any two of them. Assumed: a run has at most one executor
    at a time, chain ids are fresh when drawn, and a store write that is attempted succeeds
    (an execution that gives up is the step `Abort`, a rollback that stops is `StopRollback`). */
module Protocol {
  import opened Budget
  import opened Runs

  /** How far an executor has come. */
  datatype Pc =
    | Admitted    // read the run and found it startable
    | Accepted    // wrote pending_execution
    | Streaming   // wrote running and is calling the model
    | BackFilled  // gave the run its new chain id
    | Frozen      // wrote yielded with the partial output
    | Spawned     // created the successor
    | Finishing   // wrote completed

  /** An executor works from the record it read at the start. */
  datatype Exec = Exec(pc: Pc, snap: Run, chain: ChainId)

  /** A status a rollback has decided to write, from the listing it took. */
  datatype Target = Target(id: RunId, status: Status)

  datatype Mode = Serving | Sweeping(todo: set<RunId>)

  datatype World = World(
    runs: map<RunId, Run>,
    execs: map<RunId, Exec>,
    rollbacks: set<Target>,
    mode: Mode)

  datatype Action =
    | Intake(id: RunId, lineage: Lineage)
    | Admit(id: RunId)
    | Accept(id: RunId)
    | Launch(id: RunId)
    | Flush(id: RunId, content: Content)
    | BackFill(id: RunId, chain: ChainId)
    | Freeze(id: RunId, partial: string, content: Content)
    | Spawn(id: RunId, next: RunId)
    | Leave(id: RunId)
    | Break(id: RunId, partial: string, content: Content)
    | Complete(id: RunId, content: Content)
    | Note(id: RunId, content: Content)
    | Unfound(id: RunId, content: Content)
    | Abort(id: RunId)
    | FileWritten(id: RunId, content: Content)
    | ListRollback(workflow: string)
    | WriteRollback(target: Target, content: Content)
    | StopRollback(target: Target)
    | Crash
    | WriteSweep(id: RunId, content: Content)
    | SkipSweep(id: RunId)
    | Serve

  const INIT := World(map[], map[], {}, Serving)

  /** The segment number an executor works with. */
  function SegmentOf(snap: Run): int {
    if snap.chain == NO_CHAIN then 1 else snap.segment
  }

  function FreshRun(lineage: Lineage): Run {
    Run(lineage, PendingIntake, NO_CHAIN, 1, "", BLANK)
  }

  function Successor(e: Exec, plan: Limits): Run {
    Run(e.snap.lineage.(plan := plan), PendingExecution, e.chain, SegmentOf(e.snap) + 1, "", BLANK)
  }

  function TargetOf(id: RunId, s: Status): Target {
    Target(id, if InFlight(s) then Cancelled else RolledBack)
  }

  function TargetsFor(runs: map<RunId, Run>, workflow: string): set<Target> {
    set id | id in runs && runs[id].lineage.workflow == workflow
             && (InFlight(runs[id].status) || Ended(runs[id].status))
           :: TargetOf(id, runs[id].status)
  }

  /** What the boot sweep lists. */
  function RunningIn(runs: map<RunId, Run>): set<RunId> {
    set id | id in runs && runs[id].status.Running?
  }

  predicate At(w: World, id: RunId, pc: Pc) {
    w.mode.Serving? && id in w.runs && id in w.execs && w.execs[id].pc == pc
  }

  predicate Enabled(w: World, a: Action) {
    match a
    case Intake(id, _) => w.mode.Serving? && id !in w.runs
    case Admit(id) => w.mode.Serving? && id in w.runs && id !in w.execs && Startable(w.runs[id].status)
    case Accept(id) => At(w, id, Admitted) && w.execs[id].snap.status.PendingIntake?
    case Launch(id) => At(w, id, Accepted) || (At(w, id, Admitted) && w.execs[id].snap.status.PendingExecution?)
    case Flush(id, _) => At(w, id, Streaming)
    case BackFill(id, chain) =>
      && At(w, id, Streaming) && w.execs[id].snap.chain == NO_CHAIN
      && chain != NO_CHAIN && forall other :: other in w.runs ==> w.runs[other].chain != chain
    case Freeze(id, _, _) => At(w, id, BackFilled) || (At(w, id, Streaming) && w.execs[id].snap.chain != NO_CHAIN)
    case Spawn(id, next) => At(w, id, Frozen) && next !in w.runs
    case Leave(id) => At(w, id, Spawned) || At(w, id, Finishing)
    case Break(id, _, _) => At(w, id, Streaming)
    case Complete(id, _) => At(w, id, Streaming)
    case Note(id, _) => At(w, id, Finishing)
    case Unfound(id, _) => At(w, id, Finishing)
    case Abort(id) => w.mode.Serving? && id in w.execs
    case FileWritten(id, _) => w.mode.Serving? && id in w.runs
    case ListRollback(workflow) => w.mode.Serving? && workflow != ""
    case WriteRollback(target, _) => w.mode.Serving? && target in w.rollbacks && target.id in w.runs
    case StopRollback(target) => w.mode.Serving? && target in w.rollbacks
    case Crash => true
    case WriteSweep(id, _) => w.mode.Sweeping? && id in w.mode.todo && id in w.runs
    case SkipSweep(id) => w.mode.Sweeping? && id in w.mode.todo
    case Serve => w.mode == Sweeping({})
  }

  function SetRun(w: World, id: RunId, r: Run): World {
    w.(runs := w.runs[id := r])
  }

  function SetPc(w: World, id: RunId, pc: Pc): World
    requires id in w.execs
  {
    w.(execs := w.execs[id := w.execs[id].(pc := pc)])
  }

  function DropExec(w: World, id: RunId): World {
    w.(execs := w.execs - {id})
  }

  function Apply(w: World, a: Action): World
    requires Enabled(w, a)
  {
    match a
    case Intake(id, lineage) => SetRun(w, id, FreshRun(lineage))
    case Admit(id) => w.(execs := w.execs[id := Exec(Admitted, w.runs[id], NO_CHAIN)])
    case Accept(id) => SetPc(SetRun(w, id, w.runs[id].(status := PendingExecution)), id, Accepted)
    case Launch(id) => SetPc(SetRun(w, id, w.runs[id].(status := Running)), id, Streaming)
    case Flush(id, content) => SetRun(w, id, w.runs[id].(content := content))
    case BackFill(id, chain) =>
      SetRun(w, id, w.runs[id].(chain := chain, segment := 1))
        .(execs := w.execs[id := w.execs[id].(pc := BackFilled, chain := chain)])
    case Freeze(id, partial, content) =>
      var e := w.execs[id];
      var chain := if e.pc.BackFilled? then e.chain else e.snap.chain;
      SetRun(w, id, w.runs[id].(status := Yielded, partial := partial, content := content))
        .(execs := w.execs[id := e.(pc := Frozen, chain := chain)])
    case Spawn(id, next) =>
      SetPc(SetRun(w, next, Successor(w.execs[id], w.runs[id].lineage.plan)), id, Spawned)
    case Leave(id) => DropExec(w, id)
    case Break(id, partial, content) =>
      DropExec(SetRun(w, id, w.runs[id].(status := Failed, partial := partial, content := content)), id)
    case Complete(id, content) =>
      SetPc(SetRun(w, id, w.runs[id].(status := Completed, content := content)), id, Finishing)
    case Note(id, content) => SetRun(w, id, w.runs[id].(content := content))
    case Unfound(id, content) =>
      DropExec(SetRun(w, id, w.runs[id].(status := Failed, content := content)), id)
    case Abort(id) => DropExec(w, id)
    case FileWritten(id, content) => SetRun(w, id, w.runs[id].(content := content))
    case ListRollback(workflow) => w.(rollbacks := w.rollbacks + TargetsFor(w.runs, workflow))
    case WriteRollback(target, content) =>
      SetRun(w, target.id, w.runs[target.id].(status := target.status, content := content))
        .(rollbacks := w.rollbacks - {target})
    case StopRollback(target) => w.(rollbacks := w.rollbacks - {target})
    case Crash =>
      World(w.runs, map[], {}, Sweeping(RunningIn(w.runs)))
    case WriteSweep(id, content) =>
      SetRun(w, id, w.runs[id].(status := Failed, content := content)).(mode := Sweeping(w.mode.todo - {id}))
    case SkipSweep(id) => w.(mode := Sweeping(w.mode.todo - {id}))
    case Serve => w.(mode := Serving)
  }

  /** The world a schedule of steps leads to, if every step was possible in its turn. */
  datatype Outcome = Impossible | Reached(world: World)

  function After(schedule: seq<Action>): Outcome {
    if schedule == [] then Reached(INIT)
    else
      var before := After(schedule[..|schedule| - 1]);
      var a := schedule[|schedule| - 1];
      if before.Reached? && Enabled(before.world, a) then Reached(Apply(before.world, a)) else Impossible
  }

  lemma {:induction false} AfterStep(schedule: seq<Action>, a: Action)
    requires After(schedule).Reached? && Enabled(After(schedule).world, a)
    ensures After(schedule + [a]) == Reached(Apply(After(schedule).world, a))
  {
    assert (schedule + [a])[..|schedule|] == schedule;
  }

  // ---- the invariant -------------------------------------------------------

  /** Two segments of one chain. */
  ghost predicate Mates(runs: map<RunId, Run>, i: RunId, j: RunId) {
    i in runs && j in runs && runs[i].chain == runs[j].chain && runs[i].chain != NO_CHAIN
  }

  /** `j` is the segment after `i`. */
  ghost predicate Next(runs: map<RunId, Run>, i: RunId, j: RunId) {
    Mates(runs, i, j) && runs[j].segment == runs[i].segment + 1
  }

  /** Nothing follows run `id`. */
  ghost predicate Top(runs: map<RunId, Run>, id: RunId) {
    forall j :: !Next(runs, id, j)
  }

  ghost predicate HasPrevious(runs: map<RunId, Run>, j: RunId) {
    exists i :: Next(runs, i, j)
  }

  ghost predicate Numbered(runs: map<RunId, Run>) {
    forall id :: id in runs ==> runs[id].segment >= 1 && (runs[id].chain == NO_CHAIN ==> runs[id].segment == 1)
  }

  ghost predicate Distinct(runs: map<RunId, Run>) {
    forall i, j :: Mates(runs, i, j) && runs[i].segment == runs[j].segment ==> i == j
  }

  ghost predicate Rooted(runs: map<RunId, Run>) {
    forall j {:trigger HasPrevious(runs, j)} ::
      j in runs && runs[j].chain != NO_CHAIN && runs[j].segment > 1 ==> HasPrevious(runs, j)
  }

  ghost predicate Passed(runs: map<RunId, Run>) {
    forall i, j :: Next(runs, i, j) ==> runs[i].status.Yielded? || runs[i].status.Cancelled?
  }

  ghost predicate Kin(runs: map<RunId, Run>) {
    forall i, j :: Mates(runs, i, j) ==> runs[i].lineage == runs[j].lineage
  }

  ghost predicate ChainsInv(runs: map<RunId, Run>) {
    Numbered(runs) && Distinct(runs) && Rooted(runs) && Passed(runs) && Kin(runs)
  }

  ghost predicate ExecInv(runs: map<RunId, Run>, id: RunId, e: Exec) {
    && id in runs
    && e.snap.lineage == runs[id].lineage
    && (e.pc.Admitted? ==> Startable(e.snap.status))
    && (e.pc.Admitted? || e.pc.Accepted? || e.pc.Streaming? || e.pc.Finishing? ==>
          runs[id].chain == e.snap.chain && runs[id].segment == e.snap.segment)
    && (e.pc.BackFilled? ==>
          e.snap.chain == NO_CHAIN && e.chain != NO_CHAIN && runs[id].chain == e.chain && runs[id].segment == 1)
    && (e.pc.Frozen? || e.pc.Spawned? ==>
          e.chain != NO_CHAIN && runs[id].chain == e.chain && runs[id].segment == SegmentOf(e.snap)
          && (runs[id].status.Yielded? || runs[id].status.Cancelled?))
    && (!e.pc.Spawned? ==> Top(runs, id))
    && (!e.pc.Finishing? ==> InFlight(runs[id].status) || runs[id].status.Cancelled?)
  }

  ghost predicate TargetInv(w: World, t: Target) {
    && t.id in w.runs
    && (t.status.Cancelled? || t.status.RolledBack?)
    && (t.status.RolledBack? ==>
          && Top(w.runs, t.id)
          && (t.id in w.execs ==> w.execs[t.id].pc.Finishing?)
          && (Ended(w.runs[t.id].status) || w.runs[t.id].status.RolledBack? || w.runs[t.id].status.Cancelled?))
  }

  ghost predicate Inv(w: World) {
    && ChainsInv(w.runs)
    && (forall id :: id in w.execs ==> ExecInv(w.runs, id, w.execs[id]))
    && (forall t :: t in w.rollbacks ==> TargetInv(w, t))
    && (w.mode.Sweeping? ==>
          && w.execs == map[] && w.rollbacks == {}
          && forall id :: id in w.mode.todo ==> id in w.runs && w.runs[id].status.Running?)
  }

  // ---- every step keeps it -------------------------------------------------

  /** The record of one run changes, but not its place in a chain. */
  ghost predicate SamePlace(r: Run, s: Run) {
    r.lineage == s.lineage && r.chain == s.chain && r.segment == s.segment
  }

  /** Two stores with the same runs in the same places. */
  ghost predicate SamePlaces(runs: map<RunId, Run>, runs': map<RunId, Run>) {
    runs.Keys == runs'.Keys && forall id :: id in runs ==> SamePlace(runs[id], runs'[id])
  }

  lemma {:induction false} SamePlacesSameChains(runs: map<RunId, Run>, runs': map<RunId, Run>)
    requires SamePlaces(runs, runs') && Rooted(runs)
    ensures forall i, j :: Mates(runs, i, j) <==> Mates(runs', i, j)
    ensures forall i, j :: Next(runs, i, j) <==> Next(runs', i, j)
    ensures forall k :: Top(runs', k) <==> Top(runs, k)
    ensures Rooted(runs')
  {
    forall i, j ensures Mates(runs, i, j) <==> Mates(runs', i, j) {}
    forall i, j ensures Next(runs, i, j) <==> Next(runs', i, j) {}
    forall k ensures Top(runs', k) <==> Top(runs, k) {
      if Top(runs, k) { forall j ensures !Next(runs', k, j) { assert !Next(runs, k, j); } }
      if Top(runs', k) { forall j ensures !Next(runs, k, j) { assert !Next(runs', k, j); } }
    }
    forall j | j in runs' && runs'[j].chain != NO_CHAIN && runs'[j].segment > 1 ensures HasPrevious(runs', j) {
      assert HasPrevious(runs, j);
      var i :| Next(runs, i, j);
      assert Next(runs', i, j);
    }
  }

  lemma {:induction false} RewriteKeepsChains(runs: map<RunId, Run>, id: RunId, r: Run)
    requires ChainsInv(runs) && id in runs && SamePlace(runs[id], r)
    requires Top(runs, id) || r.status.Yielded? || r.status.Cancelled? || r.status == runs[id].status
    ensures ChainsInv(runs[id := r])
    ensures forall k :: Top(runs[id := r], k) <==> Top(runs, k)
  {
    SamePlacesSameChains(runs, runs[id := r]);
  }

  lemma {:induction false} RewriteKeepsExecs(runs: map<RunId, Run>, id: RunId, r: Run, k: RunId, e: Exec)
    requires ChainsInv(runs) && id in runs && SamePlace(runs[id], r)
    requires Top(runs, id) || r.status.Yielded? || r.status.Cancelled? || r.status == runs[id].status
    requires ExecInv(runs, k, e)
    requires k == id ==> r.status == runs[id].status || r.status.Cancelled?
    ensures ExecInv(runs[id := r], k, e)
  {
    RewriteKeepsChains(runs, id, r);
  }

  /** Rewriting the record of `id`, whose executor may move, keeps the rest of the invariant. */
  lemma {:induction false} RewriteKeeps(w: World, id: RunId, r: Run, w': World)
    requires Inv(w) && w.mode.Serving? && id in w.runs && SamePlace(w.runs[id], r)
    requires Top(w.runs, id) || r.status.Yielded? || r.status.Cancelled? || r.status == w.runs[id].status
    requires w'.runs == w.runs[id := r] && w'.mode == w.mode && w'.rollbacks <= w.rollbacks
    requires forall k :: k in w'.execs && k != id ==> k in w.execs && w'.execs[k] == w.execs[k]
    requires id in w'.execs ==> ExecInv(w'.runs, id, w'.execs[id])
    requires forall t :: t in w'.rollbacks && t.id == id && t.status.RolledBack? ==>
               && (id in w'.execs ==> w'.execs[id].pc.Finishing?)
               && (Ended(r.status) || r.status.RolledBack? || r.status.Cancelled?)
    ensures Inv(w')
  {
    RewriteKeepsChains(w.runs, id, r);
    forall k | k in w'.execs ensures ExecInv(w'.runs, k, w'.execs[k]) {
      if k != id { RewriteKeepsExecs(w.runs, id, r, k, w.execs[k]); }
    }
    forall t | t in w'.rollbacks ensures TargetInv(w', t) {
      assert TargetInv(w, t);
    }
  }

  lemma {:induction false} AddingPlaces(runs: map<RunId, Run>, id: RunId, r: Run)
    requires id !in runs && r.chain == NO_CHAIN
    ensures forall i, j :: Mates(runs[id := r], i, j) <==> Mates(runs, i, j)
    ensures forall i, j :: Next(runs[id := r], i, j) <==> Next(runs, i, j)
    ensures forall k :: Top(runs, k) ==> Top(runs[id := r], k)
  {
    var runs' := runs[id := r];
    forall i, j ensures Mates(runs', i, j) <==> Mates(runs, i, j) {}
    forall i, j ensures Next(runs', i, j) <==> Next(runs, i, j) {}
    forall k | Top(runs, k) ensures Top(runs', k) {
      forall j ensures !Next(runs', k, j) { assert !Next(runs, k, j); }
    }
  }

  lemma {:induction false} AddingKeepsRoots(runs: map<RunId, Run>, id: RunId, r: Run)
    requires Rooted(runs) && id !in runs && r.chain == NO_CHAIN
    ensures Rooted(runs[id := r])
  {
    var runs' := runs[id := r];
    forall j | j in runs' && runs'[j].chain != NO_CHAIN && runs'[j].segment > 1 ensures HasPrevious(runs', j) {
      assert HasPrevious(runs, j);
      var i :| Next(runs, i, j);
      assert Next(runs', i, j);
    }
  }

  /** A new run that starts no chain. */
  lemma {:induction false} AddingKeepsChains(runs: map<RunId, Run>, id: RunId, r: Run)
    requires ChainsInv(runs) && id !in runs && r.chain == NO_CHAIN && r.segment == 1
    ensures ChainsInv(runs[id := r])
    ensures forall k :: Top(runs, k) ==> Top(runs[id := r], k)
  {
    var runs' := runs[id := r];
    AddingPlaces(runs, id, r);
    AddingKeepsRoots(runs, id, r);
    forall i, j | Next(runs', i, j) ensures runs'[i].status.Yielded? || runs'[i].status.Cancelled? {
      assert Next(runs, i, j);
    }
  }

  lemma {:induction false} KeepsIntake(w: World, a: Action)
    requires Inv(w) && Enabled(w, a) && a.Intake?
    ensures Inv(Apply(w, a))
  {
    var w' := Apply(w, a);
    AddingKeepsChains(w.runs, a.id, FreshRun(a.lineage));
    forall t | t in w'.rollbacks ensures TargetInv(w', t) { assert TargetInv(w, t); }
  }

  lemma {:induction false} StartableIsTop(w: World, id: RunId)
    requires Inv(w) && id in w.runs && !w.runs[id].status.Yielded? && !w.runs[id].status.Cancelled?
    ensures Top(w.runs, id)
  {
  }

  lemma {:induction false} KeepsAdmit(w: World, a: Action)
    requires Inv(w) && Enabled(w, a) && a.Admit?
    ensures Inv(Apply(w, a))
  {
    StartableIsTop(w, a.id);
    var w' := Apply(w, a);
    forall t | t in w'.rollbacks ensures TargetInv(w', t) { assert TargetInv(w, t); }
  }

  lemma {:induction false} NoFreezing(w: World, id: RunId)
    requires Inv(w) && id in w.execs && !w.execs[id].pc.Finishing?
    ensures forall t :: t in w.rollbacks && t.id == id ==> !t.status.RolledBack?
  {
    forall t | t in w.rollbacks && t.id == id ensures !t.status.RolledBack? { assert TargetInv(w, t); }
  }

  /** The steps of an executor that only touch its own run's status and content. */
  lemma {:induction false} KeepsOwn(w: World, a: Action)
    requires Inv(w) && Enabled(w, a)
    requires a.Accept? || a.Launch? || a.Flush? || a.Freeze? || a.Break? || a.Complete? || a.Note? || a.Unfound?
    ensures Inv(Apply(w, a))
  {
    var w' := Apply(w, a);
    var id := a.id;
    assert ExecInv(w.runs, id, w.execs[id]);
    if !w.execs[id].pc.Finishing? { NoFreezing(w, id); }
    RewriteKeepsChains(w.runs, id, w'.runs[id]);
    RewriteKeeps(w, id, w'.runs[id], w');
  }

  lemma {:induction false} KeepsLeave(w: World, a: Action)
    requires Inv(w) && Enabled(w, a)
    requires a.Leave? || a.Abort? || a.StopRollback? || a.Crash? || a.SkipSweep? || a.Serve?
    ensures Inv(Apply(w, a))
  {
    var w' := Apply(w, a);
    forall t | t in w'.rollbacks ensures TargetInv(w', t) { assert TargetInv(w, t); }
  }

  lemma {:induction false} KeepsFileWritten(w: World, a: Action)
    requires Inv(w) && Enabled(w, a) && a.FileWritten?
    ensures Inv(Apply(w, a))
  {
    var w' := Apply(w, a);
    if a.id in w.execs {
      RewriteKeepsExecs(w.runs, a.id, w'.runs[a.id], a.id, w.execs[a.id]);
    }
    forall t | t in w.rollbacks && t.id == a.id && t.status.RolledBack?
      ensures a.id in w.execs ==> w.execs[a.id].pc.Finishing?
      ensures var s := w.runs[a.id].status; Ended(s) || s.RolledBack? || s.Cancelled?
    {
      assert TargetInv(w, t);
    }
    RewriteKeeps(w, a.id, w'.runs[a.id], w');
  }

  lemma {:induction false} KeepsListing(w: World, a: Action)
    requires Inv(w) && Enabled(w, a) && a.ListRollback?
    ensures Inv(Apply(w, a))
  {
    var w' := Apply(w, a);
    forall t | t in w'.rollbacks ensures TargetInv(w', t) {
      if t in w.rollbacks {
        assert TargetInv(w, t);
      } else {
        assert t == TargetOf(t.id, w.runs[t.id].status);
        if t.status.RolledBack? {
          StartableIsTop(w, t.id);
          assert t.id in w.execs ==> ExecInv(w.runs, t.id, w.execs[t.id]);
        }
      }
    }
  }

  lemma {:induction false} KeepsRollbackWrite(w: World, a: Action)
    requires Inv(w) && Enabled(w, a) && a.WriteRollback?
    ensures Inv(Apply(w, a))
  {
    var w' := Apply(w, a);
    var id := a.target.id;
    assert TargetInv(w, a.target);
    if id in w.execs {
      assert ExecInv(w.runs, id, w.execs[id]);
      RewriteKeepsChains(w.runs, id, w'.runs[id]);
    }
    forall t | t in w'.rollbacks && t.id == id && t.status.RolledBack?
      ensures id in w.execs ==> w.execs[id].pc.Finishing?
    {
      assert TargetInv(w, t);
    }
    RewriteKeeps(w, id, w'.runs[id], w');
  }

  lemma {:induction false} KeepsSweep(w: World, a: Action)
    requires Inv(w) && Enabled(w, a) && a.WriteSweep?
    ensures Inv(Apply(w, a))
  {
    StartableIsTop(w, a.id);
    RewriteKeepsChains(w.runs, a.id, Apply(w, a).runs[a.id]);
  }

  /** A lone run becomes the first segment of a new chain. */
  lemma {:induction false} BackFillKeepsChains(runs: map<RunId, Run>, id: RunId, chain: ChainId)
    requires ChainsInv(runs) && id in runs && runs[id].chain == NO_CHAIN
    requires chain != NO_CHAIN && forall k :: k in runs ==> runs[k].chain != chain
    ensures var runs' := runs[id := runs[id].(chain := chain, segment := 1)];
            ChainsInv(runs') && Top(runs', id) && forall k :: Top(runs, k) ==> Top(runs', k)
  {
    var runs' := runs[id := runs[id].(chain := chain, segment := 1)];
    forall i, j ensures Mates(runs', i, j) <==> Mates(runs, i, j) || (i == j == id) {}
    forall i, j ensures Next(runs', i, j) <==> Next(runs, i, j) {}
    forall j | j in runs' && runs'[j].chain != NO_CHAIN && runs'[j].segment > 1 ensures HasPrevious(runs', j) {
      assert HasPrevious(runs, j);
      var i :| Next(runs, i, j);
      assert Next(runs', i, j);
    }
    forall k | Top(runs, k) || k == id ensures Top(runs', k) {
      forall j ensures !Next(runs', k, j) { assert !Next(runs, k, j); }
    }
  }

  lemma {:induction false} KeepsBackFill(w: World, a: Action)
    requires Inv(w) && Enabled(w, a) && a.BackFill?
    ensures Inv(Apply(w, a))
  {
    var w' := Apply(w, a);
    assert ExecInv(w.runs, a.id, w.execs[a.id]);
    BackFillKeepsChains(w.runs, a.id, a.chain);
    NoFreezing(w, a.id);
    forall k | k in w'.execs ensures ExecInv(w'.runs, k, w'.execs[k]) {
      assert ExecInv(w.runs, k, w.execs[k]);
    }
    forall t | t in w'.rollbacks ensures TargetInv(w', t) { assert TargetInv(w, t); }
  }

  /** What adding a successor on top of `id` does to the order of segments. */
  lemma {:induction false} SpawnPlaces(runs: map<RunId, Run>, id: RunId, next: RunId, r: Run)
    requires ChainsInv(runs) && id in runs && Top(runs, id) && next !in runs
    requires r.chain == runs[id].chain != NO_CHAIN && r.segment == runs[id].segment + 1
    ensures var runs' := runs[next := r];
            && (forall i, j :: i in runs && j in runs ==> (Mates(runs', i, j) <==> Mates(runs, i, j)))
            && (forall j :: j in runs ==> (Mates(runs', j, next) <==> Mates(runs, j, id)))
            && (forall j :: Mates(runs, id, j) ==> runs[j].segment < r.segment)
            && (forall i, j :: Next(runs', i, j) <==> Next(runs, i, j) || (i == id && j == next))
  {
    var runs' := runs[next := r];
    forall j | j in runs ensures Mates(runs', j, next) <==> Mates(runs, j, id) {}
    forall j | Mates(runs, id, j) ensures runs[j].segment < r.segment {
      NoneAbove(runs, id, j);
    }
    forall i, j | i in runs && j in runs ensures Mates(runs', i, j) <==> Mates(runs, i, j) {}
    forall i, j ensures Next(runs', i, j) <==> Next(runs, i, j) || (i == id && j == next) {
      if i in runs && j == next && Next(runs', i, j) { assert Mates(runs, i, id); }
      if i == next && j in runs && Mates(runs', i, j) { assert Mates(runs', j, next) && Mates(runs, id, j); }
    }
  }

  lemma {:induction false} SpawnKeepsKin(runs: map<RunId, Run>, id: RunId, next: RunId, r: Run, i: RunId, j: RunId)
    requires ChainsInv(runs) && id in runs && Top(runs, id) && next !in runs
    requires r.chain == runs[id].chain != NO_CHAIN && r.segment == runs[id].segment + 1 && r.lineage == runs[id].lineage
    requires Mates(runs[next := r], i, j)
    ensures var runs' := runs[next := r];
            runs'[i].lineage == runs'[j].lineage && (runs'[i].segment == runs'[j].segment ==> i == j)
  {
    if i in runs && j in runs {
      assert Mates(runs, i, j);
    } else if i != j {
      var k := if i == next then j else i;
      assert Mates(runs, id, k);
      NoneAbove(runs, id, k);
    }
  }

  lemma {:induction false} SpawnKeepsRoots(runs: map<RunId, Run>, id: RunId, next: RunId, r: Run)
    requires Rooted(runs) && id in runs && next !in runs
    requires r.chain == runs[id].chain != NO_CHAIN && r.segment == runs[id].segment + 1
    ensures Rooted(runs[next := r])
  {
    var runs' := runs[next := r];
    forall j | j in runs' && runs'[j].chain != NO_CHAIN && runs'[j].segment > 1 ensures HasPrevious(runs', j) {
      if j == next {
        assert Next(runs', id, j);
      } else {
        assert HasPrevious(runs, j);
        var i :| Next(runs, i, j);
        assert Next(runs', i, j);
      }
    }
  }

  /** A successor on top of the last segment of a chain. */
  lemma {:induction false} SpawnKeepsChains(runs: map<RunId, Run>, id: RunId, next: RunId, r: Run)
    requires ChainsInv(runs) && id in runs && Top(runs, id) && next !in runs
    requires runs[id].status.Yielded? || runs[id].status.Cancelled?
    requires r.chain == runs[id].chain != NO_CHAIN && r.segment == runs[id].segment + 1 && r.lineage == runs[id].lineage
    ensures var runs' := runs[next := r];
            ChainsInv(runs') && Top(runs', next) && forall k :: k in runs && k != id && Top(runs, k) ==> Top(runs', k)
  {
    var runs' := runs[next := r];
    SpawnPlaces(runs, id, next, r);
    SpawnKeepsRoots(runs, id, next, r);
    forall i, j | Mates(runs', i, j)
      ensures runs'[i].lineage == runs'[j].lineage && (runs'[i].segment == runs'[j].segment ==> i == j)
    {
      SpawnKeepsKin(runs, id, next, r, i, j);
    }
    forall k | k == next || (k in runs && k != id && Top(runs, k)) ensures Top(runs', k) {
      forall j ensures !Next(runs', k, j) { assert k in runs ==> !Next(runs, k, j); }
    }
  }

  /** Nothing follows means nothing is above: segments have no gaps. */
  lemma {:induction false} NoneAbove(runs: map<RunId, Run>, id: RunId, j: RunId)
    requires ChainsInv(runs) && Mates(runs, id, j) && Top(runs, id)
    ensures runs[j].segment <= runs[id].segment
    decreases runs[j].segment
  {
    if runs[j].segment > runs[id].segment {
      assert HasPrevious(runs, j);
      var i :| Next(runs, i, j);
      assert Mates(runs, id, i);
      NoneAbove(runs, id, i);
    }
  }

  lemma {:induction false} KeepsSpawn(w: World, a: Action)
    requires Inv(w) && Enabled(w, a) && a.Spawn?
    ensures Inv(Apply(w, a))
  {
    var w' := Apply(w, a);
    var id, next := a.id, a.next;
    assert ExecInv(w.runs, id, w.execs[id]);
    SpawnKeepsChains(w.runs, id, next, w'.runs[next]);
    NoFreezing(w, id);
    forall k | k in w'.execs ensures ExecInv(w'.runs, k, w'.execs[k]) {
      assert ExecInv(w.runs, k, w.execs[k]);
    }
    forall t | t in w'.rollbacks ensures TargetInv(w', t) { assert TargetInv(w, t); }
  }

  lemma {:induction false} StepKeepsInv(w: World, a: Action)
    requires Inv(w) && Enabled(w, a)
    ensures Inv(Apply(w, a))
  {
    match a
    case Intake(_, _) => KeepsIntake(w, a);
    case Admit(_) => KeepsAdmit(w, a);
    case BackFill(_, _) => KeepsBackFill(w, a);
    case Spawn(_, _) => KeepsSpawn(w, a);
    case FileWritten(_, _) => KeepsFileWritten(w, a);
    case ListRollback(_) => KeepsListing(w, a);
    case WriteRollback(_, _) => KeepsRollbackWrite(w, a);
    case WriteSweep(_, _) => KeepsSweep(w, a);
    case Leave(_) => KeepsLeave(w, a);
    case Abort(_) => KeepsLeave(w, a);
    case StopRollback(_) => KeepsLeave(w, a);
    case Crash => KeepsLeave(w, a);
    case SkipSweep(_) => KeepsLeave(w, a);
    case Serve => KeepsLeave(w, a);
    case _ => KeepsOwn(w, a);
  }

  /** Whatever the interleaving, the invariant holds. */
  lemma {:induction false} InvAlways(schedule: seq<Action>)
    ensures After(schedule).Reached? ==> Inv(After(schedule).world)
  {
    if schedule != [] {
      InvAlways(schedule[..|schedule| - 1]);
      var before := After(schedule[..|schedule| - 1]);
      var a := schedule[|schedule| - 1];
      if before.Reached? && Enabled(before.world, a) {
        StepKeepsInv(before.world, a);
      }
    }
  }
}
