/** The events a manager publishes (events.go) and the order an execution publishes them in. */
module Events {
  import opened Runs
  import Dispatch

  /** Lifecycle events carry what the source puts in their payload; `FromModel` is an action
      published on the model's behalf, whatever its topic says. */
  datatype Event =
    | TaskStarted(task: string, run: RunId, agent: nat, workflow: string)
    | TaskYielded(task: string, run: RunId, chain: ChainId, segment: int, tokens: int, partial: string,
                  workflow: string)
    | TaskCompleted(task: string, run: RunId, agent: nat, hasSubtasks: bool, writes: seq<string>, workflow: string)
    | TaskFailed(task: string, run: RunId, fault: Fault, workflow: string)
    | RunCompleted(run: RunId)
    | RunFailed
    | TodoCreated(payload: Dispatch.TodoPayload)
    | RunCancelled(run: RunId, workflow: string, previous: Status, reason: string)
    | RunRolledBack(run: RunId, workflow: string, previous: Status, reason: string)
    | AgentCreated
    | FromModel(published: Dispatch.Published)

  /** How an execution and its successors end. */
  datatype Ending = Finished | Decomposed | Broken

  datatype Kind = Started | Yielding | Completing | Failing | RunDone | RunLost | Todos | Other

  function KindOf(e: Event): Kind {
    match e
    case TaskStarted(_, _, _, _) => Started
    case TaskYielded(_, _, _, _, _, _, _) => Yielding
    case TaskCompleted(_, _, _, _, _, _) => Completing
    case TaskFailed(_, _, _, _) => Failing
    case RunCompleted(_) => RunDone
    case RunFailed => RunLost
    case TodoCreated(_) => Todos
    case _ => Other
  }

  /** The last segment's events after its start. */
  ghost predicate EndTrace(evs: seq<Event>, run: RunId, end: Ending) {
    match end
    case Finished =>
      && |evs| >= 2
      && (forall i :: 0 <= i < |evs| - 2 ==> evs[i].FromModel?)
      && evs[|evs| - 2].TaskCompleted? && evs[|evs| - 2].run == run
      && evs[|evs| - 1] == RunCompleted(run)
    case Decomposed =>
      && |evs| == 3 && evs[0].TodoCreated? && evs[1].TaskCompleted? && evs[1].run == run
      && evs[2] == RunCompleted(run)
    case Broken =>
      |evs| == 2 && evs[0].TaskFailed? && evs[0].run == run && evs[1] == RunFailed
  }

  /** The events of an execution that went through the segments `segs`. */
  ghost predicate ChainTrace(evs: seq<Event>, segs: seq<RunId>, end: Ending)
    decreases |segs|
  {
    && |segs| >= 1 && |evs| >= 1
    && evs[0].TaskStarted? && evs[0].run == segs[0]
    && if |segs| == 1 then EndTrace(evs[1..], segs[0], end)
       else && |evs| >= 2 && evs[1].TaskYielded? && evs[1].run == segs[0]
            && ChainTrace(evs[2..], segs[1..], end)
  }

  /** The lifecycle events, with the model's own left out. */
  function Lifecycle(evs: seq<Event>): seq<Kind> {
    if evs == [] then []
    else (if evs[0].FromModel? then [] else [KindOf(evs[0])]) + Lifecycle(evs[1..])
  }

  function Rounds(n: nat): seq<Kind> {
    if n == 0 then [] else [Started, Yielding] + Rounds(n - 1)
  }

  function EndKinds(end: Ending): seq<Kind> {
    match end
    case Finished => [Completing, RunDone]
    case Decomposed => [Todos, Completing, RunDone]
    case Broken => [Failing, RunLost]
  }

  lemma {:induction false} LifecycleOfModel(evs: seq<Event>, n: nat)
    requires n <= |evs| && forall i :: 0 <= i < n ==> evs[i].FromModel?
    ensures Lifecycle(evs) == Lifecycle(evs[n..])
    decreases n
  {
    if n > 0 {
      var rest := evs[1..];
      LifecycleOfModel(rest, n - 1);
      assert rest[n - 1..] == evs[n..];
    }
  }

  lemma {:induction false} LifecycleOfEnd(evs: seq<Event>, run: RunId, end: Ending)
    requires EndTrace(evs, run, end)
    ensures Lifecycle(evs) == EndKinds(end)
  {
    var n := if end.Finished? then |evs| - 2 else 0;
    LifecycleOfModel(evs, n);
    var tail := evs[n..];
    assert tail[1..] == evs[n + 1..] && tail[1..][1..] == evs[n + 2..];
    if end.Decomposed? { assert evs[3..] == []; }
    assert Lifecycle(evs[n + 2..]) == if end.Decomposed? then [RunDone] + Lifecycle(evs[3..]) else [];
  }

  /** Over all sessions of one execution the lifecycle events are (started yielded)* started
      and one of the three endings. */
  lemma {:induction false} LifecycleGrammar(evs: seq<Event>, segs: seq<RunId>, end: Ending)
    requires ChainTrace(evs, segs, end)
    ensures Lifecycle(evs) == Rounds(|segs| - 1) + [Started] + EndKinds(end)
    decreases |segs|
  {
    assert Lifecycle(evs) == [Started] + Lifecycle(evs[1..]);
    if |segs| == 1 {
      LifecycleOfEnd(evs[1..], segs[0], end);
      assert [] + [Started] == [Started];
    } else {
      var rest := evs[2..];
      assert evs[1..][1..] == rest && evs[1..][0] == evs[1];
      LifecycleGrammar(rest, segs[1..], end);
      assert Lifecycle(evs[1..]) == [Yielding] + Lifecycle(rest);
      OneRound(Rounds(|segs| - 2), [Started] + EndKinds(end));
      assert Rounds(|segs| - 2) + [Started] + EndKinds(end) == Rounds(|segs| - 2) + ([Started] + EndKinds(end));
    }
  }

  lemma {:induction false} OneRound(rounds: seq<Kind>, tail: seq<Kind>)
    ensures [Started] + ([Yielding] + (rounds + tail)) == [Started, Yielding] + rounds + tail
  {
  }

  /** The model's actions come only between the last start and a regular completion. */
  lemma {:induction false} ModelActionsComeLast(evs: seq<Event>, segs: seq<RunId>, end: Ending, i: nat)
    requires ChainTrace(evs, segs, end) && i < |evs| && evs[i].FromModel?
    ensures end.Finished? && 2 * |segs| - 2 < i < |evs| - 2
    decreases |segs|
  {
    if |segs| == 1 {
      assert i > 0 && evs[i] == evs[1..][i - 1];
    } else {
      assert i > 1 && evs[i] == evs[2..][i - 2];
      ModelActionsComeLast(evs[2..], segs[1..], end, i - 2);
    }
  }
}
