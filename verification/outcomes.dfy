/** What one session of a run leads to: the verdict on the model's reply, the record the
    session leaves on its run, and the events it ends with (execute.go, planner.go). */
module Outcomes {
  import opened Text
  import Actions
  import opened Budget
  import opened Runs
  import opened Debrief
  import opened Dispatch
  import opened Events
  import opened Protocol

  /** What the source reads of an agent. */
  datatype Agent = Agent(name: string, model: string, systemPrompt: string, limits: Limits, timeoutSeconds: int)

  function Or(new_: string, old_: string): string {
    if new_ != "" then new_ else old_
  }

  /** UpdateAgent's merge: only fields that are given replace stored ones. */
  function Merge(a: Agent, given: Agent): Agent {
    Agent(Or(given.name, a.name), Or(given.model, a.model), Or(given.systemPrompt, a.systemPrompt),
          Limits(Coalesce(given.limits.maxSeconds, a.limits.maxSeconds, 0),
                 Coalesce(given.limits.maxTokens, a.limits.maxTokens, 0),
                 Coalesce(given.limits.maxSessions, a.limits.maxSessions, 0)),
          if given.timeoutSeconds != 0 then given.timeoutSeconds else a.timeoutSeconds)
  }

  datatype LlmError = NoError | DeadlineExceeded | CallCancelled(text: string) | OtherError(text: string)

  /** One model call: the streamed chunks, the reported usage, how it ended. */
  datatype Reply = Reply(chunks: seq<string>, inputTokens: int, outputTokens: int, err: LlmError)

  function OutputOf(r: Reply): string {
    Concat(r.chunks)
  }

  /** The errors of a session that ran out of its limits. */
  predicate Signals(e: LlmError) {
    e.DeadlineExceeded? || e.CallCancelled?
  }

  function FaultOf(e: LlmError, agent: Agent): Fault
    requires !e.NoError?
  {
    match e
    case DeadlineExceeded => TimedOut(if agent.timeoutSeconds > 0 then agent.timeoutSeconds else 300)
    case CallCancelled(text) => LlmFault(text)
    case OtherError(text) => LlmFault(text)
  }

  /** The store after `n` of the chunks of a session have come in: the output of the run is
      what the last flush, if any, left there. */
  ghost function FlushedTo(before: map<RunId, Run>, id: RunId, chunks: seq<string>, n: nat): map<RunId, Run>
    requires id in before && n <= |chunks|
  {
    var k := FlushedCount(n);
    if k == 0 then before
    else before[id := before[id].(content := before[id].content.(output := Concat(chunks[..k])))]
  }


  function Voices(published: seq<Published>): (evs: seq<Event>)
    ensures |evs| == |published| && forall i :: 0 <= i < |evs| ==> evs[i] == FromModel(published[i])
  {
    seq(|published|, i requires 0 <= i < |published| => FromModel(published[i]))
  }

  /** The events are the model's actions, each as promised. */
  ghost predicate Said(evs: seq<Event>, items: seq<Decoded>, o: Origin, decode: Fields -> TodoResult) {
    && |evs| == |items|
    && forall i :: 0 <= i < |items| ==> evs[i].FromModel? && Announces(evs[i].published, items[i], o, decode)
  }

  lemma {:induction false} AnnouncedIsSaid(published: seq<Published>, items: seq<Decoded>, o: Origin,
                                           decode: Fields -> TodoResult)
    requires AllAnnounced(published, items, o, decode)
    ensures Said(Voices(published), items, o, decode)
  {
  }

  /** The actions as promised, then the two completion events, telling whether work was handed
      on and which files will be written. */
  ghost predicate Reports(tail: seq<Event>, id: RunId, l: Lineage, agentId: nat, items: seq<Decoded>,
                          decode: Fields -> TodoResult) {
    && |tail| == |items| + 2
    && Said(tail[..|items|], items, Origin(l.task, id, agentId, l.workflow), decode)
    && Completes(tail[|items|], id, l, agentId, items) && tail[|items| + 1] == RunCompleted(id)
  }

  ghost predicate Completes(e: Event, id: RunId, l: Lineage, agentId: nat, items: seq<Decoded>) {
    match e
    case TaskCompleted(task, run, agent, hasSubtasks, writes, workflow) =>
      && task == l.task && run == id && agent == agentId && workflow == l.workflow
      && writes == WritePaths(Lines(items))
      && (hasSubtasks <==>
            task != ""
            && exists i :: 0 <= i < |items|
                           && items[i].topic in ["todo.created", "task.request-split", "task.request-decompose"])
    case _ => false
  }

  /** A run whose model call failed. */
  function Fails(r: Run, reply: Reply, agent: Agent, now: int): Run
    requires !reply.err.NoError?
  {
    r.(status := Failed,
       content := r.content.(error := FaultOf(reply.err, agent), output := OutputOf(reply), completedAt := AtTime(now)))
  }

  /** A run that spent the last session. */
  function Exhausted(r: Run, reply: Reply, max: int, now: int): Run {
    r.(status := Failed, partial := OutputOf(reply),
       content := r.content.(error := MaxSessionsReached(max, r.segment), outputTokens := reply.outputTokens,
                             completedAt := AtTime(now)))
  }

  /** A run whose remaining work became a plan. */
  function Decomposes(r: Run, output: string, now: int): Run {
    r.(status := Completed, content := r.content.(output := output, completedAt := AtTime(now)))
  }

  /** A run that leaves its work to the next segment of `chain`. */
  function Yields(r: Run, chain: ChainId, reply: Reply, now: int): Run {
    r.(status := Yielded, chain := chain, partial := OutputOf(reply),
       content := r.content.(outputTokens := reply.outputTokens, completedAt := AtTime(now)))
  }

  /** The segment after `r`. */
  function Follows(r: Run): Run {
    Run(r.lineage, PendingExecution, r.chain, r.segment + 1, "", BLANK)
  }

  function StartEvent(id: RunId, l: Lineage, agentId: nat): Event {
    TaskStarted(l.task, id, agentId, l.workflow)
  }

  /** The events of a failed run tell of the stored error. */
  function FailEvents(id: RunId, r: Run): seq<Event> {
    [TaskFailed(r.lineage.task, id, r.content.error, r.lineage.workflow), RunFailed]
  }

  function YieldEvent(id: RunId, r: Run, reply: Reply): Event {
    TaskYielded(r.lineage.task, id, r.chain, r.segment, reply.outputTokens, r.partial, r.lineage.workflow)
  }

  function OriginOf(id: RunId, l: Lineage, agentId: nat): Origin {
    Origin(l.task, id, agentId, l.workflow)
  }

  /** What the completion write stores. */
  function Answers(r: Run, reply: Reply, now: int): Run {
    r.(status := Completed,
       content := r.content.(output := OutputOf(reply), inputTokens := reply.inputTokens,
                             outputTokens := reply.outputTokens, completedAt := AtTime(now)))
  }

  /** A completed run whose answer held no actions. */
  function Unfounded(r: Run): Run {
    r.(status := Failed, content := r.content.(error := NoActionsFound))
  }

  /** What dispatching leaves on the run: a debrief of all actions and the emitted paths. */
  ghost function Reported(r: Run, items: seq<Decoded>): Run {
    if items == [] then r
    else
      var writes := WritePaths(Lines(items));
      var c := r.content.(debrief := Render(Lines(items)));
      r.(content := if writes != [] then c.(writes := writes) else c)
  }

  /** A run that was running when the service went down. */
  function Interrupts(r: Run, now: int): Run {
    r.(status := Failed, content := r.content.(error := Interrupted, completedAt := AtTime(now)))
  }

  /** A run whose debrief learns of a committed file. */
  function Confirmed(r: Run, path: string, branch: string, sha: string): Run {
    r.(content := r.content.(debrief := Confirm(r.content.debrief, path, branch, sha)))
  }

  /** Once every file a finished run asked for has been confirmed, its debrief is the list of
      its actions with no file-write left dispatched. */
  lemma {:induction false} ReportSettles(debrief: string, items: seq<Decoded>, cs: seq<Confirmation>)
    requires debrief == Render(Lines(items))
    requires PlainLines(Lines(items)) && forall j :: 0 <= j < |cs| ==> PlainConfirmation(cs[j])
    requires forall i :: 0 <= i < |items| && items[i].topic == FILE_WRITE ==>
               exists j :: 0 <= j < |cs| && cs[j].path == Word(FieldsIn(items[i]), "path")
                           && cs[j].branch == Word(FieldsIn(items[i]), "branch_name")
    ensures ConfirmAll(debrief, cs) == Render(FinalAll(Lines(items), cs))
    ensures forall i :: 0 <= i < |items| && items[i].topic == FILE_WRITE ==>
              FinalAll(Lines(items), cs)[i].FileWrite? && FinalAll(Lines(items), cs)[i].progress.Committed?
  {
    forall i | 0 <= i < |items| && Lines(items)[i].FileWrite?
      ensures Lines(items)[i].progress == Dispatched
      ensures exists j :: 0 <= j < |cs| && cs[j].path == Lines(items)[i].path && cs[j].branch == Lines(items)[i].branch
    {
      assert items[i].topic == FILE_WRITE;
    }
    AllConfirmed(Lines(items), cs);
  }

  /** The record `r` of a session that was the last one, by how the model call ended: an answer
      with actions, an answer without, a session limit at the last session, or a failed call. */
  ghost predicate Concluded(r: Run, reply: Reply, end: Ending, agent: Agent, max: int, parsed: Actions.Parsed<Decoded>,
                            now: int) {
    && r.status == (if end.Broken? then Failed else Completed) && r.content.completedAt == AtTime(now)
    && match reply.err
       case NoError => Answered(r, reply, end, parsed)
       case DeadlineExceeded =>
         if max > 1 then Spent(r, reply, end, max)
         else Failing(r, reply, end, TimedOut(if agent.timeoutSeconds > 0 then agent.timeoutSeconds else 300))
       case CallCancelled(text) => if max > 1 then Spent(r, reply, end, max) else Failing(r, reply, end, LlmFault(text))
       case OtherError(text) => Failing(r, reply, end, LlmFault(text))
  }

  ghost predicate Answered(r: Run, reply: Reply, end: Ending, parsed: Actions.Parsed<Decoded>) {
    var c := r.content;
    && c.output == OutputOf(reply) && c.inputTokens == reply.inputTokens && c.outputTokens == reply.outputTokens
    && if !parsed.Actions? then end.Broken? && c.error == NoActionsFound
       else && end.Finished?
            && (parsed.items != [] ==> c.debrief == Render(Lines(parsed.items)))
            && (WritePaths(Lines(parsed.items)) != [] ==> c.writes == WritePaths(Lines(parsed.items)))
  }

  ghost predicate Spent(r: Run, reply: Reply, end: Ending, max: int) {
    && r.segment >= max && !end.Finished?
    && if end.Decomposed? then r.lineage.task != "" && r.content.output == OutputOf(reply)
       else && r.content.error == MaxSessionsReached(max, r.segment) && r.partial == OutputOf(reply)
            && r.content.outputTokens == reply.outputTokens
  }

  ghost predicate Failing(r: Run, reply: Reply, end: Ending, fault: Fault) {
    end.Broken? && r.content.error == fault && r.content.output == OutputOf(reply)
  }

  /** And what the session left as it was. */
  ghost predicate ConcludesAs(r: Run, r': Run, reply: Reply, end: Ending, agent: Agent, max: int,
                              parsed: Actions.Parsed<Decoded>, now: int) {
    && SamePlace(r, r') && Concluded(r', reply, end, agent, max, parsed, now)
    && var c, c' := r.content, r'.content;
       && c'.rollbackReason == c.rollbackReason && (!end.Broken? ==> c'.error == c.error)
       && (!end.Finished? ==> c'.writes == c.writes && c'.debrief == c.debrief)
       && (!reply.err.NoError? ==> c'.inputTokens == c.inputTokens)
       && (reply.err.NoError? || end.Decomposed? ==> r'.partial == r.partial)
  }

  lemma {:induction false} FinishConcludes(r: Run, reply: Reply, agent: Agent, max: int, now: int,
                                           parsed: Actions.Parsed<Decoded>)
    requires reply.err.NoError?
    ensures var answered := Answers(r, reply, now);
            if parsed.Actions?
            then ConcludesAs(r, Reported(answered, parsed.items), reply, Finished, agent, max, parsed, now)
            else ConcludesAs(r, Unfounded(answered), reply, Broken, agent, max, parsed, now)
  {
    if parsed.Actions? && parsed.items == [] { assert WritePaths(Lines(parsed.items)) == []; }
  }

  lemma {:induction false} FailConcludes(r: Run, reply: Reply, agent: Agent, max: int, now: int,
                                         parsed: Actions.Parsed<Decoded>)
    requires !reply.err.NoError? && !(max > 1 && Signals(reply.err))
    ensures ConcludesAs(r, Fails(r, reply, agent, now), reply, Broken, agent, max, parsed, now)
  {
  }

  lemma {:induction false} ExhaustConcludes(r: Run, reply: Reply, end: Ending, agent: Agent, max: int, now: int,
                                            parsed: Actions.Parsed<Decoded>)
    requires max > 1 && Signals(reply.err) && r.segment >= max && !end.Finished?
    requires end.Decomposed? ==> r.lineage.task != ""
    ensures ConcludesAs(r, if end.Decomposed? then Decomposes(r, OutputOf(reply), now)
                           else Exhausted(r, reply, max, now),
                        reply, end, agent, max, parsed, now)
  {
  }
}
