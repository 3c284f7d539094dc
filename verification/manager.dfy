/** The manager over its store (ai.go, intake.go, execute.go, planner.go,
    workflow_run_rollback.go, internal/recovery/recovery.go, event_receiver.go).

    Every store write that touches a run is a step of the protocol: `log` is the schedule of
    those steps, which only grows, and `w` the world it leads to. So whatever is proved of all
    schedules and their continuations holds here; `FrozenOutputStays` and `WithdrawnStays` carry
    it over. Methods run one at a time and their store writes succeed. */
module Manager {
  import Actions
  import opened Budget
  import opened Runs
  import opened Protocol
  import opened Chains
  import opened History
  import opened Dispatch
  import opened Edges
  import opened Events
  import opened Outcomes
  import Planner
  import Rollback
  import Debrief
  import Intake
  import Think
  import Stream
  import opened Text

  datatype Refusal = RunNotFound | RunNotIntaked | AgentNotFound | ProviderNotFound | ProviderInUse
                   | AgentHasActiveRuns | InvalidAgent | CallFailed | InvalidLLMResponse

  datatype Result = Done(run: Run) | Lost(run: Run) | Refused(why: Refusal)

  datatype Resolved = NoAgent | NoProvider | Found(agentId: nat, agent: Agent)

  predicate KnownProviderType(t: string) {
    t == "anthropic" || t == "openai" || t == "huggingface"
  }

  /** An input submitted with a run, and as stored. */
  datatype Input = Input(name: string, value: string)

  datatype StoredInput = StoredInput(run: RunId, input: Input)

  function Submitted(run: RunId, given: seq<Input>): (r: seq<StoredInput>)
    ensures |r| == |given| && forall i :: 0 <= i < |r| ==> r[i] == StoredInput(run, given[i])
  {
    seq(|given|, i requires 0 <= i < |given| => StoredInput(run, given[i]))
  }

  /** Field by field: what is given replaces, what is not stays. */
  ghost predicate Updated(a: Agent, a': Agent, given: Agent) {
    && (given.name != "" ==> a'.name == given.name) && (given.name == "" ==> a'.name == a.name)
    && (given.model != "" ==> a'.model == given.model) && (given.model == "" ==> a'.model == a.model)
    && (given.systemPrompt != "" ==> a'.systemPrompt == given.systemPrompt)
    && (given.systemPrompt == "" ==> a'.systemPrompt == a.systemPrompt)
    && Wins(a'.limits.maxSeconds, given.limits.maxSeconds, a.limits.maxSeconds, 0)
    && Wins(a'.limits.maxTokens, given.limits.maxTokens, a.limits.maxTokens, 0)
    && Wins(a'.limits.maxSessions, given.limits.maxSessions, a.limits.maxSessions, 0)
    && Wins(a'.timeoutSeconds, given.timeoutSeconds, a.timeoutSeconds, 0)
  }

  /** The ids of a run are below the next ones. */
  ghost predicate Numbers(runs: map<RunId, Run>, nextRun: RunId, nextChain: ChainId, k: RunId) {
    k in runs ==> k < nextRun && runs[k].chain < nextChain
  }

  /** So are those of a field, and of the edges from a run. */
  ghost predicate Shelves(fields: map<nat, Intake.Stored>, hasField: seq<Edge>, belongs: seq<Edge>, nextRun: RunId,
                          nextField: nat, k: nat) {
    && (k in fields ==> k < nextField)
    && (k < |hasField| ==> hasField[k].from < nextRun && hasField[k].to < nextField)
    && (k < |belongs| ==> belongs[k].from < nextRun)
  }

  /** And those of agents and providers. */
  ghost predicate Enrolled(agents: map<nat, Agent>, providers: set<nat>, uses: seq<Edge>, nextAgent: nat,
                           nextProvider: nat, k: nat) {
    && (k in agents ==> k < nextAgent) && (k in providers ==> k < nextProvider)
    && (k < |uses| ==> uses[k].from < nextAgent)
  }

  ghost predicate AgentsLinked(agents: map<nat, Agent>, providers: set<nat>, uses: seq<Edge>) {
    forall a :: a in agents ==> LinkedTo(uses, a, providers)
  }

  ghost predicate RunsLinked(runs: map<RunId, Run>, agents: map<nat, Agent>, belongs: seq<Edge>) {
    forall k :: RunLinked(runs, agents, belongs, k)
  }

  ghost predicate RunLinked(runs: map<RunId, Run>, agents: map<nat, Agent>, belongs: seq<Edge>, k: RunId) {
    k in runs && Active(runs[k].status) ==> LinkedTo(belongs, k, agents.Keys)
  }

  /** Links outlast a change to one run that does not make it active. */
  lemma {:induction false} RunsStayLinked(runs: map<RunId, Run>, runs': map<RunId, Run>, agents: map<nat, Agent>,
                                          belongs: seq<Edge>, id: RunId)
    requires id in runs && id in runs' && runs' == runs[id := runs'[id]]
    requires Active(runs'[id].status) ==> Active(runs[id].status)
    ensures RunsLinked(runs, agents, belongs) ==> RunsLinked(runs', agents, belongs)
  {
    if RunsLinked(runs, agents, belongs) {
      forall k ensures RunLinked(runs', agents, belongs, k) { assert RunLinked(runs, agents, belongs, k); }
    }
  }

  /** And a new run with its edge. */
  lemma {:induction false} NewRunLinked(runs: map<RunId, Run>, runs': map<RunId, Run>, agents: map<nat, Agent>,
                                        belongs: seq<Edge>, id: RunId, agentId: nat)
    requires id in runs' && runs' == runs[id := runs'[id]] && Targets(belongs, id) == [] && agentId in agents
    ensures RunsLinked(runs, agents, belongs) ==> RunsLinked(runs', agents, belongs + [Edge(id, agentId)])
  {
    if RunsLinked(runs, agents, belongs) {
      LinkOne(belongs, Edge(id, agentId), agents.Keys);
      forall k ensures RunLinked(runs', agents, belongs + [Edge(id, agentId)], k) {
        assert RunLinked(runs, agents, belongs, k);
      }
    }
  }

  /** What an execution works with: the number of its first model call, the user's message of its
      first session, and the agent, session limit and time that all its sessions share. */
  datatype Terms = Terms(at: nat, user: string, agentId: nat, agent: Agent, max: int, now: int)

  /** An execution in retrospect: its runs in order, its events, how it ended. */
  datatype Trace = NothingRan | Trace(segs: seq<RunId>, events: seq<Event>, end: Ending)

  /** What a refused execution leaves behind. */
  predicate Refuses(before: map<RunId, Run>, after: map<RunId, Run>, id: RunId, why: Refusal) {
    if id !in before then why == RunNotFound && after == before
    else if !before[id].status.PendingIntake? && !before[id].status.PendingExecution?
    then why == RunNotIntaked && after == before
    else (why == AgentNotFound || why == ProviderNotFound)
         && after == before[id := before[id].(status := PendingExecution)]
  }

  class Manager {
    const llm: nat -> Reply
    const parse: string -> Actions.Parsed<Decoded>
    const decode: Fields -> TodoResult
    const compose: (string, seq<Intake.Stored>, seq<Input>) -> string
    const composePlan: (string, string) -> string

    var runs: map<RunId, Run>
    var agents: map<nat, Agent>
    var providers: set<nat>
    var uses: seq<Edge>
    var belongs: seq<Edge>
    var continues: seq<Edge>
    var fields: map<nat, Intake.Stored>
    var hasField: seq<Edge>
    var inputs: seq<StoredInput>
    var events: seq<Event>
    var sent: seq<seq<Message>>
    var nextRun: RunId
    var nextAgent: nat
    var nextProvider: nat
    var nextField: nat
    var nextChain: ChainId

    ghost var log: seq<Protocol.Action>
    ghost var w: World

    /** Answers are read as actions.go's parseActions reads them. */
    ghost predicate Reads(json: string -> Actions.Json<Decoded>) {
      forall s: string :: parse(s) == Actions.ParseActions(Think.THINK, Actions.ACTIONS, json, s)
    }

    /** The store is what the schedule of writes made it, and new ids are new. */
    ghost predicate Coupled()
      reads this
    {
      && After(log) == Reached(w) && w.runs == runs && nextChain > NO_CHAIN
      && forall k :: && Numbers(runs, nextRun, nextChain, k)
                     && Shelves(fields, hasField, belongs, nextRun, nextField, k)
                     && Enrolled(agents, providers, uses, nextAgent, nextProvider, k)
    }

    /** Nothing is in flight. */
    ghost predicate Idle()
      reads this
    {
      Coupled() && w == World(runs, map[], {}, Serving)
    }

    /** Exactly one execution is in flight. */
    ghost predicate Busy(id: RunId, pc: Pc, snap: Run, chain: ChainId)
      reads this
    {
      Coupled() && id in runs && w == World(runs, map[id := Exec(pc, snap, chain)], {}, Serving)
    }

    /** Referential integrity: every agent has one provider, every active run one agent. */
    ghost predicate Linked()
      reads this
    {
      AgentsLinked(agents, providers, uses) && RunsLinked(runs, agents, belongs)
    }

    constructor (llm: nat -> Reply, json: string -> Actions.Json<Decoded>, decode: Fields -> TodoResult,
                 compose: (string, seq<Intake.Stored>, seq<Input>) -> string, composePlan: (string, string) -> string)
      ensures Idle() && Linked() && runs == map[] && events == [] && sent == []
      ensures this.llm == llm && this.decode == decode && this.compose == compose && this.composePlan == composePlan
      ensures Reads(json)
    {
      this.llm := llm;
      this.parse := s => Actions.ParseActions(Think.THINK, Actions.ACTIONS, json, s);
      this.decode := decode;
      this.compose, this.composePlan := compose, composePlan;
      fields, hasField, inputs, nextField := map[], [], [], 0;
      runs, agents, providers, uses, belongs, continues := map[], map[], {}, [], [], [];
      events, sent, nextRun, nextAgent, nextProvider, nextChain := [], [], 0, 0, 0, 1;
      log, w := [], INIT;
    }

    /** What the protocol's invariant says about a streaming run and the record it started from. */
    lemma {:induction false} InPlace(id: RunId, pc: Pc, snap: Run, chain: ChainId)
      requires Busy(id, pc, snap, chain) && pc.Streaming?
      ensures runs[id].segment >= 1 && (runs[id].chain == NO_CHAIN ==> runs[id].segment == 1)
      ensures SamePlace(snap, runs[id])
    {
      InvAlways(log);
      assert ExecInv(runs, id, w.execs[id]) && Numbered(runs);
    }

    /** What holds of continued schedules holds over any calls in between: `before` is what the
        log was at some earlier time. */
    lemma {:induction false} FrozenOutputStays(before: seq<Protocol.Action>, i: RunId, j: RunId)
      requires Coupled() && before <= log && After(before).Reached? && Next(After(before).world.runs, i, j)
      ensures Next(runs, i, j) && runs[i].partial == After(before).world.runs[i].partial
    {
      assert before + log[|before|..] == log;
      PartialFrozen(before, log[|before|..], i, j);
    }

    lemma {:induction false} WithdrawnStays(before: seq<Protocol.Action>, workflow: string)
      requires Coupled() && before <= log && After(before).Reached? && Closed(After(before).world, workflow)
      ensures var was := After(before).world.runs; Undisturbed(was, runs, Anchored(was, workflow))
    {
      assert before + log[|before|..] == log;
      InvAlways(before);
      QuietForGood(before, log[|before|..], Anchored(After(before).world.runs, workflow));
    }

    // ---- store writes ------------------------------------------------------

    /** UpdateEntity or CreateEntity on a run, as one step of the protocol. */
    method Write(id: RunId, r: Run, ghost step: Protocol.Action)
      requires Coupled() && ((id in runs && r.chain == runs[id].chain) || (id < nextRun && r.chain < nextChain))
      requires Enabled(w, step) && Apply(w, step).runs == runs[id := r]
      modifies `runs, `log, `w
      ensures old(log) <= log
      ensures Coupled() && runs == old(runs)[id := r] && w == Apply(old(w), step)
    {
      AfterStep(log, step);
      assert Numbers(runs, nextRun, nextChain, id);
      var after := runs[id := r];
      forall k ensures Numbers(after, nextRun, nextChain, k) {
        assert Numbers(runs, nextRun, nextChain, k);
      }
      runs := after;
      log := log + [step];
      w := Apply(w, step);
    }

    /** An id no run has. */
    method DrawRunId() returns (id: RunId)
      requires Coupled()
      modifies `nextRun
      ensures Coupled() && id !in runs && id + 1 == nextRun && FromBelow(belongs, id)
      ensures FromBelow(hasField, id)
    {
      id := nextRun;
      assert Numbers(runs, nextRun, nextChain, id);
      var above := id + 1;
      forall k ensures Shelves(fields, hasField, belongs, above, nextField, k) {
        assert Shelves(fields, hasField, belongs, id, nextField, k);
      }
      forall i: nat ensures i < |hasField| ==> hasField[i].from < id {
        assert Shelves(fields, hasField, belongs, id, nextField, i);
      }
      forall i: nat ensures i < |belongs| ==> belongs[i].from < id {
        assert Shelves(fields, hasField, belongs, id, nextField, i);
      }
      forall k ensures Numbers(runs, above, nextChain, k) {
        assert Numbers(runs, id, nextChain, k);
      }
      nextRun := above;
    }

    /** A chain id no run has (uuid.New). */
    method DrawChainId() returns (chain: ChainId)
      requires Coupled()
      modifies `nextChain
      ensures Coupled() && chain != NO_CHAIN && chain < nextChain && forall k :: k in runs ==> runs[k].chain != chain
    {
      chain := nextChain;
      var above := chain + 1;
      forall k ensures Numbers(runs, nextRun, above, k) && (k in runs ==> runs[k].chain != chain) {
        assert Numbers(runs, nextRun, chain, k);
      }
      nextChain := above;
    }

    /** A step that writes nothing. */
    ghost method Advance(step: Protocol.Action)
      requires Coupled() && Enabled(w, step) && Apply(w, step).runs == runs
      modifies `log, `w
      ensures old(log) <= log
      ensures Coupled() && w == Apply(old(w), step)
    {
      AfterStep(log, step);
      log := log + [step];
      w := Apply(w, step);
    }

    /** An executor is done. */
    ghost method LeaveRun(id: RunId, pc: Pc, snap: Run, chain: ChainId)
      requires Busy(id, pc, snap, chain) && (pc.Spawned? || pc.Finishing?)
      modifies `log, `w
      ensures old(log) <= log && Idle()
    {
      Advance(Leave(id));
    }

    // ---- the catalogue -----------------------------------------------------

    method CreateProvider(name: string, providerType: string, apiKey: string) returns (ok: bool, id: nat)
      requires Idle()
      modifies `providers, `nextProvider
      ensures Idle() && (old(Linked()) ==> Linked())
      ensures ok <==> name != "" && apiKey != ""
                      && (providerType == "anthropic" || providerType == "openai" || providerType == "huggingface")
      ensures ok ==> id !in old(providers) && providers == old(providers) + {id}
      ensures !ok ==> providers == old(providers)
    {
      ok, id := false, 0;
      if name == "" || providerType == "" || apiKey == "" || !KnownProviderType(providerType) {
        return;
      }
      id := nextProvider;
      var more, above := providers + {id}, id + 1;
      assert Enrolled(agents, providers, uses, nextAgent, id, id);
      forall k ensures Enrolled(agents, more, uses, nextAgent, above, k) {
        assert Enrolled(agents, providers, uses, nextAgent, id, k);
      }
      providers, nextProvider := more, above;
      ok := true;
    }

    method CreateAgent(agent: Agent, providerId: nat) returns (res: Resolved, why: Refusal)
      requires Idle()
      modifies `agents, `uses, `events, `nextAgent
      ensures Idle() && (old(Linked()) ==> Linked())
      ensures res.Found? <==> (agent.name != "" && agent.model != "" && agent.systemPrompt != ""
                               && providerId in providers)
      ensures res.Found? ==> && res.agentId !in old(agents) && agents == old(agents)[res.agentId := agent]
                             && uses == old(uses) + [Edge(res.agentId, providerId)]
                             && LinkedTo(uses, res.agentId, providers) && events == old(events) + [AgentCreated]
      ensures !res.Found? ==> unchanged(this)
      ensures !res.Found? ==> why == if agent.name != "" && agent.model != "" && agent.systemPrompt != ""
                                     then ProviderNotFound else InvalidAgent
    {
      res, why := NoAgent, InvalidAgent;
      if agent.name == "" || agent.model == "" || agent.systemPrompt == "" {
        return;
      }
      if providerId !in providers {
        why := ProviderNotFound;
        return;
      }
      var id := Enrol(agent, providerId);
      events := events + [AgentCreated];
      res := Found(id, agent);
    }

    /** A new agent and its one provider edge. */
    method Enrol(agent: Agent, providerId: nat) returns (id: nat)
      requires Idle() && providerId in providers
      modifies `agents, `uses, `nextAgent
      ensures Idle() && (old(Linked()) ==> Linked())
      ensures id !in old(agents) && agents == old(agents)[id := agent]
      ensures uses == old(uses) + [Edge(id, providerId)] && LinkedTo(uses, id, providers)
    {
      id := nextAgent;
      var team, edges, above := agents[id := agent], uses + [Edge(id, providerId)], id + 1;
      forall k ensures Enrolled(team, providers, edges, above, nextProvider, k) {
        assert Enrolled(agents, providers, uses, id, nextProvider, k);
      }
      assert Enrolled(agents, providers, uses, id, nextProvider, id);
      UsesBelow();
      NoTargetsAbove(uses, id, id);
      LinkOne(uses, Edge(id, providerId), providers);
      forall k ensures RunLinked(runs, agents, belongs, k) ==> RunLinked(runs, team, belongs, k) {}
      agents, uses, nextAgent := team, edges, above;
    }

    lemma {:induction false} UsesBelow()
      requires Coupled()
      ensures FromBelow(uses, nextAgent)
    {
      forall i: nat ensures i < |uses| ==> uses[i].from < nextAgent {
        assert Enrolled(agents, providers, uses, nextAgent, nextProvider, i);
      }
    }

    /** Fields first, then the provider edge: the old one goes, the new one comes. When the new
        provider does not exist the fields have already changed. */
    method UpdateAgent(id: nat, agent: Agent, newProvider: nat, switch: bool) returns (ok: bool, why: Refusal)
      requires Idle()
      modifies `agents, `uses
      ensures Idle() && (old(Linked()) ==> Linked())
      ensures ok <==> id in old(agents) && (switch ==> newProvider in providers)
      ensures !ok ==> why == if id in old(agents) then ProviderNotFound else AgentNotFound
      ensures agents.Keys == old(agents).Keys && forall k :: k in agents && k != id ==> agents[k] == old(agents)[k]
      ensures id in agents ==> Updated(old(agents)[id], agents[id], agent)
      ensures ok && switch ==> Targets(uses, id) == [newProvider]
      ensures forall other: nat :: other != id ==> Targets(uses, other) == old(Targets(uses, other))
      ensures !ok || !switch ==> uses == old(uses)
    {
      ok, why := false, AgentNotFound;
      if id !in agents {
        return;
      }
      UsesBelow();
      assert Enrolled(agents, providers, uses, nextAgent, nextProvider, id);
      var team := agents[id := Merge(agents[id], agent)];
      forall k ensures Enrolled(team, providers, uses, nextAgent, nextProvider, k) {
        assert Enrolled(agents, providers, uses, nextAgent, nextProvider, k);
      }
      agents := team;
      assert agents.Keys == old(agents).Keys;
      forall k ensures RunLinked(runs, old(agents), belongs, k) ==> RunLinked(runs, agents, belongs, k) {}
      if switch {
        if newProvider !in providers {
          why := ProviderNotFound;
          return;
        }
        SwitchEdge(uses, id, newProvider, nextAgent);
        SwitchKeepsLinks(old(agents), agents, providers, uses, id, newProvider);
        var edges := Without(uses, id) + [Edge(id, newProvider)];
        forall k ensures Enrolled(agents, providers, edges, nextAgent, nextProvider, k) {
          assert Enrolled(agents, providers, uses, nextAgent, nextProvider, k);
        }
        uses := edges;
      }
      ok := true;
    }

    method DeleteProvider(id: nat) returns (ok: bool, why: Refusal)
      requires Idle()
      modifies `providers
      ensures Idle() && (old(Linked()) ==> Linked())
      ensures ok <==> id in old(providers) && forall e :: e in uses ==> e.to != id
      ensures !ok ==> why == if exists e :: e in uses && e.to == id then ProviderInUse else ProviderNotFound
      ensures providers == if ok then old(providers) - {id} else old(providers)
    {
      if PointsTo(uses, id) {
        return false, ProviderInUse;
      }
      if id !in providers {
        return false, ProviderNotFound;
      }
      UnusedProvider(agents, providers, uses, id);
      var fewer := providers - {id};
      forall k ensures Enrolled(agents, fewer, uses, nextAgent, nextProvider, k) {
        assert Enrolled(agents, providers, uses, nextAgent, nextProvider, k);
      }
      providers := fewer;
      return true, ProviderNotFound;
    }

    /** Any active run of any agent keeps every agent alive. */
    method DeleteAgent(id: nat) returns (ok: bool, why: Refusal)
      requires Idle()
      modifies `agents
      ensures Idle() && (old(Linked()) ==> Linked())
      ensures ok <==> id in old(agents) && forall k :: k in runs ==>
                        !(runs[k].status.PendingIntake? || runs[k].status.PendingExecution? || runs[k].status.Running?)
      ensures !ok ==> why == if id in old(agents) || exists k :: k in runs && Active(runs[k].status)
                             then AgentHasActiveRuns else AgentNotFound
      ensures agents == if ok then old(agents) - {id} else old(agents)
    {
      if exists k :: k in runs && Active(runs[k].status) {
        return false, AgentHasActiveRuns;
      }
      if id !in agents {
        return false, AgentNotFound;
      }
      var team := agents - {id};
      forall k ensures Enrolled(team, providers, uses, nextAgent, nextProvider, k) {
        assert Enrolled(agents, providers, uses, nextAgent, nextProvider, k);
      }
      forall k ensures RunLinked(runs, team, belongs, k) {}
      agents := team;
      return true, AgentNotFound;
    }

    /** The run's first agent edge and that agent's first provider edge lead somewhere. */
    ghost predicate Resolvable(id: RunId)
      reads this`belongs, this`agents, this`uses, this`providers
    {
      |Targets(belongs, id)| > 0 && Targets(belongs, id)[0] in agents && HasProvider(Targets(belongs, id)[0])
    }

    /** The first provider edge of an agent leads somewhere. */
    predicate HasProvider(agentId: nat)
      reads this`uses, this`providers
    {
      |Targets(uses, agentId)| > 0 && Targets(uses, agentId)[0] in providers
    }

    /** execute.go's resolveAgentAndProvider. */
    method Resolve(id: RunId) returns (r: Resolved)
      ensures r.Found? <==> Resolvable(id)
      ensures var mine := Targets(belongs, id);
              r.Found? <==> (|mine| > 0 && mine[0] in agents
                             && |Targets(uses, mine[0])| > 0 && Targets(uses, mine[0])[0] in providers)
      ensures r.NoAgent? <==> |Targets(belongs, id)| == 0 || Targets(belongs, id)[0] !in agents
      ensures r.Found? ==> r.agentId == Targets(belongs, id)[0] && r.agent == agents[r.agentId]
    {
      var agentRels := Targets(belongs, id);
      if |agentRels| == 0 || agentRels[0] !in agents {
        return NoAgent;
      }
      var providerRels := Targets(uses, agentRels[0]);
      if |providerRels| == 0 || providerRels[0] !in providers {
        return NoProvider;
      }
      return Found(agentRels[0], agents[agentRels[0]]);
    }

    /** Referential integrity is what resolving needs. */
    lemma {:induction false} LinkedResolves(id: RunId)
      requires Linked() && id in runs
      requires runs[id].status.PendingIntake? || runs[id].status.PendingExecution? || runs[id].status.Running?
      ensures Resolvable(id)
    {
      assert RunLinked(runs, agents, belongs, id) && LinkedTo(uses, Targets(belongs, id)[0], providers);
    }

    /** intake.go's IntakeRun: one model call for the input fields, then a pending run linked to
        its agent, and the fields in the order asked for. */
    method IntakeRun(agentId: nat, lineage: Lineage, reply: Reply, decodeFields: string -> Intake.Asked)
      returns (ok: bool, id: RunId, why: Refusal, asked: Intake.Asked)
      requires Idle()
      modifies `runs, `belongs, `nextRun, `fields, `hasField, `nextField, `log, `w
      ensures old(log) <= log
      ensures Idle() && (old(Linked()) ==> Linked())
      ensures ok ==> && id !in old(runs) && runs == old(runs)[id := Run(lineage, PendingIntake, NO_CHAIN, 1, "",
                        Content("", NoFault, 0, 0, Unset, [], "", ""))]
                     && belongs == old(belongs) + [Edge(id, agentId)] && Targets(belongs, id) == [agentId]
      ensures ok ==> Resolvable(id) && AgentFor(id) == agents[agentId]
      ensures ok ==> asked.Asked? && Intake.AsksFor(OutputOf(reply), decodeFields, asked)
      ensures ok ==> FieldsOf(id) == Intake.Numbered(id, asked.fields)
      ensures !ok ==> runs == old(runs) && belongs == old(belongs) && fields == old(fields) && hasField == old(hasField)
      ensures !ok ==> why == (if lineage.instructions == "" then InvalidAgent
                              else if agentId !in agents then AgentNotFound
                              else if !HasProvider(agentId) then ProviderNotFound
                              else if !reply.err.NoError? then CallFailed else InvalidLLMResponse)
      ensures ok <==> lineage.instructions != "" && agentId in agents && HasProvider(agentId)
                      && reply.err.NoError? && !Intake.AsksFor(OutputOf(reply), decodeFields, Intake.NoList)
    {
      ok, why := Vet(agentId, lineage.instructions, reply);
      id, asked := 0, Intake.NoList;
      if !ok {
        return;
      }
      asked := Intake.ParseIntakeFields(OutputOf(reply), decodeFields);
      if asked.Asked? {
        NoOtherList(OutputOf(reply), decodeFields, asked);
        id := TakeIn(agentId, lineage, asked.fields);
      } else {
        ok, why := false, InvalidLLMResponse;
      }
    }

    /** What an intake needs before its model call has been read. */
    method Vet(agentId: nat, instructions: string, reply: Reply) returns (ok: bool, why: Refusal)
      ensures ok <==> instructions != "" && agentId in agents && HasProvider(agentId) && reply.err.NoError?
      ensures !ok ==> why == (if instructions == "" then InvalidAgent else if agentId !in agents then AgentNotFound
                              else if !HasProvider(agentId) then ProviderNotFound else CallFailed)
    {
      if instructions == "" {
        return false, InvalidAgent;
      }
      if agentId !in agents {
        return false, AgentNotFound;
      }
      var rels := Targets(uses, agentId);
      if |rels| == 0 || rels[0] !in providers {
        return false, ProviderNotFound;
      }
      return reply.err.NoError?, CallFailed;
    }

    /** The store writes of an intake. */
    method TakeIn(agentId: nat, lineage: Lineage, asked: seq<Intake.Field>) returns (id: RunId)
      requires Idle() && agentId in agents && HasProvider(agentId)
      modifies `runs, `belongs, `nextRun, `fields, `hasField, `nextField, `log, `w
      ensures old(log) <= log
      ensures Idle() && (old(Linked()) ==> Linked())
      ensures id !in old(runs) && runs == old(runs)[id := FreshRun(lineage)]
      ensures belongs == old(belongs) + [Edge(id, agentId)] && Targets(belongs, id) == [agentId]
      ensures FieldsOf(id) == Intake.Numbered(id, asked)
      ensures Resolvable(id) && AgentFor(id) == agents[agentId]
    {
      id := NewRun(agentId, lineage);
      StoreFields(id, asked);
    }

    /** The fields that execution lists for a run. */
    ghost function FieldsOf(id: RunId): seq<Intake.Stored>
      reads this`hasField, this`fields
    {
      Intake.FieldsAt(Targets(hasField, id), fields)
    }

    /** One field and its edge from the run. */
    method StoreField(id: RunId, f: Intake.Field, ordinality: nat)
      requires Coupled() && id < nextRun
      modifies `fields, `hasField, `nextField
      ensures Coupled() && FieldsOf(id) == old(FieldsOf(id)) + [Intake.Stored(id, f, ordinality)]
      ensures forall k: nat :: k != id ==> Targets(hasField, k) == old(Targets(hasField, k))
      ensures forall k :: k in old(fields) ==> k in fields && fields[k] == old(fields)[k]
    {
      var at := nextField;
      var stored := Intake.Stored(id, f, ordinality);
      var shelf, edges, above := fields[at := stored], hasField + [Edge(id, at)], at + 1;
      ShelfGrows(id, at, stored, shelf, edges, above);
      fields, hasField, nextField := shelf, edges, above;
    }

    lemma {:induction false} ShelfHasRoom(id: RunId)
      requires Coupled()
      ensures nextField !in fields && nextField !in Targets(hasField, id)
    {
      assert Shelves(fields, hasField, belongs, nextRun, nextField, nextField);
      forall e | e in hasField ensures e.to < nextField {
        var i :| 0 <= i < |hasField| && hasField[i] == e;
        assert Shelves(fields, hasField, belongs, nextRun, nextField, i);
      }
      TargetsAreEdges(hasField, id, nextField);
    }

    lemma {:induction false} ShelfGrows(id: RunId, at: nat, f: Intake.Stored, shelf: map<nat, Intake.Stored>,
                                        edges: seq<Edge>, above: nat)
      requires Coupled() && id < nextRun && at == nextField && above == at + 1
      requires shelf == fields[at := f] && edges == hasField + [Edge(id, at)]
      ensures at !in fields && forall k :: Shelves(shelf, edges, belongs, nextRun, above, k)
      ensures Intake.FieldsAt(Targets(edges, id), shelf) == FieldsOf(id) + [f]
      ensures forall k: nat :: k != id ==> Targets(edges, k) == Targets(hasField, k)
    {
      ShelfHasRoom(id);
      TargetsSnocAll(hasField, Edge(id, at));
      Intake.FieldsAtSnoc(Targets(hasField, id), at, fields, f);
      forall k ensures Shelves(shelf, edges, belongs, nextRun, above, k) {
        assert Shelves(fields, hasField, belongs, nextRun, at, k);
      }
    }

    method StoreFields(id: RunId, asked: seq<Intake.Field>)
      requires Coupled() && id < nextRun && FieldsOf(id) == []
      modifies `fields, `hasField, `nextField
      ensures Coupled() && FieldsOf(id) == Intake.Numbered(id, asked)
      ensures forall k: nat :: k != id ==> Targets(hasField, k) == old(Targets(hasField, k))
      ensures forall k :: k in old(fields) ==> k in fields && fields[k] == old(fields)[k]
    {
      for i := 0 to |asked|
        invariant Coupled() && FieldsOf(id) == Intake.Numbered(id, asked[..i])
        invariant forall k: nat :: k != id ==> Targets(hasField, k) == old(Targets(hasField, k))
        invariant forall k :: k in old(fields) ==> k in fields && fields[k] == old(fields)[k]
      {
        assert Intake.Numbered(id, asked[..i + 1])
            == Intake.Numbered(id, asked[..i]) + [Intake.Stored(id, asked[i], i + 1)];
        StoreField(id, asked[i], i + 1);
      }
      assert asked[..|asked|] == asked;
    }

    /** ListRelationships and GetEntity for the fields of a run. */
    method LoadFields(id: RunId) returns (r: seq<Intake.Stored>)
      ensures r == FieldsOf(id)
    {
      var rels := Targets(hasField, id);
      r := [];
      for i := 0 to |rels|
        invariant r == Intake.FieldsAt(rels[..i], fields)
      {
        assert rels[..i + 1][..i] == rels[..i];
        if rels[i] in fields {
          r := r + [fields[rels[i]]];
        }
      }
      assert rels[..|rels|] == rels;
    }

    lemma {:induction false} NoOtherList(answer: string, decodeFields: string -> Intake.Asked, asked: Intake.Asked)
      requires asked.Asked? && Intake.AsksFor(answer, decodeFields, asked)
      ensures !Intake.AsksFor(answer, decodeFields, Intake.NoList)
    {
      if Intake.AsksFor(answer, decodeFields, Intake.NoList) {
        Intake.AskedIsUnique(answer, decodeFields, asked, Intake.NoList);
      }
    }

    method NewRun(agentId: nat, lineage: Lineage) returns (id: RunId)
      requires Idle() && agentId in agents
      modifies `runs, `belongs, `nextRun, `log, `w
      ensures old(log) <= log
      ensures Idle() && (old(Linked()) ==> Linked())
      ensures id !in old(runs) && runs == old(runs)[id := FreshRun(lineage)]
      ensures belongs == old(belongs) + [Edge(id, agentId)] && Targets(belongs, id) == [agentId]
      ensures id < nextRun && FieldsOf(id) == []
    {
      id := DrawRunId();
      NoTargetsAbove(hasField, id, id);
      Write(id, FreshRun(lineage), Protocol.Intake(id, lineage));
      NoTargetsAbove(belongs, id, id);
      NewRunLinked(old(runs), runs, agents, belongs, id, agentId);
      LinkNew(id, agentId);
    }

    /** The belongs_to_agent edge of a run that has just been created. */
    method LinkNew(id: RunId, agentId: nat)
      requires Coupled() && id + 1 == nextRun && id in runs && FromBelow(belongs, id) && agentId in agents
      modifies `belongs
      ensures Coupled() && belongs == old(belongs) + [Edge(id, agentId)] && Targets(belongs, id) == [agentId]
    {
      NoTargetsAbove(belongs, id, id);
      OnlyTarget(belongs, Edge(id, agentId));
      var edges := belongs + [Edge(id, agentId)];
      forall k ensures Shelves(fields, hasField, edges, nextRun, nextField, k) {
        assert Shelves(fields, hasField, belongs, nextRun, nextField, k);
      }
      belongs := edges;
    }

    // ---- one session -------------------------------------------------------

    /** ListEntities for agent runs; the order is the store's own. */
    method ListRuns() returns (ids: seq<RunId>)
      ensures Listing(runs, ids)
    {
      ids := [];
      var rest := runs.Keys;
      while rest != {}
        invariant rest <= runs.Keys && NoRepeats(ids)
        invariant forall i :: 0 <= i < |ids| ==> ids[i] in runs && ids[i] !in rest
        invariant forall k :: k in runs ==> k in rest || k in ids
        decreases rest
      {
        var k :| k in rest;
        ids := ids + [k];
        rest := rest - {k};
      }
    }

    /** The messages of a session: its chain's history and the user's message. */
    method LoadConversation(id: RunId, snap: Run, user: string) returns (msgs: seq<Message>)
      requires Coupled() && id in runs && SamePlace(snap, runs[id])
      ensures Replays(runs, snap.chain, snap.segment, user, msgs)
    {
      var ids := ListRuns();
      InvAlways(log);
      msgs := Converse(runs, ids, id, snap, user);
    }

    method SubmitInputs(id: RunId, given: seq<Input>)
      modifies `inputs
      ensures inputs == old(inputs) + Submitted(id, given)
    {
      for i := 0 to |given|
        invariant inputs == old(inputs) + Submitted(id, given[..i])
      {
        assert Submitted(id, given[..i + 1]) == Submitted(id, given[..i]) + [StoredInput(id, given[i])];
        inputs := inputs + [StoredInput(id, given[i])];
      }
      assert given[..|given|] == given;
    }

    /** The inputs and the first write of a first session. */
    method AcceptRun(id: RunId, snap: Run, given: seq<Input>)
      requires Idle() && id in runs && snap == runs[id] && Startable(snap.status)
      modifies `runs, `inputs, `log, `w
      ensures old(log) <= log
      ensures Busy(id, if snap.status.PendingIntake? then Accepted else Admitted, snap, NO_CHAIN)
      ensures runs == old(runs)[id := snap.(status := PendingExecution)]
      ensures inputs == old(inputs) + if snap.status.PendingIntake? then Submitted(id, given) else []
      ensures old(RunsLinked(runs, agents, belongs)) ==> RunsLinked(runs, agents, belongs)
    {
      Advance(Admit(id));
      if snap.status.PendingIntake? {
        SubmitInputs(id, given);
        Write(id, snap.(status := PendingExecution), Accept(id));
      }
      assert runs == old(runs)[id := snap.(status := PendingExecution)];
      RunsStayLinked(old(runs), runs, agents, belongs, id);
    }

    /** The write to running and its event. */
    method LaunchRun(id: RunId, snap: Run, agentId: nat)
      requires Startable(snap.status)
      requires Busy(id, if snap.status.PendingIntake? then Accepted else Admitted, snap, NO_CHAIN)
      modifies `runs, `events, `log, `w
      ensures old(log) <= log
      ensures Busy(id, Streaming, snap, NO_CHAIN)
      ensures runs == old(runs)[id := old(runs)[id].(status := Running)]
      ensures events == old(events) + [StartEvent(id, snap.lineage, agentId)]
    {
      Write(id, runs[id].(status := Running), Launch(id));
      events := events + [StartEvent(id, snap.lineage, agentId)];
    }

    /** The user's message of a session: made of the instructions, the fields of the run and the
        inputs of this call. */
    ghost function UserText(id: RunId, r: Run, given: seq<Input>): string
      reads this`hasField, this`fields
    {
      compose(r.lineage.instructions, FieldsOf(id), given)
    }

    /** The conversation, then the write to running and its event. */
    method Begin(id: RunId, snap: Run, agentId: nat, given: seq<Input>) returns (msgs: seq<Message>)
      requires Startable(snap.status) && id in runs && SamePlace(snap, runs[id])
      requires Busy(id, if snap.status.PendingIntake? then Accepted else Admitted, snap, NO_CHAIN)
      modifies `runs, `events, `log, `w
      ensures old(log) <= log
      ensures Busy(id, Streaming, snap, NO_CHAIN)
      ensures runs == old(runs)[id := old(runs)[id].(status := Running)]
      ensures events == old(events) + [StartEvent(id, snap.lineage, agentId)]
      ensures Replays(runs, runs[id].chain, runs[id].segment, UserText(id, snap, given), msgs)
      ensures old(Active(runs[id].status) && RunsLinked(runs, agents, belongs)) ==> RunsLinked(runs, agents, belongs)
    {
      var runFields := LoadFields(id);
      var user := compose(snap.lineage.instructions, runFields, given);
      msgs := LoadConversation(id, snap, user);
      ghost var before := runs;
      LaunchRun(id, snap, agentId);
      ReplaysPersist(before, runs, id, user, msgs);
      if old(Active(runs[id].status)) { RunsStayLinked(before, runs, agents, belongs, id); }
    }

    /** One flush of the output so far. */
    method FlushOutput(id: RunId, ghost snap: Run, output: string)
      requires Busy(id, Streaming, snap, NO_CHAIN)
      modifies `runs, `log, `w
      ensures old(log) <= log
      ensures Busy(id, Streaming, snap, NO_CHAIN)
      ensures runs == old(runs)[id := old(runs)[id].(content := old(runs)[id].content.(output := output))]
    {
      var c := runs[id].content.(output := output);
      Write(id, runs[id].(content := c), Flush(id, c));
    }

    /** One chunk of the stream, the `n`-th of `chunks`. */
    method OneChunk(id: RunId, ghost snap: Run, sink: Sink, chunks: seq<string>, n: nat, ghost before: map<RunId, Run>)
      requires Busy(id, Streaming, snap, NO_CHAIN) && n < |chunks|
      requires sink.Valid() && sink.chunks == chunks[..n]
      requires id in before && runs == FlushedTo(before, id, chunks, n)
      modifies `runs, `log, `w, sink
      ensures old(log) <= log
      ensures Busy(id, Streaming, snap, NO_CHAIN)
      ensures sink.Valid() && sink.chunks == chunks[..n + 1] && runs == FlushedTo(before, id, chunks, n + 1)
    {
      assert chunks[..n + 1] == chunks[..n] + [chunks[n]];
      var flush := sink.OnChunk(chunks[n]);
      FlushStep(n);
      if flush {
        FlushOutput(id, snap, sink.output);
      }
    }

    /** The streaming callback: the chunks pile up, and every fiftieth one stores them. */
    method StreamReply(id: RunId, ghost snap: Run, reply: Reply, limits: Limits) returns (output: string)
      requires Busy(id, Streaming, snap, NO_CHAIN)
      modifies `runs, `log, `w
      ensures old(log) <= log
      ensures Busy(id, Streaming, snap, NO_CHAIN) && output == OutputOf(reply)
      ensures runs == FlushedTo(old(runs), id, reply.chunks, |reply.chunks|)
    {
      var sink := new Sink(limits.maxTokens);
      var n := |reply.chunks|;
      for i := 0 to n
        invariant fresh(sink) && sink.Valid() && sink.chunks == reply.chunks[..i]
        invariant Busy(id, Streaming, snap, NO_CHAIN) && runs == FlushedTo(old(runs), id, reply.chunks, i)
        invariant old(log) <= log
      {
        OneChunk(id, snap, sink, reply.chunks, i, old(runs));
      }
      assert reply.chunks[..n] == reply.chunks;
      output := sink.output;
    }

    // ---- how a session ends ------------------------------------------------

    /** A failure while streaming: the run and both failure events. */
    method BreakRun(id: RunId, ghost snap: Run, partial: string, content: Content)
      requires Busy(id, Streaming, snap, NO_CHAIN)
      modifies `runs, `events, `log, `w
      ensures old(log) <= log
      ensures Idle()
      ensures runs == old(runs)[id := old(runs)[id].(status := Failed, partial := partial, content := content)]
      ensures events == old(events) + FailEvents(id, runs[id])
    {
      Write(id, runs[id].(status := Failed, partial := partial, content := content), Break(id, partial, content));
      events := events + FailEvents(id, runs[id]);
    }

    /** The write to completed. */
    method CompleteRun(id: RunId, ghost snap: Run, r: Run)
      requires Busy(id, Streaming, snap, NO_CHAIN) && r == runs[id].(status := Completed, content := r.content)
      modifies `runs, `log, `w
      ensures old(log) <= log
      ensures Busy(id, Finishing, snap, NO_CHAIN) && runs == old(runs)[id := r]
    {
      Write(id, r, Complete(id, r.content));
    }

    /** A later write to a completed run's debrief or list of writes. */
    method NoteRun(id: RunId, ghost snap: Run, content: Content)
      requires Busy(id, Finishing, snap, NO_CHAIN)
      modifies `runs, `log, `w
      ensures old(log) <= log
      ensures Busy(id, Finishing, snap, NO_CHAIN)
      ensures runs == old(runs)[id := old(runs)[id].(content := content)]
    {
      Write(id, runs[id].(content := content), Note(id, content));
    }

    /** A completed run without an actions block is failed after all. */
    method UnfoundRun(id: RunId, ghost snap: Run) returns (ghost tail: seq<Event>)
      requires Busy(id, Finishing, snap, NO_CHAIN)
      modifies `runs, `events, `log, `w
      ensures old(log) <= log
      ensures runs == old(runs)[id := Unfounded(old(runs)[id])]
      ensures Idle() && events == old(events) + tail && tail == FailEvents(id, runs[id])
    {
      var r := Unfounded(runs[id]);
      Write(id, r, Unfound(id, r.content));
      tail := FailEvents(id, r);
      events := events + FailEvents(id, r);
    }

    /** The two completion events. */
    method CloseRun(id: RunId, ghost snap: Run, agentId: nat, hasSubtasks: bool, writes: seq<string>)
      requires Busy(id, Finishing, snap, NO_CHAIN)
      modifies `events, `log, `w
      ensures old(log) <= log
      ensures Idle()
      ensures var l := runs[id].lineage;
              events == old(events) + [TaskCompleted(l.task, id, agentId, hasSubtasks, writes, l.workflow),
                                       RunCompleted(id)]
    {
      var l := runs[id].lineage;
      events := events + [TaskCompleted(l.task, id, agentId, hasSubtasks, writes, l.workflow), RunCompleted(id)];
      LeaveRun(id, Finishing, snap, NO_CHAIN);
    }

    method Speak(published: seq<Published>)
      modifies `events
      ensures events == old(events) + Voices(published)
    {
      for i := 0 to |published|
        invariant events == old(events) + Voices(published[..i])
      {
        assert published[..i + 1] == published[..i] + [published[i]];
        events := events + [FromModel(published[i])];
      }
      assert published[..|published|] == published;
    }

    /** The actions of a finished run: published in order, then noted on the run. */
    method DispatchRun(id: RunId, ghost snap: Run, agentId: nat, items: seq<Decoded>)
      returns (hasSubtasks: bool, writes: seq<string>, ghost said: seq<Event>)
      requires Busy(id, Finishing, snap, NO_CHAIN)
      modifies `runs, `events, `log, `w
      ensures old(log) <= log
      ensures Busy(id, Finishing, snap, NO_CHAIN)
      ensures hasSubtasks <==> runs[id].lineage.task != "" && HandsOn(items)
      ensures writes == WritePaths(Lines(items))
      ensures events == old(events) + said && Said(said, items, OriginOf(id, runs[id].lineage, agentId), decode)
      ensures runs == old(runs)[id := Reported(old(runs)[id], items)]
    {
      var o := OriginOf(id, runs[id].lineage, agentId);
      hasSubtasks, writes, said := false, [], [];
      assert runs == runs[id := runs[id]] && Lines([]) == [];
      if items != [] {
        var published, debrief;
        published, hasSubtasks, writes, debrief := DispatchActions(items, o, decode);
        Speak(published);
        said := Voices(published);
        AnnouncedIsSaid(published, items, o, decode);
        NoteDebrief(id, snap, debrief, writes);
      }
    }

    method NoteDebrief(id: RunId, ghost snap: Run, debrief: string, writes: seq<string>)
      requires Busy(id, Finishing, snap, NO_CHAIN)
      modifies `runs, `log, `w
      ensures old(log) <= log
      ensures Busy(id, Finishing, snap, NO_CHAIN)
      ensures var c := old(runs)[id].content.(debrief := debrief);
              runs == old(runs)[id := old(runs)[id].(content := if writes != [] then c.(writes := writes) else c)]
    {
      NoteRun(id, snap, runs[id].content.(debrief := debrief));
      if |writes| > 0 {
        NoteRun(id, snap, runs[id].content.(writes := writes));
      }
    }

    /** The model answered: completed, then dispatched and closed, or failed after all. */
    method FinishRun(id: RunId, ghost snap: Run, agentId: nat, reply: Reply, output: string, now: int)
      returns (res: Result, ghost tail: seq<Event>, ghost end: Ending)
      requires Busy(id, Streaming, snap, NO_CHAIN) && output == OutputOf(reply)
      modifies `runs, `events, `log, `w
      ensures old(log) <= log
      ensures Idle() && events == old(events) + tail
      ensures end == if parse(output).Actions? then Finished else Broken
      ensures var r := Answers(old(runs)[id], reply, now);
              runs == old(runs)[id := if end.Finished? then Reported(r, parse(output).items) else Unfounded(r)]
      ensures if end.Finished? then Reports(tail, id, runs[id].lineage, agentId, parse(output).items, decode)
              else tail == FailEvents(id, runs[id])
      ensures res == if end.Finished? then Done(Answers(old(runs)[id], reply, now)) else Lost(runs[id])
    {
      var updated := Answers(runs[id], reply, now);
      CompleteRun(id, snap, updated);
      tail, end := SettleRun(id, snap, agentId, output);
      res := if parse(output).Actions? then Done(updated) else Lost(runs[id]);
    }

    /** A completed run becomes what its answer makes of it. */
    method SettleRun(id: RunId, ghost snap: Run, agentId: nat, output: string)
      returns (ghost tail: seq<Event>, ghost end: Ending)
      requires Busy(id, Finishing, snap, NO_CHAIN)
      modifies `runs, `events, `log, `w
      ensures old(log) <= log
      ensures Idle() && events == old(events) + tail
      ensures end == if parse(output).Actions? then Finished else Broken
      ensures runs == old(runs)[id := if end.Finished? then Reported(old(runs)[id], parse(output).items)
              else Unfounded(old(runs)[id])]
      ensures if end.Finished? then Reports(tail, id, runs[id].lineage, agentId, parse(output).items, decode)
              else tail == FailEvents(id, runs[id])
    {
      var parsed := parse(output);
      if parsed.Actions? {
        tail := DispatchAndClose(id, snap, agentId, parsed.items);
        end := Finished;
      } else {
        tail := UnfoundRun(id, snap);
        end := Broken;
      }
    }

    method DispatchAndClose(id: RunId, ghost snap: Run, agentId: nat, items: seq<Decoded>)
      returns (ghost tail: seq<Event>)
      requires Busy(id, Finishing, snap, NO_CHAIN)
      modifies `runs, `events, `log, `w
      ensures old(log) <= log
      ensures Idle() && events == old(events) + tail
      ensures runs == old(runs)[id := Reported(old(runs)[id], items)]
      ensures Reports(tail, id, runs[id].lineage, agentId, items, decode)
    {
      HandsOnTopics(items);
      var hasSubtasks, writes, said := DispatchRun(id, snap, agentId, items);
      CloseRun(id, snap, agentId, hasSubtasks, writes);
      var l := runs[id].lineage;
      ghost var closing := [TaskCompleted(l.task, id, agentId, hasSubtasks, writes, l.workflow), RunCompleted(id)];
      tail := said + closing;
      assert tail[..|items|] == said && tail[|items|..] == closing;
    }

    /** The model call itself failed. */
    method FailRun(id: RunId, ghost snap: Run, agent: Agent, reply: Reply, output: string, now: int)
      returns (res: Result, ghost tail: seq<Event>)
      requires Busy(id, Streaming, snap, NO_CHAIN) && output == OutputOf(reply) && !reply.err.NoError?
      modifies `runs, `events, `log, `w
      ensures old(log) <= log
      ensures runs == old(runs)[id := Fails(old(runs)[id], reply, agent, now)] && res == Lost(runs[id])
      ensures Idle() && events == old(events) + tail && tail == FailEvents(id, runs[id])
    {
      var r := runs[id];
      var fault := FaultOf(reply.err, agent);
      BreakRun(id, snap, r.partial, r.content.(error := fault, output := output, completedAt := AtTime(now)));
      tail := FailEvents(id, runs[id]);
      res := Lost(runs[id]);
    }

    /** planner.go's autoDecompose: one more model call, for a plan of what remains. */
    method AutoDecompose(o: Origin, message: seq<Message>) returns (plan: TodoPayload)
      modifies `sent
      ensures sent == old(sent) + [message] && PlanIn(llm(|old(sent)|), o, plan)
    {
      var reply := llm(|sent|);
      sent := sent + [message];
      if !reply.err.NoError? {
        return Planner.NO_PLAN;
      }
      var parsed := parse(OutputOf(reply));
      if !parsed.Actions? || parsed.items == [] {
        return Planner.NO_PLAN;
      }
      plan := Planner.FillPlan(parsed.items, decode, o);
    }

    /** What a planning call yields. */
    ghost predicate PlanIn(reply: Reply, o: Origin, plan: TodoPayload) {
      if reply.err.NoError? && parse(OutputOf(reply)).Actions?
      then Planner.PlanFrom(parse(OutputOf(reply)).items, decode, o, plan)
      else plan == Planner.NO_PLAN
    }

    /** planner.go's completeAsDecomposed. */
    method CompleteAsDecomposed(id: RunId, ghost snap: Run, agentId: nat, output: string, plan: TodoPayload, now: int)
      returns (res: Result, ghost tail: seq<Event>)
      requires Busy(id, Streaming, snap, NO_CHAIN) && plan.items != []
      modifies `runs, `events, `log, `w
      ensures old(log) <= log
      ensures Idle() && events == old(events) + tail
      ensures runs == old(runs)[id := Decomposes(old(runs)[id], output, now)] && res == Done(runs[id])
      ensures var l := runs[id].lineage;
              tail == [TodoCreated(plan), TaskCompleted(l.task, id, agentId, true, [], l.workflow), RunCompleted(id)]
    {
      CompleteRun(id, snap, Decomposes(runs[id], output, now));
      events := events + [TodoCreated(plan)];
      CloseRun(id, snap, agentId, |plan.items| > 0, []);
      var l := runs[id].lineage;
      tail := [TodoCreated(plan), TaskCompleted(l.task, id, agentId, true, [], l.workflow), RunCompleted(id)];
      res := Done(runs[id]);
    }

    /** The session budget is spent: a plan for the rest completes a task's run, otherwise it fails. */
    method ExhaustRun(id: RunId, ghost snap: Run, agentId: nat, max: int, reply: Reply, output: string, now: int)
      returns (res: Result, ghost tail: seq<Event>, ghost end: Ending)
      requires Busy(id, Streaming, snap, NO_CHAIN) && output == OutputOf(reply)
      modifies `runs, `events, `sent, `log, `w
      ensures old(log) <= log
      ensures Idle() && events == old(events) + tail && !end.Finished?
      ensures var l := old(runs)[id].lineage;
              sent == old(sent) + if l.task == "" then [] else [[Message(User, composePlan(l.instructions, output))]]
      ensures runs == old(runs)[id := if end.Decomposed? then Decomposes(old(runs)[id], output, now)
                                      else Exhausted(old(runs)[id], reply, max, now)]
      ensures res == if end.Decomposed? then Done(runs[id]) else Lost(runs[id])
      ensures var r := runs[id]; var planned := llm(|old(sent)|);
              if end.Decomposed? then r.lineage.task != "" && Plans(tail, id, r.lineage, planned, agentId)
              else && tail == FailEvents(id, r)
                   && (r.lineage.task != "" ==>
                         Planless(planned, Origin(r.lineage.task, id, agentId, r.lineage.workflow)))
    {
      var r := runs[id];
      if r.lineage.task != "" {
        var o := OriginOf(id, r.lineage, agentId);
        var plan := AutoDecompose(o, [Message(User, composePlan(r.lineage.instructions, output))]);
        OnePlan(llm(|old(sent)|), o, plan);
        if |plan.items| > 0 {
          res, tail := CompleteAsDecomposed(id, snap, agentId, output, plan, now);
          return res, tail, Decomposed;
        }
      }
      var fault := MaxSessionsReached(max, r.segment);
      BreakRun(id, snap, output, r.content.(error := fault, outputTokens := reply.outputTokens,
        completedAt := AtTime(now)));
      tail := FailEvents(id, runs[id]);
      res, end := Lost(runs[id]), Broken;
    }

    lemma {:induction false} OnePlan(reply: Reply, o: Origin, plan: TodoPayload)
      requires PlanIn(reply, o, plan)
      ensures forall other :: PlanIn(reply, o, other) ==> other == plan
    {
      forall other | PlanIn(reply, o, other) ensures other == plan {
        if reply.err.NoError? && parse(OutputOf(reply)).Actions? {
          Planner.PlanIsUnique(parse(OutputOf(reply)).items, decode, o, plan, other);
        }
      }
    }

    // ---- yielding ----------------------------------------------------------

    /** The first yield of a lone run gives it a new chain. */
    method BackFillRun(id: RunId, ghost snap: Run) returns (chain: ChainId)
      requires Busy(id, Streaming, snap, NO_CHAIN) && runs[id].chain == NO_CHAIN && snap.chain == NO_CHAIN
      modifies `runs, `nextChain, `log, `w
      ensures old(log) <= log
      ensures chain != NO_CHAIN && Busy(id, BackFilled, snap, chain)
      ensures forall k :: k in old(runs) ==> old(runs)[k].chain != chain
      ensures runs == old(runs)[id := old(runs)[id].(chain := chain, segment := 1)]
    {
      chain := DrawChainId();
      assert Numbers(runs, nextRun, nextChain, id);
      Write(id, runs[id].(chain := chain, segment := 1), BackFill(id, chain));
    }

    /** The write to yielded and its event. */
    method FreezeRun(id: RunId, ghost snap: Run, ghost drawn: ChainId, reply: Reply, output: string, now: int)
      requires if snap.chain == NO_CHAIN then Busy(id, BackFilled, snap, drawn) else Busy(id, Streaming, snap, NO_CHAIN)
      requires runs[id].chain == if snap.chain == NO_CHAIN then drawn else snap.chain
      requires output == OutputOf(reply)
      modifies `runs, `events, `log, `w
      ensures old(log) <= log
      ensures id in runs && Busy(id, Frozen, snap, runs[id].chain)
      ensures runs == old(runs)[id := Yields(old(runs)[id], old(runs)[id].chain, reply, now)]
      ensures events == old(events) + [YieldEvent(id, runs[id], reply)]
    {
      var r := runs[id];
      var c := r.content.(outputTokens := reply.outputTokens, completedAt := AtTime(now));
      Write(id, r.(status := Yielded, partial := output, content := c), Freeze(id, output, c));
      events := events + [YieldEvent(id, runs[id], reply)];
    }

    method WriteSuccessor(id: RunId, ghost snap: Run, next: RunId)
      requires Coupled() && id in runs && Busy(id, Frozen, snap, runs[id].chain) && next !in runs && next < nextRun
      requires runs[id].lineage == snap.lineage && runs[id].segment == SegmentOf(snap)
      modifies `runs, `log, `w
      ensures old(log) <= log
      ensures runs == old(runs)[next := Follows(old(runs)[id])] && Busy(id, Spawned, snap, runs[id].chain)
    {
      assert Numbers(runs, nextRun, nextChain, id);
      Write(next, Follows(runs[id]), Spawn(id, next));
    }

    /** The edges of the next segment. */
    method LinkSuccessor(next: RunId, agentId: nat, id: RunId)
      requires Coupled() && next + 1 == nextRun && next in runs && FromBelow(belongs, next) && agentId in agents
      modifies `belongs, `continues
      ensures Coupled() && Targets(belongs, next) == [agentId]
      ensures belongs == old(belongs) + [Edge(next, agentId)] && continues == old(continues) + [Edge(next, id)]
    {
      LinkNew(next, agentId);
      continues := continues + [Edge(next, id)];
    }

    /** The next segment and its edges. */
    method SpawnRun(id: RunId, ghost snap: Run, agentId: nat) returns (next: RunId)
      requires Coupled() && id in runs && Busy(id, Frozen, snap, runs[id].chain) && agentId in agents
      requires runs[id].lineage == snap.lineage && runs[id].segment == SegmentOf(snap)
      modifies `runs, `belongs, `continues, `nextRun, `log, `w
      ensures old(log) <= log
      ensures Idle() && next !in old(runs) && runs == old(runs)[next := Follows(old(runs)[id])]
      ensures belongs == old(belongs) + [Edge(next, agentId)] && continues == old(continues) + [Edge(next, id)]
      ensures Targets(belongs, next) == [agentId]
    {
      next := DrawRunId();
      WriteSuccessor(id, snap, next);
      LinkSuccessor(next, agentId, id);
      LeaveRun(id, Spawned, snap, runs[id].chain);
    }

    /** The run is in a chain: its own, or on a first yield a new one. */
    method EnterChain(id: RunId, ghost snap: Run) returns (ghost drawn: ChainId)
      requires Busy(id, Streaming, snap, NO_CHAIN)
      modifies `runs, `nextChain, `log, `w
      ensures old(log) <= log
      ensures if snap.chain == NO_CHAIN then Busy(id, BackFilled, snap, drawn) else Busy(id, Streaming, snap, NO_CHAIN)
      ensures id in runs && runs == old(runs)[id := old(runs)[id].(chain := runs[id].chain)]
      ensures runs[id].chain == (if snap.chain == NO_CHAIN then drawn else snap.chain) && runs[id].chain != NO_CHAIN
      ensures if old(runs)[id].chain != NO_CHAIN then runs[id].chain == old(runs)[id].chain
              else forall k :: k in old(runs) ==> old(runs)[k].chain != runs[id].chain
      ensures runs[id].lineage == snap.lineage && runs[id].segment == SegmentOf(snap)
    {
      InPlace(id, Streaming, snap, NO_CHAIN);
      drawn := NO_CHAIN;
      if runs[id].chain == NO_CHAIN {
        var chain := BackFillRun(id, snap);
        drawn := chain;
      }
    }

    /** The run is frozen within its chain. */
    method FreezeInChain(id: RunId, ghost snap: Run, reply: Reply, output: string, now: int)
      requires Busy(id, Streaming, snap, NO_CHAIN) && output == OutputOf(reply)
      modifies `runs, `events, `nextChain, `log, `w
      ensures old(log) <= log
      ensures id in runs && runs[id].chain != NO_CHAIN && Busy(id, Frozen, snap, runs[id].chain)
      ensures if old(runs)[id].chain != NO_CHAIN then runs[id].chain == old(runs)[id].chain
              else forall k :: k in old(runs) ==> old(runs)[k].chain != runs[id].chain
      ensures runs == old(runs)[id := Yields(old(runs)[id], runs[id].chain, reply, now)]
      ensures runs[id].lineage == snap.lineage && runs[id].segment == SegmentOf(snap)
      ensures events == old(events) + [YieldEvent(id, runs[id], reply)]
    {
      ghost var drawn := EnterChain(id, snap);
      FreezeRun(id, snap, drawn, reply, output, now);
    }

    /** yieldRun up to its recursive call: the run is frozen and the next segment waits. */
    method SpawnSuccessor(id: RunId, ghost snap: Run, agentId: nat, reply: Reply, output: string, now: int)
      returns (next: RunId)
      requires Busy(id, Streaming, snap, NO_CHAIN) && agentId in agents && output == OutputOf(reply)
      modifies `runs, `events, `belongs, `continues, `nextRun, `nextChain, `log, `w
      ensures old(log) <= log
      ensures Idle() && next !in old(runs) && id in runs && runs[id].chain != NO_CHAIN
      ensures if old(runs)[id].chain != NO_CHAIN then runs[id].chain == old(runs)[id].chain
              else forall k :: k in old(runs) ==> old(runs)[k].chain != runs[id].chain
      ensures var r := old(runs)[id];
              runs == old(runs)[id := Yields(r, runs[id].chain, reply, now)][next := Follows(runs[id])]
      ensures var r := old(runs)[id];
              && runs[id] == Run(r.lineage, Yielded, runs[id].chain, r.segment, OutputOf(reply),
                                 r.content.(outputTokens := reply.outputTokens, completedAt := AtTime(now)))
              && runs[next] == Run(r.lineage, PendingExecution, runs[id].chain, r.segment + 1, "",
                                   Content("", NoFault, 0, 0, Unset, [], "", ""))
      ensures events == old(events) + [YieldEvent(id, runs[id], reply)]
      ensures belongs == old(belongs) + [Edge(next, agentId)] && continues == old(continues) + [Edge(next, id)]
      ensures Targets(belongs, next) == [agentId]
    {
      FreezeInChain(id, snap, reply, output, now);
      next := SpawnRun(id, snap, agentId);
    }

    // ---- an execution ------------------------------------------------------

    ghost function AgentFor(id: RunId): Agent
      reads this
      requires Resolvable(id)
    {
      agents[Targets(belongs, id)[0]]
    }

    ghost function MaxSessionsFor(id: RunId): int
      reads this
      requires Resolvable(id) && id in runs
    {
      ResolveSessionLimits(AgentFor(id).limits, runs[id].lineage.plan).maxSessions
    }

    /** How many more segments may follow the run. */
    ghost function SessionsLeft(id: RunId): nat
      reads this
    {
      if id in runs && Resolvable(id) && MaxSessionsFor(id) > runs[id].segment
      then MaxSessionsFor(id) - runs[id].segment
      else 0
    }

    /** The run resolves as `x` says. */
    ghost predicate Suits(id: RunId, x: Terms)
      reads this
      requires id in runs
    {
      && Resolvable(id) && x.agentId == Targets(belongs, id)[0] && x.agent == AgentFor(id)
      && x.max == MaxSessionsFor(id)
    }

    ghost function ParseOf(reply: Reply): Actions.Parsed<Decoded> {
      parse(OutputOf(reply))
    }

    /** The model call that `x` names ran out of its limits with sessions left. */
    ghost predicate MustYield(segment: int, x: Terms) {
      (llm(x.at).err.DeadlineExceeded? || llm(x.at).err.CallCancelled?) && 1 < x.max && segment < x.max
    }

    /** The terms of the session after. */
    ghost function Later(x: Terms, next: RunId, r: Run): Terms
      reads this`hasField, this`fields
    {
      x.(at := x.at + 1, user := UserText(next, r, []))
    }

    /** The session began with its event and replayed its chain to the model. */
    ghost predicate Opened(id: RunId, evs: seq<Event>, x: Terms)
      reads this
    {
      && id in runs && x.at < |sent| && |evs| >= 1
      && evs[0] == TaskStarted(runs[id].lineage.task, id, x.agentId, runs[id].lineage.workflow)
      && Replays(runs, runs[id].chain, runs[id].segment, x.user, sent[x.at])
    }

    /** What is stored for a session that yielded to the next, and its event. */
    ghost predicate YieldedSession(id: RunId, next: RunId, evs: seq<Event>, x: Terms)
      reads this
    {
      && Next(runs, id, next) && runs[id].lineage == runs[next].lineage
      && (llm(x.at).err.DeadlineExceeded? || llm(x.at).err.CallCancelled?) && 1 < x.max && runs[id].segment < x.max
      && runs[id].status.Yielded? && runs[id].partial == OutputOf(llm(x.at))
      && runs[id].content.outputTokens == llm(x.at).outputTokens && runs[id].content.completedAt == AtTime(x.now)
      && |evs| >= 2
      && evs[1] == TaskYielded(runs[id].lineage.task, id, runs[id].chain, runs[id].segment, llm(x.at).outputTokens,
                               OutputOf(llm(x.at)), runs[id].lineage.workflow)
    }

    /** The last events: the actions of the answer and the completion that reports them; the plan
        that the planning call has yielded; or the stored error, where there is no such plan. */
    ghost predicate Closes(id: RunId, reply: Reply, planned: Reply, tail: seq<Event>, end: Ending, agentId: nat,
                           max: int)
      reads this
    {
      && id in runs
      && var l := runs[id].lineage;
         match end
         case Finished => ParseOf(reply).Actions? && Reports(tail, id, l, agentId, ParseOf(reply).items, decode)
         case Decomposed => Plans(tail, id, l, planned, agentId)
         case Broken =>
           && tail == [TaskFailed(l.task, id, runs[id].content.error, l.workflow), RunFailed]
           && ((reply.err.DeadlineExceeded? || reply.err.CallCancelled?) && max > 1 && l.task != "" ==>
                 Planless(planned, Origin(l.task, id, agentId, l.workflow)))
    }

    lemma {:induction false} ClosesEnds(id: RunId, at: nat, tail: seq<Event>, end: Ending, agentId: nat, max: int)
      requires ClosesAfter(id, at, tail, end, agentId, max)
      ensures EndTrace(tail, id, end)
    {
      if end.Finished? {
        var n := |ParseOf(llm(at)).items|;
        assert tail[n] == tail[n..][0] && tail[n + 1] == tail[n..][1];
        forall i | 0 <= i < n ensures tail[i].FromModel? { assert tail[i] == tail[..n][i]; }
      }
    }

    /** The same after the `at`-th model call; a planning call is the one after it. */
    ghost predicate ClosesAfter(id: RunId, at: nat, tail: seq<Event>, end: Ending, agentId: nat, max: int)
      reads this
    {
      exists planned :: planned == llm(at + 1) && Closes(id, llm(at), planned, tail, end, agentId, max)
    }

    ghost predicate Plans(tail: seq<Event>, id: RunId, l: Lineage, planned: Reply, agentId: nat) {
      && |tail| == 3 && tail[0].TodoCreated? && tail[0].payload.items != []
      && PlanIn(planned, Origin(l.task, id, agentId, l.workflow), tail[0].payload)
      && tail[1] == TaskCompleted(l.task, id, agentId, true, [], l.workflow) && tail[2] == RunCompleted(id)
    }

    ghost predicate Planless(planned: Reply, o: Origin) {
      forall plan :: PlanIn(planned, o, plan) ==> plan.items == []
    }

    /** What is stored for a session that was the last one, and its closing events. */
    ghost predicate LastSession(id: RunId, evs: seq<Event>, end: Ending, x: Terms)
      reads this
    {
      && id in runs && |evs| >= 1
      && Concluded(runs[id], llm(x.at), end, x.agent, x.max, ParseOf(llm(x.at)), x.now)
      && ClosesAfter(id, x.at, evs[1..], end, x.agentId, x.max)
    }

    /** The sessions of one execution and the events up to the end of the last. */
    ghost predicate Sessions(segs: seq<RunId>, evs: seq<Event>, end: Ending, x: Terms)
      reads this
      decreases |segs|
    {
      && |segs| >= 1 && Opened(segs[0], evs, x)
      && if |segs| == 1 then LastSession(segs[0], evs, end, x)
         else && YieldedSession(segs[0], segs[1], evs, x)
              && Sessions(segs[1..], evs[2..], end, Later(x, segs[1], runs[segs[1]]))
    }

    /** A session yields exactly when its call ran out of the session limits with sessions left:
        only then does an execution go on after its first session. */
    lemma {:induction false} YieldsExactly(before: map<RunId, Run>, id: RunId, t: Trace, x: Terms)
      requires Ran(before, id, t, x)
      ensures |t.segs| > 1 <==> (llm(x.at).err.DeadlineExceeded? || llm(x.at).err.CallCancelled?)
                                && 1 < x.max && before[id].segment < x.max
    {
    }

    /** Every session of an execution but the last has yielded. */
    lemma {:induction false} YieldsAt(segs: seq<RunId>, evs: seq<Event>, end: Ending, x: Terms, i: nat)
      requires Sessions(segs, evs, end, x) && i < |segs|
      ensures segs[i] in runs
      ensures var e := llm(x.at + i).err; var r := runs[segs[i]];
              && (i < |segs| - 1 <==> (e.DeadlineExceeded? || e.CallCancelled?) && 1 < x.max && r.segment < x.max)
              && (r.status.Yielded? <==> i < |segs| - 1)
      decreases i
    {
      if i > 0 {
        YieldsAt(segs[1..], evs[2..], end, Later(x, segs[1], runs[segs[1]]), i - 1);
      }
    }

    /** An answer whose actions block holds an empty list ends its session as completed, with no
        event on the model's behalf. */
    lemma {:induction false} EmptyListIsNoOp(id: RunId, evs: seq<Event>, end: Ending, x: Terms,
                                             json: string -> Actions.Json<Decoded>, ds: seq<Stream.Delta>,
                                             prose: string, raw: string, after: string)
      requires Reads(json) && LastSession(id, evs, end, x) && llm(x.at).err.NoError?
      requires OutputOf(llm(x.at)) == Stream.Printed(Think.THINK, Stream.Grouped(ds), true)
      requires Stream.TagFree(Think.THINK, Stream.Grouped(ds))
      requires Stream.ContentText(Stream.Grouped(ds)) == prose + Actions.Fenced(Actions.ACTIONS, raw) + after
      requires !Occurs(prose, Actions.ACTIONS.open) && Actions.Carried(Actions.ACTIONS, raw)
      requires json(raw) == Actions.List([])
      ensures end.Finished? && runs[id].status.Completed?
      ensures var l := runs[id].lineage;
              evs[1..] == [TaskCompleted(l.task, id, x.agentId, false, [], l.workflow), RunCompleted(id)]
    {
      Think.ThinkIsUsable();
      Actions.ActionsFences();
      Actions.StreamedBlockParses(Think.THINK, Actions.ACTIONS, json, ds, prose, raw, after);
      assert parse(OutputOf(llm(x.at))) == Actions.ParseActions(Think.THINK, Actions.ACTIONS, json,
                                                                OutputOf(llm(x.at)));
      assert ParseOf(llm(x.at)).items == [];
      var tail := evs[1..];
      assert tail[0..] == tail;
    }

    /** An execution of `id` went as `t` says: its sessions, its events, its end; it changed its
        own runs only, and nothing is in flight any more. */
    ghost predicate Ran(before: map<RunId, Run>, id: RunId, t: Trace, x: Terms)
      reads this
    {
      match t
      case NothingRan => false
      case Trace(segs, evs, end) =>
        && Idle() && |segs| >= 1 && segs[0] == id
        && Spread(before, runs, segs) && Sessions(segs, evs, end, x) && ChainTrace(evs, segs, end)
        && x.at + |segs| <= |sent| <= x.at + |segs| + 1
    }

    /** There is such an execution of at most `bound` sessions, told by the events from `from`
        on, and `res` agrees with how it ended. */
    ghost predicate Told(before: map<RunId, Run>, id: RunId, from: nat, bound: nat, res: Result, x: Terms)
      reads this
    {
      exists t: Trace :: Ran(before, id, t, x) && t.Trace? && |t.segs| <= bound
                         && from <= |events| && t.events == events[from..]
                         && if t.end.Broken? then res.Lost? else res.Done?
    }

    /** The model call of a session. */
    method CallModel(id: RunId, ghost snap: Run, msgs: seq<Message>, limits: Limits, ghost user: string,
                     ghost before: map<RunId, Run>) returns (reply: Reply, output: string)
      requires Busy(id, Streaming, snap, NO_CHAIN)
      requires id in before && runs == before[id := runs[id]] && SamePlace(before[id], runs[id])
      requires Replays(runs, runs[id].chain, runs[id].segment, user, msgs)
      modifies `runs, `sent, `log, `w
      ensures old(log) <= log
      ensures Busy(id, Streaming, snap, NO_CHAIN)
      ensures reply == llm(|old(sent)|) && output == OutputOf(reply) && sent == old(sent) + [msgs]
      ensures runs == before[id := runs[id]] && SamePlace(before[id], runs[id])
      ensures Replays(runs, runs[id].chain, runs[id].segment, user, msgs)
      ensures SamePlace(old(runs)[id], runs[id])
      ensures old(RunsLinked(runs, agents, belongs)) ==> RunsLinked(runs, agents, belongs)
    {
      reply := llm(|sent|);
      sent := sent + [msgs];
      ghost var running := runs;
      output := StreamReply(id, snap, reply, limits);
      InPlace(id, Streaming, snap, NO_CHAIN);
      ReplaysPersist(running, runs, id, user, msgs);
      RunsStayLinked(running, runs, agents, belongs, id);
    }

    /** A session that does not yield. */
    method EndSession(id: RunId, ghost snap: Run, agentId: nat, agent: Agent, max: int, reply: Reply, output: string,
                      now: int, ghost at: nat) returns (res: Result, ghost end: Ending)
      requires Busy(id, Streaming, snap, NO_CHAIN) && output == OutputOf(reply)
      requires reply == llm(at) && |sent| == at + 1
      requires max > 1 && Signals(reply.err) ==> runs[id].segment >= max
      modifies `runs, `events, `sent, `log, `w
      ensures old(log) <= log
      ensures Idle() && old(events) <= events
      ensures ClosesAfter(id, at, events[|old(events)|..], end, agentId, max)
      ensures runs == old(runs)[id := runs[id]]
      ensures ConcludesAs(old(runs)[id], runs[id], reply, end, agent, max, ParseOf(reply), now)
      ensures old(sent) <= sent && |sent| <= |old(sent)| + 1
      ensures if end.Broken? then res.Lost? else res.Done?
    {
      ghost var r := runs[id];
      ghost var tail;
      if max > 1 && Signals(reply.err) {
        res, tail, end := ExhaustRun(id, snap, agentId, max, reply, output, now);
        ExhaustConcludes(r, reply, end, agent, max, now, ParseOf(reply));
      } else if !reply.err.NoError? {
        res, tail := FailRun(id, snap, agent, reply, output, now);
        end := Broken;
        FailConcludes(r, reply, agent, max, now, ParseOf(reply));
      } else {
        res, tail, end := FinishRun(id, snap, agentId, reply, output, now);
        FinishConcludes(r, reply, agent, max, now, ParseOf(reply));
      }
      assert events[|old(events)|..] == tail;
      assert Closes(id, reply, llm(at + 1), tail, end, agentId, max);
    }

    /** Records after a yield: the run is frozen in a chain and the next segment waits. */
    ghost predicate HandedOver(before: map<RunId, Run>, after: map<RunId, Run>, id: RunId, next: RunId, reply: Reply,
                               now: int) {
      exists chain: ChainId :: HandedOverIn(before, after, id, next, reply, now, chain)
    }

    ghost predicate HandedOverIn(before: map<RunId, Run>, after: map<RunId, Run>, id: RunId, next: RunId, reply: Reply,
                                 now: int, chain: ChainId) {
      && id in before && next !in before && chain != NO_CHAIN
      && (before[id].chain == NO_CHAIN || before[id].chain == chain)
      && var r := Yields(before[id], chain, reply, now); after == before[id := r][next := Follows(r)]
    }

    /** What a session that yields has done by then. */
    ghost predicate Paused(before: map<RunId, Run>, id: RunId, x: Terms)
      reads this
    {
      && id in before && before[id].segment >= 1 && (before[id].chain == NO_CHAIN ==> before[id].segment == 1)
      && x.at < |sent| && Replays(before, before[id].chain, before[id].segment, x.user, sent[x.at])
      && MustYield(before[id].segment, x)
    }

    /** A yielded session in front of the sessions that followed. */
    lemma {:induction false} YieldRan(before: map<RunId, Run>, mid: map<RunId, Run>, id: RunId, next: RunId,
                                      t: Trace, rest: Trace, x: Terms)
      requires id in mid && next in mid && HandedOver(before, mid, id, next, llm(x.at), x.now)
      requires Ran(mid, next, rest, Later(x, next, mid[next]))
      requires t.Trace? && rest.Trace? && t.segs == [id] + rest.segs && t.end == rest.end
      requires |t.events| >= 2 && t.events[2..] == rest.events
      requires t.events[0] == StartEvent(id, before[id].lineage, x.agentId)
      requires t.events[1] == YieldEvent(id, mid[id], llm(x.at))
      requires Paused(before, id, x)
      ensures Ran(before, id, t, x)
    {
      assert t.segs[1..] == rest.segs;
      var chain :| HandedOverIn(before, mid, id, next, llm(x.at), x.now, chain);
      forall k ensures Untouched(before, runs, t.segs, k) {
        assert Untouched(mid, runs, rest.segs, k);
        if k in runs && k !in mid { assert k in rest.segs; }
      }
      forall k | k in before && k != id ensures k in runs && runs[k] == before[k] {
        assert Untouched(before, runs, t.segs, k);
      }
      assert Untouched(mid, runs, rest.segs, id);
      assert Next(runs, id, next);
      ReplaysPersist(before, runs, id, x.user, sent[x.at]);
    }

    lemma {:induction false} YieldJoins(before: map<RunId, Run>, mid: map<RunId, Run>, id: RunId, next: RunId,
                                        from: nat, onwards: nat, bound: nat, res: Result, x: Terms)
      requires id in mid && next in mid && HandedOver(before, mid, id, next, llm(x.at), x.now)
      requires Told(mid, next, onwards, bound, res, Later(x, next, mid[next])) && onwards == from + 2
      requires Begun(id, before[id].lineage, events, from, x.agentId)
      requires from + 1 < |events| && events[from + 1] == YieldEvent(id, mid[id], llm(x.at))
      requires Paused(before, id, x)
      ensures Told(before, id, from, bound + 1, res, x)
    {
      var y := Later(x, next, mid[next]);
      var rest :| Ran(mid, next, rest, y) && rest.Trace? && |rest.segs| <= bound
                  && rest.events == events[from + 2..] && if rest.end.Broken? then res.Lost? else res.Done?;
      var t := Trace([id] + rest.segs, events[from..], rest.end);
      assert t.events[2..] == rest.events;
      YieldRan(before, mid, id, next, t, rest, x);
    }

    /** The successor can be executed on these terms, for at most `bound` sessions. */
    ghost predicate Waits(next: RunId, bound: nat, x: Terms)
      reads this
    {
      && next in runs && runs[next].status.PendingExecution? && Suits(next, x) && bound == 1 + SessionsLeft(next)
      && x.at == |sent| && x.user == UserText(next, runs[next], [])
    }

    /** yieldRun's hand-over, seen from the next execution: the successor can be executed, by
        the same agent within the same limits, and has one session less left. */
    method HandOver(id: RunId, ghost snap: Run, agentId: nat, ghost left: nat, reply: Reply, output: string, now: int,
                    ghost x: Terms) returns (next: RunId)
      requires Busy(id, Streaming, snap, NO_CHAIN) && output == OutputOf(reply)
      requires Suits(id, x) && agentId == x.agentId && left == SessionsLeft(id) && runs[id].segment < x.max
      requires |sent| == x.at + 1
      modifies `runs, `events, `belongs, `continues, `nextRun, `nextChain, `log, `w
      ensures old(log) <= log
      ensures Idle() && HandedOver(old(runs), runs, id, next, reply, now)
      ensures events == old(events) + [YieldEvent(id, runs[id], reply)]
      ensures id in runs && next in runs && Waits(next, left, Later(x, next, runs[next]))
      ensures old(RunsLinked(runs, agents, belongs)) ==> RunsLinked(runs, agents, belongs)
    {
      next := SpawnSuccessor(id, snap, agentId, reply, output, now);
      assert HandedOverIn(old(runs), runs, id, next, reply, now, runs[id].chain);
      ghost var frozen := old(runs)[id := runs[id]];
      RunsStayLinked(old(runs), frozen, agents, old(belongs), id);
      NewRunLinked(frozen, runs, agents, old(belongs), next, agentId);
    }

    /** The recursive call, on a run that cannot be refused, after the event of the yield. */
    method Proceed(next: RunId, now: int, ghost past: seq<Event>, ghost e: Event, ghost bound: nat, ghost x: Terms)
      returns (res: Result)
      requires now == x.now
      requires Idle() && Waits(next, bound, x) && events == past + [e]
      modifies `runs, `events, `sent, `inputs, `belongs, `continues, `nextRun, `nextChain, `log, `w
      ensures old(log) <= log && inputs == old(inputs)
      ensures Told(old(runs), next, |past| + 1, bound, res, x)
      ensures past <= events && |events| > |past| && events[|past|] == e && old(sent) <= sent
      ensures old(RunsLinked(runs, agents, belongs)) ==> RunsLinked(runs, agents, belongs)
      decreases SessionsLeft(next), 9
    {
      res := ExecuteRunStreaming(next, [], now);
      AppendedStays(past, e, old(events), events);
    }

    /** Hand over, then execute the successor. */
    method Continue(id: RunId, ghost snap: Run, agentId: nat, ghost left: nat, reply: Reply, output: string, now: int,
                    ghost x: Terms) returns (res: Result, ghost next: RunId, ghost mid: map<RunId, Run>)
      requires now == x.now
      requires Busy(id, Streaming, snap, NO_CHAIN) && output == OutputOf(reply)
      requires Suits(id, x) && agentId == x.agentId && left == SessionsLeft(id) && runs[id].segment < x.max
      requires |sent| == x.at + 1
      modifies `runs, `events, `sent, `inputs, `belongs, `continues, `nextRun, `nextChain, `log, `w
      ensures old(log) <= log && inputs == old(inputs)
      ensures id in mid && next in mid && HandedOver(old(runs), mid, id, next, reply, now)
      ensures Told(mid, next, |old(events)| + 1, left, res, Later(x, next, mid[next]))
      ensures old(events) <= events && old(sent) <= sent && |events| > |old(events)|
      ensures events[|old(events)|] == YieldEvent(id, mid[id], reply)
      ensures old(RunsLinked(runs, agents, belongs)) ==> RunsLinked(runs, agents, belongs)
      decreases left, 1
    {
      var successor := HandOver(id, snap, agentId, left, reply, output, now, x);
      mid, next := runs, successor;
      ghost var e, y := YieldEvent(id, mid[id], reply), Later(x, successor, mid[successor]);
      res := Proceed(successor, now, old(events), e, left, y);
    }

    /** execute.go's yieldRun. */
    method YieldRun(id: RunId, ghost snap: Run, agentId: nat, ghost left: nat, reply: Reply, output: string, now: int,
                    ghost x: Terms) returns (res: Result)
      requires now == x.now
      requires Busy(id, Streaming, snap, NO_CHAIN) && output == OutputOf(reply) && reply == llm(x.at)
      requires Suits(id, x) && agentId == x.agentId && left == SessionsLeft(id)
      requires |sent| == x.at + 1 && Paused(runs, id, x)
      requires |events| >= 1 && Begun(id, runs[id].lineage, events, |events| - 1, x.agentId)
      modifies `runs, `events, `sent, `inputs, `belongs, `continues, `nextRun, `nextChain, `log, `w
      ensures old(log) <= log && inputs == old(inputs)
      ensures Told(old(runs), id, |old(events)| - 1, 1 + left, res, x)
      ensures old(events) <= events && old(sent) <= sent
      ensures old(RunsLinked(runs, agents, belongs)) ==> RunsLinked(runs, agents, belongs)
      decreases left, 2
    {
      ghost var from, onwards, at := |events| - 1, |events| + 1, x.at;
      ghost var msgs, next, mid := sent[at], 0, runs;
      res, next, mid := Continue(id, snap, agentId, left, reply, output, now, x);
      assert Begun(id, old(runs)[id].lineage, events, from, x.agentId) && onwards == from + 2 && sent[at] == msgs;
      YieldJoins(old(runs), mid, id, next, from, onwards, left, res, x);
    }

    /** A last session by itself is an execution. */
    lemma {:induction false} EndRan(before: map<RunId, Run>, id: RunId, evs: seq<Event>, end: Ending, x: Terms)
      requires Idle() && id in before && id in runs && runs == before[id := runs[id]]
      requires |evs| >= 1 && evs[0] == StartEvent(id, before[id].lineage, x.agentId)
      requires ClosesAfter(id, x.at, evs[1..], end, x.agentId, x.max)
      requires ConcludesAs(before[id], runs[id], llm(x.at), end, x.agent, x.max, ParseOf(llm(x.at)), x.now)
      requires x.at + 1 <= |sent| <= x.at + 2 && before[id].segment >= 1
      requires Replays(before, before[id].chain, before[id].segment, x.user, sent[x.at])
      ensures Ran(before, id, Trace([id], evs, end), x)
    {
      ReplaysPersist(before, runs, id, x.user, sent[x.at]);
      ClosesEnds(id, x.at, evs[1..], end, x.agentId, x.max);
    }

    lemma {:induction false} EndJoins(before: map<RunId, Run>, id: RunId, from: nat, bound: nat, end: Ending,
                                      res: Result, x: Terms)
      requires bound >= 1 && Idle() && id in before && id in runs && runs == before[id := runs[id]]
      requires Begun(id, before[id].lineage, events, from, x.agentId)
      requires ClosesAfter(id, x.at, events[from + 1..], end, x.agentId, x.max)
      requires ConcludesAs(before[id], runs[id], llm(x.at), end, x.agent, x.max, ParseOf(llm(x.at)), x.now)
      requires x.at + 1 <= |sent| <= x.at + 2
      requires before[id].segment >= 1 && if end.Broken? then res.Lost? else res.Done?
      requires Replays(before, before[id].chain, before[id].segment, x.user, sent[x.at])
      ensures Told(before, id, from, bound, res, x)
    {
      var evs := events[from..];
      assert evs[1..] == events[from + 1..];
      EndRan(before, id, evs, end, x);
      assert Trace([id], evs, end).Trace?;
    }

    /** A session that is the last of its execution. */
    method LastRun(id: RunId, ghost snap: Run, agentId: nat, agent: Agent, max: int, reply: Reply, output: string,
                   now: int, ghost bound: nat, ghost x: Terms) returns (res: Result)
      requires now == x.now
      requires Busy(id, Streaming, snap, NO_CHAIN) && output == OutputOf(reply) && reply == llm(x.at)
      requires max > 1 && Signals(reply.err) ==> runs[id].segment >= max
      requires agentId == x.agentId && agent == x.agent && max == x.max && |sent| == x.at + 1 && bound >= 1
      requires Replays(runs, runs[id].chain, runs[id].segment, x.user, sent[x.at])
      requires |events| >= 1 && Begun(id, runs[id].lineage, events, |events| - 1, x.agentId)
      modifies `runs, `events, `sent, `log, `w
      ensures old(log) <= log
      ensures Told(old(runs), id, |old(events)| - 1, bound, res, x)
      ensures old(events) <= events && old(sent) <= sent
      ensures old(RunsLinked(runs, agents, belongs)) ==> RunsLinked(runs, agents, belongs)
    {
      InPlace(id, Streaming, snap, NO_CHAIN);
      ghost var end;
      res, end := EndSession(id, snap, agentId, agent, max, reply, output, now, x.at);
      EndJoins(old(runs), id, |old(events)| - 1, bound, end, res, x);
      RunsStayLinked(old(runs), runs, agents, belongs, id);
    }

    /** What follows a model call: yield while sessions are left, otherwise the end. */
    method Conclude(id: RunId, ghost snap: Run, agentId: nat, agent: Agent, max: int, ghost left: nat, reply: Reply,
                    output: string, now: int, ghost x: Terms) returns (res: Result)
      requires now == x.now
      requires Busy(id, Streaming, snap, NO_CHAIN) && output == OutputOf(reply) && reply == llm(x.at)
      requires Suits(id, x) && agentId == x.agentId && agent == x.agent && max == x.max && left == SessionsLeft(id)
      requires |sent| == x.at + 1 && Replays(runs, runs[id].chain, runs[id].segment, x.user, sent[x.at])
      requires |events| >= 1 && Begun(id, runs[id].lineage, events, |events| - 1, x.agentId)
      modifies `runs, `events, `sent, `inputs, `belongs, `continues, `nextRun, `nextChain, `log, `w
      ensures old(log) <= log && inputs == old(inputs)
      ensures Told(old(runs), id, |old(events)| - 1, 1 + left, res, x)
      ensures old(events) <= events && old(sent) <= sent
      ensures old(RunsLinked(runs, agents, belongs)) ==> RunsLinked(runs, agents, belongs)
      decreases left, 3
    {
      if max > 1 && Signals(reply.err) && runs[id].segment < max {
        InPlace(id, Streaming, snap, NO_CHAIN);
        res := YieldRun(id, snap, agentId, left, reply, output, now, x);
      } else {
        res := LastRun(id, snap, agentId, agent, max, reply, output, now, 1 + left, x);
      }
    }

    /** The same, seen from the store before the session. */
    method ConcludeFrom(id: RunId, ghost snap: Run, agentId: nat, agent: Agent, max: int, ghost left: nat, reply: Reply,
                        output: string, now: int, ghost before: map<RunId, Run>, ghost x: Terms) returns (res: Result)
      requires now == x.now
      requires Busy(id, Streaming, snap, NO_CHAIN) && output == OutputOf(reply) && reply == llm(x.at)
      requires id in before && runs == before[id := runs[id]] && SamePlace(before[id], runs[id])
      requires Suits(id, x) && agentId == x.agentId && agent == x.agent && max == x.max && left == SessionsLeft(id)
      requires |sent| == x.at + 1 && Replays(runs, runs[id].chain, runs[id].segment, x.user, sent[x.at])
      requires |events| >= 1 && Begun(id, runs[id].lineage, events, |events| - 1, x.agentId)
      modifies `runs, `events, `sent, `inputs, `belongs, `continues, `nextRun, `nextChain, `log, `w
      ensures old(log) <= log && inputs == old(inputs)
      ensures Told(before, id, |old(events)| - 1, 1 + left, res, x)
      ensures old(events) <= events && old(sent) <= sent
      ensures old(RunsLinked(runs, agents, belongs)) ==> RunsLinked(runs, agents, belongs)
      decreases left, 4
    {
      ghost var streamed := runs;
      res := Conclude(id, snap, agentId, agent, max, left, reply, output, now, x);
      WidenTold(before, streamed, id, |old(events)| - 1, 1 + left, res, x);
    }

    /** The rest of an execution, from the first running session on. */
    method RunSession(id: RunId, ghost snap: Run, agentId: nat, agent: Agent, msgs: seq<Message>, now: int,
                      ghost before: map<RunId, Run>, ghost left: nat, ghost x: Terms) returns (res: Result)
      requires now == x.now
      requires Busy(id, Streaming, snap, NO_CHAIN)
      requires id in before && runs == before[id := runs[id]] && SamePlace(before[id], runs[id])
      requires Suits(id, x) && agentId == x.agentId && agent == x.agent && left == SessionsLeft(id)
      requires x.at == |sent| && Replays(runs, runs[id].chain, runs[id].segment, x.user, msgs)
      requires |events| >= 1 && Begun(id, runs[id].lineage, events, |events| - 1, x.agentId)
      modifies `runs, `events, `sent, `inputs, `belongs, `continues, `nextRun, `nextChain, `log, `w
      ensures old(log) <= log && inputs == old(inputs)
      ensures Told(before, id, |old(events)| - 1, 1 + left, res, x)
      ensures old(events) <= events && old(sent) <= sent
      ensures old(RunsLinked(runs, agents, belongs)) ==> RunsLinked(runs, agents, belongs)
      decreases left, 5
    {
      var limits := ResolveSessionLimits(agent.limits, runs[id].lineage.plan);
      var reply, output := CallModel(id, snap, msgs, limits, x.user, before);
      res := ConcludeFrom(id, snap, agentId, agent, limits.maxSessions, left, reply, output, now, before, x);
    }

    /** What came before was a change to the first run alone. */
    lemma {:induction false} WidenTold(before: map<RunId, Run>, mid: map<RunId, Run>, id: RunId, from: nat, bound: nat,
                                       res: Result, x: Terms)
      requires Told(mid, id, from, bound, res, x)
      requires id in before && id in mid && mid == before[id := mid[id]] && SamePlace(before[id], mid[id])
      ensures Told(before, id, from, bound, res, x)
    {
      var t :| Ran(mid, id, t, x) && t.Trace? && |t.segs| <= bound && t.events == events[from..]
               && if t.end.Broken? then res.Lost? else res.Done?;
      forall k ensures Untouched(before, runs, t.segs, k) {
        assert Untouched(mid, runs, t.segs, k);
      }
      assert Ran(before, id, t, x);
    }

    /** An execution from its accepted run and resolved agent on. */
    method RunResolved(id: RunId, snap: Run, agentId: nat, agent: Agent, given: seq<Input>, now: int,
                       ghost before: map<RunId, Run>, ghost left: nat, ghost x: Terms) returns (res: Result)
      requires now == x.now
      requires Startable(snap.status) && id in runs && SamePlace(snap, runs[id])
      requires Busy(id, if snap.status.PendingIntake? then Accepted else Admitted, snap, NO_CHAIN)
      requires id in before && runs == before[id := runs[id]] && SamePlace(before[id], runs[id])
      requires Suits(id, x) && agentId == x.agentId && agent == x.agent && left == SessionsLeft(id)
      requires Active(runs[id].status) && x.at == |sent| && x.user == UserText(id, snap, given)
      modifies `runs, `events, `sent, `inputs, `belongs, `continues, `nextRun, `nextChain, `log, `w
      ensures old(log) <= log && inputs == old(inputs)
      ensures Told(before, id, |old(events)|, 1 + left, res, x)
      ensures old(events) <= events && old(sent) <= sent
      ensures old(RunsLinked(runs, agents, belongs)) ==> RunsLinked(runs, agents, belongs)
      decreases left, 6
    {
      var msgs := Begin(id, snap, agentId, given);
      assert |events| - 1 == |old(events)|;
      res := RunSession(id, snap, agentId, agent, msgs, now, before, left, x);
    }

    /** What an execution of a run that resolves works with. */
    ghost function TermsFor(id: RunId, given: seq<Input>, now: int): Terms
      reads this
      requires id in runs && Resolvable(id)
    {
      Terms(|sent|, UserText(id, runs[id], given), Targets(belongs, id)[0], AgentFor(id), MaxSessionsFor(id), now)
    }

    ghost method AbortRun(id: RunId, snap: Run)
      requires Busy(id, if snap.status.PendingIntake? then Accepted else Admitted, snap, NO_CHAIN)
      modifies `log, `w
      ensures old(log) <= log && Idle()
    {
      Advance(Abort(id));
    }

    /** An execution of a run that may start. When its agent cannot be resolved it is refused,
        but has been moved to pending execution by then. */
    method RunStartable(id: RunId, given: seq<Input>, now: int) returns (res: Result)
      requires Idle() && id in runs && Startable(runs[id].status)
      modifies `runs, `events, `sent, `inputs, `belongs, `continues, `nextRun, `nextChain, `log, `w
      ensures old(log) <= log
      ensures inputs == old(inputs) + (if old(runs)[id].status.PendingIntake? then Submitted(id, given) else [])
      ensures Idle() && old(events) <= events && old(sent) <= sent
      ensures res.Refused? <==> !old(Resolvable(id))
      ensures res.Refused? ==> && (res.why == AgentNotFound || res.why == ProviderNotFound)
                               && events == old(events) && sent == old(sent)
                               && runs == old(runs)[id := old(runs)[id].(status := PendingExecution)]
      ensures !res.Refused? ==> Told(old(runs), id, |old(events)|, 1 + old(SessionsLeft(id)), res,
                                     old(TermsFor(id, given, now)))
      ensures old(RunsLinked(runs, agents, belongs)) ==> RunsLinked(runs, agents, belongs)
      decreases SessionsLeft(id), 7
    {
      var snap := runs[id];
      AcceptRun(id, snap, given);
      var r := Resolve(id);
      if r.Found? {
        res := RunResolved(id, snap, r.agentId, r.agent, given, now, old(runs), SessionsLeft(id),
                           TermsFor(id, given, now));
      } else {
        AbortRun(id, snap);
        res := Refused(if r.NoAgent? then AgentNotFound else ProviderNotFound);
      }
    }

    /** execute.go's ExecuteRunStreaming, with everything its sessions do. */
    method ExecuteRunStreaming(id: RunId, given: seq<Input>, now: int) returns (res: Result)
      requires Idle()
      modifies `runs, `events, `sent, `inputs, `belongs, `continues, `nextRun, `nextChain, `log, `w
      ensures old(log) <= log
      ensures inputs == old(inputs) + (if id in old(runs) && old(runs)[id].status.PendingIntake?
                                       then Submitted(id, given) else [])
      ensures Idle() && old(events) <= events && old(sent) <= sent
      ensures res.Refused? <==> !(id in old(runs) && old(Resolvable(id))
                                  && (old(runs)[id].status.PendingIntake? || old(runs)[id].status.PendingExecution?))
      ensures res.Refused? ==> Refuses(old(runs), runs, id, res.why) && events == old(events) && sent == old(sent)
      ensures !res.Refused? ==> Told(old(runs), id, |old(events)|, 1 + old(SessionsLeft(id)), res,
                                     old(TermsFor(id, given, now)))
      ensures old(RunsLinked(runs, agents, belongs)) ==> RunsLinked(runs, agents, belongs)
      decreases SessionsLeft(id), 8
    {
      if id !in runs {
        return Refused(RunNotFound);
      }
      if !Startable(runs[id].status) {
        return Refused(RunNotIntaked);
      }
      res := RunStartable(id, given, now);
    }

    // ---- rollback ----------------------------------------------------------

    /** ListRuns by workflow. */
    method ListWorkflowRuns(workflow: string) returns (ids: seq<RunId>)
      ensures Rollback.AnchoredListing(runs, workflow, ids)
    {
      var all := ListRuns();
      ids := [];
      for i := 0 to |all|
        invariant NoRepeats(ids)
        invariant forall k :: k in ids <==> k in all[..i] && runs[k].lineage.workflow == workflow
      {
        assert forall k :: k in all[..i + 1] <==> k in all[..i] || k == all[i];
        if runs[all[i]].lineage.workflow == workflow {
          ids := ids + [all[i]];
        }
      }
      assert all[..|all|] == all;
    }

    /** A rollback under way: the writes of the rest of its listing are pending. */
    ghost predicate Rolling(before: map<RunId, Run>, past: seq<Event>, reason: string, c: Rollback.Call)
      reads this
    {
      && Coupled() && c.n <= |c.ids| && w == World(runs, map[], Rollback.Pending(before, c.ids[c.n..]), Serving)
      && Rollback.HasCome(before, runs, reason, c) && events == past + c.told
    }

    /** applyTerminalStatus and its event. */
    method RollOne(id: RunId, reason: string, now: int, ghost pending: set<Target>)
      requires Coupled() && w == World(runs, map[], pending, Serving)
      requires id in runs && Rollback.Moves(runs[id].status) && TargetOf(id, runs[id].status) in pending
      modifies `runs, `events, `log, `w
      ensures old(log) <= log
      ensures Coupled() && runs == old(runs)[id := Rollback.Patched(old(runs)[id], reason, now)]
      ensures w == World(runs, map[], pending - {TargetOf(id, old(runs)[id].status)}, Serving)
      ensures events == old(events) + [Rollback.Notice(id, old(runs)[id], reason)]
      ensures var e := events[|old(events)|]; var r := old(runs)[id];
              if r.status.Completed? || r.status.Failed?
              then runs[id].status == RolledBack && e == RunRolledBack(id, r.lineage.workflow, r.status, reason)
              else runs[id].status == Cancelled && e == RunCancelled(id, r.lineage.workflow, r.status, reason)
    {
      var r := runs[id];
      var r' := Rollback.Patched(r, reason, now);
      Write(id, r', WriteRollback(TargetOf(id, r.status), r'.content));
      events := events + [Rollback.Notice(id, r, reason)];
    }

    /** One turn of the loop over the listing. */
    method RollNext(ids: seq<RunId>, n: nat, reason: string, now: int, report: Rollback.Report,
                    ghost before: map<RunId, Run>, ghost past: seq<Event>, ghost told: seq<Event>)
      returns (next: Rollback.Report, ghost told': seq<Event>)
      requires n < |ids| && NoRepeats(ids) && (forall i :: 0 <= i < |ids| ==> ids[i] in before)
      requires Rolling(before, past, reason, Rollback.Call(ids, n, now, told, report))
      modifies `runs, `events, `log, `w
      ensures old(log) <= log
      ensures Rolling(before, past, reason, Rollback.Call(ids, n + 1, now, told', next))
      ensures next == Rollback.Enter(report, ids[n], before[ids[n]].status)
    {
      ghost var c := Rollback.Call(ids, n, now, told, report);
      var id := ids[n];
      Rollback.NotYet(before, runs, reason, c, n);
      Rollback.PendingRest(before, ids, n);
      var r := runs[id];
      next := Rollback.Enter(report, id, r.status);
      told' := told + if Rollback.Moves(r.status) then [Rollback.Notice(id, r, reason)] else [];
      ghost var was := runs;
      if Rollback.Moves(r.status) {
        RollOne(id, reason, now, Rollback.Pending(before, ids[n..]));
      }
      Rollback.OneFurther(before, was, reason, c, runs);
    }

    /** RollbackByWorkflowRun; `failing` are the runs whose store access fails. */
    method RollbackByWorkflowRun(workflow: string, reason: string, now: int, failing: set<RunId>)
      returns (report: Rollback.Report, ghost c: Rollback.Call)
      requires Idle()
      modifies `runs, `events, `log, `w
      ensures old(log) <= log
      ensures Idle() && (old(Linked()) ==> Linked())
      ensures (workflow == "" <==> report.Rejected?) && report == c.report
      ensures workflow == "" ==> runs == old(runs) && events == old(events)
      ensures workflow != "" ==>
        && Rollback.RollsBack(old(runs), runs, workflow, reason, c) && events == old(events) + c.told
        && (!report.complete ==> c.ids[c.n] in failing && Rollback.Moves(old(runs)[c.ids[c.n]].status))
      ensures workflow != "" && report.complete ==> Closed(w, workflow)
    {
      c := Rollback.Call([], 0, now, [], Rollback.Rejected);
      if workflow == "" {
        return Rollback.Rejected, c;
      }
      StatusesAreKnown(log);
      report, c := RollThrough(workflow, reason, now, failing);
      DropPending(Rollback.Pending(old(runs), c.ids[c.n..]));
      if report.complete {
        Rollback.CompleteRollbackCloses(old(runs), w, workflow, reason, c);
      }
      forall k ensures RunLinked(old(runs), agents, belongs, k) ==> RunLinked(runs, agents, belongs, k) {
        Rollback.RollbackFrames(old(runs), runs, workflow, reason, c, k);
        Rollback.MovedOnce(old(runs), runs, workflow, reason, c, k);
      }
    }

    /** The loop, up to its end or the first store error. */
    method RollThrough(workflow: string, reason: string, now: int, failing: set<RunId>)
      returns (report: Rollback.Report, ghost c: Rollback.Call)
      requires Idle() && workflow != ""
      modifies `runs, `events, `log, `w
      ensures old(log) <= log
      ensures Rolling(old(runs), old(events), reason, c) && Rollback.AnchoredListing(old(runs), workflow, c.ids)
      ensures report == c.report && report.Report? && (report.complete <==> c.n == |c.ids|)
      ensures c.n < |c.ids| ==> c.ids[c.n] in failing && Rollback.Moves(old(runs)[c.ids[c.n]].status)
    {
      var ids := ListWorkflowRuns(workflow);
      Advance(ListRollback(workflow));
      ghost var before := runs;
      Rollback.HasNotBegun(before, reason, ids, now);
      Rollback.PendingAll(before, workflow, ids);
      assert ids[0..] == ids;
      report, c := RollLoop(ids, reason, now, failing, before, old(events));
    }

    method RollLoop(ids: seq<RunId>, reason: string, now: int, failing: set<RunId>,
                    ghost before: map<RunId, Run>, ghost past: seq<Event>)
      returns (report: Rollback.Report, ghost c: Rollback.Call)
      requires NoRepeats(ids) && forall i :: 0 <= i < |ids| ==> ids[i] in before
      requires Rolling(before, past, reason, Rollback.Call(ids, 0, now, [], Rollback.Report(false, [], [], [])))
      modifies `runs, `events, `log, `w
      ensures old(log) <= log
      ensures Rolling(before, past, reason, c) && c.ids == ids
      ensures report == c.report && report.Report? && (report.complete <==> c.n == |ids|)
      ensures c.n < |ids| ==> ids[c.n] in failing && Rollback.Moves(before[ids[c.n]].status)
    {
      report := Rollback.Report(false, [], [], []);
      ghost var told: seq<Event> := [];
      var n := 0;
      while n < |ids|
        invariant n <= |ids| && Rolling(before, past, reason, Rollback.Call(ids, n, now, told, report))
        invariant old(log) <= log
      {
        Rollback.NotYet(before, runs, reason, Rollback.Call(ids, n, now, told, report), n);
        if ids[n] in failing && Rollback.Moves(runs[ids[n]].status) {
          break;
        }
        report, told := RollNext(ids, n, reason, now, report, before, past, told);
        n := n + 1;
      }
      report := report.(complete := n == |ids|);
      c := Rollback.Call(ids, n, now, told, report);
    }

    /** A rollback that stops forgets its remaining writes. */
    ghost method DropPending(pending: set<Target>)
      requires Coupled() && w == World(runs, map[], pending, Serving)
      modifies `log, `w
      ensures old(log) <= log
      ensures Idle()
    {
      var left := pending;
      while left != {}
        invariant Coupled() && w == World(runs, map[], left, Serving) && old(log) <= log
        decreases left
      {
        var t :| t in left;
        Advance(StopRollback(t));
        left := left - {t};
      }
    }

    // ---- restart, and confirmed writes -------------------------------------

    /** The service has come up again and the boot sweep has `todo` before it. */
    ghost predicate Booting(todo: set<RunId>)
      reads this
    {
      Coupled() && w == World(runs, map[], {}, Sweeping(todo))
    }

    /** One run of the sweep, failed and told of, or skipped on a store error. */
    method SweepOne(id: RunId, now: int, fails: bool, ghost todo: set<RunId>)
      requires Booting(todo) && id in todo && id in runs
      modifies `runs, `events, `log, `w
      ensures old(log) <= log
      ensures Booting(todo - {id})
      ensures runs == if fails then old(runs) else old(runs)[id := Interrupts(old(runs)[id], now)]
      ensures events == old(events) + if fails then [] else [RunFailed]
    {
      if fails {
        Advance(SkipSweep(id));
      } else {
        var r := Interrupts(runs[id], now);
        Write(id, r, WriteSweep(id, r.content));
        events := events + [RunFailed];
      }
    }

    /** ListEntities for running runs. */
    method ListRunning() returns (ids: seq<RunId>)
      ensures NoRepeats(ids) && forall k :: k in ids <==> k in runs && runs[k].status.Running?
    {
      var all := ListRuns();
      ids := [];
      for i := 0 to |all|
        invariant NoRepeats(ids)
        invariant forall k :: k in ids <==> k in all[..i] && runs[k].status.Running?
      {
        assert forall k :: k in all[..i + 1] <==> k in all[..i] || k == all[i];
        if runs[all[i]].status.Running? {
          ids := ids + [all[i]];
        }
      }
      assert all[..|all|] == all;
    }

    /** A crash. */
    ghost method GoDown()
      requires Coupled()
      modifies `log, `w
      ensures old(log) <= log
      ensures Booting(RunningIn(runs))
    {
      Advance(Crash);
    }

    /** The end of the sweep. */
    ghost method ComeUp()
      requires Booting({})
      modifies `log, `w
      ensures old(log) <= log
      ensures Idle()
    {
      Advance(Serve);
    }

    /** A crash, whatever was in flight, then recovery's ReconcileRunningRuns before the service
        accepts requests: nothing is left running unless its store access failed. */
    method ReconcileRunningRuns(now: int, failing: set<RunId>) returns (ghost swept: set<RunId>)
      requires Coupled() && w.mode.Serving?
      modifies `runs, `events, `log, `w
      ensures old(log) <= log
      ensures Idle() && (old(Linked()) ==> Linked())
      ensures forall k :: k in swept <==> k in old(runs) && old(runs)[k].status.Running? && k !in failing
      ensures Swept(old(runs), runs, swept, now) && events == old(events) + Failures(|swept|)
    {
      var ids := ListRunning();
      GoDown();
      assert AllOf(ids) == RunningIn(runs);
      SweepAll(ids, now, failing);
      swept := Hit(ids, failing);
      ComeUp();
      forall k ensures RunLinked(old(runs), agents, belongs, k) ==> RunLinked(runs, agents, belongs, k) {}
    }

    /** The sweep has gone through `ids[..n]`. */
    ghost predicate Sweeps(before: map<RunId, Run>, past: seq<Event>, ids: seq<RunId>, n: nat, failing: set<RunId>,
                           now: int)
      reads this
    {
      && n <= |ids| && Booting(AllOf(ids[n..])) && Swept(before, runs, Hit(ids[..n], failing), now)
      && events == past + Failures(|Hit(ids[..n], failing)|)
    }

    method SweepNext(ids: seq<RunId>, n: nat, now: int, failing: set<RunId>, ghost before: map<RunId, Run>,
                     ghost past: seq<Event>)
      requires n < |ids| && NoRepeats(ids) && ids[n] in before && Sweeps(before, past, ids, n, failing, now)
      modifies `runs, `events, `log, `w
      ensures old(log) <= log
      ensures Sweeps(before, past, ids, n + 1, failing, now)
    {
      var id := ids[n];
      SweepStep(ids, n, failing);
      SweptStep(before, runs, Hit(ids[..n], failing), id, now);
      SweepOne(id, now, id in failing, AllOf(ids[n..]));
      if id !in failing { OneFailure(past, |Hit(ids[..n], failing)|); }
    }

    /** The loop of the sweep. */
    method SweepAll(ids: seq<RunId>, now: int, failing: set<RunId>)
      requires Booting(AllOf(ids)) && NoRepeats(ids) && forall k :: k in ids ==> k in runs
      modifies `runs, `events, `log, `w
      ensures old(log) <= log
      ensures Booting({}) && Swept(old(runs), runs, Hit(ids, failing), now)
      ensures events == old(events) + Failures(|Hit(ids, failing)|)
    {
      ghost var before, past := runs, events;
      assert ids[0..] == ids && Hit(ids[..0], failing) == {} && AllOf(ids[|ids|..]) == {};
      for n := 0 to |ids|
        invariant Sweeps(before, past, ids, n, failing, now) && old(log) <= log
      {
        SweepNext(ids, n, now, failing, before, past);
      }
      assert ids[..|ids|] == ids;
    }

    /** event_receiver.go's handleFileWritten, at any moment, also while the run executes. */
    method HandleFileWritten(id: RunId, path: string, branch: string, sha: string)
      requires Coupled() && w.mode.Serving?
      modifies `runs, `log, `w
      ensures old(log) <= log
      ensures Coupled() && (old(Idle()) ==> Idle()) && (old(Linked()) ==> Linked()) && w.execs == old(w).execs
              && w.rollbacks == old(w).rollbacks
      ensures runs == if id !in old(runs) || old(runs)[id].content.debrief == "" then old(runs)
                      else var r := old(runs)[id];
                           old(runs)[id := r.(content := r.content.(
                                                debrief := Debrief.Confirm(r.content.debrief, path, branch, sha)))]
    {
      if id !in runs || runs[id].content.debrief == "" {
        return;
      }
      var r := Confirmed(runs[id], path, branch, sha);
      if r.content.debrief == runs[id].content.debrief {
        assert r == runs[id];
        return;
      }
      Write(id, r, FileWritten(id, r.content));
      RunsStayLinked(old(runs), runs, agents, belongs, id);
    }
  }

  function Failures(n: nat): seq<Event> {
    seq(n, i => RunFailed)
  }

  lemma {:induction false} OneFailure(past: seq<Event>, n: nat)
    ensures past + Failures(n + 1) == past + Failures(n) + [RunFailed]
  {
    assert Failures(n + 1) == Failures(n) + [RunFailed];
  }

  /** The runs `swept` have been failed and nothing else has changed. */
  ghost predicate Swept(before: map<RunId, Run>, after: map<RunId, Run>, swept: set<RunId>, now: int) {
    && after.Keys == before.Keys
    && forall k :: k in before ==> after[k] == if k in swept
                                    then before[k].(status := Failed, content := before[k].content.(
                                                      error := Interrupted, completedAt := AtTime(now)))
                                    else before[k]
  }

  lemma {:induction false} SweptStep(before: map<RunId, Run>, after: map<RunId, Run>, swept: set<RunId>, id: RunId,
                                     now: int)
    requires Swept(before, after, swept, now) && id in before && id !in swept
    ensures id in after && Swept(before, after[id := Interrupts(after[id], now)], swept + {id}, now)
  {
  }

  ghost function AllOf(ids: seq<RunId>): set<RunId> {
    set k | k in ids
  }

  /** Those of `ids` whose store access works. */
  ghost function Hit(ids: seq<RunId>, failing: set<RunId>): set<RunId> {
    set k | k in ids && k !in failing
  }

  lemma {:induction false} SweepStep(ids: seq<RunId>, n: nat, failing: set<RunId>)
    requires n < |ids| && NoRepeats(ids)
    ensures AllOf(ids[n + 1..]) == AllOf(ids[n..]) - {ids[n]} && ids[n] in AllOf(ids[n..])
    ensures ids[n] !in Hit(ids[..n], failing)
    ensures Hit(ids[..n + 1], failing) == Hit(ids[..n], failing) + (if ids[n] in failing then {} else {ids[n]})
    ensures |Hit(ids[..n + 1], failing)| == |Hit(ids[..n], failing)| + if ids[n] in failing then 0 else 1
  {
    assert ids[..n + 1] == ids[..n] + [ids[n]] && ids[n..] == [ids[n]] + ids[n + 1..];
  }

  /** At `at` stands the start of a session of `id`. */
  ghost predicate Begun(id: RunId, l: Lineage, evs: seq<Event>, at: nat, agentId: nat) {
    at < |evs| && evs[at] == StartEvent(id, l, agentId)
  }

  lemma {:induction false} AppendedStays(past: seq<Event>, e: Event, told: seq<Event>, evs: seq<Event>)
    requires told == past + [e] && told <= evs
    ensures past <= evs && |past| < |evs| && evs[|past|] == e
  {
    assert evs[|past|] == told[|past|];
  }

  /** Only the first of `segs` was there before, and no other run has changed. */
  ghost predicate Spread(before: map<RunId, Run>, after: map<RunId, Run>, segs: seq<RunId>) {
    && |segs| >= 1 && segs[0] in before && segs[0] in after
    && after[segs[0]].lineage == before[segs[0]].lineage && after[segs[0]].segment == before[segs[0]].segment
    && (before[segs[0]].chain != NO_CHAIN ==> after[segs[0]].chain == before[segs[0]].chain)
    && (forall k :: Untouched(before, after, segs, k))
    && (forall i :: 1 <= i < |segs| ==> segs[i] in after && segs[i] !in before)
  }

  /** Nothing happens to a run outside `segs`, nor to the presence of any. */
  ghost predicate Untouched(before: map<RunId, Run>, after: map<RunId, Run>, segs: seq<RunId>, k: RunId)
    requires |segs| >= 1
  {
    && (k in before ==> k in after && (k != segs[0] ==> after[k] == before[k]))
    && (k in after && k !in before ==> k in segs)
  }

  /** Earlier segments do not change, so what was replayed stays what is stored. */
  lemma {:induction false} ReplaysPersist(runs: map<RunId, Run>, runs': map<RunId, Run>, id: RunId, user: string,
                                          msgs: seq<Message>)
    requires id in runs && id in runs' && runs[id].segment >= 1
    requires runs'[id].segment == runs[id].segment
    requires runs'[id].chain == runs[id].chain || runs[id].segment == 1
    requires forall k :: k in runs && k != id ==> k in runs' && runs'[k] == runs[k]
    requires Replays(runs, runs[id].chain, runs[id].segment, user, msgs)
    ensures Replays(runs', runs'[id].chain, runs'[id].segment, user, msgs)
  {
    forall n | 1 <= n < runs'[id].segment ensures ReplaysSegment(runs', runs'[id].chain, n, msgs) {
      assert ReplaysSegment(runs, runs[id].chain, n, msgs);
    }
  }

  lemma {:induction false} SwitchEdge(uses: seq<Edge>, id: nat, provider: nat, n: nat)
    requires FromBelow(uses, n) && id < n
    ensures var es := Without(uses, id) + [Edge(id, provider)];
            && FromBelow(es, n) && Targets(es, id) == [provider]
            && forall other: nat :: other != id ==> Targets(es, other) == Targets(uses, other)
  {
    WithoutStaysBelow(uses, id, n);
    forall other: nat
      ensures Targets(Without(uses, id) + [Edge(id, provider)], other) == if other == id then [provider]
              else Targets(uses, other)
    {
      TargetsWithout(uses, id, other);
      TargetsSnoc(Without(uses, id), Edge(id, provider), other);
    }
  }

  lemma {:induction false} SwitchKeepsLinks(agents: map<nat, Agent>, agents': map<nat, Agent>, providers: set<nat>,
                                            uses: seq<Edge>, id: nat, provider: nat)
    requires agents.Keys == agents'.Keys && provider in providers
    ensures AgentsLinked(agents, providers, uses) ==>
            AgentsLinked(agents', providers, Without(uses, id) + [Edge(id, provider)])
  {
    forall a | a in agents && LinkedTo(uses, a, providers)
      ensures LinkedTo(Without(uses, id) + [Edge(id, provider)], a, providers)
    {
      TargetsWithout(uses, id, a);
      TargetsSnoc(Without(uses, id), Edge(id, provider), a);
      assert Targets(Without(uses, id) + [Edge(id, provider)], a) == if a == id then [provider] else Targets(uses, a);
    }
  }

  lemma {:induction false} UnusedProvider(agents: map<nat, Agent>, providers: set<nat>, uses: seq<Edge>, id: nat)
    requires !PointsTo(uses, id)
    ensures AgentsLinked(agents, providers, uses) ==> AgentsLinked(agents, providers - {id}, uses)
  {
    forall a | a in agents && LinkedTo(uses, a, providers) ensures LinkedTo(uses, a, providers - {id}) {
      assert Targets(uses, a)[0] in Targets(uses, a);
      if Targets(uses, a)[0] == id { TargetsPointTo(uses, a, id); }
    }
  }
}
