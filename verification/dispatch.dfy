/** Publishing the actions a model asked for, and the debrief of what was published
    (execute.go dispatchActions, writeRunDebrief, normalizeTodoCreatedPayload).

    Payload maps are objects: the dispatch loop edits some of them in place, and the debrief
    is written from the same list of actions afterwards. */
module Dispatch {
  import opened Text
  import opened Debrief

  /** A JSON value; ids the service itself fills in are `Ref`. */
  datatype Value = Text(s: string) | Ref(id: nat) | Items(items: seq<string>) | Opaque(n: nat)

  type Fields = map<string, Value>

  class Payload {
    var fields: Fields

    constructor (fields: Fields)
      ensures this.fields == fields
    {
      this.fields := fields;
    }
  }

  datatype Action = Action(topic: string, payload: Payload?)

  /** An action as decoded from JSON, where a payload may be absent. */
  datatype Decoded = Bare(topic: string) | Full(topic: string, fields: Fields)

  datatype Published = Published(topic: string, fields: Fields)

  const TODO_CREATED := "todo.created"
  const REQUEST_SPLIT := "task.request-split"
  const REQUEST_DECOMPOSE := "task.request-decompose"
  const FILE_WRITE := "git.file.write"
  const BRANCH_CREATE := "git.branch.create"

  /** The run on whose behalf actions are published. */
  datatype Origin = Origin(task: string, run: nat, agent: nat, workflow: string)

  datatype TodoPayload = TodoPayload(parent: Value, run: Value, agent: Value, workflow: Value, items: seq<string>)

  datatype TodoResult = Undecodable | Todo(payload: TodoPayload)

  function Encode(p: TodoPayload): Fields {
    map["parent_task_id" := p.parent, "run_id" := p.run, "agent_id" := p.agent, "todos" := Items(p.items)]
    + (if p.workflow != Text("") then map["workflow_run_id" := p.workflow] else map[])
  }

  ghost function FieldsOf(p: Payload?): Fields
    reads p
  {
    if p == null then map[] else p.fields
  }

  function Word(f: Fields, key: string): string {
    if key in f && f[key].Text? then f[key].s else ""
  }

  /** The debrief line of an action. */
  function LineOf(topic: string, f: Fields): Line {
    if topic == FILE_WRITE then FileWrite(Word(f, "path"), Word(f, "branch_name"), Dispatched)
    else if topic == BRANCH_CREATE then BranchCreate(Word(f, "name"), Word(f, "repository"))
    else Other(topic)
  }

  function FieldsIn(d: Decoded): Fields {
    if d.Bare? then map[] else d.fields
  }

  function Lines(ds: seq<Decoded>): (lines: seq<Line>)
    ensures |lines| == |ds|
    ensures forall i :: 0 <= i < |ds| ==> lines[i] == LineOf(ds[i].topic, FieldsIn(ds[i]))
  {
    seq(|ds|, i requires 0 <= i < |ds| => LineOf(ds[i].topic, FieldsIn(ds[i])))
  }

  /** The non-empty paths of the file-write lines, in order. */
  function WritePaths(lines: seq<Line>): seq<string> {
    if lines == [] then []
    else
      var l := lines[|lines| - 1];
      WritePaths(lines[..|lines| - 1]) + (if l.FileWrite? && l.path != "" then [l.path] else [])
  }

  predicate Defers(topic: string) {
    topic == TODO_CREATED || topic == REQUEST_SPLIT || topic == REQUEST_DECOMPOSE
  }

  // ---- what is read off the actions ------------------------------------------

  /** The text under a key of the payload, and none when the key is missing or holds no text. */
  ghost predicate Reads(d: Decoded, key: string, word: string) {
    if d.Full? && key in d.fields && d.fields[key].Text? then d.fields[key] == Text(word) else word == ""
  }

  /** The debrief's words on one action. */
  ghost predicate Tells(line: string, d: Decoded) {
    if d.topic == "git.file.write" then
      exists path, branch :: Reads(d, "path", path) && Reads(d, "branch_name", branch)
                             && line == "- `git.file.write` path=`" + path + "` branch=`" + branch
                                        + "` [dispatched]\n"
    else if d.topic == "git.branch.create" then
      exists name, repo :: Reads(d, "name", name) && Reads(d, "repository", repo)
                           && line == "- `git.branch.create` name=`" + name + "` repo=`" + repo
                                      + "` [dispatched]\n"
    else line == "- `" + d.topic + "` [dispatched]\n"
  }

  lemma {:induction false} WordIsRead(d: Decoded, key: string)
    ensures Reads(d, key, Word(FieldsIn(d), key))
  {
  }

  lemma {:induction false} LineTells(d: Decoded)
    ensures Tells(LineText(LineOf(d.topic, FieldsIn(d))), d)
  {
    WordIsRead(d, "path");
    WordIsRead(d, "branch_name");
    WordIsRead(d, "name");
    WordIsRead(d, "repository");
    var f := FieldsIn(d);
    DispatchedReads(Word(f, "path"), Word(f, "branch_name"));
    BranchReads(Word(f, "name"), Word(f, "repository"));
    OtherReads(d.topic);
  }

  ghost predicate AllTold(words: seq<string>, ds: seq<Decoded>) {
    |words| == |ds| && forall i :: 0 <= i < |ds| ==> Tells(words[i], ds[i])
  }

  lemma {:induction false} OneMoreWord(words: seq<string>, word: string)
    ensures "## Actions Dispatched\n" + Concat(words) + word == "## Actions Dispatched\n" + Concat(words + [word])
  {
    assert (words + [word])[..|words|] == words;
  }

  lemma {:induction false} OneMoreTold(words: seq<string>, ds: seq<Decoded>, word: string, d: Decoded)
    requires AllTold(words, ds) && Tells(word, d)
    ensures AllTold(words + [word], ds + [d])
  {
  }

  /** A heading and, for each action in order, a line telling of it. */
  ghost predicate DebriefOf(text: string, ds: seq<Decoded>) {
    exists words :: AllTold(words, ds) && text == "## Actions Dispatched\n" + Concat(words)
  }

  lemma {:induction false} OneMoreLine(text: string, ds: seq<Decoded>, word: string, d: Decoded)
    requires DebriefOf(text, ds) && Tells(word, d)
    ensures DebriefOf(text + word, ds + [d])
  {
    var words :| AllTold(words, ds) && text == "## Actions Dispatched\n" + Concat(words);
    OneMoreWord(words, word);
    OneMoreTold(words, ds, word, d);
  }

  lemma {:induction false} HeaderAlone()
    ensures DebriefOf(HEADER, [])
  {
    assert AllTold([], []) && HEADER + Concat([]) == HEADER;
  }

  lemma {:induction false} DebriefTells(ds: seq<Decoded>)
    ensures DebriefOf(Render(Lines(ds)), ds)
  {
    if ds == [] {
      HeaderAlone();
    } else {
      var front, last := ds[..|ds| - 1], ds[|ds| - 1];
      DebriefTells(front);
      LineTells(last);
      OneMoreLine(Render(Lines(front)), front, LineText(LineOf(last.topic, FieldsIn(last))), last);
      assert Lines(ds)[..|front|] == Lines(front) && front + [last] == ds;
    }
  }

  /** The emitted writes: the non-empty path of each file write, in order. */
  lemma {:induction false} WritesAreAsked(ds: seq<Decoded>, d: Decoded, path: string)
    requires Reads(d, "path", path)
    ensures WritePaths(Lines([])) == []
    ensures WritePaths(Lines(ds + [d]))
            == WritePaths(Lines(ds)) + (if d.topic == "git.file.write" && path != "" then [path] else [])
  {
    assert Lines(ds + [d])[..|ds|] == Lines(ds);
  }

  /** What an observer of the published event may rely on, given what the model wrote. */
  ghost predicate Announces(p: Published, d: Decoded, o: Origin, decode: Fields -> TodoResult) {
    && p.topic == d.topic
    && (d.topic == FILE_WRITE ==> p.fields == FieldsIn(d)["run_id" := Ref(o.run)])
    && (d.topic == TODO_CREATED && o.task != "" ==>
          match decode(FieldsIn(d))
          case Undecodable => p.fields == FieldsIn(d)
          case Todo(payload) =>
            p.fields == Encode(TodoPayload(Text(o.task), Ref(o.run), Ref(o.agent), Text(o.workflow), payload.items)))
    && ((d.topic == REQUEST_SPLIT || d.topic == REQUEST_DECOMPOSE) && o.task != "" ==>
          p.fields == FieldsIn(d)["task_id" := Text(o.task)]
                      + (if o.workflow != "" then map["workflow_run_id" := Text(o.workflow)] else map[]))
    && (d.topic != FILE_WRITE && !(Defers(d.topic) && o.task != "") ==> p.fields == FieldsIn(d))
  }

  /** Whatever ids the model put into a todo.created, the run's own are published. */
  lemma {:induction false} TodosCarryOwnIds(p: Published, d: Decoded, o: Origin, decode: Fields -> TodoResult)
    requires Announces(p, d, o, decode) && d.topic == TODO_CREATED && o.task != "" && decode(FieldsIn(d)).Todo?
    ensures "parent_task_id" in p.fields && p.fields["parent_task_id"] == Text(o.task)
    ensures "run_id" in p.fields && p.fields["run_id"] == Ref(o.run)
    ensures "agent_id" in p.fields && p.fields["agent_id"] == Ref(o.agent)
    ensures "workflow_run_id" in p.fields <==> o.workflow != ""
    ensures o.workflow != "" ==> p.fields["workflow_run_id"] == Text(o.workflow)
    ensures "todos" in p.fields && p.fields["todos"] == Items(decode(FieldsIn(d)).payload.items)
  {
    assert Text(o.workflow) != Text("") <==> o.workflow != "";
  }

  /** The actions are the decoded ones, each payload a map of its own. */
  ghost predicate Matches(actions: seq<Action>, ds: seq<Decoded>) {
    && |actions| == |ds|
    && (forall i :: 0 <= i < |ds| ==>
          actions[i].topic == ds[i].topic && (actions[i].payload == null <==> ds[i].Bare?))
    && (forall i, j :: 0 <= i < j < |actions| && actions[i].payload != null ==>
          actions[i].payload != actions[j].payload)
  }

  /** json.Unmarshal builds a new map for every payload. */
  method Materialise(ds: seq<Decoded>) returns (actions: seq<Action>)
    ensures Matches(actions, ds) && EditedUpTo(actions, ds, 0)
    ensures forall i :: 0 <= i < |actions| && actions[i].payload != null ==> fresh(actions[i].payload)
  {
    actions := [];
    for i := 0 to |ds|
      invariant |actions| == i
      invariant forall j :: 0 <= j < i ==>
                  && actions[j].topic == ds[j].topic && (actions[j].payload == null <==> ds[j].Bare?)
                  && FieldsOf(actions[j].payload) == FieldsIn(ds[j])
      invariant forall j :: 0 <= j < i && actions[j].payload != null ==> fresh(actions[j].payload)
      invariant forall j, k :: 0 <= j < k < i && actions[j].payload != null ==> actions[j].payload != actions[k].payload
    {
      var p: Payload? := null;
      if ds[i].Full? {
        p := new Payload(ds[i].fields);
      }
      actions := actions + [Action(ds[i].topic, p)];
    }
  }

  /** In-place edits that leave what the debrief reads alone. */
  ghost predicate SameWords(f: Fields, g: Fields) {
    && Word(f, "path") == Word(g, "path") && Word(f, "branch_name") == Word(g, "branch_name")
    && Word(f, "name") == Word(g, "name") && Word(f, "repository") == Word(g, "repository")
  }

  /** One turn of the dispatch loop. */
  method PublishOne(a: Action, o: Origin, decode: Fields -> TodoResult, ghost d: Decoded)
    returns (p: Published, hasSubtasks: bool, path: string)
    requires a.topic == d.topic && (a.payload == null <==> d.Bare?) && FieldsOf(a.payload) == FieldsIn(d)
    modifies a.payload
    ensures Announces(p, d, o, decode)
    ensures hasSubtasks <==> o.task != "" && Defers(a.topic)
    ensures path == if a.topic == FILE_WRITE then Word(FieldsIn(d), "path") else ""
    ensures SameWords(FieldsOf(a.payload), FieldsIn(d))
  {
    var current := a.payload;
    hasSubtasks, path := false, "";
    if a.topic == TODO_CREATED && o.task != "" {
      match decode(if current == null then map[] else current.fields) {
        case Undecodable =>
        case Todo(payload) =>
          current := new Payload(Encode(payload.(parent := Text(o.task), run := Ref(o.run), agent := Ref(o.agent),
                                                 workflow := Text(o.workflow))));
      }
      hasSubtasks := true;
    }
    if (a.topic == REQUEST_SPLIT || a.topic == REQUEST_DECOMPOSE) && o.task != "" {
      if current == null {
        current := new Payload(map[]);
      }
      current.fields := current.fields["task_id" := Text(o.task)];
      if o.workflow != "" {
        current.fields := current.fields["workflow_run_id" := Text(o.workflow)];
      }
      hasSubtasks := true;
    }
    if a.topic == FILE_WRITE {
      if current == null {
        current := new Payload(map[]);
      }
      current.fields := current.fields["run_id" := Ref(o.run)];
      path := Word(current.fields, "path");
    }
    p := Published(a.topic, if current == null then map[] else current.fields);
  }

  /** writeRunDebrief: one line for each action, from the payloads as they are by now. */
  method WriteRunDebrief(actions: seq<Action>, ghost lines: seq<Line>) returns (text: string)
    requires |lines| == |actions|
    requires forall i :: 0 <= i < |actions| ==> LineOf(actions[i].topic, FieldsOf(actions[i].payload)) == lines[i]
    ensures text == Render(lines)
  {
    text := HEADER;
    for i := 0 to |actions|
      invariant text == Render(lines[..i])
    {
      var f := if actions[i].payload == null then map[] else actions[i].payload.fields;
      text := text + LineText(LineOf(actions[i].topic, f));
      assert lines[..i + 1][..i] == lines[..i];
    }
    assert lines[..|actions|] == lines;
  }

  ghost predicate AllAnnounced(ps: seq<Published>, ds: seq<Decoded>, o: Origin, decode: Fields -> TodoResult) {
    |ps| == |ds| && forall i :: 0 <= i < |ds| ==> Announces(ps[i], ds[i], o, decode)
  }

  /** Some action hands work on to other tasks or todos. */
  ghost predicate HandsOn(ds: seq<Decoded>) {
    exists i :: 0 <= i < |ds| && Defers(ds[i].topic)
  }

  lemma {:induction false} HandsOnTopics(ds: seq<Decoded>)
    ensures HandsOn(ds) <==>
            exists i :: 0 <= i < |ds|
                        && ds[i].topic in ["todo.created", "task.request-split", "task.request-decompose"]
  {
    if HandsOn(ds) {
      var i :| 0 <= i < |ds| && Defers(ds[i].topic);
      assert ds[i].topic in [TODO_CREATED, REQUEST_SPLIT, REQUEST_DECOMPOSE];
    }
    forall i | 0 <= i < |ds| && ds[i].topic in [TODO_CREATED, REQUEST_SPLIT, REQUEST_DECOMPOSE]
      ensures Defers(ds[i].topic)
    {
    }
  }

  lemma {:induction false} OneMore(ps: seq<Published>, ds: seq<Decoded>, n: nat, p: Published, o: Origin,
                                   decode: Fields -> TodoResult)
    requires n < |ds| && AllAnnounced(ps, ds[..n], o, decode) && Announces(p, ds[n], o, decode)
    ensures AllAnnounced(ps + [p], ds[..n + 1], o, decode)
    ensures HandsOn(ds[..n + 1]) <==> HandsOn(ds[..n]) || Defers(ds[n].topic)
    ensures Lines(ds[..n + 1]) == Lines(ds[..n]) + [LineOf(ds[n].topic, FieldsIn(ds[n]))]
  {
    var some, more := ds[..n], ds[..n + 1];
    assert more == some + [ds[n]];
    if HandsOn(some) {
      var i :| 0 <= i < n && Defers(some[i].topic);
      assert Defers(more[i].topic);
    }
    if Defers(ds[n].topic) { assert Defers(more[n].topic); }
  }

  lemma {:induction false} PathsOneMore(lines: seq<Line>, l: Line)
    ensures WritePaths(lines + [l]) == WritePaths(lines) + (if l.FileWrite? && l.path != "" then [l.path] else [])
  {
    assert (lines + [l])[..|lines|] == lines;
  }

  /** The payloads from `n` on are as decoded; those before still read the same in a debrief. */
  ghost predicate EditedUpTo(actions: seq<Action>, ds: seq<Decoded>, n: nat)
    reads set i | 0 <= i < |actions| && actions[i].payload != null :: actions[i].payload
  {
    && |actions| == |ds|
    && (forall i :: n <= i < |ds| ==> FieldsOf(actions[i].payload) == FieldsIn(ds[i]))
    && (forall i :: 0 <= i < |ds| ==> SameWords(FieldsOf(actions[i].payload), FieldsIn(ds[i])))
  }

  /** One turn of the loop, seen from the whole list. */
  method PublishAt(actions: seq<Action>, ghost ds: seq<Decoded>, i: nat, o: Origin, decode: Fields -> TodoResult)
    returns (p: Published, hasSubtasks: bool, path: string)
    requires Matches(actions, ds) && i < |ds| && EditedUpTo(actions, ds, i)
    modifies actions[i].payload
    ensures EditedUpTo(actions, ds, i + 1)
    ensures Announces(p, ds[i], o, decode)
    ensures hasSubtasks <==> o.task != "" && Defers(ds[i].topic)
    ensures path == if ds[i].topic == FILE_WRITE then Word(FieldsIn(ds[i]), "path") else ""
  {
    p, hasSubtasks, path := PublishOne(actions[i], o, decode, ds[i]);
    assert forall j :: 0 <= j < |ds| && j != i ==> FieldsOf(actions[j].payload) == old(FieldsOf(actions[j].payload));
  }

  /** What the loop has established after some of the actions. */
  ghost predicate Done(published: seq<Published>, hasSubtasks: bool, writes: seq<string>, ds: seq<Decoded>, o: Origin,
                       decode: Fields -> TodoResult) {
    && AllAnnounced(published, ds, o, decode)
    && (hasSubtasks <==> o.task != "" && HandsOn(ds))
    && writes == WritePaths(Lines(ds))
  }

  lemma {:induction false} OneMoreDone(published: seq<Published>, hasSubtasks: bool, writes: seq<string>,
                                       ds: seq<Decoded>, n: nat, p: Published, defers: bool, path: string,
                                       o: Origin, decode: Fields -> TodoResult)
    requires n < |ds| && Done(published, hasSubtasks, writes, ds[..n], o, decode)
    requires Announces(p, ds[n], o, decode) && (defers <==> o.task != "" && Defers(ds[n].topic))
    requires path == if ds[n].topic == FILE_WRITE then Word(FieldsIn(ds[n]), "path") else ""
    ensures Done(published + [p], hasSubtasks || defers, if path != "" then writes + [path] else writes,
                 ds[..n + 1], o, decode)
  {
    OneMore(published, ds, n, p, o, decode);
    PathsOneMore(Lines(ds[..n]), LineOf(ds[n].topic, FieldsIn(ds[n])));
    assert writes + [] == writes;
  }

  /** The dispatch loop. */
  method PublishAll(actions: seq<Action>, ghost ds: seq<Decoded>, o: Origin, decode: Fields -> TodoResult)
    returns (published: seq<Published>, hasSubtasks: bool, emittedWrites: seq<string>)
    requires Matches(actions, ds) && EditedUpTo(actions, ds, 0)
    modifies set i | 0 <= i < |actions| && actions[i].payload != null :: actions[i].payload
    ensures EditedUpTo(actions, ds, |ds|)
    ensures Done(published, hasSubtasks, emittedWrites, ds, o, decode)
  {
    published, hasSubtasks, emittedWrites := [], false, [];
    for i := 0 to |actions|
      invariant Done(published, hasSubtasks, emittedWrites, ds[..i], o, decode)
      invariant EditedUpTo(actions, ds, i)
    {
      var p, defers, path := PublishAt(actions, ds, i, o, decode);
      OneMoreDone(published, hasSubtasks, emittedWrites, ds, i, p, defers, path, o, decode);
      published := published + [p];
      hasSubtasks := hasSubtasks || defers;
      if path != "" {
        emittedWrites := emittedWrites + [path];
      }
    }
    assert ds[..|ds|] == ds;
  }

  /** Every action is published once, in order; the debrief lists what the model asked for,
      untouched by the edits; the emitted writes are the paths of its file-write lines; and the
      task is held open exactly when some action hands work on. */
  method DispatchActions(ds: seq<Decoded>, o: Origin, decode: Fields -> TodoResult)
    returns (published: seq<Published>, hasSubtasks: bool, emittedWrites: seq<string>, debrief: string)
    ensures AllAnnounced(published, ds, o, decode)
    ensures hasSubtasks <==> o.task != "" && HandsOn(ds)
    ensures emittedWrites == WritePaths(Lines(ds))
    ensures debrief == Render(Lines(ds)) && DebriefOf(debrief, ds)
  {
    DebriefTells(ds);
    var actions := Materialise(ds);
    published, hasSubtasks, emittedWrites := PublishAll(actions, ds, o, decode);
    debrief := WriteRunDebrief(actions, Lines(ds));
  }
}
