/** Decomposing the rest of the work when the session budget is spent (planner.go,
    autoDecompose after its model call). */
module Planner {
  import opened Dispatch

  const NO_PLAN := TodoPayload(Text(""), Text(""), Text(""), Text(""), [])

  predicate Usable(d: Decoded, decode: Fields -> TodoResult) {
    d.topic == TODO_CREATED && decode(FieldsIn(d)).Todo?
  }

  /** Ids the model left blank are filled in; what it wrote is kept. */
  ghost predicate FilledFrom(p: TodoPayload, q: TodoPayload, o: Origin) {
    && p.items == q.items
    && p.parent == (if q.parent == Text("") then Text(o.task) else q.parent)
    && p.run == (if q.run == Text("") then Ref(o.run) else q.run)
    && p.agent == (if q.agent == Text("") then Ref(o.agent) else q.agent)
    && p.workflow == (if q.workflow == Text("") then Text(o.workflow) else q.workflow)
  }

  /** The plan is the first decodable todo.created with its blanks filled, or none. */
  ghost predicate PlanFrom(ds: seq<Decoded>, decode: Fields -> TodoResult, o: Origin, p: TodoPayload) {
    || (p == TodoPayload(Text(""), Text(""), Text(""), Text(""), [])
        && forall i :: 0 <= i < |ds| ==> !Usable(ds[i], decode))
    || (exists i :: 0 <= i < |ds| && Usable(ds[i], decode) && (forall j :: 0 <= j < i ==> !Usable(ds[j], decode))
                    && FilledFrom(p, decode(FieldsIn(ds[i])).payload, o))
  }

  method FillPlan(ds: seq<Decoded>, decode: Fields -> TodoResult, o: Origin) returns (p: TodoPayload)
    ensures PlanFrom(ds, decode, o, p)
  {
    for i := 0 to |ds|
      invariant forall j :: 0 <= j < i ==> !Usable(ds[j], decode)
    {
      if ds[i].topic == TODO_CREATED {
        match decode(FieldsIn(ds[i])) {
          case Undecodable =>
          case Todo(payload) =>
            p := payload;
            if p.parent == Text("") { p := p.(parent := Text(o.task)); }
            if p.run == Text("") { p := p.(run := Ref(o.run)); }
            if p.agent == Text("") { p := p.(agent := Ref(o.agent)); }
            if p.workflow == Text("") { p := p.(workflow := Text(o.workflow)); }
            return;
        }
      }
    }
    return NO_PLAN;
  }

  /** There is only one such plan. */
  lemma {:induction false} PlanIsUnique(ds: seq<Decoded>, decode: Fields -> TodoResult, o: Origin, p: TodoPayload,
                                        q: TodoPayload)
    requires PlanFrom(ds, decode, o, p) && PlanFrom(ds, decode, o, q)
    ensures p == q
  {
    if i, j :| 0 <= i < |ds| && 0 <= j < |ds| && Usable(ds[i], decode) && Usable(ds[j], decode)
              && (forall k :: 0 <= k < i ==> !Usable(ds[k], decode))
              && (forall k :: 0 <= k < j ==> !Usable(ds[k], decode))
              && FilledFrom(p, decode(FieldsIn(ds[i])).payload, o)
              && FilledFrom(q, decode(FieldsIn(ds[j])).payload, o) {
      assert i == j;
    }
  }
}
