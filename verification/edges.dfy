/** Relationships of the entity graph, as the store lists them (ai.go, execute.go). */
module Edges {

  datatype Edge = Edge(from: nat, to: nat)

  /** ListRelationships by source: the targets, in the order the store lists the edges. */
  function Targets(es: seq<Edge>, from: nat): seq<nat> {
    if es == [] then []
    else Targets(es[..|es| - 1], from) + (if es[|es| - 1].from == from then [es[|es| - 1].to] else [])
  }

  /** Exactly one edge leaves `from`, and it leads to something alive. */
  ghost predicate LinkedTo(es: seq<Edge>, from: nat, live: set<nat>) {
    |Targets(es, from)| == 1 && Targets(es, from)[0] in live
  }

  function Without(es: seq<Edge>, from: nat): seq<Edge> {
    if es == [] then []
    else if es[|es| - 1].from == from then Without(es[..|es| - 1], from)
    else Without(es[..|es| - 1], from) + [es[|es| - 1]]
  }

  predicate PointsTo(es: seq<Edge>, to: nat) {
    exists i :: 0 <= i < |es| && es[i].to == to
  }

  ghost predicate FromBelow(es: seq<Edge>, n: nat) {
    forall i :: 0 <= i < |es| ==> es[i].from < n
  }

  lemma {:induction false} TargetsSnoc(es: seq<Edge>, e: Edge, from: nat)
    ensures Targets(es + [e], from) == Targets(es, from) + (if e.from == from then [e.to] else [])
  {
    assert (es + [e])[..|es|] == es;
  }

  lemma {:induction false} NoTargetsAbove(es: seq<Edge>, n: nat, from: nat)
    requires FromBelow(es, n) && n <= from
    ensures Targets(es, from) == []
  {
    if es != [] {
      assert FromBelow(es[..|es| - 1], n);
      NoTargetsAbove(es[..|es| - 1], n, from);
    }
  }

  lemma {:induction false} TargetsWithout(es: seq<Edge>, gone: nat, from: nat)
    ensures Targets(Without(es, gone), from) == if from == gone then [] else Targets(es, from)
  {
    if es != [] {
      var front, last := es[..|es| - 1], es[|es| - 1];
      TargetsWithout(front, gone, from);
      if last.from != gone { TargetsSnoc(Without(front, gone), last, from); }
    }
  }

  lemma {:induction false} WithoutStaysBelow(es: seq<Edge>, gone: nat, n: nat)
    requires FromBelow(es, n)
    ensures FromBelow(Without(es, gone), n)
  {
    if es != [] {
      assert FromBelow(es[..|es| - 1], n);
      WithoutStaysBelow(es[..|es| - 1], gone, n);
    }
  }

  lemma {:induction false} TargetsPointTo(es: seq<Edge>, from: nat, to: nat)
    requires to in Targets(es, from)
    ensures PointsTo(es, to)
  {
    var front := es[..|es| - 1];
    if to in Targets(front, from) {
      TargetsPointTo(front, from, to);
      var i :| 0 <= i < |front| && front[i].to == to;
      assert es[i].to == to;
    } else {
      assert es[|es| - 1].to == to;
    }
  }

  lemma {:induction false} OnlyTarget(es: seq<Edge>, e: Edge)
    requires Targets(es, e.from) == []
    ensures Targets(es + [e], e.from) == [e.to]
  {
    TargetsSnoc(es, e, e.from);
    assert [] + [e.to] == [e.to];
  }

  /** Adding an edge disturbs no other source and links a source that had none. */
  lemma {:induction false} LinkOne(es: seq<Edge>, e: Edge, live: set<nat>)
    ensures forall from: nat :: from != e.from ==> (LinkedTo(es + [e], from, live) <==> LinkedTo(es, from, live))
    ensures Targets(es, e.from) == [] && e.to in live ==> LinkedTo(es + [e], e.from, live)
  {
    forall from: nat ensures Targets(es + [e], from) == Targets(es, from) + (if e.from == from then [e.to] else []) {
      TargetsSnoc(es, e, from);
    }
    assert [] + [e.to] == [e.to];
  }

  /** Every target is an edge's. */
  lemma {:induction false} TargetsAreEdges(es: seq<Edge>, from: nat, to: nat)
    requires forall e :: e in es ==> e.to < to
    ensures to !in Targets(es, from)
  {
    if es != [] {
      assert es[|es| - 1] in es;
      TargetsAreEdges(es[..|es| - 1], from, to);
    }
  }

  lemma {:induction false} TargetsSnocAll(es: seq<Edge>, e: Edge)
    ensures Targets(es + [e], e.from) == Targets(es, e.from) + [e.to]
    ensures forall k: nat :: k != e.from ==> Targets(es + [e], k) == Targets(es, k)
  {
    TargetsSnoc(es, e, e.from);
    forall k: nat | k != e.from ensures Targets(es + [e], k) == Targets(es, k) {
      TargetsSnoc(es, e, k);
    }
  }
}
