/**
 * The dynamic computation graph and the bookkeeping of single-input units
 * (SingleInputFunction).
 *
 * Value nodes (NdArray) and units (Function) are records in one arena and refer
 * to each other by index: a node names the unit that produced it, and every unit
 * keeps a LIFO stack of the input tuples it was called with (PrevInputs).
 */
module Graph {
  import opened Common

  type NodeId = nat
  type UnitId = nat

  /** A value node: its data, its lazily allocated gradient, the unit that
      produced it (None for an input supplied by the caller) and its fan-out
      counter UseCount. */
  datatype Node = Node(data: seq<real>, grad: Option<seq<real>>, producer: Option<UnitId>, useCount: int)

  /** The capability of a unit that layer fusion (Compress) looks at. */
  datatype Kind = CompressibleFunction | CompressibleActivation | Plain

  /** A single-input unit as the graph sees it: its capability, its forward rule
      (SingleInputForward), an optional override of Predict, and its derivative
      rule (SingleOutputBackward), which yields the input's new gradient from the
      output node and the input node. */
  datatype Unit = Unit(
    kind: Kind,
    forward: seq<real> -> seq<real>,
    predictOverride: Option<seq<real> -> seq<real>>,
    backward: (Node, Node) -> seq<real>)

  /** How a unit's Backward ends: normally, on an empty PrevInputs stack (the
      list index -1 throws), or on an input tuple of the wrong arity (the DEBUG
      check, or xs[0] on an empty tuple). */
  datatype Outcome = Ok | Underflow | BadArity

  /** What forward and backward passes change: the nodes and every unit's PrevInputs. */
  datatype Snapshot = Snapshot(nodes: seq<Node>, prevInputs: seq<seq<seq<NodeId>>>)

  /** Every unit has a stack, and every index stored in the snapshot names an existing record. */
  ghost predicate WellFormed(s: Snapshot, unitCount: nat)
  {
    && |s.prevInputs| == unitCount
    && (forall n :: 0 <= n < |s.nodes| && s.nodes[n].producer.Some? ==> s.nodes[n].producer.value < unitCount)
    && (forall u, e, k :: 0 <= u < |s.prevInputs| && 0 <= e < |s.prevInputs[u]| && 0 <= k < |s.prevInputs[u][e]|
          ==> s.prevInputs[u][e][k] < |s.nodes|)
  }

  ghost predicate NodesIn(xs: seq<NodeId>, nodeCount: nat)
  {
    forall k :: 0 <= k < |xs| ==> xs[k] < nodeCount
  }

  /** The gradient buffer the derivative rule accumulates into: the existing one,
      or a zero buffer of the data's shape when none was allocated yet (ClearGrad). */
  function Allocated(x: Node): seq<real>
  {
    if x.grad.Some? then x.grad.value else Zeros(|x.data|)
  }

  /** SingleInputFunction.Forward: push the tuple, count one more use of its first
      node, and create the output node that this unit produced. Returns the new
      snapshot and the output node. */
  function Forwarded(units: seq<Unit>, s: Snapshot, u: UnitId, xs: seq<NodeId>): (r: (Snapshot, NodeId))
    requires WellFormed(s, |units|) && u < |units|
    requires |xs| >= 1 && NodesIn(xs, |s.nodes|)
    ensures WellFormed(r.0, |units|) && |r.0.nodes| == |s.nodes| + 1 && r.1 == |s.nodes|
  {
    var x := s.nodes[xs[0]];
    var nodes := s.nodes[xs[0] := x.(useCount := x.useCount + 1)];
    var y := Node(units[u].forward(x.data), None, Some(u), 0);
    (Snapshot(nodes + [y], s.prevInputs[u := s.prevInputs[u] + [xs]]), |s.nodes|)
  }

  /** SingleInputFunction.Backward(y) on unit u: pop the most recent tuple, then
      (unless its arity is wrong) count one use less of its first node, allocate
      that node's gradient if it has none, and let the derivative rule update it. */
  function Popped(units: seq<Unit>, debug: bool, s: Snapshot, u: UnitId, y: NodeId): (r: (Snapshot, Outcome))
    requires WellFormed(s, |units|) && u < |units| && y < |s.nodes|
    ensures WellFormed(r.0, |units|) && |r.0.nodes| == |s.nodes|
    ensures r.1 == Underflow <==> s.prevInputs[u] == []
    ensures r.1 == Underflow ==> r.0 == s
    ensures r.1 != Underflow ==> Total(r.0.prevInputs) + 1 == Total(s.prevInputs)
    ensures forall n :: 0 <= n < |s.nodes| ==> r.0.nodes[n].producer == s.nodes[n].producer
  {
    var stack := s.prevInputs[u];
    if |stack| == 0 then (s, Underflow)
    else
      var xs := Last(stack);
      var s1 := s.(prevInputs := s.prevInputs[u := DropLast(stack)]);
      TotalUpdate(s.prevInputs, u, DropLast(stack));
      if |xs| == 0 || (debug && |xs| != 1) then (s1, BadArity)
      else
        var x := s.nodes[xs[0]];
        var x1 := x.(useCount := x.useCount - 1, grad := Some(Allocated(x)));
        var nodes1 := s.nodes[xs[0] := x1];
        var x2 := x1.(grad := Some(units[u].backward(nodes1[y], x1)));
        (s1.(nodes := s.nodes[xs[0] := x2]), Ok)
  }

  /** SingleInputFunction.Predict: the unit's own Predict if it overrides it,
      otherwise its forward rule. It only computes: no stack, no use count. */
  function Predict(units: seq<Unit>, u: UnitId, x: seq<real>): seq<real>
    requires u < |units|
  {
    match units[u].predictOverride
    case Some(p) => p(x)
    case None => units[u].forward(x)
  }

  /** The arena: the heap of nodes and units that forward and backward passes
      mutate, with every unit's PrevInputs stack and every fusable unit's
      attached activation (SetActivation). */
  class Arena {
    const units: seq<Unit>
    /** Whether the library was built with DEBUG, which adds the arity check. */
    const debug: bool
    var nodes: seq<Node>
    var prevInputs: seq<seq<seq<NodeId>>>
    var activation: seq<Option<UnitId>>

    ghost predicate Valid()
      reads this
    {
      WellFormed(State(), |units|) && |activation| == |units|
    }

    function State(): Snapshot
      reads this
    {
      Snapshot(nodes, prevInputs)
    }

    constructor (units: seq<Unit>, debug: bool)
      ensures Valid() && this.units == units && this.debug == debug
      ensures nodes == []
      ensures prevInputs == seq(|units|, _ => [])
      ensures activation == seq(|units|, _ => None)
    {
      this.units := units;
      this.debug := debug;
      nodes := [];
      prevInputs := seq(|units|, _ => []);
      activation := seq(|units|, _ => None);
    }

    /** A value supplied by the caller: a node with no producer and no uses. */
    method AddInput(data: seq<real>) returns (x: NodeId)
      requires Valid()
      modifies this`nodes
      ensures Valid()
      ensures x == |old(nodes)| && nodes == old(nodes) + [Node(data, None, None, 0)]
    {
      x := |nodes|;
      nodes := nodes + [Node(data, None, None, 0)];
    }

    /** SingleInputFunction.Forward. */
    method Forward(u: UnitId, xs: seq<NodeId>) returns (y: NodeId)
      requires Valid() && u < |units|
      requires |xs| >= 1 && NodesIn(xs, |nodes|)
      modifies this`nodes, this`prevInputs
      ensures Valid()
      ensures (State(), y) == Forwarded(units, old(State()), u, xs)
    {
      prevInputs := prevInputs[u := prevInputs[u] + [xs]];
      var x := nodes[xs[0]];
      nodes := nodes[xs[0] := x.(useCount := x.useCount + 1)];
      y := |nodes|;
      nodes := nodes + [Node(units[u].forward(x.data), None, Some(u), 0)];
    }

    /** SingleInputFunction.Backward, called with the output node y. */
    method Backward(u: UnitId, y: NodeId) returns (out: Outcome)
      requires Valid() && u < |units| && y < |nodes|
      modifies this`nodes, this`prevInputs
      ensures Valid()
      ensures (State(), out) == Popped(units, debug, old(State()), u, y)
    {
      if |prevInputs[u]| == 0 {
        return Underflow;
      }
      var xs := prevInputs[u][|prevInputs[u]| - 1];
      prevInputs := prevInputs[u := prevInputs[u][..|prevInputs[u]| - 1]];
      if |xs| == 0 || (debug && |xs| != 1) {
        return BadArity;
      }
      var x := nodes[xs[0]];
      x := x.(useCount := x.useCount - 1);
      if x.grad == None {
        x := x.(grad := Some(Zeros(|x.data|)));
      }
      nodes := nodes[xs[0] := x];
      nodes := nodes[xs[0] := x.(grad := Some(units[u].backward(nodes[y], x)))];
      out := Ok;
      assert Popped(units, debug, old(State()), u, y).0.nodes == nodes;
    }

    /** CompressibleFunction.SetActivation: attach an activation to a fusable unit. */
    method SetActivation(f: UnitId, a: UnitId)
      requires Valid() && f < |units|
      modifies this`activation
      ensures Valid()
      ensures activation == old(activation)[f := Some(a)]
    {
      activation := activation[f := Some(a)];
    }
  }

  // ---------------------------------------------------------------------------
  // Properties of the single-input push/pop discipline

  /** Forward pushes exactly the given tuple on the unit's stack and leaves every other stack alone. */
  lemma ForwardPushesTuple(units: seq<Unit>, s: Snapshot, u: UnitId, xs: seq<NodeId>)
    requires WellFormed(s, |units|) && u < |units| && |xs| >= 1 && NodesIn(xs, |s.nodes|)
    ensures var r := Forwarded(units, s, u, xs).0;
      && |r.prevInputs[u]| == |s.prevInputs[u]| + 1 && Last(r.prevInputs[u]) == xs
      && DropLast(r.prevInputs[u]) == s.prevInputs[u]
      && (forall v :: 0 <= v < |units| && v != u ==> r.prevInputs[v] == s.prevInputs[v])
      && Total(r.prevInputs) == Total(s.prevInputs) + 1
  {
    var r := Forwarded(units, s, u, xs).0;
    TotalUpdate(s.prevInputs, u, s.prevInputs[u] + [xs]);
    assert DropLast(r.prevInputs[u]) == s.prevInputs[u];
  }

  /** Forward counts one use of the tuple's first node and of no other node, and
      returns a fresh node, produced by this unit, with no uses and no gradient,
      holding the forward rule applied to the first input's data. */
  lemma ForwardCountsOneUse(units: seq<Unit>, s: Snapshot, u: UnitId, xs: seq<NodeId>)
    requires WellFormed(s, |units|) && u < |units| && |xs| >= 1 && NodesIn(xs, |s.nodes|)
    ensures var (r, y) := Forwarded(units, s, u, xs);
      && |r.nodes| == |s.nodes| + 1 && y == |s.nodes|
      && r.nodes[xs[0]].useCount == s.nodes[xs[0]].useCount + 1
      && (forall n :: 0 <= n < |s.nodes| && n != xs[0] ==> r.nodes[n] == s.nodes[n])
      && r.nodes[xs[0]].data == s.nodes[xs[0]].data && r.nodes[xs[0]].grad == s.nodes[xs[0]].grad
      && r.nodes[y] == Node(units[u].forward(s.nodes[xs[0]].data), None, Some(u), 0)
  {
  }

  /** Backward on a non-empty stack removes exactly its top and keeps the earlier
      entries; it fails with BadArity exactly when the popped tuple is empty, or
      in a DEBUG build when it does not hold exactly one node. */
  lemma BackwardPopsTop(units: seq<Unit>, debug: bool, s: Snapshot, u: UnitId, y: NodeId)
    requires WellFormed(s, |units|) && u < |units| && y < |s.nodes|
    requires s.prevInputs[u] != []
    ensures var (r, out) := Popped(units, debug, s, u, y);
      var xs := Last(s.prevInputs[u]);
      && r.prevInputs[u] == DropLast(s.prevInputs[u])
      && (forall v :: 0 <= v < |units| && v != u ==> r.prevInputs[v] == s.prevInputs[v])
      && (out == BadArity <==> |xs| == 0 || (debug && |xs| != 1))
      && (out == BadArity ==> r.nodes == s.nodes)
  {
  }

  /** A successful Backward counts exactly one use less of the popped tuple's
      first node, keeps that node's existing gradient buffer for the derivative
      rule (allocating a zero one only when there was none), and leaves every
      other node unchanged. */
  lemma BackwardReleasesOneUse(units: seq<Unit>, debug: bool, s: Snapshot, u: UnitId, y: NodeId)
    requires WellFormed(s, |units|) && u < |units| && y < |s.nodes|
    requires s.prevInputs[u] != [] && |Last(s.prevInputs[u])| >= 1
    requires !debug || |Last(s.prevInputs[u])| == 1
    ensures var (r, out) := Popped(units, debug, s, u, y);
      var x := Last(s.prevInputs[u])[0];
      var before := s.nodes[x].(useCount := s.nodes[x].useCount - 1, grad := Some(Allocated(s.nodes[x])));
      && out == Ok
      && r.nodes[x].useCount == s.nodes[x].useCount - 1
      && r.nodes[x].data == s.nodes[x].data
      && r.nodes[x].grad == Some(units[u].backward(s.nodes[x := before][y], before))
      && (s.nodes[x].grad.Some? ==> before.grad == s.nodes[x].grad)
      && (forall n :: 0 <= n < |s.nodes| && n != x ==> r.nodes[n] == s.nodes[n])
  {
  }

  /** A Forward followed by the matching Backward restores every stack and every
      use count; only gradients change. */
  lemma {:induction false} ForwardThenBackward(units: seq<Unit>, debug: bool, s: Snapshot, u: UnitId, x: NodeId)
    requires WellFormed(s, |units|) && u < |units| && x < |s.nodes|
    ensures var (s1, y) := Forwarded(units, s, u, [x]);
      var (s2, out) := Popped(units, debug, s1, u, y);
      && out == Ok
      && s2.prevInputs == s.prevInputs
      && |s2.nodes| == |s.nodes| + 1
      && (forall n :: 0 <= n < |s.nodes| ==> s2.nodes[n].useCount == s.nodes[n].useCount)
      && s2.nodes[y].useCount == 0
  {
    var (s1, y) := Forwarded(units, s, u, [x]);
    assert Last(s1.prevInputs[u]) == [x];
    assert DropLast(s1.prevInputs[u]) == s.prevInputs[u];
    assert s1.prevInputs[u := s.prevInputs[u]] == s.prevInputs;
  }

  /** Predict does the forward computation without bookkeeping: unless the unit
      overrides it, its result is the data of the node Forward would create. */
  lemma PredictMatchesForward(units: seq<Unit>, s: Snapshot, u: UnitId, xs: seq<NodeId>)
    requires WellFormed(s, |units|) && u < |units| && |xs| >= 1 && NodesIn(xs, |s.nodes|)
    requires units[u].predictOverride.None?
    ensures var (r, y) := Forwarded(units, s, u, xs);
      Predict(units, u, s.nodes[xs[0]].data) == r.nodes[y].data
  {
  }
}
