/**
 * FunctionStack: a sequence of units run as one unit. Forward and Predict are
 * left folds over the units; Backward is a recursive walk over the graph that
 * the forward pass recorded; Compress fuses a fusable unit with the activation
 * that follows it.
 */
module Composition {
  import opened Common
  import opened Graph

  ghost predicate UnitsIn(fs: seq<UnitId>, unitCount: nat)
  {
    forall k :: 0 <= k < |fs| ==> fs[k] < unitCount
  }

  // ---------------------------------------------------------------------------
  // The stack-of-stacks constructor

  /** The in-order concatenation of several unit lists. */
  function Flatten(ss: seq<seq<UnitId>>): seq<UnitId>
  {
    if ss == [] then [] else ss[0] + Flatten(ss[1..])
  }

  lemma {:induction false} FlattenAppend(ss: seq<seq<UnitId>>, t: seq<UnitId>)
    ensures Flatten(ss + [t]) == Flatten(ss) + t
  {
    if ss == [] {
      assert [t][1..] == [];
    } else {
      assert (ss + [t])[1..] == ss[1..] + [t];
      FlattenAppend(ss[1..], t);
    }
  }

  /** The flattened list is as long as all the lists together. */
  lemma {:induction false} FlattenLength(ss: seq<seq<UnitId>>)
    ensures |Flatten(ss)| == Total(ss)
  {
    if ss != [] {
      FlattenLength(ss[1..]);
    }
  }

  /** Each list lands, in order, right after the lists before it. */
  lemma {:induction false} FlattenPlacesEach(ss: seq<seq<UnitId>>, i: nat)
    requires i < |ss|
    ensures Total(ss[..i]) + |ss[i]| <= |Flatten(ss)|
    ensures Flatten(ss)[Total(ss[..i]) .. Total(ss[..i]) + |ss[i]|] == ss[i]
  {
    assert ss == ss[..i] + [ss[i]] + ss[i + 1..];
    FlattenConcat(ss[..i] + [ss[i]], ss[i + 1..]);
    FlattenAppend(ss[..i], ss[i]);
    FlattenLength(ss[..i]);
  }

  lemma {:induction false} FlattenConcat(a: seq<seq<UnitId>>, b: seq<seq<UnitId>>)
    ensures Flatten(a + b) == Flatten(a) + Flatten(b)
  {
    if a == [] {
      assert a + b == b;
    } else {
      assert (a + b)[1..] == a[1..] + b;
      FlattenConcat(a[1..], b);
    }
  }

  /** The unit lists of several stacks, in argument order. */
  ghost function Lists(stacks: seq<FunctionStack>): (r: seq<seq<UnitId>>)
    reads stacks
    ensures |r| == |stacks|
    ensures forall k :: 0 <= k < |stacks| ==> r[k] == stacks[k].functions
  {
    seq(|stacks|, k requires 0 <= k < |stacks| reads stacks => stacks[k].functions)
  }

  // ---------------------------------------------------------------------------
  // Compress

  predicate Fusable(units: seq<Unit>, f: UnitId, a: UnitId)
    requires f < |units| && a < |units|
  {
    units[f].kind == CompressibleFunction && units[a].kind == CompressibleActivation
  }

  /** The list one pass of Compress leaves: after a fusion at i the scan goes on
      at the element that followed the removed activation, so the fusable unit is
      not compared with it. */
  function CompressPass(units: seq<Unit>, fs: seq<UnitId>): seq<UnitId>
    requires UnitsIn(fs, |units|)
    decreases |fs|
  {
    if |fs| < 2 then fs
    else if Fusable(units, fs[0], fs[1]) then [fs[0]] + CompressPass(units, fs[2..])
    else [fs[0]] + CompressPass(units, fs[1..])
  }

  /** The (fusable unit, activation) pairs one pass of Compress fuses, in order;
      each pair is fusable and both members come from the list. */
  function Merges(units: seq<Unit>, fs: seq<UnitId>): (m: seq<(UnitId, UnitId)>)
    requires UnitsIn(fs, |units|)
    ensures forall k :: 0 <= k < |m| ==> m[k].0 < |units| && m[k].1 < |units| && Fusable(units, m[k].0, m[k].1)
    decreases |fs|
  {
    if |fs| < 2 then []
    else if Fusable(units, fs[0], fs[1]) then [(fs[0], fs[1])] + Merges(units, fs[2..])
    else Merges(units, fs[1..])
  }

  /** The attached activations after SetActivation is called for each pair in order. */
  function Attach(act: seq<Option<UnitId>>, ms: seq<(UnitId, UnitId)>): (r: seq<Option<UnitId>>)
    requires forall k :: 0 <= k < |ms| ==> ms[k].0 < |act|
    ensures |r| == |act|
    decreases |ms|
  {
    if ms == [] then act else Attach(act[ms[0].0 := Some(ms[0].1)], ms[1..])
  }

  /** The list has a fusable unit directly followed by an activation. */
  ghost predicate HasFusablePair(units: seq<Unit>, fs: seq<UnitId>)
    requires UnitsIn(fs, |units|)
  {
    exists k :: 0 <= k < |fs| - 1 && Fusable(units, fs[k], fs[k + 1])
  }

  /** r is fs with some activations (and nothing else) taken out, the rest kept in order. */
  ghost predicate DropsOnlyActivations(units: seq<Unit>, r: seq<UnitId>, fs: seq<UnitId>)
    requires UnitsIn(fs, |units|)
    decreases |fs|
  {
    if fs == [] then r == []
    else
      || (r != [] && r[0] == fs[0] && DropsOnlyActivations(units, r[1..], fs[1..]))
      || (units[fs[0]].kind == CompressibleActivation && DropsOnlyActivations(units, r, fs[1..]))
  }

  /** Compress keeps the units in order and only ever removes activations. */
  lemma {:induction false} CompressDropsOnlyActivations(units: seq<Unit>, fs: seq<UnitId>)
    requires UnitsIn(fs, |units|)
    ensures DropsOnlyActivations(units, CompressPass(units, fs), fs)
    decreases |fs|
  {
    var r := CompressPass(units, fs);
    if |fs| == 0 {
    } else if |fs| == 1 {
      assert fs[1..] == [] && r[1..] == [];
    } else if Fusable(units, fs[0], fs[1]) {
      CompressDropsOnlyActivations(units, fs[2..]);
      assert fs[1..][1..] == fs[2..];
      assert r[1..] == CompressPass(units, fs[2..]);
      assert DropsOnlyActivations(units, r[1..], fs[1..]);
    } else {
      CompressDropsOnlyActivations(units, fs[1..]);
      assert r[1..] == CompressPass(units, fs[1..]);
    }
  }

  /** Every fusion removes exactly one unit. */
  lemma {:induction false} CompressRemovesOnePerMerge(units: seq<Unit>, fs: seq<UnitId>)
    requires UnitsIn(fs, |units|)
    ensures |CompressPass(units, fs)| + |Merges(units, fs)| == |fs|
    decreases |fs|
  {
    if |fs| >= 2 {
      if Fusable(units, fs[0], fs[1]) {
        CompressRemovesOnePerMerge(units, fs[2..]);
      } else {
        CompressRemovesOnePerMerge(units, fs[1..]);
      }
    }
  }

  /** A pass fuses something exactly when the list has an adjacent fusable pair. */
  lemma {:induction false} MergesIffFusablePair(units: seq<Unit>, fs: seq<UnitId>)
    requires UnitsIn(fs, |units|)
    ensures Merges(units, fs) != [] <==> HasFusablePair(units, fs)
    decreases |fs|
  {
    if |fs| >= 2 {
      if Fusable(units, fs[0], fs[1]) {
        assert HasFusablePair(units, fs) by { assert Fusable(units, fs[0], fs[1]); }
      } else {
        MergesIffFusablePair(units, fs[1..]);
        if HasFusablePair(units, fs) {
          var k :| 0 <= k < |fs| - 1 && Fusable(units, fs[k], fs[k + 1]);
          assert k != 0;
          assert Fusable(units, fs[1..][k - 1], fs[1..][k]);
        }
        if HasFusablePair(units, fs[1..]) {
          var k :| 0 <= k < |fs[1..]| - 1 && Fusable(units, fs[1..][k], fs[1..][k + 1]);
          assert Fusable(units, fs[k + 1], fs[k + 2]);
        }
      }
    } else {
      assert !HasFusablePair(units, fs);
    }
  }

  /** Compress leaves the list unchanged exactly when no fusable unit is directly
      followed by an activation. */
  lemma CompressUnchangedIff(units: seq<Unit>, fs: seq<UnitId>)
    requires UnitsIn(fs, |units|)
    ensures CompressPass(units, fs) == fs <==> !HasFusablePair(units, fs)
  {
    CompressRemovesOnePerMerge(units, fs);
    MergesIffFusablePair(units, fs);
    if !HasFusablePair(units, fs) {
      NoPairNoChange(units, fs);
    }
  }

  lemma {:induction false} NoPairNoChange(units: seq<Unit>, fs: seq<UnitId>)
    requires UnitsIn(fs, |units|) && !HasFusablePair(units, fs)
    ensures CompressPass(units, fs) == fs
    decreases |fs|
  {
    if |fs| >= 2 {
      assert !Fusable(units, fs[0], fs[1]);
      assert !HasFusablePair(units, fs[1..]) by {
        forall k | 0 <= k < |fs[1..]| - 1
          ensures !Fusable(units, fs[1..][k], fs[1..][k + 1])
        {
          assert !Fusable(units, fs[k + 1], fs[k + 2]);
        }
      }
      NoPairNoChange(units, fs[1..]);
    }
  }

  /** One step of the Compress scan at position i when l[i] fuses with l[i + 1]:
      the activation is attached and dropped from the list, and what is left to
      do still yields the same pass and the same attachments. */
  lemma CompressStepFused(units: seq<Unit>, l: seq<UnitId>, i: nat, act: seq<Option<UnitId>>)
    requires UnitsIn(l, |units|) && i < |l| - 1 && |act| == |units|
    requires Fusable(units, l[i], l[i + 1])
    ensures var l' := l[..i + 1] + l[i + 2..];
      && UnitsIn(l', |units|) && i + 1 <= |l'|
      && l'[..i + 1] + CompressPass(units, l'[i + 1..]) == l[..i] + CompressPass(units, l[i..])
      && Attach(act[l[i] := Some(l[i + 1])], Merges(units, l'[i + 1..])) == Attach(act, Merges(units, l[i..]))
  {
    var tail := l[i + 2..];
    DropActivationShape(units, l, i);
    PassAtFusion(units, l, i);
    ConcatAssoc(l[..i], [l[i]], CompressPass(units, tail));
    AttachFirst(act, (l[i], l[i + 1]), Merges(units, tail));
  }

  /** Removing l[i + 1] keeps the prefix up to l[i] and moves the rest up by one. */
  lemma DropActivationShape(units: seq<Unit>, l: seq<UnitId>, i: nat)
    requires UnitsIn(l, |units|) && i < |l| - 1
    ensures var l' := l[..i + 1] + l[i + 2..];
      && UnitsIn(l', |units|) && |l'| == |l| - 1
      && l'[i + 1..] == l[i + 2..] && l'[..i + 1] == l[..i] + [l[i]]
  {
    var l' := l[..i + 1] + l[i + 2..];
    forall k | 0 <= k < |l'| ensures l'[k] < |units| {
      if k <= i { assert l'[k] == l[k]; } else { assert l'[k] == l[k + 1]; }
    }
    assert l'[i + 1..] == l[i + 2..];
  }

  /** The prefix up to and including l[i] is the prefix before it extended by l[i]. */
  lemma PrefixGrows(l: seq<UnitId>, i: nat)
    requires i < |l|
    ensures l[..i + 1] == l[..i] + [l[i]]
  {
    forall k | 0 <= k <= i ensures l[..i + 1][k] == (l[..i] + [l[i]])[k] {
    }
  }

  /** A pass starting at a fusable pair keeps the unit, skips the activation and records the pair. */
  lemma PassAtFusion(units: seq<Unit>, l: seq<UnitId>, i: nat)
    requires UnitsIn(l, |units|) && i < |l| - 1
    requires Fusable(units, l[i], l[i + 1])
    ensures CompressPass(units, l[i..]) == [l[i]] + CompressPass(units, l[i + 2..])
    ensures Merges(units, l[i..]) == [(l[i], l[i + 1])] + Merges(units, l[i + 2..])
  {
    assert l[i..][2..] == l[i + 2..];
  }

  /** Attaching a list that starts with (f, a) attaches a to f first. */
  lemma AttachFirst(act: seq<Option<UnitId>>, m: (UnitId, UnitId), ms: seq<(UnitId, UnitId)>)
    requires m.0 < |act| && forall k :: 0 <= k < |ms| ==> ms[k].0 < |act|
    ensures Attach(act, [m] + ms) == Attach(act[m.0 := Some(m.1)], ms)
  {
    assert ([m] + ms)[1..] == ms;
  }

  /** One step of the Compress scan at position i when l[i] does not fuse with
      l[i + 1]: the scan moves on and what is left to do still yields the same pass. */
  lemma CompressStepKept(units: seq<Unit>, l: seq<UnitId>, i: nat)
    requires UnitsIn(l, |units|) && i < |l| - 1
    requires !Fusable(units, l[i], l[i + 1])
    ensures l[..i + 1] + CompressPass(units, l[i + 1..]) == l[..i] + CompressPass(units, l[i..])
    ensures Merges(units, l[i + 1..]) == Merges(units, l[i..])
  {
    PrefixGrows(l, i);
    PassAtKeep(units, l, i);
    ConcatAssoc(l[..i], [l[i]], CompressPass(units, l[i + 1..]));
  }

  /** A pass starting at a unit that does not fuse with its successor keeps it and goes on at the successor. */
  lemma PassAtKeep(units: seq<Unit>, l: seq<UnitId>, i: nat)
    requires UnitsIn(l, |units|) && i < |l| - 1
    requires !Fusable(units, l[i], l[i + 1])
    ensures CompressPass(units, l[i..]) == [l[i]] + CompressPass(units, l[i + 1..])
    ensures Merges(units, l[i..]) == Merges(units, l[i + 1..])
  {
    assert l[i..][1..] == l[i + 1..];
  }

  lemma ConcatAssoc<T>(a: seq<T>, b: seq<T>, c: seq<T>)
    ensures (a + b) + c == a + (b + c)
  {
  }

  /** One pass need not reach a fixed point: a fusable unit followed by two
      activations keeps the second one, and only a second pass fuses it. */
  lemma CompressNotIdempotent(units: seq<Unit>, f: UnitId, a1: UnitId, a2: UnitId)
    requires f < |units| && a1 < |units| && a2 < |units|
    requires units[f].kind == CompressibleFunction
    requires units[a1].kind == CompressibleActivation && units[a2].kind == CompressibleActivation
    ensures CompressPass(units, [f, a1, a2]) == [f, a2]
    ensures CompressPass(units, CompressPass(units, [f, a1, a2])) == [f]
    ensures Merges(units, [f, a1, a2]) == [(f, a1)]
  {
    assert [f, a1, a2][2..] == [a2];
    assert [f, a2][2..] == [];
  }

  // ---------------------------------------------------------------------------
  // Forward and Predict

  /** The data the forward rules compute, applied left to right. */
  function FoldData(units: seq<Unit>, fs: seq<UnitId>, x: seq<real>): seq<real>
    requires UnitsIn(fs, |units|)
    decreases |fs|
  {
    if fs == [] then x else units[Last(fs)].forward(FoldData(units, DropLast(fs), x))
  }

  /** The predictions of the units, applied left to right. */
  function PredictFold(units: seq<Unit>, fs: seq<UnitId>, x: seq<real>): seq<real>
    requires UnitsIn(fs, |units|)
    decreases |fs|
  {
    if fs == [] then x else Predict(units, Last(fs), PredictFold(units, DropLast(fs), x))
  }

  /** FunctionStack.Forward as a function of the graph: the first unit receives
      the caller's tuple, each later unit the one-node tuple of its predecessor's
      output. Returns the new snapshot and the last output. */
  function ForwardFold(units: seq<Unit>, s: Snapshot, fs: seq<UnitId>, xs: seq<NodeId>): (r: (Snapshot, NodeId))
    requires WellFormed(s, |units|) && |fs| >= 1 && UnitsIn(fs, |units|)
    requires |xs| >= 1 && NodesIn(xs, |s.nodes|)
    ensures WellFormed(r.0, |units|) && |r.0.nodes| == |s.nodes| + |fs| && r.1 == |r.0.nodes| - 1
    decreases |fs|
  {
    if |fs| == 1 then Forwarded(units, s, fs[0], xs)
    else
      var (s1, y1) := ForwardFold(units, s, DropLast(fs), xs);
      Forwarded(units, s1, Last(fs), [y1])
  }

  /** The stack's output holds the forward rules applied in order to the first input's data. */
  lemma {:induction false} ForwardFoldComputes(units: seq<Unit>, s: Snapshot, fs: seq<UnitId>, xs: seq<NodeId>)
    requires WellFormed(s, |units|) && |fs| >= 1 && UnitsIn(fs, |units|)
    requires |xs| >= 1 && NodesIn(xs, |s.nodes|)
    ensures var (r, y) := ForwardFold(units, s, fs, xs);
      r.nodes[y].data == FoldData(units, fs, s.nodes[xs[0]].data)
      && r.nodes[y].producer == Some(Last(fs))
    decreases |fs|
  {
    if |fs| == 1 {
      assert DropLast(fs) == [];
    } else {
      ForwardFoldComputes(units, s, DropLast(fs), xs);
    }
  }

  /** A stack built from two stacks runs like the first followed by the second. */
  lemma {:induction false} ForwardFoldConcat(units: seq<Unit>, s: Snapshot, a: seq<UnitId>, b: seq<UnitId>, xs: seq<NodeId>)
    requires WellFormed(s, |units|) && |a| >= 1 && |b| >= 1 && UnitsIn(a, |units|) && UnitsIn(b, |units|)
    requires |xs| >= 1 && NodesIn(xs, |s.nodes|)
    ensures UnitsIn(a + b, |units|)
    ensures var (s1, y1) := ForwardFold(units, s, a, xs);
      ForwardFold(units, s, a + b, xs) == ForwardFold(units, s1, b, [y1])
    decreases |b|
  {
    var ab := a + b;
    assert Last(ab) == Last(b);
    if |b| == 1 {
      assert DropLast(ab) == a;
    } else {
      assert DropLast(ab) == a + DropLast(b);
      ForwardFoldConcat(units, s, a, DropLast(b), xs);
    }
  }

  /** Predict through a stack built from two stacks is Predict through the first, then the second. */
  lemma {:induction false} PredictFoldConcat(units: seq<Unit>, a: seq<UnitId>, b: seq<UnitId>, x: seq<real>)
    requires UnitsIn(a, |units|) && UnitsIn(b, |units|)
    ensures UnitsIn(a + b, |units|)
    ensures PredictFold(units, a + b, x) == PredictFold(units, b, PredictFold(units, a, x))
    decreases |b|
  {
    if b == [] {
      assert a + b == a;
    } else {
      assert Last(a + b) == Last(b);
      assert DropLast(a + b) == a + DropLast(b);
      PredictFoldConcat(units, a, DropLast(b), x);
    }
  }

  ghost predicate NoPredictOverride(units: seq<Unit>, fs: seq<UnitId>)
    requires UnitsIn(fs, |units|)
  {
    forall k :: 0 <= k < |fs| ==> units[fs[k]].predictOverride.None?
  }

  /** Unless a unit overrides Predict, the stack's Predict yields the data of the
      node its Forward would return. */
  lemma {:induction false} PredictMatchesForwardFold(units: seq<Unit>, s: Snapshot, fs: seq<UnitId>, xs: seq<NodeId>)
    requires WellFormed(s, |units|) && |fs| >= 1 && UnitsIn(fs, |units|) && NoPredictOverride(units, fs)
    requires |xs| >= 1 && NodesIn(xs, |s.nodes|)
    ensures var (r, y) := ForwardFold(units, s, fs, xs);
      PredictFold(units, fs, s.nodes[xs[0]].data) == r.nodes[y].data
  {
    ForwardFoldComputes(units, s, fs, xs);
    PredictIsFoldData(units, fs, s.nodes[xs[0]].data);
  }

  lemma {:induction false} PredictIsFoldData(units: seq<Unit>, fs: seq<UnitId>, x: seq<real>)
    requires UnitsIn(fs, |units|) && NoPredictOverride(units, fs)
    ensures PredictFold(units, fs, x) == FoldData(units, fs, x)
    decreases |fs|
  {
    if fs != [] {
      PredictIsFoldData(units, DropLast(fs), x);
    }
  }

  /** Forward leaves the stack of every unit that is not in the list alone. */
  lemma {:induction false} ForwardFoldKeepsOtherStacks(units: seq<Unit>, s: Snapshot, fs: seq<UnitId>, xs: seq<NodeId>, v: UnitId)
    requires WellFormed(s, |units|) && |fs| >= 1 && UnitsIn(fs, |units|)
    requires |xs| >= 1 && NodesIn(xs, |s.nodes|)
    requires v < |units| && v !in fs
    ensures ForwardFold(units, s, fs, xs).0.prevInputs[v] == s.prevInputs[v]
    decreases |fs|
  {
    if |fs| > 1 {
      assert v !in DropLast(fs);
      ForwardFoldKeepsOtherStacks(units, s, DropLast(fs), xs, v);
    }
  }

  // ---------------------------------------------------------------------------
  // Backward: the recursive walk over the recorded graph

  /** FunctionStack.Backward(y) as written: when y is drained and has a producer,
      run the producer's Backward, then walk into every node of the tuple that is
      on top of the producer's PrevInputs AFTER that Backward returned. An empty
      stack at that point makes the list index -1 throw (Underflow). */
  function Walk(units: seq<Unit>, debug: bool, s: Snapshot, y: NodeId): (r: (Snapshot, Outcome))
    requires WellFormed(s, |units|) && y < |s.nodes|
    ensures WellFormed(r.0, |units|) && |r.0.nodes| == |s.nodes|
    ensures Total(r.0.prevInputs) <= Total(s.prevInputs)
    decreases Total(s.prevInputs), 0, 0
  {
    var n := s.nodes[y];
    if n.useCount != 0 || n.producer.None? then (s, Ok)
    else
      var p := n.producer.value;
      var (s1, o) := Popped(units, debug, s, p, y);
      if o != Ok then (s1, o)
      else if s1.prevInputs[p] == [] then (s1, Underflow)
      else WalkAll(units, debug, s1, Last(s1.prevInputs[p]), 0)
  }

  /** The loop of Walk: walk into xs[i], xs[i+1], ... in index order, stopping at the first failure. */
  function WalkAll(units: seq<Unit>, debug: bool, s: Snapshot, xs: seq<NodeId>, i: nat): (r: (Snapshot, Outcome))
    requires WellFormed(s, |units|) && i <= |xs| && NodesIn(xs, |s.nodes|)
    ensures WellFormed(r.0, |units|) && |r.0.nodes| == |s.nodes|
    ensures Total(r.0.prevInputs) <= Total(s.prevInputs)
    decreases Total(s.prevInputs), 1, |xs| - i
  {
    if i == |xs| then (s, Ok)
    else
      var (s1, o) := Walk(units, debug, s, xs[i]);
      if o != Ok then (s1, o) else WalkAll(units, debug, s1, xs, i + 1)
  }

  /** The walk as evidently intended: recurse into the tuple the producer's
      Backward popped, read before the pop. */
  function WalkFixed(units: seq<Unit>, debug: bool, s: Snapshot, y: NodeId): (r: (Snapshot, Outcome))
    requires WellFormed(s, |units|) && y < |s.nodes|
    ensures WellFormed(r.0, |units|) && |r.0.nodes| == |s.nodes|
    ensures Total(r.0.prevInputs) <= Total(s.prevInputs)
    decreases Total(s.prevInputs), 0, 0
  {
    var n := s.nodes[y];
    if n.useCount != 0 || n.producer.None? then (s, Ok)
    else
      var p := n.producer.value;
      var (s1, o) := Popped(units, debug, s, p, y);
      if o != Ok then (s1, o)
      else WalkFixedAll(units, debug, s1, Last(s.prevInputs[p]), 0)
  }

  function WalkFixedAll(units: seq<Unit>, debug: bool, s: Snapshot, xs: seq<NodeId>, i: nat): (r: (Snapshot, Outcome))
    requires WellFormed(s, |units|) && i <= |xs| && NodesIn(xs, |s.nodes|)
    ensures WellFormed(r.0, |units|) && |r.0.nodes| == |s.nodes|
    ensures Total(r.0.prevInputs) <= Total(s.prevInputs)
    decreases Total(s.prevInputs), 1, |xs| - i
  {
    if i == |xs| then (s, Ok)
    else
      var (s1, o) := WalkFixed(units, debug, s, xs[i]);
      if o != Ok then (s1, o) else WalkFixedAll(units, debug, s1, xs, i + 1)
  }

  /** Backward stops at once on a node that still has pending consumers or that the caller supplied. */
  lemma WalkStopsAtPendingOrInput(units: seq<Unit>, debug: bool, s: Snapshot, y: NodeId)
    requires WellFormed(s, |units|) && y < |s.nodes|
    requires s.nodes[y].useCount != 0 || s.nodes[y].producer.None?
    ensures Walk(units, debug, s, y) == (s, Ok)
  {
  }

  /** The bookkeeping of t matches that of s on all of s's nodes: same stacks,
      same use counts and producers (data and gradients may differ). */
  ghost predicate Agrees(t: Snapshot, s: Snapshot)
  {
    && t.prevInputs == s.prevInputs
    && |s.nodes| <= |t.nodes|
    && forall n :: 0 <= n < |s.nodes| ==>
         t.nodes[n].useCount == s.nodes[n].useCount && t.nodes[n].producer == s.nodes[n].producer
  }

  /** As written, Backward from the output of a chain whose last unit has no
      other pending call fails: the producer's Backward pops the only tuple, and
      the walk then reads the top of an empty list. */
  lemma LiteralWalkUnderflows(units: seq<Unit>, debug: bool, s: Snapshot, fs: seq<UnitId>, x: NodeId)
    requires WellFormed(s, |units|) && x < |s.nodes|
    requires |fs| >= 1 && UnitsIn(fs, |units|)
    requires s.prevInputs[Last(fs)] == [] && Last(fs) !in DropLast(fs)
    ensures var (r, y) := ForwardFold(units, s, fs, [x]);
      Walk(units, debug, r, y).1 == Underflow
  {
    var f := Last(fs);
    var c := ChainPrefix(units, s, fs, x);
    var s1, y1 := c.0, c.1;
    ForwardFoldSplit(units, s, fs, x);
    if |fs| > 1 {
      ForwardFoldKeepsOtherStacks(units, s, DropLast(fs), [x], f);
    }
    var t := Forwarded(units, s1, f, [y1]).0;
    assert Agrees(t, t);
    PopUndoesForward(units, debug, s1, f, y1, t);
  }

  /** The graph just before the last unit of a chain ran: the caller's node
      for a one-unit chain, otherwise the Forward of all but the last unit. */
  function ChainPrefix(units: seq<Unit>, s: Snapshot, fs: seq<UnitId>, x: NodeId): (r: (Snapshot, NodeId))
    requires WellFormed(s, |units|) && x < |s.nodes| && |fs| >= 1 && UnitsIn(fs, |units|)
    ensures WellFormed(r.0, |units|) && r.1 < |r.0.nodes| && |r.0.nodes| == |s.nodes| + |fs| - 1
  {
    if |fs| == 1 then (s, x) else ForwardFold(units, s, DropLast(fs), [x])
  }

  /** ForwardFold over the first i units of fs. */
  function ForwardFoldUpTo(units: seq<Unit>, s: Snapshot, fs: seq<UnitId>, xs: seq<NodeId>, i: nat): (r: (Snapshot, NodeId))
    requires WellFormed(s, |units|) && 1 <= i <= |fs| && UnitsIn(fs, |units|)
    requires |xs| >= 1 && NodesIn(xs, |s.nodes|)
    ensures WellFormed(r.0, |units|) && r.1 < |r.0.nodes|
  {
    assert UnitsIn(fs[..i], |units|);
    ForwardFold(units, s, fs[..i], xs)
  }

  /** The fold over one more unit is that unit's Forward on the shorter fold's output;
      over all units it is the whole fold. */
  lemma ForwardFoldSnoc(units: seq<Unit>, s: Snapshot, fs: seq<UnitId>, i: nat, xs: seq<NodeId>, t: Snapshot, y: NodeId)
    requires WellFormed(s, |units|) && 1 <= i < |fs| && UnitsIn(fs, |units|)
    requires |xs| >= 1 && NodesIn(xs, |s.nodes|)
    requires (t, y) == ForwardFoldUpTo(units, s, fs, xs, i)
    ensures WellFormed(t, |units|) && fs[i] < |units| && y < |t.nodes|
    ensures ForwardFoldUpTo(units, s, fs, xs, i + 1) == Forwarded(units, t, fs[i], [y])
  {
    assert DropLast(fs[..i + 1]) == fs[..i];
  }

  lemma ForwardFoldUpToAll(units: seq<Unit>, s: Snapshot, fs: seq<UnitId>, xs: seq<NodeId>)
    requires WellFormed(s, |units|) && 1 <= |fs| && UnitsIn(fs, |units|)
    requires |xs| >= 1 && NodesIn(xs, |s.nodes|)
    ensures ForwardFoldUpTo(units, s, fs, xs, 1) == Forwarded(units, s, fs[0], xs)
    ensures ForwardFoldUpTo(units, s, fs, xs, |fs|) == ForwardFold(units, s, fs, xs)
  {
    assert fs[..|fs|] == fs;
    assert fs[..1] == [fs[0]];
  }

  lemma ForwardFoldSplit(units: seq<Unit>, s: Snapshot, fs: seq<UnitId>, x: NodeId)
    requires WellFormed(s, |units|) && x < |s.nodes| && |fs| >= 1 && UnitsIn(fs, |units|)
    ensures var (s1, y1) := ChainPrefix(units, s, fs, x);
      ForwardFold(units, s, fs, [x]) == Forwarded(units, s1, Last(fs), [y1])
  {
  }

  /** The producer's Backward on a node the last Forward made undoes that
      Forward's bookkeeping: the stack loses the tuple it gained and the input
      node loses the use it gained. */
  lemma PopUndoesForward(units: seq<Unit>, debug: bool, s1: Snapshot, f: UnitId, y1: NodeId, t: Snapshot)
    requires WellFormed(s1, |units|) && f < |units| && y1 < |s1.nodes|
    requires WellFormed(t, |units|) && Agrees(t, Forwarded(units, s1, f, [y1]).0)
    ensures |s1.nodes| < |t.nodes|
    ensures t.nodes[|s1.nodes|].useCount == 0 && t.nodes[|s1.nodes|].producer == Some(f)
    ensures t.prevInputs[f] != [] && Last(t.prevInputs[f]) == [y1]
    ensures var (t1, o) := Popped(units, debug, t, f, |s1.nodes|);
      && o == Ok && Agrees(t1, s1) && |t1.nodes| == |t.nodes|
      && (forall n :: |s1.nodes| <= n < |t.nodes| ==> t1.nodes[n].useCount == t.nodes[n].useCount)
  {
    var r := Forwarded(units, s1, f, [y1]).0;
    assert r.nodes[|s1.nodes|].useCount == 0 && r.nodes[|s1.nodes|].producer == Some(f);
    assert t.prevInputs[f] == s1.prevInputs[f] + [[y1]];
    assert DropLast(t.prevInputs[f]) == s1.prevInputs[f];
    assert t.prevInputs[f := s1.prevInputs[f]] == s1.prevInputs;
    var (t1, o) := Popped(units, debug, t, f, |s1.nodes|);
    assert t1.prevInputs == s1.prevInputs;
    forall n | 0 <= n < |s1.nodes|
      ensures t1.nodes[n].useCount == s1.nodes[n].useCount && t1.nodes[n].producer == s1.nodes[n].producer
    {
      assert t.nodes[n].useCount == r.nodes[n].useCount;
    }
  }

  /** The intended walk from the node the last Forward made pops that Forward's
      tuple and goes on from its input. */
  lemma WalkFromChainTop(units: seq<Unit>, debug: bool, s1: Snapshot, f: UnitId, y1: NodeId, t: Snapshot)
    requires WellFormed(s1, |units|) && f < |units| && y1 < |s1.nodes|
    requires WellFormed(t, |units|) && Agrees(t, Forwarded(units, s1, f, [y1]).0)
    ensures |s1.nodes| < |t.nodes| && y1 < |Popped(units, debug, t, f, |s1.nodes|).0.nodes|
    ensures WalkFixed(units, debug, t, |s1.nodes|) == WalkFixed(units, debug, Popped(units, debug, t, f, |s1.nodes|).0, y1)
  {
    PopUndoesForward(units, debug, s1, f, y1, t);
    WalkFixedAllSingle(units, debug, Popped(units, debug, t, f, |s1.nodes|).0, y1);
  }

  /** One step of WalkAll: walk xs[i], then go on with the rest unless it failed. */
  lemma WalkAllStep(units: seq<Unit>, debug: bool, s: Snapshot, xs: seq<NodeId>, i: nat, t: Snapshot, o: Outcome)
    requires WellFormed(s, |units|) && i < |xs| && NodesIn(xs, |s.nodes|)
    requires (t, o) == Walk(units, debug, s, xs[i])
    ensures o != Ok ==> WalkAll(units, debug, s, xs, i) == (t, o)
    ensures o == Ok ==> WalkAll(units, debug, s, xs, i) == WalkAll(units, debug, t, xs, i + 1)
  {
  }

  /** One step of WalkFixedAll: walk xs[i], then go on with the rest unless it failed. */
  lemma WalkFixedAllStep(units: seq<Unit>, debug: bool, s: Snapshot, xs: seq<NodeId>, i: nat, t: Snapshot, o: Outcome)
    requires WellFormed(s, |units|) && i < |xs| && NodesIn(xs, |s.nodes|)
    requires (t, o) == WalkFixed(units, debug, s, xs[i])
    ensures o != Ok ==> WalkFixedAll(units, debug, s, xs, i) == (t, o)
    ensures o == Ok ==> WalkFixedAll(units, debug, s, xs, i) == WalkFixedAll(units, debug, t, xs, i + 1)
  {
  }

  /** Walking a one-node tuple is walking that node. */
  lemma WalkFixedAllSingle(units: seq<Unit>, debug: bool, s: Snapshot, x: NodeId)
    requires WellFormed(s, |units|) && x < |s.nodes|
    ensures WalkFixedAll(units, debug, s, [x], 0) == WalkFixed(units, debug, s, x)
  {
    var (s1, o) := WalkFixed(units, debug, s, x);
    if o == Ok {
      assert WalkFixedAll(units, debug, s1, [x], 1) == (s1, Ok);
    }
  }

  /** The intended walk balances a chain: after Forward through a list of units
      from a caller-supplied node, Backward from the output restores every stack
      and the use count of every node that existed before, leaves the chain's
      own nodes at zero uses, and touches nothing else. Stated for any snapshot
      whose bookkeeping agrees with the forward result, so that gradients
      computed along the way do not matter. */
  lemma {:induction false} ChainBalanced(units: seq<Unit>, debug: bool, s: Snapshot, fs: seq<UnitId>, x: NodeId, t: Snapshot)
    requires WellFormed(s, |units|) && x < |s.nodes| && s.nodes[x].producer.None?
    requires |fs| >= 1 && UnitsIn(fs, |units|)
    requires WellFormed(t, |units|) && Agrees(t, ForwardFold(units, s, fs, [x]).0)
    ensures var r := WalkFixed(units, debug, t, ForwardFold(units, s, fs, [x]).1);
      && r.1 == Ok
      && Agrees(r.0, s)
      && |r.0.nodes| == |t.nodes|
      && (forall n :: |s.nodes| <= n < |t.nodes| ==>
            r.0.nodes[n].useCount == (if n < |s.nodes| + |fs| then 0 else t.nodes[n].useCount))
    decreases |fs|
  {
    var f := Last(fs);
    var c := ChainPrefix(units, s, fs, x);
    var s1, y1 := c.0, c.1;
    ForwardFoldSplit(units, s, fs, x);
    var y := |s1.nodes|;
    PopUndoesForward(units, debug, s1, f, y1, t);
    var t1 := Popped(units, debug, t, f, y).0;
    WalkFromChainTop(units, debug, s1, f, y1, t);
    var r := WalkFixed(units, debug, t1, y1);
    if |fs| == 1 {
      assert r == (t1, Ok);
      forall n | |s.nodes| <= n < |t.nodes|
        ensures r.0.nodes[n].useCount == (if n < |s.nodes| + 1 then 0 else t.nodes[n].useCount)
      {
      }
    } else {
      ChainBalanced(units, debug, s, DropLast(fs), x, t1);
      forall n | |s.nodes| <= n < |t.nodes|
        ensures r.0.nodes[n].useCount == (if n < |s.nodes| + |fs| then 0 else t.nodes[n].useCount)
      {
        if n < y {
          assert r.0.nodes[n].useCount == 0;
        } else {
          assert r.0.nodes[n].useCount == t1.nodes[n].useCount;
        }
      }
    }
  }

  /** Balanced traversal for a chain: a Forward through the stack followed by the
      intended Backward from its output leaves every stack as it was and every
      node that existed before with its old use count. */
  lemma ForwardThenWalkBalanced(units: seq<Unit>, debug: bool, s: Snapshot, fs: seq<UnitId>, x: NodeId)
    requires WellFormed(s, |units|) && x < |s.nodes| && s.nodes[x].producer.None?
    requires |fs| >= 1 && UnitsIn(fs, |units|)
    ensures var (r, y) := ForwardFold(units, s, fs, [x]);
      var (t, o) := WalkFixed(units, debug, r, y);
      && o == Ok
      && t.prevInputs == s.prevInputs
      && (forall n :: 0 <= n < |s.nodes| ==> t.nodes[n].useCount == s.nodes[n].useCount)
      && (forall n :: |s.nodes| <= n < |t.nodes| ==> t.nodes[n].useCount == 0)
  {
    var (r, y) := ForwardFold(units, s, fs, [x]);
    ChainBalanced(units, debug, s, fs, x, r);
  }

  // ---------------------------------------------------------------------------
  // The FunctionStack class

  class FunctionStack {
    var functions: seq<UnitId>

    ghost predicate Valid(g: Arena)
      reads this, g
    {
      g.Valid() && UnitsIn(functions, |g.units|)
    }

    /** FunctionStack(params Function[]). */
    constructor (functions: seq<UnitId>)
      ensures this.functions == functions
    {
      this.functions := functions;
    }

    /** FunctionStack(params FunctionStack[]): the units of all the stacks, in order. */
    constructor FromStacks(stacks: seq<FunctionStack>)
      ensures functions == Flatten(Lists(stacks))
    {
      var list: seq<UnitId> := [];
      var i := 0;
      while i < |stacks|
        invariant 0 <= i <= |stacks|
        invariant list == Flatten(Lists(stacks[..i]))
      {
        var fs := stacks[i].functions;
        var j := 0;
        while j < |fs|
          invariant 0 <= j <= |fs|
          invariant list == Flatten(Lists(stacks[..i])) + fs[..j]
        {
          list := list + [fs[j]];
          j := j + 1;
        }
        assert fs[..j] == fs;
        assert Lists(stacks[..i + 1]) == Lists(stacks[..i]) + [fs];
        FlattenAppend(Lists(stacks[..i]), fs);
        i := i + 1;
      }
      assert stacks[..i] == stacks;
      functions := list;
    }

    /** Compress: one scan that fuses each fusable unit with an activation right after it. */
    method Compress(g: Arena)
      requires Valid(g)
      modifies this`functions, g`activation
      ensures Valid(g)
      ensures functions == CompressPass(g.units, old(functions))
      ensures g.activation == Attach(old(g.activation), Merges(g.units, old(functions)))
    {
      var list := functions;
      var i := 0;
      while i < |list| - 1
        invariant 0 <= i <= |list|
        invariant g.Valid() && UnitsIn(list, |g.units|)
        invariant list[..i] + CompressPass(g.units, list[i..]) == CompressPass(g.units, old(functions))
        invariant Attach(g.activation, Merges(g.units, list[i..]))
                  == Attach(old(g.activation), Merges(g.units, old(functions)))
      {
        if g.units[list[i]].kind == CompressibleFunction {
          if g.units[list[i + 1]].kind == CompressibleActivation {
            CompressStepFused(g.units, list, i, g.activation);
            g.SetActivation(list[i], list[i + 1]);
            list := list[..i + 1] + list[i + 2..];
          } else {
            CompressStepKept(g.units, list, i);
          }
        } else {
          CompressStepKept(g.units, list, i);
        }
        i := i + 1;
      }
      assert |list[i..]| <= 1 && list[..i] + list[i..] == list;
      functions := list;
    }

    /** Forward: a left fold of the units' Forward. */
    method Forward(g: Arena, xs: seq<NodeId>) returns (y: NodeId)
      requires Valid(g) && |functions| >= 1
      requires |xs| >= 1 && NodesIn(xs, |g.nodes|)
      modifies g`nodes, g`prevInputs
      ensures Valid(g)
      ensures (g.State(), y) == ForwardFold(g.units, old(g.State()), functions, xs)
    {
      var fs := functions;
      ghost var s0 := g.State();
      ForwardFoldUpToAll(g.units, s0, fs, xs);
      y := g.Forward(fs[0], xs);
      y := ForwardRest(g, fs, xs, s0, y);
    }

    /** The loop of Forward: each remaining unit's Forward on the previous output. */
    static method ForwardRest(g: Arena, fs: seq<UnitId>, xs: seq<NodeId>, ghost s0: Snapshot, y0: NodeId) returns (y: NodeId)
      requires g.Valid() && WellFormed(s0, |g.units|) && |fs| >= 1 && UnitsIn(fs, |g.units|)
      requires |xs| >= 1 && NodesIn(xs, |s0.nodes|)
      requires (g.State(), y0) == ForwardFoldUpTo(g.units, s0, fs, xs, 1)
      modifies g`nodes, g`prevInputs
      ensures g.Valid()
      ensures (g.State(), y) == ForwardFoldUpTo(g.units, s0, fs, xs, |fs|)
    {
      y := y0;
      var i := 1;
      while i < |fs|
        invariant 1 <= i <= |fs| && g.Valid()
        invariant (g.State(), y) == ForwardFoldUpTo(g.units, s0, fs, xs, i)
      {
        ForwardFoldSnoc(g.units, s0, fs, i, xs, g.State(), y);
        y := g.Forward(fs[i], [y]);
        i := i + 1;
      }
    }

    /** Predict: a left fold of the units' Predict, with no bookkeeping. */
    method Predict(g: Arena, x: seq<real>) returns (y: seq<real>)
      requires Valid(g) && |functions| >= 1
      ensures y == PredictFold(g.units, functions, x)
    {
      y := Graph.Predict(g.units, functions[0], x);
      var i := 1;
      while i < |functions|
        invariant 1 <= i <= |functions|
        invariant y == PredictFold(g.units, functions[..i], x)
      {
        assert DropLast(functions[..i + 1]) == functions[..i];
        y := Graph.Predict(g.units, functions[i], y);
        i := i + 1;
      }
      assert functions[..i] == functions;
    }

    /** Backward(y), as written: if y has no pending consumers and a producer,
        the producer's Backward, then the walk into the top tuple of its stack,
        read after the pop. */
    method Backward(g: Arena, y: NodeId) returns (out: Outcome)
      requires g.Valid() && y < |g.nodes|
      modifies g`nodes, g`prevInputs
      ensures g.Valid()
      ensures (g.State(), out) == Walk(g.units, g.debug, old(g.State()), y)
      decreases Total(g.prevInputs), 0
    {
      ghost var s0 := g.State();
      if g.nodes[y].useCount == 0 && g.nodes[y].producer.Some? {
        var p := g.nodes[y].producer.value;
        out := g.Backward(p, y);
        if out != Ok {
          return;
        }
        if |g.prevInputs[p]| == 0 {
          return Underflow;
        }
        var xs := g.prevInputs[p][|g.prevInputs[p]| - 1];
        assert xs == Last(g.State().prevInputs[p]);
        assert Walk(g.units, g.debug, s0, y) == WalkAll(g.units, g.debug, g.State(), xs, 0);
        out := BackwardInputs(g, xs);
        return;
      }
      out := Ok;
    }

    /** The loop of Backward: Backward on each node of the tuple in index order. */
    method BackwardInputs(g: Arena, xs: seq<NodeId>) returns (out: Outcome)
      requires g.Valid() && NodesIn(xs, |g.nodes|)
      modifies g`nodes, g`prevInputs
      ensures g.Valid()
      ensures (g.State(), out) == WalkAll(g.units, g.debug, old(g.State()), xs, 0)
      decreases Total(g.prevInputs), 1
    {
      ghost var s1 := g.State();
      var i := 0;
      while i < |xs|
        invariant 0 <= i <= |xs|
        invariant g.Valid() && |g.nodes| == |s1.nodes| && Total(g.prevInputs) <= Total(s1.prevInputs)
        invariant WalkAll(g.units, g.debug, s1, xs, 0) == WalkAll(g.units, g.debug, g.State(), xs, i)
      {
        ghost var before := g.State();
        out := Backward(g, xs[i]);
        WalkAllStep(g.units, g.debug, before, xs, i, g.State(), out);
        if out != Ok {
          return;
        }
        i := i + 1;
      }
      out := Ok;
    }

    /** Backward(y) as evidently intended: the walk goes into the tuple the
        producer's Backward popped, read before the pop. */
    method BackwardIntended(g: Arena, y: NodeId) returns (out: Outcome)
      requires g.Valid() && y < |g.nodes|
      modifies g`nodes, g`prevInputs
      ensures g.Valid()
      ensures (g.State(), out) == WalkFixed(g.units, g.debug, old(g.State()), y)
      decreases Total(g.prevInputs), 0
    {
      ghost var s0 := g.State();
      if g.nodes[y].useCount == 0 && g.nodes[y].producer.Some? {
        var p := g.nodes[y].producer.value;
        var stack := g.prevInputs[p];
        out := g.Backward(p, y);
        if out != Ok {
          return;
        }
        var xs := stack[|stack| - 1];
        assert xs == Last(s0.prevInputs[p]);
        assert WalkFixed(g.units, g.debug, s0, y) == WalkFixedAll(g.units, g.debug, g.State(), xs, 0);
        out := BackwardIntendedInputs(g, xs);
        return;
      }
      out := Ok;
    }

    /** The loop of BackwardIntended: BackwardIntended on each node of the tuple in index order. */
    method BackwardIntendedInputs(g: Arena, xs: seq<NodeId>) returns (out: Outcome)
      requires g.Valid() && NodesIn(xs, |g.nodes|)
      modifies g`nodes, g`prevInputs
      ensures g.Valid()
      ensures (g.State(), out) == WalkFixedAll(g.units, g.debug, old(g.State()), xs, 0)
      decreases Total(g.prevInputs), 1
    {
      ghost var s1 := g.State();
      var i := 0;
      while i < |xs|
        invariant 0 <= i <= |xs|
        invariant g.Valid() && |g.nodes| == |s1.nodes| && Total(g.prevInputs) <= Total(s1.prevInputs)
        invariant WalkFixedAll(g.units, g.debug, s1, xs, 0) == WalkFixedAll(g.units, g.debug, g.State(), xs, i)
      {
        ghost var before := g.State();
        out := BackwardIntended(g, xs[i]);
        WalkFixedAllStep(g.units, g.debug, before, xs, i, g.State(), out);
        if out != Ok {
          return;
        }
        i := i + 1;
      }
      out := Ok;
    }
  }
}
