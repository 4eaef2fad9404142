/**
 * The LSTM connection: per-lane (per batch entry) history stacks of the gate
 * activations and of the cell, the hidden state, and the cell and lateral
 * gradients carried from one backward step to the next.
 */
module Recurrent {
  import opened Common
  import opened Gates

  /** Math.Tanh and Math.Exp are functions the model does not compute;
      Transcendental states the only facts about them the model uses. */
  type Tanh = real -> real
  type Exp = real -> real

  /** A Linear connection seen from outside: what its Forward returns for an
      input, and what its Backward returns for an output gradient. */
  datatype Linear = Linear(forward: seq<real> -> seq<real>, backward: seq<real> -> seq<real>)

  /** The Linear maps inputs of inSize values to outputs of outSize values. */
  ghost predicate Maps(l: Linear, inSize: nat, outSize: nat)
  {
    && (forall v :: |l.forward(v)| == outSize)
    && (forall g :: |l.backward(g)| == inSize)
  }

  /** The fixed part of an LSTM: its sizes, its eight projections (upward from
      the input, lateral from the hidden state) and the transcendental functions it calls. */
  datatype Config = Config(inputCount: nat, outputCount: nat, upward: seq<Linear>, lateral: seq<Linear>, tanh: Tanh, exp: Exp)

  /** Four upward projections from inputCount to outputCount and four lateral
      ones from outputCount to outputCount. */
  ghost predicate Shaped(p: Config)
  {
    && |p.upward| == 4 && |p.lateral| == 4
    && (forall k :: 0 <= k < 4 ==> Maps(p.upward[k], p.inputCount, p.outputCount))
    && (forall k :: 0 <= k < 4 ==> Maps(p.lateral[k], p.outputCount, p.outputCount))
    && Transcendental(p)
  }

  /** tanh stays within [-1, 1]; exp is never negative (in double precision it underflows to 0). */
  ghost predicate Transcendental(p: Config)
  {
    && (forall v :: -1.0 <= p.tanh(v) <= 1.0)
    && (forall v :: 0.0 <= p.exp(v))
  }

  /** tanh stays within [-1, 1]. */
  lemma TanhBounded(p: Config, v: real)
    requires Transcendental(p)
    ensures -1.0 <= p.tanh(v) <= 1.0
  {
  }

  /** Sigmoid: 1 / (1 + exp(-x)), always in (0, 1]. */
  function Sigmoid(exp: Exp, x: real): (s: real)
    requires 0.0 <= exp(-x)
    ensures 0.0 < s <= 1.0
  {
    1.0 / (1.0 + exp(-x))
  }

  /** GradSigmoid, the derivative of the sigmoid written in terms of its output. */
  function GradSigmoid(y: real): real
  {
    y * (1.0 - y)
  }

  /** GradTanh, the derivative of tanh written in terms of its output. */
  function GradTanh(y: real): real
  {
    1.0 - y * y
  }

  /** On the outputs of the sigmoid the derivative lies within [0, 1/4]. */
  lemma GradSigmoidBounds(y: real)
    requires 0.0 <= y <= 1.0
    ensures 0.0 <= GradSigmoid(y) <= 0.25
  {
    MulNonneg(y, 1.0 - y);
    var d := Abs(y - 0.5);
    MulNonneg(d, d);
    assert (y - 0.5) * (y - 0.5) == d * d;
    assert GradSigmoid(y) == 0.25 - (y - 0.5) * (y - 0.5);
  }

  /** On the outputs of tanh the derivative lies within [0, 1]. */
  lemma GradTanhBounds(y: real)
    requires -1.0 <= y <= 1.0
    ensures 0.0 <= GradTanh(y) <= 1.0
  {
    var m := Abs(y);
    MulNonneg(m, m);
    MulMono(m, m);
    assert y * y == m * m;
  }

  /** The absolute value of a real. */
  function Abs(v: real): (r: real)
  {
    if v < 0.0 then -v else v
  }

  /** The product of two non-negative reals is non-negative. */
  lemma MulNonneg(a: real, b: real)
    requires a >= 0.0 && b >= 0.0
    ensures a * b >= 0.0
  {
  }

  /** A factor within [0, 1] does not grow a non-negative real. */
  lemma MulMono(s: real, v: real)
    requires 0.0 <= s <= 1.0 && v >= 0.0
    ensures s * v <= v
  {
    MulNonneg(1.0 - s, v);
    assert (1.0 - s) * v == v - s * v;
  }

  /** A factor in (0, 1] keeps a value within its own absolute value. */
  lemma ScaledWithin(s: real, v: real)
    requires 0.0 < s <= 1.0
    ensures -Abs(v) <= s * v <= Abs(v)
  {
    if v >= 0.0 {
      MulNonneg(s, v);
      MulMono(s, v);
    } else {
      var w := -v;
      MulNonneg(s, w);
      MulMono(s, w);
      assert s * v == -(s * w);
    }
  }

  // ---------------------------------------------------------------------------
  // One forward step

  /** Every entry of a history stack holds n values. */
  ghost predicate Entries(stack: seq<seq<real>>, n: nat)
  {
    forall t :: 0 <= t < |stack| ==> |stack[t]| == n
  }

  /** Pushing an entry of the right width keeps a history well formed. */
  lemma EntriesPush(stack: seq<seq<real>>, v: seq<real>, n: nat)
    requires Entries(stack, n) && |v| == n
    ensures Entries(stack + [v], n)
  {
  }

  /** Popping the newest entry keeps a history well formed. */
  lemma EntriesPop(stack: seq<seq<real>>, n: nat)
    requires Entries(stack, n) && |stack| >= 1
    ensures Entries(DropLast(stack), n)
  {
  }

  /** The four projections' outputs for the same input, in gate order. */
  function Outputs(ls: seq<Linear>, v: seq<real>): seq<seq<real>>
    requires |ls| == 4
  {
    [ls[0].forward(v), ls[1].forward(v), ls[2].forward(v), ls[3].forward(v)]
  }

  /** The gate pre-activations of a step: the upward outputs copied into
      contiguous blocks, plus, once a hidden state exists, the lateral outputs
      copied the same way; both are read back by ExtractGates with stride 4. */
  function Preactivation(p: Config, x: seq<real>, h: Option<seq<real>>): (r: seq<seq<real>>)
    requires Shaped(p) && (h.Some? ==> |h.value| == p.outputCount)
    ensures |r| == 4 && forall k :: 0 <= k < 4 ==> |r[k]| == p.outputCount
  {
    var up := Blocks(Outputs(p.upward, x));
    assert |up| == 4 * p.outputCount;
    match h
    case None => Extracted([up])
    case Some(hv) =>
      var lat := Blocks(Outputs(p.lateral, hv));
      assert |lat| == 4 * p.outputCount;
      Extracted([up, lat])
  }

  /** The values one step stores: the gate activations a (input), i (input
      gate), f (forget gate), o (output gate), the new cell and the new hidden state. */
  datatype Step = Step(a: seq<real>, i: seq<real>, f: seq<real>, o: seq<real>, c: seq<real>, h: seq<real>)

  ghost predicate StepShaped(s: Step, n: nat)
  {
    |s.a| == n && |s.i| == n && |s.f| == n && |s.o| == n && |s.c| == n && |s.h| == n
  }

  /** The new cell value at one position: the input activation through the
      input gate plus the previous cell through the forget gate. */
  function NewCell(a: real, i: real, f: real, cPrev: real): real
  {
    a * i + f * cPrev
  }

  /** The new hidden value at one position: tanh of the cell through the output gate. */
  function NewHidden(tanh: Tanh, o: real, c: real): real
  {
    o * tanh(c)
  }

  /** The element-wise cell update of ForwardSingle from the pre-activations r
      and the previous cell. */
  function CellStep(p: Config, r: seq<seq<real>>, cPrev: seq<real>): (s: Step)
    requires Transcendental(p)
    requires |r| == 4 && (forall k :: 0 <= k < 4 ==> |r[k]| == p.outputCount) && |cPrev| == p.outputCount
    ensures StepShaped(s, p.outputCount)
  {
    var n := p.outputCount;
    var a := seq(n, k requires 0 <= k < n => p.tanh(r[0][k]));
    var i := seq(n, k requires 0 <= k < n => Sigmoid(p.exp, r[1][k]));
    var f := seq(n, k requires 0 <= k < n => Sigmoid(p.exp, r[2][k]));
    var o := seq(n, k requires 0 <= k < n => Sigmoid(p.exp, r[3][k]));
    var c := seq(n, k requires 0 <= k < n => NewCell(a[k], i[k], f[k], cPrev[k]));
    var h := seq(n, k requires 0 <= k < n => NewHidden(p.tanh, o[k], c[k]));
    Step(a, i, f, o, c, h)
  }

  /** Everything the LSTM keeps for one lane. */
  datatype Lane = Lane(
    a: seq<seq<real>>, i: seq<seq<real>>, f: seq<seq<real>>, o: seq<seq<real>>, c: seq<seq<real>>,
    h: Option<seq<real>>, gc: Option<seq<real>>, gx: Option<seq<seq<real>>>)

  /** A lane's histories hold outputCount values per entry, its hidden state
      outputCount values, its carried cell gradient and lateral gradients inputCount values. */
  ghost predicate LaneShaped(p: Config, lane: Lane)
  {
    && Entries(lane.a, p.outputCount) && Entries(lane.i, p.outputCount)
    && Entries(lane.f, p.outputCount) && Entries(lane.o, p.outputCount)
    && Entries(lane.c, p.outputCount)
    && (lane.h.Some? ==> |lane.h.value| == p.outputCount)
    && (lane.gc.Some? ==> |lane.gc.value| == p.inputCount)
    && (lane.gx.Some? ==> |lane.gx.value| == 4 && Entries(lane.gx.value, p.inputCount))
  }

  /** The cell a step starts from: the top of the cell history, or zeros when it is empty. */
  function PrevCell(p: Config, lane: Lane): (c: seq<real>)
    requires LaneShaped(p, lane)
    ensures |c| == p.outputCount
  {
    if lane.c == [] then Zeros(p.outputCount) else Last(lane.c)
  }

  /** A lane holding at least one step: every history non-empty and a hidden state. */
  ghost predicate HasStep(lane: Lane)
  {
    lane.a != [] && lane.i != [] && lane.f != [] && lane.o != [] && lane.c != [] && lane.h.Some?
  }

  /** The most recent step of a lane: the tops of its histories and its hidden state. */
  function Newest(lane: Lane): Step
    requires HasStep(lane)
  {
    Step(Last(lane.a), Last(lane.i), Last(lane.f), Last(lane.o), Last(lane.c), lane.h.value)
  }

  /** ForwardSingle on one lane: push a zero cell if the cell history is empty,
      compute the step from the top of the cell history, push one entry onto
      each history, and keep the new hidden state. Returns the lane and the output. */
  function ForwardLane(p: Config, lane: Lane, x: seq<real>): (r: (Lane, seq<real>))
    requires Shaped(p) && LaneShaped(p, lane)
    ensures LaneShaped(p, r.0) && HasStep(r.0) && r.0.h == Some(r.1)
  {
    var s := CellStep(p, Preactivation(p, x, lane.h), PrevCell(p, lane));
    (Pushed(p, lane, s), s.h)
  }

  /** The lane after a step's values are pushed onto its histories (the cell
      history first receiving a zero cell if it is empty) and its hidden state kept. */
  function Pushed(p: Config, lane: Lane, s: Step): (r: Lane)
    requires LaneShaped(p, lane) && StepShaped(s, p.outputCount)
    ensures LaneShaped(p, r) && HasStep(r) && Newest(r) == s
  {
    var c0 := if lane.c == [] then [Zeros(p.outputCount)] else lane.c;
    lane.(a := lane.a + [s.a], i := lane.i + [s.i], f := lane.f + [s.f], o := lane.o + [s.o],
          c := c0 + [s.c], h := Some(s.h))
  }

  /** ForwardLane is the cell update's step pushed onto the lane. */
  lemma ForwardLaneIsPushed(p: Config, lane: Lane, x: seq<real>, s: Step)
    requires Shaped(p) && LaneShaped(p, lane)
    requires s == CellStep(p, Preactivation(p, x, lane.h), PrevCell(p, lane))
    ensures var c0 := if lane.c == [] then [Zeros(p.outputCount)] else lane.c;
      ForwardLane(p, lane, x) ==
        (Lane(lane.a + [s.a], lane.i + [s.i], lane.f + [s.f], lane.o + [s.o], c0 + [s.c], Some(s.h), lane.gc, lane.gx), s.h)
  {
  }

  /** The newest step after ForwardLane is the cell update computed from the
      pre-activations of the input and the previous hidden state, and the previous cell. */
  lemma ForwardLaneTops(p: Config, lane: Lane, x: seq<real>)
    requires Shaped(p) && LaneShaped(p, lane)
    ensures Newest(ForwardLane(p, lane, x).0) == CellStep(p, Preactivation(p, x, lane.h), PrevCell(p, lane))
  {
  }

  /** The LSTM cell equations, position by position: c = a*i + f*cPrev and h = o*tanh(c). */
  ghost predicate CellEquations(p: Config, s: Step, cPrev: seq<real>)
  {
    && StepShaped(s, |cPrev|)
    && forall k :: 0 <= k < |cPrev| ==>
         && s.c[k] == s.a[k] * s.i[k] + s.f[k] * cPrev[k]
         && s.h[k] == s.o[k] * p.tanh(s.c[k])
  }

  /** The ranges of the activations: a within [-1, 1] (tanh), i, f and o within (0, 1] (sigmoid). */
  ghost predicate GateRanges(s: Step, n: nat)
  {
    && StepShaped(s, n)
    && forall k :: 0 <= k < n ==>
         && -1.0 <= s.a[k] <= 1.0
         && 0.0 < s.i[k] <= 1.0 && 0.0 < s.f[k] <= 1.0 && 0.0 < s.o[k] <= 1.0
  }

  /** The hidden state stays within [-1, 1] and each cell value moves by at most one. */
  ghost predicate Contained(s: Step, cPrev: seq<real>)
  {
    && StepShaped(s, |cPrev|)
    && forall k :: 0 <= k < |cPrev| ==> -1.0 <= s.h[k] <= 1.0 && Abs(s.c[k]) <= Abs(cPrev[k]) + 1.0
  }

  /** The element-wise cell update satisfies the cell equations and keeps the
      activations within their ranges. */
  lemma CellStepFacts(p: Config, r: seq<seq<real>>, cPrev: seq<real>)
    requires Transcendental(p)
    requires |r| == 4 && (forall k :: 0 <= k < 4 ==> |r[k]| == p.outputCount) && |cPrev| == p.outputCount
    ensures CellEquations(p, CellStep(p, r, cPrev), cPrev)
    ensures GateRanges(CellStep(p, r, cPrev), p.outputCount)
  {
    var s := CellStep(p, r, cPrev);
    assert CellEquations(p, s, cPrev) by {
      forall k | 0 <= k < p.outputCount
        ensures s.c[k] == s.a[k] * s.i[k] + s.f[k] * cPrev[k] && s.h[k] == s.o[k] * p.tanh(s.c[k])
      {
        CellStepFactsAt(p, r, cPrev, k);
      }
    }
    assert GateRanges(s, p.outputCount) by {
      forall k | 0 <= k < p.outputCount
        ensures -1.0 <= s.a[k] <= 1.0 && 0.0 < s.i[k] <= 1.0 && 0.0 < s.f[k] <= 1.0 && 0.0 < s.o[k] <= 1.0
      {
        CellStepFactsAt(p, r, cPrev, k);
      }
    }
  }

  /** CellStepFacts at one position. */
  lemma CellStepFactsAt(p: Config, r: seq<seq<real>>, cPrev: seq<real>, k: nat)
    requires Transcendental(p)
    requires |r| == 4 && (forall k :: 0 <= k < 4 ==> |r[k]| == p.outputCount) && |cPrev| == p.outputCount
    requires k < p.outputCount
    ensures var s := CellStep(p, r, cPrev);
      && s.c[k] == s.a[k] * s.i[k] + s.f[k] * cPrev[k]
      && s.h[k] == s.o[k] * p.tanh(s.c[k])
      && -1.0 <= s.a[k] <= 1.0
      && 0.0 < s.i[k] <= 1.0 && 0.0 < s.f[k] <= 1.0 && 0.0 < s.o[k] <= 1.0
  {
    var s := CellStep(p, r, cPrev);
    TanhBounded(p, r[0][k]);
    assert s.a[k] == p.tanh(r[0][k]);
    assert s.i[k] == Sigmoid(p.exp, r[1][k]) && s.f[k] == Sigmoid(p.exp, r[2][k]) && s.o[k] == Sigmoid(p.exp, r[3][k]);
  }

  /** Any step obeying the cell equations with activations in range is contained. */
  lemma EquationsContain(p: Config, s: Step, cPrev: seq<real>)
    requires Transcendental(p) && CellEquations(p, s, cPrev) && GateRanges(s, |cPrev|)
    ensures Contained(s, cPrev)
  {
    forall k | 0 <= k < |cPrev|
      ensures -1.0 <= s.h[k] <= 1.0 && Abs(s.c[k]) <= Abs(cPrev[k]) + 1.0
    {
      var a, i, f, o, c := s.a[k], s.i[k], s.f[k], s.o[k], s.c[k];
      var t := p.tanh(c);
      TanhBounded(p, c);
      ScaledWithin(o, t);
      assert s.h[k] == o * t;
      ScaledWithin(i, a);
      ScaledWithin(f, cPrev[k]);
      var ia, fc := i * a, f * cPrev[k];
      assert c == ia + fc;
      assert -1.0 <= ia <= 1.0;
      assert -Abs(cPrev[k]) <= fc <= Abs(cPrev[k]);
    }
  }

  /** Forward pushes exactly one entry onto each gate history and one onto the
      cell history, two when that history was empty, the first of them zeros. */
  lemma ForwardPushesOneStep(p: Config, lane: Lane, x: seq<real>)
    requires Shaped(p) && LaneShaped(p, lane)
    ensures var r := ForwardLane(p, lane, x).0;
      && |r.a| == |lane.a| + 1 && DropLast(r.a) == lane.a
      && |r.i| == |lane.i| + 1 && DropLast(r.i) == lane.i
      && |r.f| == |lane.f| + 1 && DropLast(r.f) == lane.f
      && |r.o| == |lane.o| + 1 && DropLast(r.o) == lane.o
      && (lane.c != [] ==> |r.c| == |lane.c| + 1 && DropLast(r.c) == lane.c)
      && (lane.c == [] ==> |r.c| == 2 && r.c[0] == Zeros(p.outputCount))
      && r.gc == lane.gc && r.gx == lane.gx
  {
    var r := ForwardLane(p, lane, x).0;
    assert DropLast(r.a) == lane.a && DropLast(r.i) == lane.i;
    assert DropLast(r.f) == lane.f && DropLast(r.o) == lane.o;
    if lane.c != [] {
      assert DropLast(r.c) == lane.c;
    }
  }

  /** Each step obeys the cell equations against the cell on top of the history
      before the step, or zeros on a lane's first step, and its activations lie in range. */
  lemma ForwardCellRecurrence(p: Config, lane: Lane, x: seq<real>)
    requires Shaped(p) && LaneShaped(p, lane)
    ensures var s := Newest(ForwardLane(p, lane, x).0);
      CellEquations(p, s, PrevCell(p, lane)) && GateRanges(s, p.outputCount)
  {
    ForwardLaneTops(p, lane, x);
    CellStepFacts(p, Preactivation(p, x, lane.h), PrevCell(p, lane));
  }

  /** On a lane's first step (no hidden state yet) only the upward projections
      are used: two LSTMs that differ only in their lateral projections agree. */
  lemma FirstStepIgnoresLateral(p: Config, q: Config, lane: Lane, x: seq<real>)
    requires Shaped(p) && Shaped(q) && LaneShaped(p, lane)
    requires q == p.(lateral := q.lateral)
    requires lane.h.None?
    ensures ForwardLane(p, lane, x) == ForwardLane(q, lane, x)
  {
    var pre, c := Preactivation(p, x, lane.h), PrevCell(p, lane);
    assert pre == Preactivation(q, x, lane.h);
    assert c == PrevCell(q, lane);
    var s, t := CellStep(p, pre, c), CellStep(q, pre, c);
    assert s.a == t.a && s.i == t.i && s.f == t.f && s.o == t.o;
    assert s.c == t.c;
    assert s.h == t.h;
    ForwardLaneIsPushed(p, lane, x, s);
    ForwardLaneIsPushed(q, lane, x, t);
  }

  /** The hidden state a step returns stays within [-1, 1], and no cell value
      moves by more than one from the previous cell. */
  lemma ForwardBounded(p: Config, lane: Lane, x: seq<real>)
    requires Shaped(p) && LaneShaped(p, lane)
    ensures Contained(Newest(ForwardLane(p, lane, x).0), PrevCell(p, lane))
  {
    ForwardCellRecurrence(p, lane, x);
    EquationsContain(p, Newest(ForwardLane(p, lane, x).0), PrevCell(p, lane));
  }

  // ---------------------------------------------------------------------------
  // One backward step

  /** Add v into the front of g, position by position. */
  function AddInto(g: seq<real>, v: seq<real>): (r: seq<real>)
    requires |v| <= |g|
    ensures |r| == |g|
  {
    seq(|g|, j requires 0 <= j < |g| => if j < |v| then g[j] + v[j] else g[j])
  }

  /** The hidden-state gradient after the lateral projections' gradients of the
      previous backward step have been added into it, one projection after the other. */
  function Feedback(p: Config, gx: Option<seq<seq<real>>>, gh: seq<real>): (r: seq<real>)
    requires Shaped(p) && p.outputCount <= |gh| && (gx.Some? ==> |gx.value| == 4)
    ensures |r| == |gh|
  {
    match gx
    case None => gh
    case Some(g) => AddLateral(p, g, gh, 4)
  }

  /** The gradients of the first n lateral projections added into gh. */
  function AddLateral(p: Config, g: seq<seq<real>>, gh: seq<real>, n: nat): (r: seq<real>)
    requires Shaped(p) && p.outputCount <= |gh| && |g| == 4 && n <= 4
    ensures |r| == |gh|
  {
    if n == 0 then gh else AddInto(AddLateral(p, g, gh, n - 1), p.lateral[n - 1].backward(g[n - 1]))
  }

  /** The gradients of one backward step: the carried cell gradient and the four gate gradients. */
  datatype Grads = Grads(gc: seq<real>, ga: seq<real>, gi: seq<real>, gf: seq<real>, go: seq<real>)

  /** The cell gradient carried into step k before the forget gate scales it:
      the part that flows through the hidden state plus the part carried from the later step. */
  function CarriedCell(p: Config, gh: real, o: real, c: real, gcOld: real): real
  {
    gh * o * GradTanh(p.tanh(c)) + gcOld
  }

  /** The product of three factors, the shape of every gradient of the element loop. */
  function Product(x: real, y: real, z: real): real
  {
    x * y * z
  }

  /** The element loop of BackwardSingle over the first inputCount positions. */
  function GateGrads(p: Config, gh: seq<real>, gc: seq<real>, lc: seq<real>, cPrev: seq<real>,
                     la: seq<real>, li: seq<real>, lf: seq<real>, lo: seq<real>): (g: Grads)
    requires |gc| == p.inputCount && p.inputCount <= |gh|
    requires p.inputCount <= |lc| && p.inputCount <= |cPrev|
    requires p.inputCount <= |la| && p.inputCount <= |li| && p.inputCount <= |lf| && p.inputCount <= |lo|
    ensures |g.gc| == p.inputCount && |g.ga| == p.inputCount && |g.gi| == p.inputCount
    ensures |g.gf| == p.inputCount && |g.go| == p.inputCount
  {
    var n := p.inputCount;
    var carried := seq(n, k requires 0 <= k < n => CarriedCell(p, gh[k], lo[k], lc[k], gc[k]));
    Grads(
      seq(n, k requires 0 <= k < n => Product(carried[k], lf[k], 1.0)),
      seq(n, k requires 0 <= k < n => Product(carried[k], li[k], GradTanh(la[k]))),
      seq(n, k requires 0 <= k < n => Product(carried[k], la[k], GradSigmoid(li[k]))),
      seq(n, k requires 0 <= k < n => Product(carried[k], cPrev[k], GradSigmoid(lf[k]))),
      seq(n, k requires 0 <= k < n => Product(gh[k], p.tanh(lc[k]), GradSigmoid(lo[k]))))
  }

  /** The four upward projections' input gradients added position by position. */
  function InputGradient(p: Config, r: seq<seq<real>>): (gx: seq<real>)
    requires Shaped(p) && |r| == 4
    ensures |gx| == p.inputCount
  {
    var n := p.inputCount;
    var ga, gi, gf, go := p.upward[0].backward(r[0]), p.upward[1].backward(r[1]),
                          p.upward[2].backward(r[2]), p.upward[3].backward(r[3]);
    seq(n, k requires 0 <= k < n => ga[k] + gi[k] + gf[k] + go[k])
  }

  /** BackwardSingle needs a forward step to undo: two cells (the popped one and
      the one beneath it) and one entry in each gate history. Its element loop
      runs over inputCount positions of histories of outputCount values, which
      stays in bounds only when inputCount <= outputCount. */
  ghost predicate CanBackward(p: Config, lane: Lane, gh: seq<real>)
  {
    && p.inputCount <= p.outputCount && p.outputCount <= |gh|
    && |lane.c| >= 2 && |lane.a| >= 1 && |lane.i| >= 1 && |lane.f| >= 1 && |lane.o| >= 1
  }

  /** BackwardSingle on one lane: add the lateral feedback into gh, then unwind
      one step. Returns the lane, gh as modified, and the input gradient. */
  function BackwardLane(p: Config, lane: Lane, gh: seq<real>): (r: (Lane, seq<real>, seq<real>))
    requires Shaped(p) && LaneShaped(p, lane) && CanBackward(p, lane, gh)
    ensures LaneShaped(p, r.0) && |r.1| == |gh| && |r.2| == p.inputCount
  {
    var gh1 := Feedback(p, lane.gx, gh);
    var u := Unwind(p, lane, gh1);
    (u.0, gh1, u.1)
  }

  /** The cell gradient carried from the later backward step, or zeros on the
      first backward step (gcPrev allocated as `new double[InputCount]`). */
  function CarriedBefore(p: Config, lane: Lane): (gc: seq<real>)
    requires LaneShaped(p, lane)
    ensures |gc| == p.inputCount
  {
    if lane.gc.None? then Zeros(p.inputCount) else lane.gc.value
  }

  /** The rest of BackwardSingle, from the hidden-state gradient after the
      feedback: pop one entry from each history, compute the gate gradients
      against the new top of the cell history, keep the carried cell gradient
      and the restored gate gradients for the next backward step, and return
      the lane and the input gradient. */
  function Unwind(p: Config, lane: Lane, gh: seq<real>): (r: (Lane, seq<real>))
    requires Shaped(p) && LaneShaped(p, lane) && CanBackward(p, lane, gh)
    ensures LaneShaped(p, r.0) && |r.1| == p.inputCount
  {
    var gc0 := CarriedBefore(p, lane);
    var c1 := DropLast(lane.c);
    var g := GateGrads(p, gh, gc0, Last(lane.c), Last(c1), Last(lane.a), Last(lane.i), Last(lane.f), Last(lane.o));
    var r := Restored([g.ga, g.gi, g.gf, g.go]);
    (Lane(DropLast(lane.a), DropLast(lane.i), DropLast(lane.f), DropLast(lane.o), c1, lane.h, Some(g.gc), Some(r)),
     InputGradient(p, r))
  }

  /** Unwind in terms of the pieces BackwardSingle computes: the gate
      gradients, the restored gradients and the input gradient. */
  lemma UnwindIs(p: Config, lane: Lane, gh: seq<real>, g: Grads, r: seq<seq<real>>, gx: seq<real>)
    requires Shaped(p) && LaneShaped(p, lane) && CanBackward(p, lane, gh)
    requires g == GateGrads(p, gh, CarriedBefore(p, lane),
                            Last(lane.c), Last(DropLast(lane.c)), Last(lane.a), Last(lane.i), Last(lane.f), Last(lane.o))
    requires r == Restored([g.ga, g.gi, g.gf, g.go])
    requires gx == InputGradient(p, r)
    ensures Unwind(p, lane, gh) ==
      (Lane(DropLast(lane.a), DropLast(lane.i), DropLast(lane.f), DropLast(lane.o), DropLast(lane.c), lane.h, Some(g.gc), Some(r)), gx)
  {
  }

  /** Backward pops exactly one entry from each history and leaves the hidden state alone. */
  lemma BackwardPopsOneStep(p: Config, lane: Lane, gh: seq<real>)
    requires Shaped(p) && LaneShaped(p, lane) && CanBackward(p, lane, gh)
    ensures var r := BackwardLane(p, lane, gh).0;
      && r.a == DropLast(lane.a) && r.i == DropLast(lane.i) && r.f == DropLast(lane.f)
      && r.o == DropLast(lane.o) && r.c == DropLast(lane.c) && r.h == lane.h
      && r.gc.Some? && r.gx.Some?
  {
  }

  /** The carried cell gradient: gc[k] = (gh[k]*o[k]*(1 - tanh(c[k])^2) + old[k]) * f[k],
      with o, c and f the popped tops of their histories, gh the hidden-state
      gradient after the lateral feedback, and old the previous carried gradient
      or zero: the gradient through h = o*tanh(c) plus the one carried from the
      later step, passed back through the forget gate. */
  lemma BackwardCarriesCellGradient(p: Config, lane: Lane, gh: seq<real>)
    requires Shaped(p) && LaneShaped(p, lane) && CanBackward(p, lane, gh)
    ensures var gc := Unwind(p, lane, gh).0.gc;
      && gc.Some? && |gc.value| == p.inputCount
      && forall k :: 0 <= k < p.inputCount ==>
        gc.value[k] == CarriedCell(p, gh[k], Last(lane.o)[k], Last(lane.c)[k], CarriedBefore(p, lane)[k]) * Last(lane.f)[k]
  {
    var gc0, lc, cPrev := CarriedBefore(p, lane), Last(lane.c), Last(DropLast(lane.c));
    var g := GateGrads(p, gh, gc0, lc, cPrev, Last(lane.a), Last(lane.i), Last(lane.f), Last(lane.o));
    var r := Restored([g.ga, g.gi, g.gf, g.go]);
    UnwindIs(p, lane, gh, g, r, InputGradient(p, r));
    CarriedThroughForget(p, gh, gc0, lc, cPrev, Last(lane.a), Last(lane.i), Last(lane.f), Last(lane.o));
  }

  /** The carried gradient of the element loop at each position. */
  lemma CarriedThroughForget(p: Config, gh: seq<real>, gc: seq<real>, lc: seq<real>, cPrev: seq<real>,
                             la: seq<real>, li: seq<real>, lf: seq<real>, lo: seq<real>)
    requires |gc| == p.inputCount && p.inputCount <= |gh|
    requires p.inputCount <= |lc| && p.inputCount <= |cPrev|
    requires p.inputCount <= |la| && p.inputCount <= |li| && p.inputCount <= |lf| && p.inputCount <= |lo|
    ensures var g := GateGrads(p, gh, gc, lc, cPrev, la, li, lf, lo);
      forall k :: 0 <= k < p.inputCount ==> g.gc[k] == CarriedCell(p, gh[k], lo[k], lc[k], gc[k]) * lf[k]
  {
    var g := GateGrads(p, gh, gc, lc, cPrev, la, li, lf, lo);
    forall k | 0 <= k < p.inputCount
      ensures g.gc[k] == CarriedCell(p, gh[k], lo[k], lc[k], gc[k]) * lf[k]
    {
      assert g.gc[k] == Product(CarriedCell(p, gh[k], lo[k], lc[k], gc[k]), lf[k], 1.0);
    }
  }

  /** Without lateral feedback, hidden-state gradient or carried cell gradient,
      nothing is carried to the next backward step and every gate gradient is zero. */
  lemma ZeroGradientCarriesNothing(p: Config, lane: Lane, gh: seq<real>)
    requires Shaped(p) && LaneShaped(p, lane) && CanBackward(p, lane, gh)
    requires lane.gx.None? && lane.gc.None?
    requires forall k :: 0 <= k < |gh| ==> gh[k] == 0.0
    ensures var r := BackwardLane(p, lane, gh).0;
      && r.gc == Some(Zeros(p.inputCount))
      && r.gx.value == [Zeros(p.inputCount), Zeros(p.inputCount), Zeros(p.inputCount), Zeros(p.inputCount)]
  {
    var n := p.inputCount;
    var c1 := DropLast(lane.c);
    GateGradsZero(p, gh, Zeros(n), Last(lane.c), Last(c1), Last(lane.a), Last(lane.i), Last(lane.f), Last(lane.o));
    RestoredZeros(n);
  }

  /** With zero hidden-state and carried gradients every gradient of the element loop is zero. */
  lemma GateGradsZero(p: Config, gh: seq<real>, gc: seq<real>, lc: seq<real>, cPrev: seq<real>,
                      la: seq<real>, li: seq<real>, lf: seq<real>, lo: seq<real>)
    requires |gc| == p.inputCount && p.inputCount <= |gh|
    requires p.inputCount <= |lc| && p.inputCount <= |cPrev|
    requires p.inputCount <= |la| && p.inputCount <= |li| && p.inputCount <= |lf| && p.inputCount <= |lo|
    requires forall k :: 0 <= k < |gh| ==> gh[k] == 0.0
    requires forall k :: 0 <= k < |gc| ==> gc[k] == 0.0
    ensures var g := GateGrads(p, gh, gc, lc, cPrev, la, li, lf, lo);
      var z := Zeros(p.inputCount);
      g.gc == z && g.ga == z && g.gi == z && g.gf == z && g.go == z
  {
    var n := p.inputCount;
    var g := GateGrads(p, gh, gc, lc, cPrev, la, li, lf, lo);
    forall k | 0 <= k < n
      ensures g.gc[k] == 0.0 && g.ga[k] == 0.0 && g.gi[k] == 0.0 && g.gf[k] == 0.0 && g.go[k] == 0.0
    {
      assert CarriedCell(p, gh[k], lo[k], lc[k], gc[k]) == 0.0;
    }
    assert g.gc == Zeros(n) && g.ga == Zeros(n) && g.gi == Zeros(n);
    assert g.gf == Zeros(n) && g.go == Zeros(n);
  }

  /** Balanced steps: a backward step right after a forward step on the same
      lane restores every history to what it was before the forward step (the
      cell history keeps the zero cell the forward step pushed onto an empty one). */
  lemma BackwardUndoesForward(p: Config, lane: Lane, x: seq<real>, gh: seq<real>)
    requires Shaped(p) && LaneShaped(p, lane)
    requires p.inputCount <= p.outputCount && p.outputCount <= |gh|
    ensures var r := ForwardLane(p, lane, x).0;
      && CanBackward(p, r, gh)
      && var b := BackwardLane(p, r, gh).0;
      && b.a == lane.a && b.i == lane.i && b.f == lane.f && b.o == lane.o
      && b.c == (if lane.c == [] then [Zeros(p.outputCount)] else lane.c)
  {
    ForwardPushesOneStep(p, lane, x);
    var r := ForwardLane(p, lane, x).0;
    if lane.c == [] {
      assert DropLast(r.c) == [Zeros(p.outputCount)];
    }
  }

  /** Add v into the front of gh in place, position by position. */
  method AddInPlace(gh: array<real>, v: seq<real>)
    requires |v| <= gh.Length
    modifies gh
    ensures gh[..] == AddInto(old(gh[..]), v)
  {
    var j := 0;
    while j < |v|
      invariant 0 <= j <= |v|
      invariant forall t :: 0 <= t < j ==> gh[t] == old(gh[t]) + v[t]
      invariant forall t :: j <= t < gh.Length ==> gh[t] == old(gh[t])
    {
      gh[j] := gh[j] + v[j];
      j := j + 1;
    }
  }

  // ---------------------------------------------------------------------------
  // The LSTM class

  class LSTM {
    const p: Config
    var aParam: seq<seq<seq<real>>>
    var iParam: seq<seq<seq<real>>>
    var fParam: seq<seq<seq<real>>>
    var oParam: seq<seq<seq<real>>>
    var cParam: seq<seq<seq<real>>>
    var hParam: seq<Option<seq<real>>>
    var gxPrev: seq<Option<seq<seq<real>>>>
    var gcPrev: seq<Option<seq<real>>>

    /** The lanes ForwardSingle and BackwardSingle can address: those that exist
        in both the gate histories and the cell-side arrays. */
    function Lanes(): nat
      reads this
    {
      if |aParam| < |cParam| then |aParam| else |cParam|
    }

    ghost predicate Valid()
      reads this
    {
      && Shaped(p)
      && |iParam| == |aParam| && |fParam| == |aParam| && |oParam| == |aParam|
      && |hParam| == |cParam| && |gxPrev| == |cParam| && |gcPrev| == |cParam|
      && (forall b :: 0 <= b < |aParam| ==>
            Entries(aParam[b], p.outputCount) && Entries(iParam[b], p.outputCount)
            && Entries(fParam[b], p.outputCount) && Entries(oParam[b], p.outputCount))
      && (forall b :: 0 <= b < |cParam| ==>
            && Entries(cParam[b], p.outputCount)
            && (hParam[b].Some? ==> |hParam[b].value| == p.outputCount)
            && (gcPrev[b].Some? ==> |gcPrev[b].value| == p.inputCount)
            && (gxPrev[b].Some? ==> |gxPrev[b].value| == 4 && Entries(gxPrev[b].value, p.inputCount)))
    }

    /** Everything kept for lane b. */
    function LaneAt(b: nat): (lane: Lane)
      reads this
      requires Valid() && b < Lanes()
      ensures LaneShaped(p, lane)
    {
      Lane(aParam[b], iParam[b], fParam[b], oParam[b], cParam[b], hParam[b], gcPrev[b], gxPrev[b])
    }

    /** The constructor: one lane of cell history, hidden state and carried
        gradients, and no gate histories until InitBatch allocates them. */
    constructor (p: Config)
      requires Shaped(p)
      ensures Valid() && this.p == p
      ensures aParam == [] && iParam == [] && fParam == [] && oParam == []
      ensures cParam == [[]] && hParam == [None] && gxPrev == [None] && gcPrev == [None]
    {
      this.p := p;
      aParam, iParam, fParam, oParam := [], [], [], [];
      cParam := [[]];
      hParam := [None];
      gxPrev := [None];
      gcPrev := [None];
    }

    /** InitBatch: n lanes, every history empty, no hidden state and no carried gradient. */
    method InitBatch(n: nat)
      requires Valid()
      modifies this
      ensures Valid() && Lanes() == n
      ensures aParam == seq(n, _ => []) && iParam == aParam && fParam == aParam && oParam == aParam
      ensures cParam == aParam
      ensures hParam == seq(n, _ => None) && gcPrev == seq(n, _ => None) && gxPrev == seq(n, _ => None)
    {
      hParam := seq(n, _ => None);
      aParam := seq(n, _ => []);
      iParam := seq(n, _ => []);
      fParam := seq(n, _ => []);
      oParam := seq(n, _ => []);
      cParam := seq(n, _ => []);
      gcPrev := seq(n, _ => None);
      gxPrev := seq(n, _ => None);
    }

    /** ResetState: empty every cell history and forget every hidden state and
        carried gradient, keeping the number of lanes; the gate histories stay. */
    method ResetState()
      requires Valid()
      modifies this`cParam, this`hParam, this`gcPrev, this`gxPrev
      ensures Valid()
      ensures cParam == seq(|old(cParam)|, _ => [])
      ensures hParam == seq(|old(hParam)|, _ => None)
      ensures gcPrev == seq(|old(gcPrev)|, _ => None)
      ensures gxPrev == seq(|old(gxPrev)|, _ => None)
    {
      cParam := seq(|cParam|, _ => []);
      hParam := seq(|hParam|, _ => None);
      gcPrev := seq(|gcPrev|, _ => None);
      gxPrev := seq(|gxPrev|, _ => None);
    }

    /** The element loop of ForwardSingle: the six buffers of one step filled
        position by position, each starting zeroed as `new double[n]` does. */
    method CellLoop(r: seq<seq<real>>, cPrev: seq<real>) returns (s: Step)
      requires Transcendental(p)
      requires |r| == 4 && (forall k :: 0 <= k < 4 ==> |r[k]| == p.outputCount) && |cPrev| == p.outputCount
      ensures s == CellStep(p, r, cPrev)
    {
      ghost var want := CellStep(p, r, cPrev);
      var n := p.outputCount;
      var la, li, lf, lo, cResult, h := Zeros(n), Zeros(n), Zeros(n), Zeros(n), Zeros(n), Zeros(n);
      var i := 0;
      while i < n
        invariant 0 <= i <= n
        invariant |la| == n && |li| == n && |lf| == n && |lo| == n && |cResult| == n && |h| == n
        invariant forall t :: 0 <= t < i ==> la[t] == want.a[t]
        invariant forall t :: 0 <= t < i ==> li[t] == want.i[t]
        invariant forall t :: 0 <= t < i ==> lf[t] == want.f[t]
        invariant forall t :: 0 <= t < i ==> lo[t] == want.o[t]
        invariant forall t :: 0 <= t < i ==> cResult[t] == want.c[t]
        invariant forall t :: 0 <= t < i ==> h[t] == want.h[t]
      {
        la := la[i := p.tanh(r[0][i])];
        li := li[i := Sigmoid(p.exp, r[1][i])];
        lf := lf[i := Sigmoid(p.exp, r[2][i])];
        lo := lo[i := Sigmoid(p.exp, r[3][i])];
        cResult := cResult[i := NewCell(la[i], li[i], lf[i], cPrev[i])];
        h := h[i := NewHidden(p.tanh, lo[i], cResult[i])];
        i := i + 1;
      }
      s := Step(la, li, lf, lo, cResult, h);
    }

    /** ForwardSingle on lane b. */
    method ForwardSingle(x: seq<real>, b: nat) returns (h: seq<real>)
      requires Valid() && b < Lanes()
      modifies this`aParam, this`iParam, this`fParam, this`oParam, this`cParam, this`hParam
      ensures Valid() && Lanes() == old(Lanes())
      ensures var (lane, out) := ForwardLane(p, old(LaneAt(b)), x);
        && h == out
        && aParam == old(aParam)[b := lane.a] && iParam == old(iParam)[b := lane.i]
        && fParam == old(fParam)[b := lane.f] && oParam == old(oParam)[b := lane.o]
        && cParam == old(cParam)[b := lane.c] && hParam == old(hParam)[b := lane.h]
    {
      ghost var lane0 := LaneAt(b);
      var n := p.outputCount;
      var cells := cParam[b];
      if |cells| == 0 {
        cells := [Zeros(n)];
      }
      var s := StepOf(x, hParam[b], cells[|cells| - 1]);
      assert PrevCell(p, lane0) == cells[|cells| - 1];
      assert ForwardLane(p, lane0, x) == (Pushed(p, lane0, s), s.h);
      PushStep(b, cells, s);
      h := s.h;
    }

    /** The computation of ForwardSingle: the gate pre-activations, then the element loop. */
    method StepOf(x: seq<real>, hv: Option<seq<real>>, cPrev: seq<real>) returns (s: Step)
      requires Shaped(p) && (hv.Some? ==> |hv.value| == p.outputCount) && |cPrev| == p.outputCount
      ensures s == CellStep(p, Preactivation(p, x, hv), cPrev)
    {
      var r := GatesOf(x, hv);
      s := CellLoop(r, cPrev);
    }

    /** The gate pre-activations of ForwardSingle: the upward outputs, plus the
        lateral outputs once a hidden state exists, read back with stride 4. */
    method GatesOf(x: seq<real>, hv: Option<seq<real>>) returns (r: seq<seq<real>>)
      requires Shaped(p) && (hv.Some? ==> |hv.value| == p.outputCount)
      ensures r == Preactivation(p, x, hv)
    {
      var up := Blocks(Outputs(p.upward, x));
      if hv.Some? {
        var lat := Blocks(Outputs(p.lateral, hv.value));
        r := ExtractGates([up, lat]);
      } else {
        r := ExtractGates([up]);
      }
    }

    /** The pushes at the end of ForwardSingle: one entry onto each history of
        lane b (the cell history given as it stands after a possible zero cell) and the new hidden state. */
    method PushStep(b: nat, cells: seq<seq<real>>, s: Step)
      requires Valid() && b < Lanes()
      requires cells == (if cParam[b] == [] then [Zeros(p.outputCount)] else cParam[b])
      requires StepShaped(s, p.outputCount)
      modifies this`aParam, this`iParam, this`fParam, this`oParam, this`cParam, this`hParam
      ensures Valid() && Lanes() == old(Lanes())
      ensures var next := Pushed(p, old(LaneAt(b)), s);
        && aParam == old(aParam)[b := next.a] && iParam == old(iParam)[b := next.i]
        && fParam == old(fParam)[b := next.f] && oParam == old(oParam)[b := next.o]
        && cParam == old(cParam)[b := next.c] && hParam == old(hParam)[b := next.h]
    {
      var n := p.outputCount;
      cParam := cParam[b := cells + [s.c]];
      aParam := aParam[b := aParam[b] + [s.a]];
      iParam := iParam[b := iParam[b] + [s.i]];
      fParam := fParam[b := fParam[b] + [s.f]];
      oParam := oParam[b := oParam[b] + [s.o]];
      hParam := hParam[b := Some(s.h)];
      forall c | 0 <= c < |aParam|
        ensures Entries(aParam[c], n) && Entries(iParam[c], n) && Entries(fParam[c], n) && Entries(oParam[c], n)
      {
        if c == b {
          EntriesPush(old(aParam)[b], s.a, n);
          EntriesPush(old(iParam)[b], s.i, n);
          EntriesPush(old(fParam)[b], s.f, n);
          EntriesPush(old(oParam)[b], s.o, n);
        }
      }
      forall c | 0 <= c < |cParam|
        ensures Entries(cParam[c], n) && (hParam[c].Some? ==> |hParam[c].value| == n)
      {
        if c == b {
          EntriesPush(cells, s.c, n);
        }
      }
    }

    /** Predict: ForwardSingle on lane b. */
    method Predict(x: seq<real>, b: nat) returns (h: seq<real>)
      requires Valid() && b < Lanes()
      modifies this`aParam, this`iParam, this`fParam, this`oParam, this`cParam, this`hParam
      ensures Valid() && Lanes() == old(Lanes())
      ensures var (lane, out) := ForwardLane(p, old(LaneAt(b)), x);
        && h == out
        && aParam == old(aParam)[b := lane.a] && iParam == old(iParam)[b := lane.i]
        && fParam == old(fParam)[b := lane.f] && oParam == old(oParam)[b := lane.o]
        && cParam == old(cParam)[b := lane.c] && hParam == old(hParam)[b := lane.h]
    {
      h := ForwardSingle(x, b);
    }

    /** BackwardSingle on lane b: gh is updated in place by the lateral feedback,
        one entry is popped from each history, and the carried cell gradient
        and the restored gate gradients are kept for the next backward step. */
    method BackwardSingle(gh: array<real>, b: nat) returns (gx: seq<real>)
      requires Valid() && b < Lanes() && CanBackward(p, LaneAt(b), gh[..])
      modifies this`aParam, this`iParam, this`fParam, this`oParam, this`cParam, this`gcPrev, this`gxPrev, gh
      ensures Valid() && Lanes() == old(Lanes()) && hParam == old(hParam)
      ensures var (lane, gh1, out) := BackwardLane(p, old(LaneAt(b)), old(gh[..]));
        && gh[..] == gh1 && gx == out
        && aParam == old(aParam)[b := lane.a] && iParam == old(iParam)[b := lane.i]
        && fParam == old(fParam)[b := lane.f] && oParam == old(oParam)[b := lane.o]
        && cParam == old(cParam)[b := lane.c]
        && gcPrev == old(gcPrev)[b := lane.gc] && gxPrev == old(gxPrev)[b := lane.gx]
    {
      ghost var lane0 := LaneAt(b);
      if gxPrev[b].Some? {
        AddFeedback(gh, gxPrev[b].value);
      }
      assert gh[..] == Feedback(p, lane0.gx, old(gh[..]));
      gx := UnwindStep(gh[..], b);
    }

    /** BackwardSingle on lane b after the lateral feedback: the pops, the
        element loop, RestoreGates and the upward projections' gradients. */
    method UnwindStep(gh: seq<real>, b: nat) returns (gx: seq<real>)
      requires Valid() && b < Lanes() && CanBackward(p, LaneAt(b), gh)
      modifies this`aParam, this`iParam, this`fParam, this`oParam, this`cParam, this`gcPrev, this`gxPrev
      ensures Valid() && Lanes() == old(Lanes()) && hParam == old(hParam)
      ensures var (lane, out) := Unwind(p, old(LaneAt(b)), gh);
        && gx == out
        && aParam == old(aParam)[b := lane.a] && iParam == old(iParam)[b := lane.i]
        && fParam == old(fParam)[b := lane.f] && oParam == old(oParam)[b := lane.o]
        && cParam == old(cParam)[b := lane.c]
        && gcPrev == old(gcPrev)[b := lane.gc] && gxPrev == old(gxPrev)[b := lane.gx]
    {
      ghost var lane0 := LaneAt(b);
      var n := p.inputCount;
      var gc := if gcPrev[b].None? then Zeros(n) else gcPrev[b].value;
      assert gc == CarriedBefore(p, lane0);
      var cells := cParam[b];
      var lc := cells[|cells| - 1];
      var cPrev := cells[|cells| - 2];
      var la, li, lf, lo := Last(aParam[b]), Last(iParam[b]), Last(fParam[b]), Last(oParam[b]);
      assert lc == Last(lane0.c) && cPrev == Last(DropLast(lane0.c));
      assert la == Last(lane0.a) && li == Last(lane0.i) && lf == Last(lane0.f) && lo == Last(lane0.o);
      var g, r;
      g, r, gx := Gradients(gh, gc, lc, cPrev, la, li, lf, lo);
      UnwindIs(p, lane0, gh, g, r, gx);
      PopStep(b, g.gc, r);
    }

    /** The gradients of BackwardSingle from the popped tops: the element loop,
        the gate gradients restored to the interleaved layout, and the input gradient. */
    method Gradients(gh: seq<real>, gc: seq<real>, lc: seq<real>, cPrev: seq<real>,
                     la: seq<real>, li: seq<real>, lf: seq<real>, lo: seq<real>) returns (g: Grads, r: seq<seq<real>>, gx: seq<real>)
      requires Shaped(p)
      requires |gc| == p.inputCount && p.inputCount <= |gh|
      requires p.inputCount <= |lc| && p.inputCount <= |cPrev|
      requires p.inputCount <= |la| && p.inputCount <= |li| && p.inputCount <= |lf| && p.inputCount <= |lo|
      ensures g == GateGrads(p, gh, gc, lc, cPrev, la, li, lf, lo)
      ensures r == Restored([g.ga, g.gi, g.gf, g.go]) && gx == InputGradient(p, r)
    {
      g := GradLoop(gh, gc, lc, cPrev, la, li, lf, lo);
      r := RestoreGates([g.ga, g.gi, g.gf, g.go]);
      gx := UpwardGradient(r);
    }

    /** The lateral feedback of BackwardSingle: each lateral projection's
        gradient of the carried gate gradients added into gh in place. */
    method AddFeedback(gh: array<real>, g: seq<seq<real>>)
      requires Shaped(p) && p.outputCount <= gh.Length && |g| == 4
      modifies gh
      ensures gh[..] == AddLateral(p, g, old(gh[..]), 4)
    {
      var k := 0;
      while k < 4
        invariant 0 <= k <= 4
        invariant gh[..] == AddLateral(p, g, old(gh[..]), k)
      {
        var ghPre := p.lateral[k].backward(g[k]);
        AddInPlace(gh, ghPre);
        k := k + 1;
      }
    }

    /** The element loop of BackwardSingle over the first inputCount positions:
        the carried cell gradient and the four gate gradients, each buffer
        starting zeroed. */
    method GradLoop(gh: seq<real>, gc: seq<real>, lc: seq<real>, cPrev: seq<real>,
                    la: seq<real>, li: seq<real>, lf: seq<real>, lo: seq<real>) returns (g: Grads)
      requires |gc| == p.inputCount && p.inputCount <= |gh|
      requires p.inputCount <= |lc| && p.inputCount <= |cPrev|
      requires p.inputCount <= |la| && p.inputCount <= |li| && p.inputCount <= |lf| && p.inputCount <= |lo|
      ensures g == GateGrads(p, gh, gc, lc, cPrev, la, li, lf, lo)
    {
      ghost var want := GateGrads(p, gh, gc, lc, cPrev, la, li, lf, lo);
      var n := p.inputCount;
      var gcNew, ga, gi, gf, go := gc, Zeros(n), Zeros(n), Zeros(n), Zeros(n);
      var i := 0;
      while i < n
        invariant 0 <= i <= n
        invariant |gcNew| == n && |ga| == n && |gi| == n && |gf| == n && |go| == n
        invariant forall t :: i <= t < n ==> gcNew[t] == gc[t]
        invariant forall t :: 0 <= t < i ==> gcNew[t] == want.gc[t]
        invariant forall t :: 0 <= t < i ==> ga[t] == want.ga[t]
        invariant forall t :: 0 <= t < i ==> gi[t] == want.gi[t]
        invariant forall t :: 0 <= t < i ==> gf[t] == want.gf[t]
        invariant forall t :: 0 <= t < i ==> go[t] == want.go[t]
      {
        var co := p.tanh(lc[i]);
        gcNew := gcNew[i := CarriedCell(p, gh[i], lo[i], lc[i], gcNew[i])];
        ga := ga[i := Product(gcNew[i], li[i], GradTanh(la[i]))];
        gi := gi[i := Product(gcNew[i], la[i], GradSigmoid(li[i]))];
        gf := gf[i := Product(gcNew[i], cPrev[i], GradSigmoid(lf[i]))];
        go := go[i := Product(gh[i], co, GradSigmoid(lo[i]))];
        gcNew := gcNew[i := Product(gcNew[i], lf[i], 1.0)];
        i := i + 1;
      }
      g := Grads(gcNew, ga, gi, gf, go);
    }

    /** The input gradient of BackwardSingle: the four upward projections'
        gradients of the restored gate gradients, added position by position. */
    method UpwardGradient(r: seq<seq<real>>) returns (gx: seq<real>)
      requires Shaped(p) && |r| == 4
      ensures gx == InputGradient(p, r)
    {
      var ga := p.upward[0].backward(r[0]);
      var gi := p.upward[1].backward(r[1]);
      var gf := p.upward[2].backward(r[2]);
      var go := p.upward[3].backward(r[3]);
      gx := Zeros(p.inputCount);
      var i := 0;
      while i < |ga|
        invariant 0 <= i <= |ga| && |ga| == p.inputCount && |gx| == p.inputCount
        invariant forall t :: 0 <= t < i ==> gx[t] == ga[t] + gi[t] + gf[t] + go[t]
      {
        gx := gx[i := ga[i] + gi[i] + gf[i] + go[i]];
        i := i + 1;
      }
    }

    /** The pops of BackwardSingle on lane b, with the gradients kept for the next backward step. */
    method PopStep(b: nat, gc: seq<real>, r: seq<seq<real>>)
      requires Valid() && b < Lanes()
      requires |cParam[b]| >= 2 && |aParam[b]| >= 1 && |iParam[b]| >= 1 && |fParam[b]| >= 1 && |oParam[b]| >= 1
      requires |gc| == p.inputCount && |r| == 4 && Entries(r, p.inputCount)
      modifies this`aParam, this`iParam, this`fParam, this`oParam, this`cParam, this`gcPrev, this`gxPrev
      ensures Valid() && Lanes() == old(Lanes())
      ensures aParam == old(aParam)[b := DropLast(old(aParam)[b])] && iParam == old(iParam)[b := DropLast(old(iParam)[b])]
      ensures fParam == old(fParam)[b := DropLast(old(fParam)[b])] && oParam == old(oParam)[b := DropLast(old(oParam)[b])]
      ensures cParam == old(cParam)[b := DropLast(old(cParam)[b])]
      ensures gcPrev == old(gcPrev)[b := Some(gc)] && gxPrev == old(gxPrev)[b := Some(r)]
    {
      var n := p.outputCount;
      cParam := cParam[b := DropLast(cParam[b])];
      aParam := aParam[b := DropLast(aParam[b])];
      iParam := iParam[b := DropLast(iParam[b])];
      fParam := fParam[b := DropLast(fParam[b])];
      oParam := oParam[b := DropLast(oParam[b])];
      gcPrev := gcPrev[b := Some(gc)];
      gxPrev := gxPrev[b := Some(r)];
      forall c | 0 <= c < |aParam|
        ensures Entries(aParam[c], n) && Entries(iParam[c], n) && Entries(fParam[c], n) && Entries(oParam[c], n)
      {
        if c == b {
          EntriesPop(old(aParam)[b], n);
          EntriesPop(old(iParam)[b], n);
          EntriesPop(old(fParam)[b], n);
          EntriesPop(old(oParam)[b], n);
        }
      }
      forall c | 0 <= c < |cParam|
        ensures Entries(cParam[c], n) && (gcPrev[c].Some? ==> |gcPrev[c].value| == p.inputCount)
        ensures gxPrev[c].Some? ==> |gxPrev[c].value| == 4 && Entries(gxPrev[c].value, p.inputCount)
      {
        if c == b {
          EntriesPop(old(cParam)[b], n);
        }
      }
    }
  }
}
