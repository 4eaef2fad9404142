/**
 * The gate layout of the LSTM: ExtractGates reads its arguments with stride 4
 * (gate k, position j sits at index 4j+k) and adds them; RestoreGates
 * interleaves four gate vectors the same way and cuts the result into four
 * contiguous blocks.
 */
module Gates {
  import opened Common

  /** Position p of every argument, added in argument order. */
  function SumAt(xs: seq<seq<real>>, p: nat): real
    requires forall i :: 0 <= i < |xs| ==> p < |xs[i]|
  {
    if xs == [] then 0.0 else SumAt(DropLast(xs), p) + Last(xs)[p]
  }

  /** The arguments ExtractGates accepts: at least one, and each at least as
      long as the four-gate part of the first. */
  ghost predicate Wide(xs: seq<seq<real>>)
  {
    |xs| >= 1 && forall i :: 0 <= i < |xs| ==> 4 * (|xs[0]| / 4) <= |xs[i]|
  }

  /** ExtractGates: gate k at position j is the sum over the arguments of index 4j+k. */
  function Extracted(xs: seq<seq<real>>): (g: seq<seq<real>>)
    requires Wide(xs)
    ensures |g| == 4 && forall k :: 0 <= k < 4 ==> |g[k]| == |xs[0]| / 4
  {
    var col := |xs[0]| / 4;
    seq(4, k requires 0 <= k < 4 =>
      seq(col, j requires 0 <= j < col => SumAt(xs, 4 * j + k)))
  }

  /** Four gate vectors, each at least as long as the first. */
  ghost predicate FourGates(g: seq<seq<real>>)
  {
    |g| >= 4 && forall k :: 0 <= k < 4 ==> |g[0]| <= |g[k]|
  }

  /** The interleaved buffer RestoreGates fills: index 4i+k holds gate k at position i. */
  function Interleave(g: seq<seq<real>>): (r: seq<real>)
    requires FourGates(g)
    ensures |r| == 4 * |g[0]|
  {
    seq(4 * |g[0]|, p requires 0 <= p < 4 * |g[0]| => g[p % 4][p / 4])
  }

  /** RestoreGates: the interleaved buffer cut into four contiguous blocks of the gate length. */
  function Restored(g: seq<seq<real>>): (r: seq<seq<real>>)
    requires FourGates(g)
    ensures |r| == 4 && forall m :: 0 <= m < 4 ==> |r[m]| == |g[0]|
  {
    var col := |g[0]|;
    var buf := Interleave(g);
    [buf[..col], buf[col..2 * col], buf[2 * col..3 * col], buf[3 * col..]]
  }

  /** Restoring four zero gates gives four zero gates. */
  lemma RestoredZeros(n: nat)
    ensures var z := [Zeros(n), Zeros(n), Zeros(n), Zeros(n)];
      FourGates(z) && Restored(z) == z
  {
    var z := [Zeros(n), Zeros(n), Zeros(n), Zeros(n)];
    var buf := Interleave(z);
    assert forall t :: 0 <= t < 4 * n ==> buf[t] == 0.0;
    var r := Restored(z);
    assert r[0] == Zeros(n) && r[1] == Zeros(n) && r[2] == Zeros(n) && r[3] == Zeros(n);
  }

  /** Four vectors copied one after another into one buffer, as ForwardSingle
      copies the four projections' outputs. */
  function Blocks(us: seq<seq<real>>): (r: seq<real>)
    requires |us| == 4
    ensures |r| == |us[0]| + |us[1]| + |us[2]| + |us[3]|
  {
    us[0] + us[1] + us[2] + us[3]
  }

  /** One argument contributes exactly its own entry. */
  lemma SumAtSingle(v: seq<real>, p: nat)
    requires p < |v|
    ensures SumAt([v], p) == v[p]
  {
    assert DropLast([v]) == [];
  }

  /** Two arguments contribute the sum of their entries. */
  lemma SumAtPair(u: seq<real>, v: seq<real>, p: nat)
    requires p < |u| && p < |v|
    ensures SumAt([u, v], p) == u[p] + v[p]
  {
    assert DropLast([u, v]) == [u];
    SumAtSingle(u, p);
  }

  /** ExtractGates over two arguments is the sum of ExtractGates over each. */
  lemma ExtractAdds(u: seq<real>, v: seq<real>)
    requires |u| == |v|
    ensures Wide([u, v]) && Wide([u]) && Wide([v])
    ensures forall k, j :: 0 <= k < 4 && 0 <= j < |u| / 4 ==>
      Extracted([u, v])[k][j] == Extracted([u])[k][j] + Extracted([v])[k][j]
  {
    forall k, j | 0 <= k < 4 && 0 <= j < |u| / 4
      ensures Extracted([u, v])[k][j] == Extracted([u])[k][j] + Extracted([v])[k][j]
    {
      SumAtPair(u, v, 4 * j + k);
      SumAtSingle(u, 4 * j + k);
      SumAtSingle(v, 4 * j + k);
    }
  }

  /** Cutting the interleaved buffer into blocks and putting them back together
      gives the buffer again. */
  lemma BlocksOfRestored(g: seq<seq<real>>)
    requires FourGates(g)
    ensures Blocks(Restored(g)) == Interleave(g)
  {
    var col := |g[0]|;
    var buf := Interleave(g);
    assert buf == buf[..col] + buf[col..2 * col] + buf[2 * col..3 * col] + buf[3 * col..];
  }

  /** The interleaved index of gate k at position j. */
  lemma StrideIndex(j: nat, k: nat)
    requires k < 4
    ensures (4 * j + k) % 4 == k && (4 * j + k) / 4 == j
  {
  }

  /** Round trip: ExtractGates applied to the concatenation of RestoreGates'
      outputs gives back the four gate vectors. */
  lemma ExtractRestoreRoundTrip(g: seq<seq<real>>)
    requires |g| == 4 && forall k :: 0 <= k < 4 ==> |g[k]| == |g[0]|
    ensures Wide([Blocks(Restored(g))])
    ensures Extracted([Blocks(Restored(g))]) == g
  {
    BlocksOfRestored(g);
    var buf := Interleave(g);
    var e := Extracted([buf]);
    assert |buf| / 4 == |g[0]|;
    forall k, j | 0 <= k < 4 && 0 <= j < |g[0]|
      ensures e[k][j] == g[k][j]
    {
      SumAtSingle(buf, 4 * j + k);
      StrideIndex(j, k);
    }
    assert e[0] == g[0] && e[1] == g[1] && e[2] == g[2] && e[3] == g[3];
  }

  /** Round trip the other way: the four projections' outputs, laid out in
      contiguous blocks and read with stride 4, are routed back by RestoreGates
      to the very outputs they came from. The backward pass sizes its gate
      gradients by InputCount and the forward layout uses blocks of OutputCount,
      so only when the two counts are equal does this send each gate's gradient
      to the projection output that fed that gate (see RoutingNeedsEqualCounts). */
  lemma RestoreExtractRoundTrip(us: seq<seq<real>>)
    requires |us| == 4 && forall m :: 0 <= m < 4 ==> |us[m]| == |us[0]|
    ensures Wide([Blocks(us)])
    ensures FourGates(Extracted([Blocks(us)]))
    ensures Restored(Extracted([Blocks(us)])) == us
  {
    var n := |us[0]|;
    var buf := Blocks(us);
    var e := Extracted([buf]);
    assert |buf| == 4 * n;
    assert |buf| / 4 == n;
    forall p | 0 <= p < 4 * n
      ensures Interleave(e)[p] == buf[p]
    {
      SumAtSingle(buf, 4 * (p / 4) + p % 4);
    }
    assert Interleave(e) == buf;
    assert buf[..n] == us[0];
    assert buf[n..2 * n] == us[1];
    assert buf[2 * n..3 * n] == us[2];
    assert buf[3 * n..] == us[3];
  }

  /** With InputCount 1 and OutputCount 2 the layouts disagree: the input gate
      at position 0 is read from entry 1 of the first projection's output, but
      RestoreGates, given gate gradients of InputCount entries, hands the input
      gate's gradient at position 0 to the second projection, at entry 0. */
  lemma RoutingNeedsEqualCounts()
    ensures var us := [[0.0, 1.0], [2.0, 3.0], [4.0, 5.0], [6.0, 7.0]];
      Wide([Blocks(us)]) && Extracted([Blocks(us)])[1][0] == us[0][1]
    ensures var grads := [[0.0], [1.0], [0.0], [0.0]];
      FourGates(grads) && Restored(grads)[0] == [0.0] && Restored(grads)[1] == [grads[1][0]]
  {
    var us := [[0.0, 1.0], [2.0, 3.0], [4.0, 5.0], [6.0, 7.0]];
    assert Blocks(us) == [0.0, 1.0, 2.0, 3.0, 4.0, 5.0, 6.0, 7.0];
    SumAtSingle(Blocks(us), 1);
    var grads := [[0.0], [1.0], [0.0], [0.0]];
    StrideIndex(0, 0);
    StrideIndex(0, 1);
  }

  /** Where block m of a buffer of four blocks of length col starts. */
  function BlockStart(m: nat, col: nat): (start: nat)
    requires m <= 4
    ensures m < 4 ==> start + col <= 4 * col
  {
    if m == 0 then 0 else if m == 1 then col else if m == 2 then 2 * col else if m == 3 then 3 * col else 4 * col
  }

  /** Every argument holds at least col groups of four. */
  ghost predicate AllWide(xs: seq<seq<real>>, col: nat)
  {
    forall i :: 0 <= i < |xs| ==> 4 * col <= |xs[i]|
  }

  /** Gate k of ExtractGates over the first n arguments. */
  function Column(xs: seq<seq<real>>, n: nat, k: nat, col: nat): (c: seq<real>)
    requires n <= |xs| && k < 4 && AllWide(xs, col)
    ensures |c| == col
  {
    seq(col, j requires 0 <= j < col => SumAt(xs[..n], 4 * j + k))
  }

  /** One more argument adds its stride-4 entries to a gate. */
  lemma ColumnStep(xs: seq<seq<real>>, i: nat, k: nat, col: nat, j: nat)
    requires i < |xs| && k < 4 && j < col && AllWide(xs, col)
    ensures Column(xs, i + 1, k, col)[j] == Column(xs, i, k, col)[j] + xs[i][4 * j + k]
  {
    assert DropLast(xs[..i + 1]) == xs[..i];
  }

  /** ExtractGates with its accumulation loops over four fresh buffers. */
  method ExtractGates(xs: seq<seq<real>>) returns (g: seq<seq<real>>)
    requires Wide(xs)
    ensures g == Extracted(xs)
  {
    var col := |xs[0]| / 4;
    assert AllWide(xs, col);
    var data1 := new real[col](_ => 0.0);
    var data2 := new real[col](_ => 0.0);
    var data3 := new real[col](_ => 0.0);
    var data4 := new real[col](_ => 0.0);
    assert data1[..] == Column(xs, 0, 0, col) && data2[..] == Column(xs, 0, 1, col);
    assert data3[..] == Column(xs, 0, 2, col) && data4[..] == Column(xs, 0, 3, col);
    var i := 0;
    while i < |xs|
      invariant 0 <= i <= |xs|
      invariant data1[..] == Column(xs, i, 0, col) && data2[..] == Column(xs, i, 1, col)
      invariant data3[..] == Column(xs, i, 2, col) && data4[..] == Column(xs, i, 3, col)
    {
      AddArgument(data1, data2, data3, data4, xs, i, col);
      i := i + 1;
    }
    assert xs[..i] == xs;
    assert data1[..] == Extracted(xs)[0] && data2[..] == Extracted(xs)[1];
    assert data3[..] == Extracted(xs)[2] && data4[..] == Extracted(xs)[3];
    g := [data1[..], data2[..], data3[..], data4[..]];
  }

  /** One pass of the outer loop of ExtractGates: add argument i, read with stride 4, into the four gates. */
  method AddArgument(data1: array<real>, data2: array<real>, data3: array<real>, data4: array<real>,
                     xs: seq<seq<real>>, i: nat, col: nat)
    requires i < |xs| && AllWide(xs, col)
    requires data1 != data2 && data1 != data3 && data1 != data4
    requires data2 != data3 && data2 != data4 && data3 != data4
    requires data1[..] == Column(xs, i, 0, col) && data2[..] == Column(xs, i, 1, col)
    requires data3[..] == Column(xs, i, 2, col) && data4[..] == Column(xs, i, 3, col)
    modifies data1, data2, data3, data4
    ensures data1[..] == Column(xs, i + 1, 0, col) && data2[..] == Column(xs, i + 1, 1, col)
    ensures data3[..] == Column(xs, i + 1, 2, col) && data4[..] == Column(xs, i + 1, 3, col)
  {
    AddRow(data1, data2, data3, data4, xs[i], col);
    forall t | 0 <= t < col
      ensures data1[t] == Column(xs, i + 1, 0, col)[t] && data2[t] == Column(xs, i + 1, 1, col)[t]
      ensures data3[t] == Column(xs, i + 1, 2, col)[t] && data4[t] == Column(xs, i + 1, 3, col)[t]
    {
      ColumnStep(xs, i, 0, col, t);
      ColumnStep(xs, i, 1, col, t);
      ColumnStep(xs, i, 2, col, t);
      ColumnStep(xs, i, 3, col, t);
    }
  }

  /** The inner loop of ExtractGates: entry 4j+k of one argument is added to gate k at position j. */
  method AddRow(data1: array<real>, data2: array<real>, data3: array<real>, data4: array<real>,
                row: seq<real>, col: nat)
    requires data1.Length == col && data2.Length == col && data3.Length == col && data4.Length == col
    requires 4 * col <= |row|
    requires data1 != data2 && data1 != data3 && data1 != data4
    requires data2 != data3 && data2 != data4 && data3 != data4
    modifies data1, data2, data3, data4
    ensures forall t :: 0 <= t < col ==> data1[t] == old(data1[t]) + row[4 * t]
    ensures forall t :: 0 <= t < col ==> data2[t] == old(data2[t]) + row[4 * t + 1]
    ensures forall t :: 0 <= t < col ==> data3[t] == old(data3[t]) + row[4 * t + 2]
    ensures forall t :: 0 <= t < col ==> data4[t] == old(data4[t]) + row[4 * t + 3]
  {
    var j := 0;
    while j < col
      invariant 0 <= j <= col
      invariant forall t :: 0 <= t < j ==> data1[t] == old(data1[t]) + row[4 * t]
      invariant forall t :: 0 <= t < j ==> data2[t] == old(data2[t]) + row[4 * t + 1]
      invariant forall t :: 0 <= t < j ==> data3[t] == old(data3[t]) + row[4 * t + 2]
      invariant forall t :: 0 <= t < j ==> data4[t] == old(data4[t]) + row[4 * t + 3]
      invariant forall t :: j <= t < col ==> data1[t] == old(data1[t]) && data2[t] == old(data2[t])
      invariant forall t :: j <= t < col ==> data3[t] == old(data3[t]) && data4[t] == old(data4[t])
    {
      data1[j] := data1[j] + row[j * 4];
      data2[j] := data2[j] + row[j * 4 + 1];
      data3[j] := data3[j] + row[j * 4 + 2];
      data4[j] := data4[j] + row[j * 4 + 3];
      j := j + 1;
    }
  }

  /** RestoreGates: interleave the four gates, then copy out four contiguous blocks. */
  method RestoreGates(x: seq<seq<real>>) returns (result: seq<seq<real>>)
    requires FourGates(x)
    ensures result == Restored(x)
  {
    var col := |x[0]|;
    var r := FillInterleaved(x);
    ghost var buf := r[..];
    result := [];
    var m := 0;
    var offset := 0;
    while m < 4
      invariant 0 <= m <= 4 && offset == BlockStart(m, col) && r[..] == buf
      invariant result == Restored(x)[..m]
    {
      var data := CopyBlock(r, offset, col);
      RestoredBlock(x, m);
      assert Restored(x)[..m + 1] == Restored(x)[..m] + [data];
      result := result + [data];
      m := m + 1;
      offset := offset + col;
    }
    assert Restored(x)[..4] == Restored(x);
  }

  /** Block m of RestoreGates' result is the slice of the interleaved buffer that starts at BlockStart(m). */
  lemma RestoredBlock(x: seq<seq<real>>, m: nat)
    requires FourGates(x) && m < 4
    ensures Restored(x)[m] == Interleave(x)[BlockStart(m, |x[0]|) .. BlockStart(m, |x[0]|) + |x[0]|]
  {
  }

  /** The inner loop of RestoreGates: copy col entries starting at offset into a fresh vector. */
  method CopyBlock(r: array<real>, offset: nat, col: nat) returns (data: seq<real>)
    requires offset + col <= r.Length
    ensures data == r[offset .. offset + col]
  {
    var d := new real[col](_ => 0.0);
    var j := 0;
    while j < col
      invariant 0 <= j <= col
      invariant d[..j] == r[offset .. offset + j]
    {
      d[j] := r[offset + j];
      j := j + 1;
    }
    assert d[..] == d[..j];
    data := d[..];
  }

  /** The first loop of RestoreGates: gate k at position i goes to index 4i+k of a fresh buffer. */
  method FillInterleaved(x: seq<seq<real>>) returns (r: array<real>)
    requires FourGates(x)
    ensures fresh(r) && r[..] == Interleave(x)
  {
    var col := |x[0]|;
    ghost var buf := Interleave(x);
    r := new real[4 * col](_ => 0.0);
    var i := 0;
    while i < col
      invariant 0 <= i <= col
      invariant forall t :: 0 <= t < 4 * i ==> r[t] == buf[t]
    {
      var q := i * 4;
      InterleaveQuad(x, i);
      WriteQuad(r, q, x[0][i], x[1][i], x[2][i], x[3][i]);
      forall t | q <= t < q + 4
        ensures r[t] == buf[t]
      {
        if t == q {
        } else if t == q + 1 {
        } else if t == q + 2 {
        } else {
          assert t == q + 3;
        }
      }
      i := i + 1;
    }
    assert r[..] == buf;
  }

  /** Entries 4i .. 4i+3 of the interleaved buffer are entry i of the four gates. */
  lemma InterleaveQuad(x: seq<seq<real>>, i: nat)
    requires FourGates(x) && i < |x[0]|
    ensures var buf := Interleave(x);
      buf[i * 4] == x[0][i] && buf[i * 4 + 1] == x[1][i] && buf[i * 4 + 2] == x[2][i] && buf[i * 4 + 3] == x[3][i]
  {
    StrideIndex(i, 0);
    StrideIndex(i, 1);
    StrideIndex(i, 2);
    StrideIndex(i, 3);
  }

  /** The body of RestoreGates' first loop: store four values at q, q+1, q+2, q+3. */
  method WriteQuad(r: array<real>, q: nat, a: real, b: real, c: real, d: real)
    requires q + 4 <= r.Length
    modifies r
    ensures r[q] == a && r[q + 1] == b && r[q + 2] == c && r[q + 3] == d
    ensures forall t :: 0 <= t < r.Length && (t < q || q + 4 <= t) ==> r[t] == old(r[t])
  {
    r[q + 0] := a;
    r[q + 1] := b;
    r[q + 2] := c;
    r[q + 3] := d;
  }
}
