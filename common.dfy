/** Small helpers shared by the modules of the model. */
module Common {

  /** A reference that may be null, as a value. */
  datatype Option<+T> = None | Some(value: T)

  /** A freshly allocated numeric buffer: .NET zero-initialises `new double[n]`. */
  function Zeros(n: nat): (z: seq<real>)
    ensures |z| == n
    ensures forall k :: 0 <= k < n ==> z[k] == 0.0
  {
    seq(n, _ => 0.0)
  }

  /** The top of a stack kept as a sequence whose last element is the most recent push. */
  function Last<T>(s: seq<T>): T
    requires |s| > 0
  {
    s[|s| - 1]
  }

  /** The stack after its top is popped. */
  function DropLast<T>(s: seq<T>): seq<T>
    requires |s| > 0
  {
    s[..|s| - 1]
  }

  /** The number of entries held by a sequence of stacks, added over all of them. */
  function Total<T>(ss: seq<seq<T>>): nat
  {
    if ss == [] then 0 else |ss[0]| + Total(ss[1..])
  }

  /** Replacing one stack changes the total by the difference of the two lengths. */
  lemma {:induction false} TotalUpdate<T>(ss: seq<seq<T>>, u: nat, v: seq<T>)
    requires u < |ss|
    ensures Total(ss[u := v]) + |ss[u]| == Total(ss) + |v|
  {
    if u == 0 {
      assert ss[u := v][1..] == ss[1..];
    } else {
      assert ss[u := v][1..] == ss[1..][u - 1 := v];
      TotalUpdate(ss[1..], u - 1, v);
    }
  }
}
