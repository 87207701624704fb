/** The two array operations the views use: `xs.map((x, index) => ...)` and
    `xs.slice(0, k)`. */
module Lists {

  function Min(a: nat, b: nat): nat
  {
    if a <= b then a else b
  }

  /** `xs.map(f)` where `f` also receives the element's index, counted from
      `offset`: one output per input, in input order. */
  function MapFrom<T, U>(xs: seq<T>, f: (T, nat) -> U, offset: nat): (r: seq<U>)
    ensures |r| == |xs|
    ensures forall i :: 0 <= i < |xs| ==> r[i] == f(xs[i], offset + i)
    decreases |xs|
  {
    if xs == [] then [] else [f(xs[0], offset)] + MapFrom(xs[1..], f, offset + 1)
  }

  function MapIndexed<T, U>(xs: seq<T>, f: (T, nat) -> U): (r: seq<U>)
    ensures |r| == |xs|
    ensures forall i :: 0 <= i < |xs| ==> r[i] == f(xs[i], i)
  {
    MapFrom(xs, f, 0)
  }

  /** `xs.slice(0, k)`: the first `k` elements, or all of them when there are
      fewer. */
  function Take<T>(xs: seq<T>, k: nat): (r: seq<T>)
    ensures |r| == Min(k, |xs|)
    ensures forall i :: 0 <= i < |r| ==> r[i] == xs[i]
  {
    xs[..Min(k, |xs|)]
  }
}
