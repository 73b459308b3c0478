/** Small vocabulary shared by every module: optional values, JavaScript truthiness of
    stored strings, the `Math.floor(Math.random() * n)` index pick, and exact means. */
module Basics {

  datatype Option<T> = None | Some(value: T) {
    function GetOr(default: T): T {
      if Some? then value else default
    }
  }

  function Min(a: int, b: int): int { if a <= b then a else b }
  function Max(a: int, b: int): int { if a >= b then a else b }

  /** A stored or supplied string that JavaScript treats as true: present and not empty. */
  predicate Truthy(s: Option<string>) {
    s.Some? && s.value != ""
  }

  /** `Math.floor(Math.random() * n)`, with the random number `r` in [0, 1) given. */
  function Pick(r: real, n: nat): (i: nat)
    requires 0.0 <= r < 1.0
    ensures n > 0 ==> i < n
    ensures n == 0 ==> i == 0
  {
    (r * n as real).Floor
  }

  /** A stream of random numbers, as `Math.random` produces them. */
  predicate Randoms(rs: seq<real>) {
    forall i :: 0 <= i < |rs| ==> 0.0 <= rs[i] < 1.0
  }

  function Sum(xs: seq<real>): real {
    if xs == [] then 0.0 else xs[0] + Sum(xs[1..])
  }

  /** The arithmetic mean, 0 for an empty sequence (`average` / `avg` in the services). */
  function Mean(xs: seq<real>): real {
    if |xs| == 0 then 0.0 else Sum(xs) / |xs| as real
  }

  lemma {:induction false} SumBounds(xs: seq<real>, lo: real, hi: real)
    requires forall i :: 0 <= i < |xs| ==> lo <= xs[i] <= hi
    ensures lo * |xs| as real <= Sum(xs) <= hi * |xs| as real
  {
    if xs != [] {
      SumBounds(xs[1..], lo, hi);
    }
  }

  /** A mean of values in [lo, hi] lies in [lo, hi]. */
  lemma MeanBounds(xs: seq<real>, lo: real, hi: real)
    requires xs != []
    requires forall i :: 0 <= i < |xs| ==> lo <= xs[i] <= hi
    ensures lo <= Mean(xs) <= hi
  {
    SumBounds(xs, lo, hi);
    var n := |xs| as real;
    assert Sum(xs) / n * n == Sum(xs);
  }

  lemma {:induction false} SumAppend(xs: seq<real>, ys: seq<real>)
    ensures Sum(xs + ys) == Sum(xs) + Sum(ys)
  {
    if xs != [] {
      assert (xs + ys)[1..] == xs[1..] + ys;
      SumAppend(xs[1..], ys);
    } else {
      assert xs + ys == ys;
    }
  }
  /** No element occurs twice. */
  predicate Distinct<T(==)>(xs: seq<T>) {
    forall i, j :: 0 <= i < j < |xs| ==> xs[i] != xs[j]
  }

  /** `Array.from(new Set(xs))`: the first occurrence of every element, in order. */
  function Dedup<T(==)>(xs: seq<T>): (r: seq<T>)
    ensures Distinct(r)
    ensures forall i :: 0 <= i < |xs| ==> xs[i] in r
    ensures forall i :: 0 <= i < |r| ==> r[i] in xs
    ensures |r| <= |xs|
    ensures xs != [] ==> r != [] && r[0] == xs[0]
  {
    if xs == [] then []
    else
      var d := Dedup(xs[..|xs| - 1]);
      assert forall i :: 0 <= i < |xs| - 1 ==> xs[i] == xs[..|xs| - 1][i];
      if xs[|xs| - 1] in d then d else d + [xs[|xs| - 1]]
  }

  /** A set built from elements that are already distinct keeps them all, in order. */
  lemma {:induction false} DedupDistinct<T>(xs: seq<T>)
    requires Distinct(xs)
    ensures Dedup(xs) == xs
  {
    if xs != [] {
      var init := xs[..|xs| - 1];
      assert Distinct(init);
      DedupDistinct(init);
      assert xs[|xs| - 1] !in init;
      assert xs == init + [xs[|xs| - 1]];
    }
  }

  /** The rejection loops of the games (`while (set.size < n) set.add(…)`, or a `push` guarded by
      `includes`): starting from `seed`, each candidate drawn is added unless already present, until
      `size` values are held. The candidates stand for the random stream; the loop reports how many it
      consumed and whether it reached `size` before the stream ran out. */
  method FillDistinct<T(==)>(seed: seq<T>, size: nat, candidates: seq<T>) returns (r: seq<T>, used: nat, done: bool)
    requires Distinct(seed) && |seed| <= size
    ensures Distinct(r) && |seed| <= |r| <= size && r[..|seed|] == seed
    ensures used <= |candidates|
    ensures forall i :: |seed| <= i < |r| ==> r[i] in candidates[..used]
    ensures forall i :: 0 <= i < used ==> candidates[i] in r
    ensures done <==> |r| == size
    ensures !done ==> used == |candidates|
  {
    r := seed;
    used := 0;
    while |r| < size && used < |candidates|
      invariant 0 <= used <= |candidates|
      invariant Distinct(r) && |seed| <= |r| <= size && r[..|seed|] == seed
      invariant forall i :: |seed| <= i < |r| ==> r[i] in candidates[..used]
      invariant forall i :: 0 <= i < used ==> candidates[i] in r
    {
      var c := candidates[used];
      assert candidates[..used + 1] == candidates[..used] + [c];
      if c !in r {
        r := r + [c];
      }
      used := used + 1;
    }
    done := |r| == size;
  }
}
