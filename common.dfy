/** Failure-compatible Option type shared by all translators of the model. */
module Common {

  datatype Option<+T> = None | Some(value: T) {
    predicate IsFailure() {
      None?
    }

    function PropagateFailure<U>(): Option<U>
      requires None?
    {
      None
    }

    function Extract(): T
      requires Some?
    {
      value
    }
  }

  // Regrouping a concatenation, stated once for every element type.

  lemma {:induction false} Assoc<T>(a: seq<T>, b: seq<T>, c: seq<T>)
    ensures a + b + c == a + (b + c)
  {
  }

  lemma {:induction false} Assoc3<T>(a: seq<T>, b: seq<T>, c: seq<T>, d: seq<T>)
    ensures a + b + c + d == a + (b + c + d)
  {
  }

  lemma {:induction false} Assoc4<T>(a: seq<T>, b: seq<T>, c: seq<T>, d: seq<T>, e: seq<T>)
    ensures a + b + c + d + e == a + (b + c + d + e)
  {
  }

  lemma {:induction false} Assoc5<T>(a: seq<T>, b: seq<T>, c: seq<T>, d: seq<T>, e: seq<T>, f: seq<T>)
    ensures a + b + c + d + e + f == a + (b + c + d + e + f)
  {
  }

  lemma {:induction false} Assoc6<T>(a: seq<T>, b: seq<T>, c: seq<T>, d: seq<T>, e: seq<T>, f: seq<T>, g: seq<T>)
    ensures a + b + c + d + e + f + g == a + (b + c + d + e + f + g)
  {
  }

  /**
    A layout of a list written from the back (`f(ys + [y]) == f(ys) + g(y)`)
    read from the front. Stated once for every such layout; the element
    layout `g` stays out of sight of the proof.
  */
  lemma {:induction false} SnocCons<X, T>(f: seq<X> -> seq<T>, g: X -> seq<T>, xs: seq<X>)
    requires f([]) == []
    requires forall ys: seq<X>, y: X :: f(ys + [y]) == f(ys) + g(y)
    requires xs != []
    ensures f(xs) == g(xs[0]) + f(xs[1..])
    decreases |xs|
  {
    var init, last := xs[..|xs| - 1], xs[|xs| - 1];
    assert xs == init + [last];
    if |xs| == 1 {
      assert init == [] && xs[1..] == [];
      assert f(xs) == f([]) + g(last);
    } else {
      SnocCons(f, g, init);
      assert init[0] == xs[0];
      assert xs[1..] == init[1..] + [last];
      assert f(xs[1..]) == f(init[1..]) + g(last);
      Assoc(g(xs[0]), f(init[1..]), g(last));
    }
  }

  /**
    A layout written from the back whose elements all take k items and are
    told apart by their layout (on elements meeting P) fixes the list.
  */
  lemma {:induction false} SnocUnique<X, T>(f: seq<X> -> seq<T>, g: X -> seq<T>, P: X -> bool, k: nat, xs1: seq<X>, xs2: seq<X>)
    requires f([]) == []
    requires forall ys: seq<X>, y: X :: f(ys + [y]) == f(ys) + g(y)
    requires k > 0 && forall x: X :: |g(x)| == k
    requires forall x: X, y: X :: P(x) && g(x) == g(y) ==> x == y
    requires forall i :: 0 <= i < |xs1| ==> P(xs1[i])
    requires f(xs1) == f(xs2)
    ensures xs1 == xs2
    decreases |xs1|
  {
    SnocLength(f, g, k, xs1);
    SnocLength(f, g, k, xs2);
    if xs1 != [] {
      var i1, i2 := xs1[..|xs1| - 1], xs2[..|xs2| - 1];
      SnocLength(f, g, k, i1);
      SnocLength(f, g, k, i2);
      assert xs1 == i1 + [xs1[|xs1| - 1]] && xs2 == i2 + [xs2[|xs2| - 1]];
      assert f(i1) + g(xs1[|xs1| - 1]) == f(i2) + g(xs2[|xs2| - 1]);
      assert f(i1) == (f(i1) + g(xs1[|xs1| - 1]))[..|f(i1)|];
      assert f(i2) == (f(i2) + g(xs2[|xs2| - 1]))[..|f(i2)|];
      assert g(xs1[|xs1| - 1]) == (f(i1) + g(xs1[|xs1| - 1]))[|f(i1)|..];
      assert g(xs2[|xs2| - 1]) == (f(i2) + g(xs2[|xs2| - 1]))[|f(i2)|..];
      assert P(xs1[|xs1| - 1]);
      forall i | 0 <= i < |i1|
        ensures P(i1[i])
      {
        assert i1[i] == xs1[i];
      }
      SnocUnique(f, g, P, k, i1, i2);
      assert xs1 == i1 + [xs1[|xs1| - 1]] && xs2 == i2 + [xs2[|xs2| - 1]];
    }
  }

  lemma {:induction false} SnocLength<X, T>(f: seq<X> -> seq<T>, g: X -> seq<T>, k: nat, xs: seq<X>)
    requires f([]) == []
    requires forall ys: seq<X>, y: X :: f(ys + [y]) == f(ys) + g(y)
    requires forall x: X :: |g(x)| == k
    ensures |f(xs)| == k * |xs|
    decreases |xs|
  {
    if xs != [] {
      var init := xs[..|xs| - 1];
      SnocLength(f, g, k, init);
      assert xs == init + [xs[|xs| - 1]];
      assert |f(xs)| == |f(init)| + |g(xs[|xs| - 1])|;
      assert k * |xs| == k * |init| + k;
    }
  }

  /** A non-empty list is its first element and the rest. */
  lemma {:induction false} ConsSplit<X>(xs: seq<X>)
    requires xs != []
    ensures xs == [xs[0]] + xs[1..]
  {
  }

  /** A non-empty list is its elements before the last, then the last. */
  lemma {:induction false} SnocSplit<X>(xs: seq<X>)
    requires xs != []
    ensures xs == xs[..|xs| - 1] + [xs[|xs| - 1]]
  {
  }
}
