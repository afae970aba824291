/**
 * Generic list operations over sequences: a flat-map and a map that stops
 * at the first failure. Their lemmas hold for any element function, so the
 * modules that use them need not unfold their own element functions.
 */
module Seqs {
  import opened Wrappers

  /** `f` applied to each element and the results joined, left to right. */
  function ConcatMap<A, B>(f: A -> seq<B>, xs: seq<A>): seq<B> {
    if xs == [] then [] else ConcatMap(f, xs[..|xs| - 1]) + f(xs[|xs| - 1])
  }

  /** One more element adds its image at the end. */
  lemma ConcatMapSnoc<A, B>(f: A -> seq<B>, xs: seq<A>, x: A)
    ensures ConcatMap(f, xs + [x]) == ConcatMap(f, xs) + f(x)
  {
    assert (xs + [x])[..|xs|] == xs;
  }

  /** What element `i` yields is in the joined result. */
  lemma {:induction false} ConcatMapMember<A, B>(f: A -> seq<B>, xs: seq<A>, i: nat, y: B)
    requires i < |xs| && y in f(xs[i])
    ensures y in ConcatMap(f, xs)
    decreases |xs|
  {
    var init := xs[..|xs| - 1];
    if i < |init| {
      assert init[i] == xs[i];
      ConcatMapMember(f, init, i, y);
    }
  }

  /** Everything in the joined result comes from some element, returned as `i`. */
  lemma {:induction false} ConcatMapWitness<A, B>(f: A -> seq<B>, xs: seq<A>, y: B) returns (i: nat)
    requires y in ConcatMap(f, xs)
    ensures i < |xs| && y in f(xs[i])
    decreases |xs|
  {
    var init := xs[..|xs| - 1];
    if y in ConcatMap(f, init) {
      i := ConcatMapWitness(f, init, y);
      assert init[i] == xs[i];
    } else {
      i := |xs| - 1;
    }
  }

  /** If each image has at most `k` elements, the result has at most `k` per element. */
  lemma {:induction false} ConcatMapLength<A, B>(f: A -> seq<B>, xs: seq<A>, k: nat)
    requires forall x :: |f(x)| <= k
    ensures |ConcatMap(f, xs)| <= k * |xs|
    decreases |xs|
  {
    if xs != [] {
      ConcatMapLength(f, xs[..|xs| - 1], k);
      assert k * |xs| == k * (|xs| - 1) + k;
    }
  }

  /** `f` applied to each element in turn; the first failure is the result. */
  function MapAll<A, B, E>(f: A -> Result<B, E>, xs: seq<A>): Result<seq<B>, E> {
    if xs == [] then Ok([])
    else
      match MapAll(f, xs[..|xs| - 1])
      case Err(e) => Err(e)
      case Ok(init) =>
        match f(xs[|xs| - 1])
        case Err(e) => Err(e)
        case Ok(y) => Ok(init + [y])
  }

  /** Mapping one more element: the earlier failure wins, then this element's. */
  lemma MapAllSnoc<A, B, E>(f: A -> Result<B, E>, xs: seq<A>, x: A)
    ensures MapAll(f, xs + [x]) ==
      match MapAll(f, xs)
      case Err(e) => Err(e)
      case Ok(init) =>
        match f(x)
        case Err(e) => Err(e)
        case Ok(y) => Ok(init + [y])
  {
    assert (xs + [x])[..|xs|] == xs;
  }

  /** Mapping the prefix of length `i + 1`: mapping the prefix of length `i`, then element `i`. */
  lemma MapAllStep<A, B, E>(f: A -> Result<B, E>, xs: seq<A>, i: nat)
    requires i < |xs|
    ensures MapAll(f, xs[..i + 1]) ==
      match MapAll(f, xs[..i])
      case Err(e) => Err(e)
      case Ok(init) =>
        match f(xs[i])
        case Err(e) => Err(e)
        case Ok(y) => Ok(init + [y])
  {
    assert xs[..i + 1] == xs[..i] + [xs[i]];
    MapAllSnoc(f, xs[..i], xs[i]);
  }

  /** Once a prefix fails, the whole map fails with the same error. */
  lemma {:induction false} MapAllErrorPersists<A, B, E>(f: A -> Result<B, E>, xs: seq<A>, k: nat, e: E)
    requires k <= |xs|
    requires MapAll(f, xs[..k]) == Err(e)
    ensures MapAll(f, xs) == Err(e)
    decreases |xs| - k
  {
    if k < |xs| {
      MapAllStep(f, xs, k);
      MapAllErrorPersists(f, xs, k + 1, e);
    } else {
      assert xs[..k] == xs;
    }
  }

  /** A successful map has one result per element, each the image of that element. */
  lemma {:induction false} MapAllPointwise<A, B, E>(f: A -> Result<B, E>, xs: seq<A>)
    requires MapAll(f, xs).Ok?
    ensures |MapAll(f, xs).value| == |xs|
    ensures forall i :: 0 <= i < |xs| ==> f(xs[i]) == Ok(MapAll(f, xs).value[i])
    decreases |xs|
  {
    if xs != [] {
      var init := xs[..|xs| - 1];
      MapAllPointwise(f, init);
      var ys := MapAll(f, xs).value;
      forall i | 0 <= i < |xs|
        ensures f(xs[i]) == Ok(ys[i])
      {
        if i < |init| {
          assert xs[i] == init[i];
          assert ys[i] == MapAll(f, init).value[i];
        }
      }
    }
  }

  /** The map fails exactly when some element fails. */
  lemma {:induction false} MapAllFails<A, B, E>(f: A -> Result<B, E>, xs: seq<A>)
    ensures MapAll(f, xs).Err? <==> exists i :: 0 <= i < |xs| && f(xs[i]).Err?
    decreases |xs|
  {
    if xs != [] {
      var init := xs[..|xs| - 1];
      MapAllFails(f, init);
      if exists i :: 0 <= i < |init| && f(init[i]).Err? {
        var i :| 0 <= i < |init| && f(init[i]).Err?;
        assert xs[i] == init[i];
      }
      if exists i :: 0 <= i < |xs| && f(xs[i]).Err? {
        var i :| 0 <= i < |xs| && f(xs[i]).Err?;
        if i < |init| {
          assert xs[i] == init[i];
        }
      }
    }
  }
}
