/** Option and Result: stand-ins for Python's `None` and for raised exceptions. */
module Wrappers {

  datatype Option<+T> = None | Some(value: T) {
    function GetOr(default: T): T {
      match this
      case Some(v) => v
      case None => default
    }
  }

  datatype Result<+R, +E> = Success(value: R) | Failure(error: E)
}

/** `[f(x) for x in xs]` for a function known only by its results, so that proofs about
    a list built one element at a time need not look inside `f`. */
module Seqs {
  import opened Wrappers

  function MapSeq<A, B>(f: A -> B, xs: seq<A>): (r: seq<B>)
    ensures |r| == |xs| && forall i :: 0 <= i < |xs| ==> r[i] == f(xs[i])
  {
    seq(|xs|, i requires 0 <= i < |xs| => f(xs[i]))
  }

  /** A prefix one element longer is the prefix with that element appended. */
  lemma PrefixSnoc<T>(c: seq<T>, j: nat)
    requires j < |c|
    ensures c[..j + 1] == c[..j] + [c[j]]
  {
  }

  /** Mapping one more element of a prefix appends its image. */
  lemma MapSeqSnoc<A, B>(f: A -> B, xs: seq<A>, i: nat)
    requires i < |xs|
    ensures MapSeq(f, xs[..i + 1]) == MapSeq(f, xs[..i]) + [f(xs[i])]
  {
    assert forall j :: 0 <= j < i ==> xs[..i + 1][j] == xs[..i][j];
  }

  lemma MapSeqAppend<A, B>(f: A -> B, xs: seq<A>, ys: seq<A>)
    ensures MapSeq(f, xs + ys) == MapSeq(f, xs) + MapSeq(f, ys)
  {
    assert forall i :: 0 <= i < |xs| ==> (xs + ys)[i] == xs[i];
    assert forall i :: |xs| <= i < |xs| + |ys| ==> (xs + ys)[i] == ys[i - |xs|];
  }

  /** Mapping a sequence with one optional element appended. */
  lemma MapSeqOptionalSnoc<A, B>(f: A -> B, xs: seq<A>, x: A, keep: bool)
    ensures MapSeq(f, xs + (if keep then [x] else [])) == MapSeq(f, xs) + (if keep then [f(x)] else [])
  {
    if keep {
      MapSeqAppend(f, xs, [x]);
    } else {
      assert xs + [] == xs;
    }
  }

  /** `all(p(x) for x in xs)`. */
  predicate All<A>(p: A -> bool, xs: seq<A>) {
    forall i :: 0 <= i < |xs| ==> p(xs[i])
  }

  lemma AllSnoc<A>(p: A -> bool, xs: seq<A>, i: nat)
    requires i < |xs| && All(p, xs[..i]) && p(xs[i])
    ensures All(p, xs[..i + 1])
  {
    assert forall j :: 0 <= j < i ==> xs[..i + 1][j] == xs[..i][j];
  }

  /** A loop that applies `f` to each element in order, collecting the results, and stops
      at the first exception. */
  function MapResults<A, B, E>(f: A -> Result<B, E>, xs: seq<A>): Result<seq<B>, E>
    decreases |xs|
  {
    if xs == [] then Success([])
    else
      match MapResults(f, xs[..|xs| - 1])
      case Failure(e) => Failure(e)
      case Success(ys) =>
        match f(xs[|xs| - 1])
        case Failure(e) => Failure(e)
        case Success(y) => Success(ys + [y])
  }

  /** Once a prefix raises, the whole loop raises the same exception. */
  lemma {:induction false} MapResultsFailurePersists<A, B, E>(f: A -> Result<B, E>, xs: seq<A>, k: nat)
    requires k <= |xs| && MapResults(f, xs[..k]).Failure?
    ensures MapResults(f, xs) == MapResults(f, xs[..k])
    decreases |xs| - k
  {
    if k < |xs| {
      assert xs[..k + 1][..k] == xs[..k];
      MapResultsFailurePersists(f, xs, k + 1);
    } else {
      assert xs[..k] == xs;
    }
  }

  /** One more step of the loop: a success extends the results, a failure ends the loop
      with that exception. */
  lemma MapResultsStep<A, B, E>(f: A -> Result<B, E>, xs: seq<A>, i: nat, ys: seq<B>)
    requires i < |xs| && MapResults(f, xs[..i]) == Success(ys)
    ensures f(xs[i]).Success? ==> MapResults(f, xs[..i + 1]) == Success(ys + [f(xs[i]).value])
    ensures f(xs[i]).Failure? ==> MapResults(f, xs) == Failure(f(xs[i]).error)
  {
    assert xs[..i + 1][..i] == xs[..i];
    if f(xs[i]).Failure? {
      MapResultsFailurePersists(f, xs, i + 1);
    }
  }

  /** The loop succeeds exactly when `f` does on every element, and then it holds one
      result per element, in order. */
  lemma {:induction false} MapResultsSpec<A, B, E>(f: A -> Result<B, E>, xs: seq<A>)
    ensures MapResults(f, xs).Success? <==> forall i :: 0 <= i < |xs| ==> f(xs[i]).Success?
    ensures MapResults(f, xs).Success? ==>
              && |MapResults(f, xs).value| == |xs|
              && forall i :: 0 <= i < |xs| ==> MapResults(f, xs).value[i] == f(xs[i]).value
    decreases |xs|
  {
    if xs != [] {
      var init := xs[..|xs| - 1];
      MapResultsSpec(f, init);
      assert forall i :: 0 <= i < |init| ==> init[i] == xs[i];
    }
  }

  /** The same loop where `f` may also skip an element (`None`). */
  function FilterResults<A, B, E>(f: A -> Result<Option<B>, E>, xs: seq<A>): Result<seq<B>, E>
    decreases |xs|
  {
    if xs == [] then Success([])
    else
      match FilterResults(f, xs[..|xs| - 1])
      case Failure(e) => Failure(e)
      case Success(ys) =>
        match f(xs[|xs| - 1])
        case Failure(e) => Failure(e)
        case Success(None) => Success(ys)
        case Success(Some(y)) => Success(ys + [y])
  }

  lemma {:induction false} FilterResultsFailurePersists<A, B, E>(f: A -> Result<Option<B>, E>, xs: seq<A>, k: nat)
    requires k <= |xs| && FilterResults(f, xs[..k]).Failure?
    ensures FilterResults(f, xs) == FilterResults(f, xs[..k])
    decreases |xs| - k
  {
    if k < |xs| {
      assert xs[..k + 1][..k] == xs[..k];
      FilterResultsFailurePersists(f, xs, k + 1);
    } else {
      assert xs[..k] == xs;
    }
  }

  /** One more step of the filtering loop: a skip keeps the results, a value extends
      them, a failure ends the loop with that exception. */
  lemma FilterResultsStep<A, B, E>(f: A -> Result<Option<B>, E>, xs: seq<A>, i: nat, ys: seq<B>)
    requires i < |xs| && FilterResults(f, xs[..i]) == Success(ys)
    ensures f(xs[i]) == Success(None) ==> FilterResults(f, xs[..i + 1]) == Success(ys)
    ensures f(xs[i]).Success? && f(xs[i]).value.Some? ==>
              FilterResults(f, xs[..i + 1]) == Success(ys + [f(xs[i]).value.value])
    ensures f(xs[i]).Failure? ==> FilterResults(f, xs) == Failure(f(xs[i]).error)
  {
    assert xs[..i + 1][..i] == xs[..i];
    if f(xs[i]).Failure? {
      FilterResultsFailurePersists(f, xs, i + 1);
    }
  }

  /** The loop succeeds exactly when `f` does on every element; it keeps at most one
      result per element, and none when every element is skipped. */
  lemma {:induction false} FilterResultsSpec<A, B, E>(f: A -> Result<Option<B>, E>, xs: seq<A>)
    ensures FilterResults(f, xs).Success? <==> forall i :: 0 <= i < |xs| ==> f(xs[i]).Success?
    ensures FilterResults(f, xs).Success? ==> |FilterResults(f, xs).value| <= |xs|
    ensures (forall i :: 0 <= i < |xs| ==> f(xs[i]) == Success(None)) ==> FilterResults(f, xs) == Success([])
    decreases |xs|
  {
    if xs != [] {
      var init := xs[..|xs| - 1];
      FilterResultsSpec(f, init);
      assert forall i :: 0 <= i < |init| ==> init[i] == xs[i];
    }
  }
}
