/**
 * Left folds: the specification of every `forEach`/`for` loop of the
 * model. `Fold` threads a step that may throw, so its result is the state
 * after the whole sequence or the first exception raised, exactly as a
 * JavaScript loop that stops at the first throw.
 */
module Folds {
  import opened Js

  function Fold<A, B>(f: (A, B) -> JsResult<A>, a: A, xs: seq<B>): JsResult<A>
    decreases |xs|
  {
    if |xs| == 0 then Ok(a)
    else
      var b :- Fold(f, a, xs[..|xs| - 1]);
      f(b, xs[|xs| - 1])
  }

  /** One more element: the step applied to the running state. */
  lemma FoldStep<A, B>(f: (A, B) -> JsResult<A>, a: A, xs: seq<B>, i: nat)
    requires i < |xs|
    ensures Fold(f, a, xs[..i + 1]) == match Fold(f, a, xs[..i]) case Ok(b) => f(b, xs[i]) case Err(e) => Err(e)
  {
    assert xs[..i + 1][..i] == xs[..i];
  }

  /** A fold over one more element at the end. */
  lemma FoldSnoc<A, B>(f: (A, B) -> JsResult<A>, a: A, xs: seq<B>, x: B)
    ensures Fold(f, a, xs + [x]) == match Fold(f, a, xs) case Ok(b) => f(b, x) case Err(e) => Err(e)
  {
    assert (xs + [x])[..|xs|] == xs;
  }

  /** An exception raised on a prefix is the result of the whole fold. */
  lemma {:induction false} FoldErrPrefix<A, B>(f: (A, B) -> JsResult<A>, a: A, xs: seq<B>, i: nat)
    requires i <= |xs| && Fold(f, a, xs[..i]).Err?
    ensures Fold(f, a, xs) == Fold(f, a, xs[..i])
    decreases |xs| - i
  {
    if i < |xs| {
      FoldStep(f, a, xs, i);
      FoldErrPrefix(f, a, xs, i + 1);
    } else {
      assert xs[..i] == xs;
    }
  }

  /** Folding a concatenation folds the second part from the first part's state. */
  lemma {:induction false} FoldAppend<A, B>(f: (A, B) -> JsResult<A>, a: A, xs: seq<B>, ys: seq<B>)
    ensures Fold(f, a, xs + ys) == match Fold(f, a, xs) case Ok(b) => Fold(f, b, ys) case Err(e) => Err(e)
    decreases |ys|
  {
    if |ys| == 0 {
      assert xs + ys == xs;
    } else {
      var zs := xs + ys;
      assert zs[..|zs| - 1] == xs + ys[..|ys| - 1];
      FoldAppend(f, a, xs, ys[..|ys| - 1]);
    }
  }

  /** A fold whose step never throws. */
  function Foldl<A, B>(f: (A, B) -> A, a: A, xs: seq<B>): A
    decreases |xs|
  {
    if |xs| == 0 then a else f(Foldl(f, a, xs[..|xs| - 1]), xs[|xs| - 1])
  }

  lemma FoldlStep<A, B>(f: (A, B) -> A, a: A, xs: seq<B>, i: nat)
    requires i < |xs|
    ensures Foldl(f, a, xs[..i + 1]) == f(Foldl(f, a, xs[..i]), xs[i])
  {
    assert xs[..i + 1][..i] == xs[..i];
  }

  lemma FoldlAppend<A, B>(f: (A, B) -> A, a: A, xs: seq<B>, ys: seq<B>)
    ensures Foldl(f, a, xs + ys) == Foldl(f, Foldl(f, a, xs), ys)
    decreases |ys|
  {
    if |ys| == 0 {
      assert xs + ys == xs;
    } else {
      var zs := xs + ys;
      assert zs[..|zs| - 1] == xs + ys[..|ys| - 1];
      FoldlAppend(f, a, xs, ys[..|ys| - 1]);
    }
  }

  /** `xs.map(f)` where `f` may throw. */
  function MapResult<B, C>(f: B -> JsResult<C>, xs: seq<B>): (r: JsResult<seq<C>>)
    ensures r.Ok? ==> |r.value| == |xs|
    ensures r.Ok? ==> forall i :: 0 <= i < |xs| ==> f(xs[i]) == Ok(r.value[i])
    ensures r.Ok? <==> forall i :: 0 <= i < |xs| ==> f(xs[i]).Ok?
  {
    if |xs| == 0 then Ok([])
    else
      match f(xs[0])
      case Err(e) => Err(e)
      case Ok(c) =>
        match MapResult(f, xs[1..])
        case Err(e) => Err(e)
        case Ok(cs) =>
          assert forall i :: 1 <= i < |xs| ==> xs[i] == xs[1..][i - 1];
          Ok([c] + cs)
  }

  /** Mapping a concatenation maps each part; the first exception wins. */
  lemma {:induction false} MapResultAppend<B, C>(f: B -> JsResult<C>, xs: seq<B>, ys: seq<B>)
    ensures MapResult(f, xs + ys) ==
      match MapResult(f, xs)
      case Err(e) => Err(e)
      case Ok(cs) => (match MapResult(f, ys) case Err(e) => Err(e) case Ok(ds) => Ok(cs + ds))
  {
    if |xs| == 0 {
      assert xs + ys == ys;
      match MapResult(f, ys) {
        case Err(e) =>
        case Ok(ds) => assert [] + ds == ds;
      }
    } else {
      MapResultAppend(f, xs[1..], ys);
      HeadAppend(xs, ys);
      MapResultCons(f, xs[0], xs[1..] + ys);
      MapResultCons(f, xs[0], xs[1..]);
      if f(xs[0]).Ok? && MapResult(f, xs[1..]).Ok? && MapResult(f, ys).Ok? {
        ConsAppend(f(xs[0]).value, MapResult(f, xs[1..]).value, MapResult(f, ys).value);
      }
    }
  }

  lemma HeadAppend<T>(xs: seq<T>, ys: seq<T>)
    requires |xs| > 0
    ensures xs + ys == [xs[0]] + (xs[1..] + ys) && xs == [xs[0]] + xs[1..]
  {
  }

  lemma ConsAppend<T>(x: T, xs: seq<T>, ys: seq<T>)
    ensures [x] + (xs + ys) == ([x] + xs) + ys
  {
  }

  /** Mapping a non-empty sequence: the head first, then the rest. */
  lemma MapResultCons<B, C>(f: B -> JsResult<C>, x: B, xs: seq<B>)
    ensures MapResult(f, [x] + xs) ==
      match f(x)
      case Err(e) => Err(e)
      case Ok(c) => (match MapResult(f, xs) case Err(e) => Err(e) case Ok(cs) => Ok([c] + cs))
  {
    assert ([x] + xs)[0] == x && ([x] + xs)[1..] == xs;
  }

  /** One more element mapped, as a `forEach` that pushes each result. */
  lemma MapResultStep<B, C>(f: B -> JsResult<C>, xs: seq<B>, i: nat)
    requires i < |xs|
    ensures MapResult(f, xs[..i + 1]) ==
      match MapResult(f, xs[..i])
      case Err(e) => Err(e)
      case Ok(cs) => (match f(xs[i]) case Err(e) => Err(e) case Ok(c) => Ok(cs + [c]))
  {
    var one := [xs[i]];
    assert xs[..i + 1] == xs[..i] + one;
    MapResultAppend(f, xs[..i], one);
    assert one[0] == xs[i] && one[1..] == [];
    match f(xs[i]) {
      case Err(e) =>
        assert MapResult(f, one) == Err(e);
      case Ok(c) =>
        assert [c] + [] == [c];
        assert MapResult(f, one) == Ok([c]);
        match MapResult(f, xs[..i]) {
          case Err(e) =>
          case Ok(cs) => assert MapResult(f, xs[..i] + one) == Ok(cs + [c]);
        }
    }
  }

  /** An exception raised on a prefix is the exception of the whole map. */
  lemma MapResultErrPrefix<B, C>(f: B -> JsResult<C>, xs: seq<B>, i: nat)
    requires i <= |xs| && MapResult(f, xs[..i]).Err?
    ensures MapResult(f, xs) == MapResult(f, xs[..i])
  {
    assert xs == xs[..i] + xs[i..];
    MapResultAppend(f, xs[..i], xs[i..]);
  }

  /** `xs.map(f).filter(present)`: the values `f` yields, in order. */
  function Choose<A, T>(f: A -> Option<T>, xs: seq<A>): (r: seq<T>)
    ensures |r| <= |xs|
    decreases |xs|
  {
    if |xs| == 0 then []
    else Choose(f, xs[..|xs| - 1]) + (match f(xs[|xs| - 1]) case Some(t) => [t] case None => [])
  }

  lemma ChooseStep<A, T>(f: A -> Option<T>, xs: seq<A>, i: nat)
    requires i < |xs|
    ensures Choose(f, xs[..i + 1]) == Choose(f, xs[..i]) + (match f(xs[i]) case Some(t) => [t] case None => [])
  {
    assert xs[..i + 1][..i] == xs[..i];
  }

  /** Filtering a concatenation filters each part: the kept values keep
    * their relative order. */
  lemma {:induction false} ChooseAppend<A, T>(f: A -> Option<T>, xs: seq<A>, ys: seq<A>)
    ensures Choose(f, xs + ys) == Choose(f, xs) + Choose(f, ys)
    decreases |ys|
  {
    if |ys| == 0 {
      assert xs + ys == xs;
    } else {
      var zs := xs + ys;
      assert zs[..|zs| - 1] == xs + ys[..|ys| - 1];
      assert zs[|zs| - 1] == ys[|ys| - 1];
      ChooseAppend(f, xs, ys[..|ys| - 1]);
    }
  }

  /** A value is kept exactly when some element yields it. */
  lemma {:induction false} ChooseMember<A, T>(f: A -> Option<T>, xs: seq<A>, t: T)
    ensures t in Choose(f, xs) <==> exists i :: 0 <= i < |xs| && f(xs[i]) == Some(t)
    decreases |xs|
  {
    if |xs| > 0 {
      var n := |xs| - 1;
      ChooseMember(f, xs[..n], t);
      if t in Choose(f, xs) {
        if t in Choose(f, xs[..n]) {
          var i :| 0 <= i < n && f(xs[..n][i]) == Some(t);
          assert f(xs[i]) == Some(t);
        } else {
          assert f(xs[n]) == Some(t);
        }
      } else {
        forall i | 0 <= i < |xs| ensures f(xs[i]) != Some(t) {
          if i < n { assert xs[..n][i] == xs[i]; }
        }
      }
    }
  }

  /** Nothing is kept exactly when no element yields a value. */
  lemma {:induction false} ChooseEmpty<A, T>(f: A -> Option<T>, xs: seq<A>)
    ensures Choose(f, xs) == [] <==> forall i :: 0 <= i < |xs| ==> f(xs[i]).None?
    decreases |xs|
  {
    if |xs| > 0 {
      var n := |xs| - 1;
      ChooseEmpty(f, xs[..n]);
      if Choose(f, xs) == [] {
        forall i | 0 <= i < |xs| ensures f(xs[i]).None? {
          if i < n { assert xs[..n][i] == xs[i]; }
        }
      }
    }
  }

  /** The first kept value comes from the first element that yields one. */
  lemma {:induction false} ChooseFirst<A, T>(f: A -> Option<T>, xs: seq<A>, k: nat)
    requires k < |xs| && f(xs[k]).Some?
    requires forall j :: 0 <= j < k ==> f(xs[j]).None?
    ensures Choose(f, xs) != [] && Choose(f, xs)[0] == f(xs[k]).value
    decreases |xs|
  {
    var n := |xs| - 1;
    if k < n {
      forall j | 0 <= j < k ensures f(xs[..n][j]).None? {
        assert xs[..n][j] == xs[j];
      }
      ChooseFirst(f, xs[..n], k);
    } else {
      forall i | 0 <= i < n ensures f(xs[..n][i]).None? {
        assert xs[..n][i] == xs[i];
      }
      ChooseEmpty(f, xs[..n]);
    }
  }
}
