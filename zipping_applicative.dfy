/**
 * ZippingApplicative2: a sequence of curried two-argument functions that
 * can be applied, position by position, to a sequence of first arguments.
 */
module ZippingApplicative2 {
  import Functor

  /** The applicative, given by its delegate: the functions, in iteration order. */
  datatype ZippingApplicative2<!T, !T2, R> = ZippingApplicative2(delegate: seq<T -> T2 -> R>)

  /** The one-argument applicative that ap hands back, given by its delegate. */
  datatype ZippingApplicative<!T2, R> = ZippingApplicative(delegate: seq<T2 -> R>)

  function Min(a: nat, b: nat): nat
  {
    if a <= b then a else b
  }

  /** Pairs elements at equal positions, stopping at the end of the shorter input. */
  function Zip<A, B>(a: seq<A>, b: seq<B>): (r: seq<(A, B)>)
    ensures |r| == Min(|a|, |b|)
    ensures forall k :: 0 <= k < |r| ==> r[k] == (a[k], b[k])
    decreases |a|
  {
    if a == [] || b == [] then [] else [(a[0], b[0])] + Zip(a[1..], b[1..])
  }

  /** map on the applicative is map on its delegate. */
  function Map<T, T2, R, U>(za: ZippingApplicative2<T, T2, R>, fn: (T -> T2 -> R) -> U): (r: seq<U>)
    ensures |r| == |za.delegate|
    ensures forall k :: 0 <= k < |r| ==> r[k] == fn(za.delegate[k])
  {
    Functor.Map(za.delegate, fn)
  }

  /**
   * ap(f): zip the delegate's functions with the elements of f and apply each
   * function to its partner, giving the partially applied functions.
   */
  function Ap<T, T2, R>(za: ZippingApplicative2<T, T2, R>, f: seq<T>): (r: ZippingApplicative<T2, R>)
    ensures |r.delegate| == Min(|za.delegate|, |f|)
    ensures forall k :: 0 <= k < |r.delegate| ==> r.delegate[k] == za.delegate[k](f[k])
  {
    ZippingApplicative(Functor.Map(Zip(za.delegate, f), (p: (T -> T2 -> R, T)) => p.0(p.1)))
  }

  /**
   * ap keeps positions: applying a concatenation of functions to a
   * concatenation of arguments of matching lengths is concatenating the two
   * applications.
   */
  lemma ApAppend<T, T2, R>(fs1: seq<T -> T2 -> R>, fs2: seq<T -> T2 -> R>, xs1: seq<T>, xs2: seq<T>)
    requires |fs1| == |xs1|
    ensures Ap(ZippingApplicative2(fs1 + fs2), xs1 + xs2).delegate
         == Ap(ZippingApplicative2(fs1), xs1).delegate + Ap(ZippingApplicative2(fs2), xs2).delegate
  {
  }
}
