/**
 * The Functor capability, instantiated on finite sequences.
 *
 * Functor declares a single abstract operation, map; cast, peek, trampoline
 * and patternMatch are default methods built from it.  Here map is given its
 * sequence meaning (apply the function to every element, keep positions) and
 * each derived operation is defined, as in the interface, as one call to it.
 */
module Functor {
  import opened Wrappers

  /** The abstract map, on sequences: element k of the result is fn applied to element k. */
  function Map<T, R>(s: seq<T>, fn: T -> R): (r: seq<R>)
    ensures |r| == |s|
    ensures forall k :: 0 <= k < |s| ==> r[k] == fn(s[k])
    decreases |s|
  {
    if s == [] then [] else [fn(s[0])] + Map(s[1..], fn)
  }

  /**
   * A mapping function that may throw: the seq instance of map evaluates it
   * element by element and stops at the first throw.
   */
  function MapOrThrow<T, R, E>(s: seq<T>, fn: T -> Result<R, E>): (r: Result<seq<R>, E>)
    ensures r.Success? <==> forall k :: 0 <= k < |s| ==> fn(s[k]).Success?
    ensures r.Success? ==> |r.value| == |s| && forall k :: 0 <= k < |s| ==> r.value[k] == fn(s[k]).value
    ensures r.Failure? ==> exists k :: 0 <= k < |s| && fn(s[k]) == Failure(r.error)
                                    && forall j :: 0 <= j < k ==> fn(s[j]).Success?
    decreases |s|
  {
    if s == [] then Success([])
    else match fn(s[0])
      case Failure(e) => Failure(e)
      case Success(v) =>
        match MapOrThrow(s[1..], fn)
        case Failure(e) =>
          ghost var k :| 0 <= k < |s[1..]| && fn(s[1..][k]) == Failure(e)
                         && forall j :: 0 <= j < k ==> fn(s[1..][j]).Success?;
          assert fn(s[k + 1]) == Failure(e);
          Failure(e)
        case Success(vs) => Success([v] + vs)
  }

  /** With a function that never throws, the throwing map is the plain map. */
  lemma MapOrThrowTotal<T, R, E>(s: seq<T>, fn: T -> R)
    ensures MapOrThrow<T, R, E>(s, (x: T) => Success(fn(x))) == Success(Map(s, fn))
  {
  }

  /** Why a cast fails: the class's cast rejects the element. */
  datatype CastError = ClassCastException

  /**
   * cast: the throwing map of the target class's cast function.
   * `instanceOf(x)` is `Some(u)` when the class's cast accepts x (an instance
   * of the class, or null), u being x seen at that type, and `None` when the
   * cast throws.
   */
  function Cast<T, U>(s: seq<T>, instanceOf: T -> Option<U>): (r: Result<seq<U>, CastError>)
    ensures r.Success? <==> forall k :: 0 <= k < |s| ==> instanceOf(s[k]).Some?
    ensures r.Success? ==> |r.value| == |s| && forall k :: 0 <= k < |s| ==> Some(r.value[k]) == instanceOf(s[k])
    ensures r.Failure? ==> r.error == ClassCastException
  {
    MapOrThrow(s, x => match instanceOf(x) case Some(u) => Success(u) case None => Failure(ClassCastException))
  }

  /** What peek hands back: the mapped sequence and, in order, what the consumer saw. */
  datatype Peeked<T, O> = Peeked(elements: seq<T>, observed: seq<O>)

  /**
   * peek: map with a function that first hands its input to the consumer and
   * then returns the input unchanged.  The consumer is modelled by what it
   * records about each input, `consume(x)`, so that function yields the pair
   * of that record and the input itself.
   */
  function Peek<T, O>(s: seq<T>, consume: T -> O): (r: Peeked<T, O>)
    ensures r.elements == s
    ensures r.observed == Map(s, consume)
  {
    var steps := Map(s, (input: T) => (consume(input), input));
    Peeked(Map(steps, (p: (O, T)) => p.1), Map(steps, (p: (O, T)) => p.0))
  }

  /**
   * A trampoline: either a finished result or one more bounce.  The Java
   * thunk that yields the next step is replaced by that step itself, so every
   * trampoline here finishes after finitely many bounces.
   */
  datatype Trampoline<R> = Done(done: R) | More(next: Trampoline<R>)

  /** The number of bounces before a trampoline is done. */
  function BounceCount<R>(t: Trampoline<R>): nat
  {
    match t
    case Done(_) => 0
    case More(next) => 1 + BounceCount(next)
  }

  /** The result of a trampoline: bounce until done, yielding the final value. */
  function Run<R>(t: Trampoline<R>): (r: R)
    ensures t == Bounces(BounceCount(t), r)
  {
    match t
    case Done(x) => x
    case More(next) => Run(next)
  }

  /** The trampoline that bounces n times before yielding x. */
  function Bounces<R>(n: nat, x: R): Trampoline<R>
  {
    if n == 0 then Done(x) else More(Bounces(n - 1, x))
  }

  /** trampoline: map with the function that runs the trampoline mapper gives for each element. */
  function TrampolineMap<T, R>(s: seq<T>, mapper: T -> Trampoline<R>): (r: seq<R>)
    ensures |r| == |s|
    ensures forall k :: 0 <= k < |s| ==> r[k] == Run(mapper(s[k]))
  {
    Map(s, (x: T) => Run(mapper(x)))
  }

  /**
   * patternMatch: map with the per-element match, where `case1(x)`
   * is `Some(v)` when the case matches x with value v, and `otherwise` is the
   * value the supplier gives when no case matches.
   */
  function PatternMatch<T, R>(s: seq<T>, case1: T -> Option<R>, otherwise: R): (r: seq<R>)
    ensures |r| == |s|
    ensures forall k :: 0 <= k < |s| && case1(s[k]).Some? ==> r[k] == case1(s[k]).value
    ensures forall k :: 0 <= k < |s| && case1(s[k]).None? ==> r[k] == otherwise
  {
    Map(s, (x: T) => match case1(x) case Some(v) => v case None => otherwise)
  }
}
