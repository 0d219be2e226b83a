/**
 * The filter stage of the push pipeline.
 *
 * The stage never holds state of its own: the predicate is fixed when it is
 * built, and each element the upstream pushes is handled on its own by a
 * wrapping callback.  Seen from outside, a subscription therefore turns the
 * sequence of signals the upstream pushes into the sequence of signals the
 * downstream callbacks receive, and that is how it is modelled here.
 */
module FilterOperator {
  import opened Wrappers

  /** One call into a callback triple: onNext(value), onError(error) or onComplete(). */
  datatype Signal<T, E> = Next(value: T) | Error(error: E) | Complete

  /**
   * The upstream stage as far as the filter can see it: the subscription it
   * returns from a subscribe call and the signals it pushes into the callbacks
   * it was given.
   */
  datatype Upstream<S, T, E> = Upstream(subscription: S, signals: seq<Signal<T, E>>)

  /** A filter stage: its upstream source and its predicate, both fixed by the constructor. */
  datatype Stage<S, !T, E> = Stage(source: Upstream<S, T, E>, test: T -> Result<bool, E>)

  /** What one subscribe call yields: the subscription handed back and the signals delivered downstream. */
  datatype Subscribed<S, T, E> = Subscribed(subscription: S, delivered: seq<Signal<T, E>>)

  /**
   * The wrapping onNext callback applied to one element.  `onNextFault(x)` is
   * `Some(t)` when the downstream onNext throws `t` on `x`: onNext has then
   * been called, and the catch block passes `t` on to onError.
   */
  function OnElement<T, E>(test: T -> Result<bool, E>, onNextFault: T -> Option<E>, x: T): (r: seq<Signal<T, E>>)
    ensures |r| <= 2
    ensures Complete !in r
    ensures r == [] <==> test(x) == Success(false)
    ensures Next(x) in r <==> test(x) == Success(true)
    ensures forall i :: 0 <= i < |r| && r[i].Next? ==> r[i].value == x
  {
    match test(x)
    case Failure(t) => [Error(t)]
    case Success(accepted) =>
      if !accepted then []
      else match onNextFault(x)
        case None => [Next(x)]
        case Some(t) => [Next(x), Error(t)]
  }

  /** One upstream signal as the downstream sees it: elements go through the wrapper, the rest pass unchanged. */
  function OnSignal<T, E>(test: T -> Result<bool, E>, onNextFault: T -> Option<E>, s: Signal<T, E>): (r: seq<Signal<T, E>>)
    ensures !s.Next? ==> r == [s]
    ensures s.Next? ==> |r| <= 2 && Complete !in r
  {
    match s
    case Next(x) => OnElement(test, onNextFault, x)
    case Error(e) => [Error(e)]
    case Complete => [Complete]
  }

  /** The signals delivered downstream for a whole upstream signal sequence. */
  function Filter<T, E>(test: T -> Result<bool, E>, onNextFault: T -> Option<E>, up: seq<Signal<T, E>>): (r: seq<Signal<T, E>>)
    ensures |r| <= 2 * |up|
    ensures (forall i :: 0 <= i < |up| ==> !up[i].Next?) ==> r == up
    decreases |up|
  {
    if up == [] then []
    else OnSignal(test, onNextFault, up[0]) + Filter(test, onNextFault, up[1..])
  }

  /** subscribe: wraps onNext, hands onError and onComplete through, and returns the upstream's subscription. */
  function Subscribe<S, T, E>(stage: Stage<S, T, E>, onNextFault: T -> Option<E>): (r: Subscribed<S, T, E>)
    ensures r.subscription == stage.source.subscription
    ensures r.delivered == Filter(stage.test, onNextFault, stage.source.signals)
  {
    Subscribed(stage.source.subscription, Filter(stage.test, onNextFault, stage.source.signals))
  }

  /** subscribeAll: the same wrapping, with no subscription handed back. */
  function SubscribeAll<S, T, E>(stage: Stage<S, T, E>, onNextFault: T -> Option<E>): (r: seq<Signal<T, E>>)
    ensures r == Subscribe(stage, onNextFault).delivered
  {
    Filter(stage.test, onNextFault, stage.source.signals)
  }

  // ----- Reference definitions -----

  /** The payloads of the Next signals, in order. */
  function Values<T, E>(s: seq<Signal<T, E>>): seq<T>
    decreases |s|
  {
    if s == [] then []
    else (if s[0].Next? then [s[0].value] else []) + Values(s[1..])
  }

  /** The elements the predicate answers true for, in order. */
  function Accepted<T, E>(test: T -> Result<bool, E>, xs: seq<T>): seq<T>
    decreases |xs|
  {
    if xs == [] then []
    else (if test(xs[0]) == Success(true) then [xs[0]] else []) + Accepted(test, xs[1..])
  }

  /** Whether a signal sequence holds an Error signal. */
  predicate HasError<T, E>(s: seq<Signal<T, E>>)
  {
    exists i :: 0 <= i < |s| && s[i].Error?
  }

  // ----- Properties -----

  lemma {:induction false} ValuesAppend<T, E>(a: seq<Signal<T, E>>, b: seq<Signal<T, E>>)
    ensures Values(a + b) == Values(a) + Values(b)
    decreases |a|
  {
    if a == [] {
      assert a + b == b;
    } else {
      var h := if a[0].Next? then [a[0].value] else [];
      assert (a + b)[0] == a[0];
      assert (a + b)[1..] == a[1..] + b;
      assert Values(a + b) == h + Values(a[1..] + b);
      ValuesAppend(a[1..], b);
      assert Values(a) == h + Values(a[1..]);
    }
  }

  lemma {:induction false} AcceptedAppend<T, E>(test: T -> Result<bool, E>, a: seq<T>, b: seq<T>)
    ensures Accepted(test, a + b) == Accepted(test, a) + Accepted(test, b)
    decreases |a|
  {
    if a == [] {
      assert a + b == b;
    } else {
      assert (a + b)[1..] == a[1..] + b;
      AcceptedAppend(test, a[1..], b);
    }
  }

  /** The stage keeps no state: filtering a concatenation is concatenating the filtered parts. */
  lemma {:induction false} FilterAppend<T, E>(test: T -> Result<bool, E>, onNextFault: T -> Option<E>,
                                              a: seq<Signal<T, E>>, b: seq<Signal<T, E>>)
    ensures Filter(test, onNextFault, a + b) == Filter(test, onNextFault, a) + Filter(test, onNextFault, b)
    decreases |a|
  {
    if a == [] {
      assert a + b == b;
    } else {
      assert (a + b)[0] == a[0];
      assert (a + b)[1..] == a[1..] + b;
      FilterAppend(test, onNextFault, a[1..], b);
    }
  }

  /** A single upstream signal is handled by the wrapping callback alone. */
  lemma FilterSingle<T, E>(test: T -> Result<bool, E>, onNextFault: T -> Option<E>, s: Signal<T, E>)
    ensures Filter(test, onNextFault, [s]) == OnSignal(test, onNextFault, s)
  {
  }

  /** The elements onNext is given for one upstream signal. */
  lemma ValuesOnSignal<T, E>(test: T -> Result<bool, E>, onNextFault: T -> Option<E>, s: Signal<T, E>)
    ensures Values(OnSignal(test, onNextFault, s))
         == (if s.Next? && test(s.value) == Success(true) then [s.value] else [])
  {
    var head := OnSignal(test, onNextFault, s);
    if s.Next? {
      match test(s.value)
      case Failure(t) =>
        assert head == [Error(t)];
        assert Values(head) == [] + Values(head[1..]);
      case Success(accepted) =>
        if accepted {
          assert head[0] == Next(s.value);
          match onNextFault(s.value)
          case None =>
            assert head[1..] == [];
          case Some(t) =>
            assert head[1..] == [Error(t)];
            assert Values(head[1..]) == [] + Values(head[1..][1..]);
            assert head[1..][1..] == [];
        }
    } else {
      assert head[1..] == [];
    }
  }

  /**
   * The downstream onNext receives exactly the upstream elements the predicate
   * answers true for, in upstream order, whatever the predicate throws on the
   * others and whatever the downstream onNext throws.
   */
  lemma {:induction false} DeliveredValuesAreAccepted<T, E>(test: T -> Result<bool, E>, onNextFault: T -> Option<E>,
                                                            up: seq<Signal<T, E>>)
    ensures Values(Filter(test, onNextFault, up)) == Accepted(test, Values(up))
    decreases |up|
  {
    if up != [] {
      var head := OnSignal(test, onNextFault, up[0]);
      var first := if up[0].Next? then [up[0].value] else [];
      ValuesAppend(head, Filter(test, onNextFault, up[1..]));
      ValuesOnSignal(test, onNextFault, up[0]);
      DeliveredValuesAreAccepted(test, onNextFault, up[1..]);
      assert Values(up) == first + Values(up[1..]);
      AcceptedAppend(test, first, Values(up[1..]));
      if up[0].Next? {
        assert first[1..] == [];
        assert Accepted(test, first) == (if test(up[0].value) == Success(true) then first else []) + Accepted(test, []);
      }
    }
  }

  /** Every element delivered to the downstream onNext came from upstream and was accepted by the predicate. */
  lemma {:induction false} OnlyAcceptedDelivered<T, E>(test: T -> Result<bool, E>, onNextFault: T -> Option<E>,
                                                       up: seq<Signal<T, E>>, i: nat)
    requires i < |Filter(test, onNextFault, up)|
    requires Filter(test, onNextFault, up)[i].Next?
    ensures test(Filter(test, onNextFault, up)[i].value) == Success(true)
    ensures Next(Filter(test, onNextFault, up)[i].value) in up
    decreases |up|
  {
    var head := OnSignal(test, onNextFault, up[0]);
    var rest := Filter(test, onNextFault, up[1..]);
    assert Filter(test, onNextFault, up) == head + rest;
    if i < |head| {
      assert up[0].Next?;
      assert head[i].value == up[0].value;
    } else {
      OnlyAcceptedDelivered(test, onNextFault, up[1..], i - |head|);
      assert (head + rest)[i] == rest[i - |head|];
      assert Next(rest[i - |head|].value) in up[1..];
    }
  }

  /** An element the predicate rejects produces no downstream signal of any kind. */
  lemma RejectedIsSilent<T, E>(test: T -> Result<bool, E>, onNextFault: T -> Option<E>,
                               before: seq<Signal<T, E>>, x: T, after: seq<Signal<T, E>>)
    requires test(x) == Success(false)
    ensures Filter(test, onNextFault, before + [Next(x)] + after)
         == Filter(test, onNextFault, before) + Filter(test, onNextFault, after)
  {
    FilterAppend(test, onNextFault, before + [Next(x)], after);
    FilterAppend(test, onNextFault, before, [Next(x)]);
    FilterSingle(test, onNextFault, Next(x));
  }

  /**
   * A predicate that throws on an element hands the throwable to onError in the
   * element's place, and the stage goes on with the later signals as before.
   */
  lemma PredicateFailureIsRoutedAndStageContinues<T, E>(test: T -> Result<bool, E>, onNextFault: T -> Option<E>,
                                                        before: seq<Signal<T, E>>, x: T, t: E, after: seq<Signal<T, E>>)
    requires test(x) == Failure(t)
    ensures Filter(test, onNextFault, before + [Next(x)] + after)
         == Filter(test, onNextFault, before) + [Error(t)] + Filter(test, onNextFault, after)
  {
    FilterAppend(test, onNextFault, before + [Next(x)], after);
    FilterAppend(test, onNextFault, before, [Next(x)]);
    FilterSingle(test, onNextFault, Next(x));
  }

  /**
   * An accepted element is forwarded to onNext; if onNext throws, the
   * throwable reaches onError straight after it.  Later signals are unaffected.
   */
  lemma AcceptedIsForwarded<T, E>(test: T -> Result<bool, E>, onNextFault: T -> Option<E>,
                                  before: seq<Signal<T, E>>, x: T, after: seq<Signal<T, E>>)
    requires test(x) == Success(true)
    ensures Filter(test, onNextFault, before + [Next(x)] + after)
         == Filter(test, onNextFault, before)
            + (match onNextFault(x) case None => [Next(x)] case Some(t) => [Next(x), Error(t)])
            + Filter(test, onNextFault, after)
  {
    FilterAppend(test, onNextFault, before + [Next(x)], after);
    FilterAppend(test, onNextFault, before, [Next(x)]);
    FilterSingle(test, onNextFault, Next(x));
  }

  /** Upstream onError and onComplete signals reach the downstream unchanged and in place. */
  lemma TerminalPassesInPlace<T, E>(test: T -> Result<bool, E>, onNextFault: T -> Option<E>,
                                    before: seq<Signal<T, E>>, s: Signal<T, E>, after: seq<Signal<T, E>>)
    requires !s.Next?
    ensures Filter(test, onNextFault, before + [s] + after)
         == Filter(test, onNextFault, before) + [s] + Filter(test, onNextFault, after)
  {
    FilterAppend(test, onNextFault, before + [s], after);
    FilterAppend(test, onNextFault, before, [s]);
    FilterSingle(test, onNextFault, s);
  }

  /**
   * onError is called only when something failed: if the upstream pushes no
   * error, the predicate never throws and the downstream onNext never throws
   * on an accepted element, no Error signal is delivered.
   */
  lemma {:induction false} NoFaultNoError<T, E>(test: T -> Result<bool, E>, onNextFault: T -> Option<E>,
                                                up: seq<Signal<T, E>>)
    requires !HasError(up)
    requires forall x :: x in Values(up) ==> test(x).Success?
    requires forall x :: x in Values(up) && test(x) == Success(true) ==> onNextFault(x).None?
    ensures !HasError(Filter(test, onNextFault, up))
    decreases |up|
  {
    if up != [] {
      var head := OnSignal(test, onNextFault, up[0]);
      var rest := Filter(test, onNextFault, up[1..]);
      assert Values(up) == (if up[0].Next? then [up[0].value] else []) + Values(up[1..]);
      assert !HasError(up[1..]) by {
        forall i | 0 <= i < |up[1..]| ensures !up[1..][i].Error? {
          assert up[1..][i] == up[i + 1];
        }
      }
      NoFaultNoError(test, onNextFault, up[1..]);
      assert !up[0].Error?;
      assert forall i :: 0 <= i < |head| ==> !head[i].Error?;
      forall i | 0 <= i < |head + rest| ensures !(head + rest)[i].Error? {
        if i >= |head| {
          assert (head + rest)[i] == rest[i - |head|];
        }
      }
    }
  }
}
