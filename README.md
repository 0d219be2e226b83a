# cyclops-react core pieces, modelled in Dafny

This project models five small pieces of the cyclops-react functional
extension library for Java and proves what their code promises.

- **The push-pipeline filter stage** (`FilterOperator`, module
  `FilterOperator`). A subscription is a pure function. It takes the signals
  the upstream pushes (`Next(x)`, `Error(e)`, `Complete`) and gives the
  signals the downstream callbacks receive. The predicate is a total function
  that either answers (`Success(b)`) or throws (`Failure(t)`). The downstream
  `onNext` is described by `onNextFault`: for each element, the throwable it
  raises, if any. The upstream's subscription is an opaque value that is
  handed back unchanged.
- **`ListX`'s fluent in-place list operations** (module `ListX`, class
  `ListX`). The wrapped `java.util.List` is the field `elems: seq<T>`. The
  list operations that ListX calls (`add`, `addAll`, `add(int, E)`,
  `addAll(int, Collection)`, `remove(int)`, `remove(Object)`, `removeAll`)
  are methods of the class. The ListX methods call them and return the
  receiver. Index errors are `Failure(IndexOutOfBounds(..))`, and the list
  is then left unchanged.
- **`ZippingApplicative2`** (module `ZippingApplicative2`). `ap` zips the
  delegate's curried functions with the arguments and applies them pointwise.
  `map` delegates to the delegate's `map`.
- **`Functor`'s default methods** (module `Functor`). `map` is given its
  meaning on finite sequences. `peek`, `trampoline` and `patternMatch` are
  defined through it, as in the interface. `cast` uses the same map with a
  function that may throw; `Functor.MapOrThrowTotal` shows that this is the
  plain map when nothing throws.
- **`DirectWaitStrategy`** (module `DirectWaitStrategy`). A probe
  (`Takeable`, `Offerable`) is an object that follows a script of answers and
  counts its calls. `Take` and `Offer` call the probe once and return its
  answer unchanged.

A subscription is meant to end with a single terminal signal. The filter
stage does not enforce that. It records nothing, so after the predicate
throws, later elements are still tested and forwarded. The model follows the
code here (`FilterOperator.PredicateFailureIsRoutedAndStageContinues`,
`FilterOperator.FilterAppend`).

## Model

| member | source | states |
|---|---|---|
| `FilterOperator.OnElement` | src/main/java/com/aol/cyclops2/internal/stream/spliterators/push/FilterOperator.java:24-32 | The wrapping onNext, for one element. It sends nothing exactly when the predicate answers false. It sends `Next(x)` exactly when the predicate answers true. It never sends Complete, and any Next it sends carries the element itself. |
| `FilterOperator.OnSignal` | src/main/java/com/aol/cyclops2/internal/stream/spliterators/push/FilterOperator.java:24-33 | An upstream Error or Complete is handed to the downstream as it is. An element yields at most two signals, never Complete. |
| `FilterOperator.Filter` | src/main/java/com/aol/cyclops2/internal/stream/spliterators/push/FilterOperator.java:24-33 | The stage sends at most two signals per upstream signal. An upstream with no elements passes through unchanged. |
| `FilterOperator.Subscribe` | src/main/java/com/aol/cyclops2/internal/stream/spliterators/push/FilterOperator.java:22-34 | subscribe returns exactly the upstream's subscription. It delivers the filtered signal sequence, and adds no state of its own. |
| `FilterOperator.SubscribeAll` | src/main/java/com/aol/cyclops2/internal/stream/spliterators/push/FilterOperator.java:36-49 | subscribeAll wraps the upstream's signals exactly as subscribe does. |
| `FilterOperator.FilterAppend` | src/main/java/com/aol/cyclops2/internal/stream/spliterators/push/FilterOperator.java:24-33 | The stage is stateless. Filtering `a + b` equals filtering `a`, then filtering `b`. |
| `FilterOperator.DeliveredValuesAreAccepted` | src/main/java/com/aol/cyclops2/internal/stream/spliterators/push/FilterOperator.java:24-27 | The elements onNext receives are exactly the upstream elements the predicate answers true for, in the same order. This holds whatever the predicate or onNext throws. |
| `FilterOperator.OnlyAcceptedDelivered` | src/main/java/com/aol/cyclops2/internal/stream/spliterators/push/FilterOperator.java:26-27 | Every element delivered by Next came from the upstream, and the predicate answered true for it. |
| `FilterOperator.RejectedIsSilent` | src/main/java/com/aol/cyclops2/internal/stream/spliterators/push/FilterOperator.java:24-27 | An element the predicate rejects produces no downstream signal of any kind. |
| `FilterOperator.PredicateFailureIsRoutedAndStageContinues` | src/main/java/com/aol/cyclops2/internal/stream/spliterators/push/FilterOperator.java:24-33 | If the predicate throws `t` on an element, `Error(t)` takes that element's place and the element is not forwarded. The later signals are handled exactly as if nothing had failed. |
| `FilterOperator.AcceptedIsForwarded` | src/main/java/com/aol/cyclops2/internal/stream/spliterators/push/FilterOperator.java:25-31 | An accepted element is forwarded as `Next(x)`. If the downstream onNext throws `t`, `Error(t)` follows it at once. Later signals are unaffected. |
| `FilterOperator.TerminalPassesInPlace` | src/main/java/com/aol/cyclops2/internal/stream/spliterators/push/FilterOperator.java:33 | An upstream Error or Complete reaches the downstream unchanged, at its place. |
| `FilterOperator.NoFaultNoError` | src/main/java/com/aol/cyclops2/internal/stream/spliterators/push/FilterOperator.java:24-33 | onError is never called when nothing fails: no upstream error, no predicate throw, and no onNext throw on an accepted element. |
| `Functor.Map` | src/main/java/com/aol/cyclops/types/Functor.java:32 | The seq instance of map keeps the length. Element k of the result is fn applied to element k. |
| `Functor.MapOrThrow` | src/main/java/com/aol/cyclops/types/Functor.java:30 | map with a function that may throw succeeds exactly when the function succeeds on every element. It then holds the results in place. Otherwise it fails with the throwable of the first failing element. |
| `Functor.MapOrThrowTotal` | src/main/java/com/aol/cyclops/types/Functor.java:29-32 | With a function that never throws, the throwing map is the plain map, so cast is map of the cast function. |
| `Functor.Cast` | src/main/java/com/aol/cyclops/types/Functor.java:29-31 | cast succeeds exactly when the target class's cast accepts every element (an instance, or null). It then holds each element, at the target type, in the same position. Otherwise it throws ClassCastException. |
| `Functor.Peek` | src/main/java/com/aol/cyclops/types/Functor.java:34-39 | peek gives back exactly the original elements, in the same positions. The consumer sees every element, in order. |
| `Functor.Run` | src/main/java/com/aol/cyclops/types/Functor.java:74 | Running a trampoline yields the value of its final Done, however many bounces come before it. |
| `Functor.TrampolineMap` | src/main/java/com/aol/cyclops/types/Functor.java:73-75 | trampoline keeps the length. Element k is the result of running `mapper(s[k])`. |
| `Functor.PatternMatch` | src/main/java/com/aol/cyclops/types/Functor.java:96-99 | patternMatch keeps the length. Element k is the matching case's value, or `otherwise` when no case matches. |
| `ZippingApplicative2.Zip` | src/main/java/com/aol/cyclops/types/applicative/zipping/ZippingApplicative2.java:28-29 | zip has the length of the shorter input and pairs the elements at equal positions. |
| `ZippingApplicative2.Map` | src/main/java/com/aol/cyclops/types/applicative/zipping/ZippingApplicative2.java:16-19 | map on the applicative is map on its delegate: same length, fn applied at each position. |
| `ZippingApplicative2.Ap` | src/main/java/com/aol/cyclops/types/applicative/zipping/ZippingApplicative2.java:24-33 | ap's length is the minimum of the two input lengths. Element k is delegate function k applied to argument k. |
| `ZippingApplicative2.ApAppend` | src/main/java/com/aol/cyclops/types/applicative/zipping/ZippingApplicative2.java:28-31 | ap keeps positions: on concatenated inputs of matching lengths it is the concatenation of the two applications. |
| `DirectWaitStrategy.Takeable.Take` | src/main/java/com/aol/simple/react/async/DirectWaitStrategy.java:17 | The take probe returns the next answer of its script and counts one call. |
| `DirectWaitStrategy.Offerable.Offer` | src/main/java/com/aol/simple/react/async/DirectWaitStrategy.java:23 | The offer probe returns the next answer of its script and counts one call. |
| `DirectWaitStrategy.Take` | src/main/java/com/aol/simple/react/async/DirectWaitStrategy.java:15-18 | take calls the probe exactly once. It returns the probe's answer unchanged: null, an element, or an interruption with no result. |
| `DirectWaitStrategy.Offer` | src/main/java/com/aol/simple/react/async/DirectWaitStrategy.java:21-24 | offer calls the probe exactly once. It returns the probe's answer unchanged: true, false, or an interruption with no result. |
| `ListX.RemoveFirst` | src/main/java/com/aol/cyclops/data/collections/extensions/standard/ListX.java:525-528 | Without an occurrence of x, the list is unchanged. With one, exactly the first occurrence is cut out and the rest stays in order. |
| `ListX.RemoveEvery` | src/main/java/com/aol/cyclops/data/collections/extensions/standard/ListX.java:533-536 | After removeAll, no element equals a member of c. Every element not in c survives, and nothing new appears. Each surviving value keeps its number of occurrences. The list is unchanged exactly when nothing was in c; otherwise it shrinks. |
| `ListX.AppendThenRemoveFirst` | src/main/java/com/aol/cyclops/data/collections/extensions/standard/ListX.java:501-528 | plus(e) and then minus(e), on a list without e, give back the original list. |
| `ListX.RemoveEveryAppend` | src/main/java/com/aol/cyclops/data/collections/extensions/standard/ListX.java:533-536 | removeAll keeps relative order: it commutes with concatenation. |
| `ListX.AddInt32` | src/main/java/com/aol/cyclops/data/collections/extensions/standard/ListX.java:488 | Java int addition: the exact sum when it fits in 32 bits, otherwise the sum wrapped by 2^32. |
| `ListX.DeleteBetween` | src/main/java/com/aol/cyclops/data/collections/extensions/standard/ListX.java:488 | deleteBetween(start, end) keeps the elements before start, then those from end on, in order. Past the end, nothing is deleted. |
| `ListX.InsertAt` | src/main/java/com/aol/cyclops/data/collections/extensions/standard/ListX.java:489 | insertAt(pos, x) puts x at pos, keeps the earlier elements, and shifts the later ones right by one. Past the end, x is appended. |
| `ListX.ListX.FromList` | src/main/java/com/aol/cyclops/data/collections/extensions/standard/ListX.java:169-178 | fromIterable over a list yields a ListX holding that list's elements. |
| `ListX.ListX.Add` | src/main/java/com/aol/cyclops/data/collections/extensions/standard/ListX.java:502 | add appends the element and returns true. |
| `ListX.ListX.AddAll` | src/main/java/com/aol/cyclops/data/collections/extensions/standard/ListX.java:510 | addAll appends the collection in order. It returns whether the list changed. |
| `ListX.ListX.AddAt` | src/main/java/com/aol/cyclops/data/collections/extensions/standard/ListX.java:543 | add(i, e) inserts before i when 0 <= i <= size. Otherwise it throws IndexOutOfBounds and leaves the list unchanged. |
| `ListX.ListX.AddAllAt` | src/main/java/com/aol/cyclops/data/collections/extensions/standard/ListX.java:551 | addAll(i, c) inserts c contiguously, in order, before i. Otherwise it throws and leaves the list unchanged. |
| `ListX.ListX.RemoveAt` | src/main/java/com/aol/cyclops/data/collections/extensions/standard/ListX.java:518 | remove(i) takes out, and returns, exactly the element at i when 0 <= i < size. Otherwise it throws and leaves the list unchanged. |
| `ListX.ListX.Remove` | src/main/java/com/aol/cyclops/data/collections/extensions/standard/ListX.java:526 | remove(o) takes out the first occurrence. It returns whether there was one. |
| `ListX.ListX.RemoveAll` | src/main/java/com/aol/cyclops/data/collections/extensions/standard/ListX.java:534 | removeAll(c) takes out every element in c. It returns true exactly when some element was in c. |
| `ListX.ListX.Of` | src/main/java/com/aol/cyclops/data/collections/extensions/standard/ListX.java:145-151 | of yields a fresh list holding exactly the values, in argument order. |
| `ListX.ListX.Singleton` | src/main/java/com/aol/cyclops/data/collections/extensions/standard/ListX.java:153-155 | singleton yields a fresh list holding just the value. |
| `ListX.ListX.With` | src/main/java/com/aol/cyclops/data/collections/extensions/standard/ListX.java:483-491 | with(i, e) is a copy equal to the receiver except at i, which holds e (0 <= i < size). The receiver is only read. Past the end, e is appended. A negative index is refused, and so is i = 2147483647, where the int sum i + 1 wraps to a negative end. |
| `ListX.ListX.Plus` | src/main/java/com/aol/cyclops/data/collections/extensions/standard/ListX.java:501-504 | plus(e) appends e in place and returns the receiver itself. |
| `ListX.ListX.PlusAll` | src/main/java/com/aol/cyclops/data/collections/extensions/standard/ListX.java:509-512 | plusAll(c) appends c in place and returns the receiver. |
| `ListX.ListX.MinusAt` | src/main/java/com/aol/cyclops/data/collections/extensions/standard/ListX.java:517-520 | minus(pos) removes exactly the element at pos and keeps the order of the rest, then returns the receiver. An index outside the list throws and changes nothing. |
| `ListX.ListX.Minus` | src/main/java/com/aol/cyclops/data/collections/extensions/standard/ListX.java:525-528 | minus(e) removes the first occurrence of e, if any, and returns the receiver. |
| `ListX.ListX.MinusAll` | src/main/java/com/aol/cyclops/data/collections/extensions/standard/ListX.java:533-536 | minusAll(c) leaves no element of c and returns the receiver. |
| `ListX.ListX.PlusAt` | src/main/java/com/aol/cyclops/data/collections/extensions/standard/ListX.java:542-545 | plus(i, e) inserts e at i and shifts later elements right, then returns the receiver. An index outside 0..size throws and changes nothing. |
| `ListX.ListX.PlusAllAt` | src/main/java/com/aol/cyclops/data/collections/extensions/standard/ListX.java:550-553 | plusAll(i, c) inserts c contiguously at i, in order, then returns the receiver. A bad index throws and changes nothing. |
| `ListX.ListX.PlusAtThenMinusAt` | src/main/java/com/aol/cyclops/data/collections/extensions/standard/ListX.java:517-545 | plus(i, e) and then minus(i) leave the list as it was. Both succeed exactly when 0 <= i <= size. |
| `ListX.ListX.OnEmptySwitch` | src/main/java/com/aol/cyclops/data/collections/extensions/standard/ListX.java:984-988 | onEmptySwitch returns the receiver itself when it is non-empty. Otherwise it returns a fresh list with the supplier's contents. The receiver is not changed. |

## Left out

- `Operator`, `BaseOperator` and `StreamSubscription` are not part of this model.
  - The upstream is a finite signal sequence, and its subscription an opaque value.
  - Cancellation, demand and threading are not modelled.
- `FilterOperator.SubscribeAll`: the upstream has two entry points, `subscribe` and `subscribeAll`. The model takes both to push the same signal sequence.
- The downstream `onNext`'s failures are modelled as a function of the element (`onNextFault`). A downstream whose failures depend on its own history is not captured.
- An exception thrown by the downstream `onError` leaves the stage uncaught. The model has no signal for that, so it is not modelled.
- Retry and recover combinators, the asynchronous source and `SpinWait`: their code is not part of this model, and they rest on threads and wall-clock time.
- ListX's other overrides (`filter`, `map`, `zip`, `sliding`, `grouped`, `scanLeft`, `sorted`, `distinct` and the rest) delegate to code that is not part of this model. `range`, `unfold`, `generate`, `iterate` and `fromPublisher` delegate to the stream library, and `shuffle` uses randomness.
- `ListX.ListX.With`: the stream operators `deleteBetween` and `insertAt` are not part of this model.
  - They are modelled as "drop positions i up to i + 1" and "insert before position min(i, size)".
  - A negative start or end is modelled as `IllegalArgument`, as the stream's `limit` and `skip` reject negative counts. The end `i + 1` is computed in 32-bit int arithmetic, so i = 2147483647 is refused too.
  - The result is the copy's contents. The fresh ListX object that wraps it is not modelled.
- `ListX.ListX.FromList`: the model takes the wrapped list to be fresh, unshared and resizable, like the ArrayList that the default collector supplies.
  - In Java, `fromIterable` wraps the caller's own list and returns a ListX argument as itself. Changes through the ListX are then visible through the caller's list; this sharing is not modelled.
  - A fixed-size or unmodifiable list would make `add` and `remove` throw UnsupportedOperationException. That is not modelled either.
- `ListX.ListX.OnEmptySwitch`: the supplier is modelled by the contents it supplies. When the supplier returns a ListX object, `fromIterable` hands back that object itself; the model always builds a fresh one.
- `ListX.ListX.PlusAll`, `ListX.ListX.AddAll`: the collection argument is the sequence of its elements at the time of the call. Aliasing a list to itself (`l.plusAll(l)`) is therefore seen as a snapshot.
- `ListX.ListX.MinusAll`: Java's `removeAll` accepts a collection of any type. The model takes one of the list's element type, and compares elements with equality (`equals`).
- `ZippingApplicative2.Ap`: the Java result captures the two iterators when `ap` is called, so its delegate can be iterated only once. The model gives the zipped sequence as a value.
- `Functor.Run`, `Functor.TrampolineMap`: `Trampoline` is not part of this model. A trampoline is a finite `Done | More` chain, and the Java thunk is replaced by the step it would produce.
- `Functor.PatternMatch`: the `Matchable`/`CheckValues` case DSL is not part of this model. A case is a function giving `Some(value)` on a match, and the `otherwise` supplier is the value it supplies.
- `Functor.Cast`: the Java class object is modelled as an instance test `instanceOf`. With lazy streams the `ClassCastException` would only surface when an element is consumed; the seq instance is strict.
- `Functor.Peek`: the consumer is modelled by what it records about each element, not by arbitrary side effects.
- `DirectWaitStrategy.Take`, `DirectWaitStrategy.Offer`: the blocking inside the probe (a blocking queue's `take`/`put`) is not modelled, only its answers.
