/**
 * ListX: a mutable list with fluent in-place operations.
 *
 * A ListX wraps a java.util.List and changes it in place; plus, plusAll,
 * minus and minusAll (and their index forms) call the list's own add, addAll,
 * remove and removeAll and then return the receiver itself.  The list's
 * contents are the field `elems`; the java.util.List operations are methods
 * of the class, stated against the reference functions below.
 */
module ListX {
  import opened Wrappers

  /** The exceptions these operations can throw. IllegalArgument carries the rejected argument. */
  datatype ListError = IndexOutOfBounds(index: int, size: nat) | IllegalArgument(argument: int)

  const MinInt: int := -0x8000_0000
  const MaxInt: int := 0x7fff_ffff

  /** A Java int. */
  type Int32 = x: int | MinInt <= x <= MaxInt

  /** Java int addition: the sum wrapped into the 32-bit range. */
  function AddInt32(a: Int32, b: Int32): (r: Int32)
    ensures MinInt <= a + b <= MaxInt ==> r == a + b
    ensures a + b > MaxInt ==> r == a + b - 0x1_0000_0000
  {
    var sum := a + b;
    if sum > MaxInt then sum - 0x1_0000_0000
    else if sum < MinInt then sum + 0x1_0000_0000
    else sum
  }

  // ----- Reference functions on list contents -----

  /** The position of the first occurrence of x. */
  function FirstIndex<T(==)>(s: seq<T>, x: T): (k: nat)
    requires x in s
    ensures k < |s| && s[k] == x
    ensures forall j :: 0 <= j < k ==> s[j] != x
    decreases |s|
  {
    if s[0] == x then 0 else 1 + FirstIndex(s[1..], x)
  }

  /** The contents after remove(Object): the first occurrence of x taken out, if there is one. */
  function RemoveFirst<T(==)>(s: seq<T>, x: T): (r: seq<T>)
    ensures x !in s ==> r == s
    ensures x in s ==> r == s[..FirstIndex(s, x)] + s[FirstIndex(s, x) + 1..]
    decreases |s|
  {
    if s == [] then []
    else if s[0] == x then s[1..]
    else
      var rest := RemoveFirst(s[1..], x);
      assert x in s ==> x in s[1..] by {
        if x in s {
          var k :| 0 <= k < |s| && s[k] == x;
          assert s[1..][k - 1] == x;
        }
      }
      assert x in s ==> s[..FirstIndex(s, x)] == [s[0]] + s[1..][..FirstIndex(s[1..], x)];
      assert x in s ==> s[FirstIndex(s, x) + 1..] == s[1..][FirstIndex(s[1..], x) + 1..];
      [s[0]] + rest
  }

  /** The contents after removeAll(c): every element equal to a member of c taken out, the rest in order. */
  function RemoveEvery<T(==)>(s: seq<T>, c: seq<T>): (r: seq<T>)
    ensures forall k :: 0 <= k < |r| ==> r[k] !in c && r[k] in s
    ensures forall x :: x in s && x !in c ==> x in r
    ensures forall x :: x in s ==> multiset(r)[x] == if x in c then 0 else multiset(s)[x]
    ensures (forall k :: 0 <= k < |s| ==> s[k] !in c) ==> r == s
    ensures (exists k :: 0 <= k < |s| && s[k] in c) ==> |r| < |s|
    ensures |r| <= |s|
    decreases |s|
  {
    if s == [] then []
    else
      assert s == [s[0]] + s[1..];
      assert multiset(s) == multiset([s[0]]) + multiset(s[1..]);
      if s[0] in c then RemoveEvery(s[1..], c)
      else [s[0]] + RemoveEvery(s[1..], c)
  }

  /** Stream deleteBetween(start, end): the elements at positions outside start .. end - 1, in order. */
  function DeleteBetween<T>(s: seq<T>, start: nat, end: nat): (r: seq<T>)
    ensures start <= end <= |s| ==> |r| == |s| - (end - start)
    ensures start <= end <= |s| ==> forall k :: 0 <= k < start ==> r[k] == s[k]
    ensures start <= end <= |s| ==> forall k :: start <= k < |r| ==> r[k] == s[k + (end - start)]
    ensures |s| <= start ==> r == s
  {
    var a := if start <= |s| then start else |s|;
    var b := if end <= |s| then end else |s|;
    if a <= b then s[..a] + s[b..] else s
  }

  /** Stream insertAt(pos, x): the first pos elements, then x, then the rest. */
  function InsertAt<T>(s: seq<T>, pos: nat, x: T): (r: seq<T>)
    ensures |r| == |s| + 1
    ensures pos <= |s| ==> r[pos] == x
    ensures pos <= |s| ==> forall k :: 0 <= k < pos ==> r[k] == s[k]
    ensures pos <= |s| ==> forall k :: pos < k < |r| ==> r[k] == s[k - 1]
    ensures |s| <= pos ==> r == s + [x]
  {
    var a := if pos <= |s| then pos else |s|;
    s[..a] + [x] + s[a..]
  }

  /** Removing an element that was appended to a list that did not hold it gives back the list: plus(e) then minus(e). */
  lemma AppendThenRemoveFirst<T>(s: seq<T>, e: T)
    requires e !in s
    ensures RemoveFirst(s + [e], e) == s
  {
  }

  /** removeAll keeps the relative order of what it keeps: it commutes with concatenation. */
  lemma {:induction false} RemoveEveryAppend<T>(a: seq<T>, b: seq<T>, c: seq<T>)
    ensures RemoveEvery(a + b, c) == RemoveEvery(a, c) + RemoveEvery(b, c)
    decreases |a|
  {
    if a == [] {
      assert a + b == b;
    } else {
      assert (a + b)[0] == a[0];
      assert (a + b)[1..] == a[1..] + b;
      RemoveEveryAppend(a[1..], b, c);
    }
  }

  class ListX<T(==)> {
    var elems: seq<T>

    /** fromIterable over a java.util.List: a ListX holding that list's elements. */
    constructor FromList(s: seq<T>)
      ensures elems == s
    {
      elems := s;
    }

    // ----- The java.util.List operations ListX calls -----

    /** add(e): append e; returns true. */
    method Add(e: T) returns (changed: bool)
      modifies this
      ensures elems == old(elems) + [e]
      ensures changed
    {
      elems := elems + [e];
      changed := true;
    }

    /** addAll(c): append the elements of c in order; returns whether the list changed. */
    method AddAll(c: seq<T>) returns (changed: bool)
      modifies this
      ensures elems == old(elems) + c
      ensures changed == (c != [])
    {
      elems := elems + c;
      changed := c != [];
    }

    /** add(i, e): insert e before position i, 0 <= i <= size, or throw and change nothing. */
    method AddAt(i: int, e: T) returns (r: Result<(), ListError>)
      modifies this
      ensures 0 <= i <= |old(elems)| ==> r.Success? && elems == old(elems)[..i] + [e] + old(elems)[i..]
      ensures !(0 <= i <= |old(elems)|) ==> r == Failure(IndexOutOfBounds(i, |old(elems)|)) && elems == old(elems)
    {
      if 0 <= i <= |elems| {
        elems := elems[..i] + [e] + elems[i..];
        r := Success(());
      } else {
        r := Failure(IndexOutOfBounds(i, |elems|));
      }
    }

    /** addAll(i, c): insert the elements of c, in order, before position i, or throw and change nothing. */
    method AddAllAt(i: int, c: seq<T>) returns (r: Result<bool, ListError>)
      modifies this
      ensures 0 <= i <= |old(elems)| ==> r == Success(c != []) && elems == old(elems)[..i] + c + old(elems)[i..]
      ensures !(0 <= i <= |old(elems)|) ==> r == Failure(IndexOutOfBounds(i, |old(elems)|)) && elems == old(elems)
    {
      if 0 <= i <= |elems| {
        elems := elems[..i] + c + elems[i..];
        r := Success(c != []);
      } else {
        r := Failure(IndexOutOfBounds(i, |elems|));
      }
    }

    /** remove(int): take out the element at position i, 0 <= i < size, and return it, or throw and change nothing. */
    method RemoveAt(i: int) returns (r: Result<T, ListError>)
      modifies this
      ensures 0 <= i < |old(elems)| ==> r == Success(old(elems)[i]) && elems == old(elems)[..i] + old(elems)[i + 1..]
      ensures !(0 <= i < |old(elems)|) ==> r == Failure(IndexOutOfBounds(i, |old(elems)|)) && elems == old(elems)
    {
      if 0 <= i < |elems| {
        r := Success(elems[i]);
        elems := elems[..i] + elems[i + 1..];
      } else {
        r := Failure(IndexOutOfBounds(i, |elems|));
      }
    }

    /** remove(Object): take out the first occurrence of o; returns whether there was one. */
    method Remove(o: T) returns (changed: bool)
      modifies this
      ensures changed == (o in old(elems))
      ensures elems == RemoveFirst(old(elems), o)
    {
      changed := o in elems;
      elems := RemoveFirst(elems, o);
    }

    /** removeAll(c): take out every element equal to a member of c; returns whether the list changed. */
    method RemoveAll(c: seq<T>) returns (changed: bool)
      modifies this
      ensures elems == RemoveEvery(old(elems), c)
      ensures changed <==> exists k :: 0 <= k < |old(elems)| && old(elems)[k] in c
    {
      var before := elems;
      elems := RemoveEvery(elems, c);
      changed := |elems| != |before|;
    }

    // ----- ListX's own operations -----

    /** of(values...): a fresh list filled with the values one by one, in argument order. */
    static method Of(values: seq<T>) returns (l: ListX<T>)
      ensures fresh(l)
      ensures l.elems == values
    {
      var res: seq<T> := [];
      for i := 0 to |values|
        invariant res == values[..i]
      {
        res := res + [values[i]];
      }
      l := new ListX<T>.FromList(res);
    }

    /** singleton(value): of with the one value. */
    static method Singleton(value: T) returns (l: ListX<T>)
      ensures fresh(l)
      ensures l.elems == [value]
    {
      l := Of([value]);
    }

    /**
     * with(i, element): the contents of a defensive copy whose position i
     * holds element, built as deleteBetween(i, i + 1) then insertAt(i,
     * element), with i + 1 computed in Java int arithmetic.  The receiver is
     * only read.  Past the end the deletion takes nothing and the insertion
     * appends; a negative start or end is refused, which at i = MaxInt is the
     * wrapped end.
     */
    function With(i: Int32, element: T): (r: Result<seq<T>, ListError>)
      reads this
      ensures r.Failure? <==> i < 0 || i == MaxInt
      ensures i < 0 ==> r == Failure(IllegalArgument(i))
      ensures i == MaxInt ==> r == Failure(IllegalArgument(MinInt))
      ensures 0 <= i < |elems| && i < MaxInt ==> r == Success(elems[i := element])
      ensures |elems| <= i < MaxInt ==> r == Success(elems + [element])
    {
      var end := AddInt32(i, 1);
      if i < 0 then Failure(IllegalArgument(i))
      else if end < 0 then Failure(IllegalArgument(end))
      else
        var deleted := DeleteBetween(elems, i, end);
        assert i < |elems| ==> InsertAt(deleted, i, element) == elems[i := element] by {
          if i < |elems| {
            assert deleted == elems[..i] + elems[i + 1..];
            assert deleted[..i] == elems[..i];
            assert deleted[i..] == elems[i + 1..];
          }
        }
        Success(InsertAt(deleted, i, element))
    }

    /** plus(e): add(e), then the receiver. */
    method Plus(e: T) returns (r: ListX<T>)
      modifies this
      ensures r == this
      ensures elems == old(elems) + [e]
    {
      var changed := Add(e);
      r := this;
    }

    /** plusAll(c): addAll(c), then the receiver. */
    method PlusAll(c: seq<T>) returns (r: ListX<T>)
      modifies this
      ensures r == this
      ensures elems == old(elems) + c
    {
      var changed := AddAll(c);
      r := this;
    }

    /** minus(pos): remove(pos), then the receiver; an index outside the list throws. */
    method MinusAt(pos: int) returns (r: Result<ListX<T>, ListError>)
      modifies this
      ensures 0 <= pos < |old(elems)| ==> r == Success(this) && elems == old(elems)[..pos] + old(elems)[pos + 1..]
      ensures !(0 <= pos < |old(elems)|) ==> r == Failure(IndexOutOfBounds(pos, |old(elems)|)) && elems == old(elems)
    {
      var removed := RemoveAt(pos);
      match removed
      case Success(_) => r := Success(this);
      case Failure(e) => r := Failure(e);
    }

    /** minus(e): remove(e), then the receiver. */
    method Minus(e: T) returns (r: ListX<T>)
      modifies this
      ensures r == this
      ensures elems == RemoveFirst(old(elems), e)
    {
      var changed := Remove(e);
      r := this;
    }

    /** minusAll(c): removeAll(c), then the receiver. */
    method MinusAll(c: seq<T>) returns (r: ListX<T>)
      modifies this
      ensures r == this
      ensures elems == RemoveEvery(old(elems), c)
    {
      var changed := RemoveAll(c);
      r := this;
    }

    /** plus(i, e): add(i, e), then the receiver; an index outside 0 .. size throws. */
    method PlusAt(i: int, e: T) returns (r: Result<ListX<T>, ListError>)
      modifies this
      ensures 0 <= i <= |old(elems)| ==> r == Success(this) && elems == old(elems)[..i] + [e] + old(elems)[i..]
      ensures !(0 <= i <= |old(elems)|) ==> r == Failure(IndexOutOfBounds(i, |old(elems)|)) && elems == old(elems)
    {
      var added := AddAt(i, e);
      match added
      case Success(_) => r := Success(this);
      case Failure(err) => r := Failure(err);
    }

    /** plusAll(i, c): addAll(i, c), then the receiver; an index outside 0 .. size throws. */
    method PlusAllAt(i: int, c: seq<T>) returns (r: Result<ListX<T>, ListError>)
      modifies this
      ensures 0 <= i <= |old(elems)| ==> r == Success(this) && elems == old(elems)[..i] + c + old(elems)[i..]
      ensures !(0 <= i <= |old(elems)|) ==> r == Failure(IndexOutOfBounds(i, |old(elems)|)) && elems == old(elems)
    {
      var added := AddAllAt(i, c);
      match added
      case Success(_) => r := Success(this);
      case Failure(err) => r := Failure(err);
    }

    /** plus(i, e) then minus(i): the list is as it was, whether or not the index was in range. */
    method PlusAtThenMinusAt(i: int, e: T) returns (added: Result<ListX<T>, ListError>, removed: Result<ListX<T>, ListError>)
      modifies this
      ensures added.Success? <==> 0 <= i <= |old(elems)|
      ensures removed.Success? <==> 0 <= i <= |old(elems)|
      ensures elems == old(elems)
    {
      added := PlusAt(i, e);
      ghost var inserted := elems;
      removed := MinusAt(i);
      if 0 <= i <= |old(elems)| {
        assert inserted[..i] == old(elems)[..i];
        assert inserted[i + 1..] == old(elems)[i..];
      }
    }

    /**
     * onEmptySwitch(supplier): the receiver when it has elements; otherwise a
     * list over what the supplier gives, here `supplied`.
     */
    method OnEmptySwitch(supplied: seq<T>) returns (r: ListX<T>)
      ensures old(elems) != [] ==> r == this
      ensures old(elems) == [] ==> fresh(r) && r.elems == supplied
      ensures elems == old(elems)
    {
      if elems == [] {
        r := new ListX<T>.FromList(supplied);
      } else {
        r := this;
      }
    }
  }
}
