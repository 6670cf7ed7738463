/**
 * Item 7 (chapter2/item7_eliminate_obsolete_references): an array-backed
 * stack of object references that grows its buffer on demand, with a leaky
 * `pop` that leaves the popped reference in the buffer and a `popFixed`
 * that clears it.
 */
module Stacks {
  import opened Lang

  const DEFAULT_INITIAL_CAPACITY: nat := 16

  /** The number of non-null references in a sequence of slots. */
  function NonNullCount(s: seq<object?>): (r: nat)
    ensures r <= |s|
  {
    if s == [] then 0
    else NonNullCount(s[..|s| - 1]) + (if s[|s| - 1] != null then 1 else 0)
  }

  /** The slots `Arrays.copyOf(slots, 2 * size + 1)` produces when the buffer is full, and the same slots otherwise. */
  function Grown(slots: seq<object?>, size: nat): (r: seq<object?>)
    requires size <= |slots|
    ensures |r| > size
    ensures r[..size] == slots[..size]
    ensures |slots| == size ==> |r| == 2 * size + 1 && forall i :: size <= i < |r| ==> r[i] == null
    ensures |slots| != size ==> r == slots
  {
    if |slots| == size then slots + seq(size + 1, _ => null) else slots
  }

  class Stack {
    var elements: array<object?>
    var size: nat

    ghost predicate Valid()
      reads this
    {
      size <= elements.Length
    }

    /** The stack's contents, bottom first. */
    ghost function Contents(): seq<object?>
      reads this, elements
      requires Valid()
    {
      elements[..size]
    }

    /** `new Stack()`: an empty stack over 16 null slots. */
    constructor ()
      ensures Valid() && fresh(elements)
      ensures size == 0 && elements.Length == DEFAULT_INITIAL_CAPACITY
      ensures forall i :: 0 <= i < elements.Length ==> elements[i] == null
    {
      elements := new object?[DEFAULT_INITIAL_CAPACITY](_ => null);
      size := 0;
    }

    /** `ensureCapacity()`: when the buffer is full, copy it into one of `2 * size + 1` slots. */
    method EnsureCapacity()
      requires Valid()
      modifies this
      ensures Valid() && size == old(size) && size < elements.Length
      ensures elements[..] == Grown(old(elements[..]), size)
      ensures elements != old(elements) ==> fresh(elements)
    {
      if elements.Length == size {
        var slots := Grown(elements[..], size);
        var grown := new object?[|slots|](i requires 0 <= i < |slots| => slots[i]);
        elements := grown;
      }
    }

    /** `push(e)`: make room, then store `e` just above the top. */
    method Push(e: object?)
      requires Valid()
      modifies this, elements
      ensures Valid() && size == old(size) + 1
      ensures elements[..] == Grown(old(elements[..]), old(size))[old(size) := e]
      ensures Contents() == old(Contents()) + [e]
      ensures elements != old(elements) ==> fresh(elements)
    {
      EnsureCapacity();
      elements[size] := e;
      size := size + 1;
      assert elements[..size] == old(elements[..size]) + [e];
    }

    /** `pop()`: return the top element, leaving its reference in the buffer. */
    method Pop() returns (r: Result<object?>)
      requires Valid()
      modifies this
      ensures Valid() && elements == old(elements)
      ensures old(size) == 0 ==> r == Err(EmptyStackException) && size == 0
      ensures old(size) > 0 ==> r == Ok(old(elements[size - 1])) && size == old(size) - 1
                                && old(Contents()) == Contents() + [r.value]
    {
      if size == 0 {
        return Err(EmptyStackException);
      }
      size := size - 1;
      r := Ok(elements[size]);
    }

    /** `popFixed()`: return the top element and null out the slot it vacates. */
    method PopFixed() returns (r: Result<object?>)
      requires Valid()
      modifies this, elements
      ensures Valid() && elements == old(elements)
      ensures old(size) == 0 ==> r == Err(EmptyStackException) && size == 0 && elements[..] == old(elements[..])
      ensures old(size) > 0 ==> r == Ok(old(elements[size - 1])) && size == old(size) - 1
                                && old(Contents()) == Contents() + [r.value]
                                && elements[..] == old(elements[..])[size := null]
    {
      if size == 0 {
        return Err(EmptyStackException);
      }
      size := size - 1;
      var result := elements[size];
      elements[size] := null;
      r := Ok(result);
    }

    /** `getSize()`. */
    function GetSize(): (r: nat)
      reads this
      requires Valid()
      ensures r <= elements.Length && r == |Contents()|
    {
      size
    }

    /** `getCapacity()`. */
    function GetCapacity(): (r: nat)
      reads this
      ensures r == elements.Length
    {
      elements.Length
    }

    /** `getInternalArray()`: a new copy of the whole buffer, stale slots included. */
    method GetInternalArray() returns (a: array<object?>)
      ensures fresh(a) && a[..] == elements[..]
    {
      var slots := elements[..];
      a := new object?[|slots|](i requires 0 <= i < |slots| => slots[i]);
    }
  }

  // ---------------------------------------------------------------------
  // Counting what the buffer still references
  // ---------------------------------------------------------------------

  /** The counting loop of the demonstration: the non-null slots of an array. */
  method CountNonNull(a: array<object?>) returns (count: nat)
    ensures count == NonNullCount(a[..])
  {
    count := 0;
    for i := 0 to a.Length
      invariant count == NonNullCount(a[..i])
    {
      assert a[..i + 1][..i] == a[..i];
      if a[i] != null {
        count := count + 1;
      }
    }
    assert a[..a.Length] == a[..];
  }

  /** Slots that are non-null below `n` and null from `n` on hold `n` references. */
  lemma {:induction false} NonNullCountOfSplit(s: seq<object?>, n: nat)
    requires n <= |s|
    requires forall i :: 0 <= i < n ==> s[i] != null
    requires forall i :: n <= i < |s| ==> s[i] == null
    ensures NonNullCount(s) == n
    decreases |s|
  {
    if s != [] {
      var init := s[..|s| - 1];
      if n == |s| {
        NonNullCountOfSplit(init, n - 1);
      } else {
        NonNullCountOfSplit(init, n);
      }
    }
  }

  /** A value to push: a fresh, non-null object. */
  class Payload {
    constructor () {}
  }

  /**
   * Push `n` new objects and pop them all with `pop`: the stack is empty,
   * yet its buffer still references all `n` of them.
   */
  method LeakyDemo(n: nat) returns (size: nat, referenced: nat)
    ensures size == 0 && referenced == n
  {
    var stack := new Stack();
    for i := 0 to n
      invariant fresh(stack) && fresh(stack.elements) && stack.Valid() && stack.size == i
      invariant forall k :: 0 <= k < i ==> stack.elements[k] != null
      invariant forall k :: i <= k < stack.elements.Length ==> stack.elements[k] == null
    {
      var p := new Payload();
      stack.Push(p);
    }
    for i := 0 to n
      invariant fresh(stack) && fresh(stack.elements) && stack.Valid() && stack.size == n - i
      invariant n <= stack.elements.Length
      invariant forall k :: 0 <= k < n ==> stack.elements[k] != null
      invariant forall k :: n <= k < stack.elements.Length ==> stack.elements[k] == null
    {
      var _ := stack.Pop();
    }
    var internal := stack.GetInternalArray();
    NonNullCountOfSplit(internal[..], n);
    referenced := CountNonNull(internal);
    size := stack.GetSize();
  }

  /**
   * Push `n` new objects and pop them all with `popFixed`: the stack is
   * empty and its buffer references none of them.
   */
  method FixedDemo(n: nat) returns (size: nat, referenced: nat)
    ensures size == 0 && referenced == 0
  {
    var stack := new Stack();
    for i := 0 to n
      invariant fresh(stack) && fresh(stack.elements) && stack.Valid() && stack.size == i
      invariant forall k :: 0 <= k < i ==> stack.elements[k] != null
      invariant forall k :: i <= k < stack.elements.Length ==> stack.elements[k] == null
    {
      var p := new Payload();
      stack.Push(p);
    }
    for i := 0 to n
      invariant fresh(stack) && fresh(stack.elements) && stack.Valid() && stack.size == n - i
      invariant forall k :: 0 <= k < n - i ==> stack.elements[k] != null
      invariant forall k :: n - i <= k < stack.elements.Length ==> stack.elements[k] == null
    {
      var _ := stack.PopFixed();
    }
    var internal := stack.GetInternalArray();
    NonNullCountOfSplit(internal[..], 0);
    referenced := CountNonNull(internal);
    size := stack.GetSize();
  }
}
