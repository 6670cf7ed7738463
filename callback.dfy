/**
 * Item 7 (chapter2/item7_eliminate_obsolete_references): `UIComponent`, a
 * component that keeps its listeners in a list. A listener is an object
 * reference; `ArrayList.remove` compares with `equals`, which for the
 * listeners of the program (which do not override it) is reference
 * equality. A listener's reaction to an event is not modelled: notifying
 * it is recorded as the pair of the listener and the event.
 */
module Callbacks {
  import opened Lang

  /** The index of the first occurrence of `x` in `ls`, or `|ls|` when there is none. */
  function FirstIndexOf(ls: seq<object?>, x: object?): (i: nat)
    ensures i <= |ls|
    ensures i < |ls| ==> ls[i] == x
    ensures forall j :: 0 <= j < i ==> ls[j] != x
    ensures i == |ls| <==> x !in ls
  {
    if ls == [] then 0
    else if ls[0] == x then 0
    else 1 + FirstIndexOf(ls[1..], x)
  }

  /** `List.remove(x)`: drop the first occurrence of `x`, if any. */
  function RemoveFirst(ls: seq<object?>, x: object?): seq<object?> {
    var i := FirstIndexOf(ls, x);
    if i == |ls| then ls else ls[..i] + ls[i + 1..]
  }

  /**
   * Removing takes away exactly one registration of a registered listener,
   * keeps every other registration, and changes nothing for an
   * unregistered one.
   */
  lemma RemoveFirstRemovesOne(ls: seq<object?>, x: object?)
    ensures x !in ls ==> RemoveFirst(ls, x) == ls
    ensures x in ls ==> |RemoveFirst(ls, x)| == |ls| - 1
    ensures multiset(RemoveFirst(ls, x)) == multiset(ls) - multiset{x}
  {
    var i := FirstIndexOf(ls, x);
    if i < |ls| {
      assert ls == ls[..i] + [x] + ls[i + 1..];
      assert multiset(ls) == multiset(ls[..i]) + multiset{x} + multiset(ls[i + 1..]);
    } else {
      assert multiset(ls)[x] == 0;
    }
  }

  /** The registrations other than the removed one keep their order. */
  lemma RemoveFirstKeepsOrder(ls: seq<object?>, x: object?, i: nat)
    requires x in ls && i == FirstIndexOf(ls, x)
    ensures |RemoveFirst(ls, x)| == |ls| - 1
    ensures forall j :: 0 <= j < i ==> RemoveFirst(ls, x)[j] == ls[j]
    ensures forall j :: i <= j < |ls| - 1 ==> RemoveFirst(ls, x)[j] == ls[j + 1]
  {
    SpliceIndices(ls, i, RemoveFirst(ls, x));
  }

  lemma SpliceIndices(ls: seq<object?>, i: nat, r: seq<object?>)
    requires i < |ls| && r == ls[..i] + ls[i + 1..]
    ensures |r| == |ls| - 1
    ensures forall j :: 0 <= j < i ==> r[j] == ls[j]
    ensures forall j :: i <= j < |ls| - 1 ==> r[j] == ls[j + 1]
  {
  }

  class UIComponent {
    const name: string
    var listeners: seq<object?>

    /** A new component has no listeners. */
    constructor (name: string)
      ensures this.name == name && listeners == []
    {
      this.name := name;
      listeners := [];
    }

    /** `addListener(listener)`: appended, even when already registered. */
    method AddListener(listener: object?)
      modifies this
      ensures listeners == old(listeners) + [listener]
    {
      listeners := listeners + [listener];
    }

    /** `removeListener(listener)`: drop its first registration. */
    method RemoveListener(listener: object?)
      modifies this
      ensures listeners == RemoveFirst(old(listeners), listener)
    {
      var i := 0;
      while i < |listeners| && listeners[i] != listener
        invariant i <= |listeners|
        invariant forall j :: 0 <= j < i ==> listeners[j] != listener
      {
        i := i + 1;
      }
      assert i == FirstIndexOf(listeners, listener);
      if i < |listeners| {
        listeners := listeners[..i] + listeners[i + 1..];
      }
    }

    /**
     * `simulateEvent(event)`: notify each registration once, in
     * registration order; a null registration throws when its turn comes,
     * after the ones before it were notified.
     */
    method SimulateEvent(event: string) returns (notified: seq<(object?, string)>, r: Outcome)
      ensures var k := FirstIndexOf(listeners, null);
              && |notified| == k
              && (forall i :: 0 <= i < k ==> notified[i] == (listeners[i], event))
              && (if k < |listeners| then r == Fail(NullPointerException) else r == Pass)
    {
      notified := [];
      for i := 0 to |listeners|
        invariant |notified| == i
        invariant forall j :: 0 <= j < i ==> listeners[j] != null && notified[j] == (listeners[j], event)
      {
        if listeners[i] == null {
          return notified, Fail(NullPointerException);
        }
        notified := notified + [(listeners[i], event)];
      }
      r := Pass;
    }

    /** `getListenerCount()`: the number of registrations. */
    function GetListenerCount(): (r: nat)
      reads this
      ensures r == |listeners|
    {
      |listeners|
    }
  }

  /** A screen: a listener object. */
  class Screen {
    const name: string

    constructor (name: string)
      ensures this.name == name
    {
      this.name := name;
    }
  }

  /**
   * Ten screens register with one button and are never removed: the button
   * still counts ten listeners and notifies all ten.
   */
  method TenScreensStayRegistered() returns (count: nat, notified: nat)
    ensures count == 10 && notified == 10
  {
    var button := new UIComponent("LoginButton");
    for i := 0 to 10
      invariant fresh(button) && |button.listeners| == i
      invariant forall j :: 0 <= j < i ==> button.listeners[j] != null
    {
      var screen := new Screen("Screen");
      button.AddListener(screen);
    }
    count := button.GetListenerCount();
    var calls, _ := button.SimulateEvent("click");
    assert FirstIndexOf(button.listeners, null) == 10;
    notified := |calls|;
  }

  /**
   * A listener registered twice and removed once is still registered once;
   * removing a listener that is not registered changes nothing.
   */
  method DuplicateRegistration() returns (afterOneRemove: nat, afterStrangerRemove: nat)
    ensures afterOneRemove == 1 && afterStrangerRemove == 1
  {
    var button := new UIComponent("LoginButton");
    var screen := new Screen("Screen0");
    var stranger := new Screen("Screen1");
    button.AddListener(screen);
    button.AddListener(screen);
    button.RemoveListener(screen);
    afterOneRemove := button.GetListenerCount();
    button.RemoveListener(stranger);
    afterStrangerRemove := button.GetListenerCount();
  }
}
