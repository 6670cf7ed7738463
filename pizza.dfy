/**
 * Item 2 (chapter2/item2_builder_pattern): the hierarchical pizza builders.
 * `Pizza.Builder` is the class `PizzaBuilder`, holding the topping set and
 * its cap; each concrete builder holds its `PizzaBuilder` part as `base`,
 * the part its Java superclass contributes. A setter that returns the
 * builder for chaining returns an `Outcome` here, and a chain is a sequence
 * of calls. The products are immutable values, so a built pizza keeps the
 * topping set it was built with whatever the builder does afterwards.
 */
module Pizzas {
  import opened Lang

  datatype Topping = HAM | MUSHROOM | ONION | PEPPER | SAUSAGE

  const ALL_TOPPINGS: set<Topping> := {HAM, MUSHROOM, ONION, PEPPER, SAUSAGE}

  const DEFAULT_MAX_TOPPINGS: int32 := 6
  const CHICAGO_MAX_TOPPINGS: int32 := 8

  // ---------------------------------------------------------------------
  // The topping rules, on values
  // ---------------------------------------------------------------------

  /**
   * `addTopping(topping)` on a set with a cap: the cap is checked first,
   * then the topping must be non-null; adding is set union.
   */
  function AddToppingTo(toppings: set<Topping>, maxToppings: int32, topping: Option<Topping>): (r: Result<set<Topping>>)
    ensures |toppings| >= maxToppings as int ==> r == Err(IllegalStateException)
    ensures |toppings| < maxToppings as int && topping.None? ==> r == Err(NullPointerException)
    ensures |toppings| < maxToppings as int && topping.Some? ==> r == Ok(toppings + {topping.value})
    ensures r.Ok? ==> |r.value| <= maxToppings as int
  {
    if |toppings| >= maxToppings as int then Err(IllegalStateException)
    else if topping.None? then Err(NullPointerException)
    else Ok(toppings + {topping.value})
  }

  /** What `addToppings` leaves behind: the set it reached and how it ended. */
  datatype Added = Added(toppings: set<Topping>, outcome: Outcome)

  /** The toppings a list of arguments names. */
  function Named(ts: seq<Option<Topping>>): set<Topping> {
    set i | 0 <= i < |ts| && ts[i].Some? :: ts[i].value
  }

  /**
   * `addToppings(ts)`: `addTopping` on each argument in order, stopping at
   * the first exception; the toppings added before it stay added.
   */
  function AddAll(toppings: set<Topping>, maxToppings: int32, ts: seq<Option<Topping>>): (r: Added)
    ensures toppings <= r.toppings
    ensures r.toppings == toppings || |r.toppings| <= maxToppings as int
    decreases |ts|
  {
    if ts == [] then Added(toppings, Pass)
    else
      match AddToppingTo(toppings, maxToppings, ts[0])
      case Err(e) => Added(toppings, Fail(e))
      case Ok(added) => AddAll(added, maxToppings, ts[1..])
  }

  /** `addToppings` adds no topping its arguments do not name. */
  lemma {:induction false} AddAllAddsOnlyNamed(toppings: set<Topping>, maxToppings: int32, ts: seq<Option<Topping>>)
    ensures AddAll(toppings, maxToppings, ts).toppings <= toppings + Named(ts)
    decreases |ts|
  {
    if ts != [] {
      var step := AddToppingTo(toppings, maxToppings, ts[0]);
      if step.Ok? {
        AddAllAddsOnlyNamed(step.value, maxToppings, ts[1..]);
        NamedTail(ts);
      }
    }
  }

  /** The arguments after the first name no topping the whole list does not, and the first names its own. */
  lemma NamedTail(ts: seq<Option<Topping>>)
    requires ts != []
    ensures Named(ts[1..]) <= Named(ts)
    ensures ts[0].Some? ==> ts[0].value in Named(ts)
  {
    forall t | t in Named(ts[1..]) ensures t in Named(ts) {
      var i :| 0 <= i < |ts[1..]| && ts[1..][i].Some? && ts[1..][i].value == t;
      assert ts[i + 1] == ts[1..][i];
    }
    assert ts[0] == ts[0 + 0];
  }

  lemma {:induction false} SubsetCardinality<T>(a: set<T>, b: set<T>)
    requires a <= b
    ensures |a| <= |b|
  {
    if a != {} {
      var x :| x in a;
      SubsetCardinality(a - {x}, b - {x});
    }
  }

  /** `Topping` has five values, so no topping set holds more than five. */
  lemma ToppingSetsHoldAtMostFive(s: set<Topping>)
    ensures |s| <= |ALL_TOPPINGS| == 5
  {
    assert s <= ALL_TOPPINGS by {
      forall t | t in s ensures t in ALL_TOPPINGS {
        match t
        case HAM => case MUSHROOM => case ONION => case PEPPER => case SAUSAGE =>
      }
    }
    SubsetCardinality(s, ALL_TOPPINGS);
  }

  /**
   * With a cap of six or more (6 by default, 8 for Chicago) the cap is never
   * reached: adding a non-null topping always succeeds.
   */
  lemma CapIsNeverReached(toppings: set<Topping>, maxToppings: int32, t: Topping)
    requires maxToppings >= DEFAULT_MAX_TOPPINGS
    ensures AddToppingTo(toppings, maxToppings, Some(t)) == Ok(toppings + {t})
  {
    ToppingSetsHoldAtMostFive(toppings);
  }

  /**
   * Below a cap of six or more, `addToppings` adds the arguments before the
   * first null one, in order, and then stops with `NullPointerException`:
   * the toppings added before the failure stay added.
   */
  lemma {:induction false} FirstNullStopsAddAll(toppings: set<Topping>, maxToppings: int32, ts: seq<Option<Topping>>, k: nat)
    requires maxToppings >= DEFAULT_MAX_TOPPINGS
    requires k < |ts| && ts[k].None? && forall i :: 0 <= i < k ==> ts[i].Some?
    ensures AddAll(toppings, maxToppings, ts) == Added(toppings + Named(ts[..k]), Fail(NullPointerException))
    decreases k
  {
    ToppingSetsHoldAtMostFive(toppings);
    if k == 0 {
      assert Named(ts[..0]) == {};
    } else {
      var t := ts[0].value;
      CapIsNeverReached(toppings, maxToppings, t);
      FirstNullStopsAddAll(toppings + {t}, maxToppings, ts[1..], k - 1);
      NamedCons(ts[..k]);
      assert ts[..k][1..] == ts[1..][..k - 1];
    }
  }

  lemma NamedCons(ts: seq<Option<Topping>>)
    requires ts != [] && ts[0].Some?
    ensures Named(ts) == {ts[0].value} + Named(ts[1..])
  {
    forall t | t in Named(ts) ensures t in {ts[0].value} + Named(ts[1..]) {
      var i :| 0 <= i < |ts| && ts[i].Some? && ts[i].value == t;
      if i > 0 {
        assert ts[1..][i - 1] == ts[i];
      }
    }
    forall t | t in Named(ts[1..]) ensures t in Named(ts) {
      var i :| 0 <= i < |ts[1..]| && ts[1..][i].Some? && ts[1..][i].value == t;
      assert ts[i + 1] == ts[1..][i];
    }
    assert ts[0] == ts[0 + 0];
  }

  /**
   * Under a cap of six or more, `addToppings` with no null argument always
   * succeeds and adds exactly the named toppings.
   */
  lemma {:induction false} NonNullToppingsAllAdded(toppings: set<Topping>, maxToppings: int32, ts: seq<Option<Topping>>)
    requires maxToppings >= DEFAULT_MAX_TOPPINGS
    requires forall i :: 0 <= i < |ts| ==> ts[i].Some?
    ensures AddAll(toppings, maxToppings, ts) == Added(toppings + Named(ts), Pass)
    decreases |ts|
  {
    if ts != [] {
      CapIsNeverReached(toppings, maxToppings, ts[0].value);
      NonNullToppingsAllAdded(toppings + {ts[0].value}, maxToppings, ts[1..]);
      NamedCons(ts);
    }
  }

  /** Under a cap of six or more, `addToppings` adds a non-null first argument and carries on with the rest. */
  lemma AddAllStep(toppings: set<Topping>, maxToppings: int32, ts: seq<Option<Topping>>)
    requires maxToppings >= DEFAULT_MAX_TOPPINGS
    requires ts != [] && ts[0].Some?
    ensures AddAll(toppings, maxToppings, ts) == AddAll(toppings + {ts[0].value}, maxToppings, ts[1..])
  {
    CapIsNeverReached(toppings, maxToppings, ts[0].value);
  }

  /**
   * Seven `addTopping` calls on a default builder, the last two repeating
   * earlier toppings, all succeed and leave the five toppings.
   */
  lemma SevenToppingCallsSucceed(ts: seq<Option<Topping>>)
    requires ts == [Some(HAM), Some(MUSHROOM), Some(ONION), Some(PEPPER), Some(SAUSAGE), Some(HAM), Some(MUSHROOM)]
    ensures AddAll({}, DEFAULT_MAX_TOPPINGS, ts) == Added(ALL_TOPPINGS, Pass)
  {
    NonNullToppingsAllAdded({}, DEFAULT_MAX_TOPPINGS, ts);
    assert ts[0].value == HAM && ts[1].value == MUSHROOM && ts[2].value == ONION;
    assert ts[3].value == PEPPER && ts[4].value == SAUSAGE;
    assert ALL_TOPPINGS <= Named(ts);
    forall t | t in Named(ts) ensures t in ALL_TOPPINGS {
      match t
      case HAM => case MUSHROOM => case ONION => case PEPPER => case SAUSAGE =>
    }
  }

  /** Sausage, mushroom and onion on a fresh Chicago builder are all added. */
  lemma ThreeToppingsAdded(ts: seq<Option<Topping>>)
    requires ts == [Some(SAUSAGE), Some(MUSHROOM), Some(ONION)]
    ensures AddAll({}, CHICAGO_MAX_TOPPINGS, ts) == Added({SAUSAGE, MUSHROOM, ONION}, Pass)
  {
    NonNullToppingsAllAdded({}, CHICAGO_MAX_TOPPINGS, ts);
    assert ts[0].value == SAUSAGE && ts[1].value == MUSHROOM && ts[2].value == ONION;
    assert {SAUSAGE, MUSHROOM, ONION} <= Named(ts);
  }

  // ---------------------------------------------------------------------
  // Pizza.Builder
  // ---------------------------------------------------------------------

  class PizzaBuilder {
    var toppings: set<Topping>
    var maxToppings: int32

    /** A new builder: no toppings, at most six. */
    constructor ()
      ensures toppings == {} && maxToppings == DEFAULT_MAX_TOPPINGS
    {
      toppings := {};
      maxToppings := DEFAULT_MAX_TOPPINGS;
    }

    /** `addTopping(topping)`: on an exception nothing changes. */
    method AddTopping(topping: Option<Topping>) returns (r: Outcome)
      modifies this
      ensures maxToppings == old(maxToppings)
      ensures var added := AddToppingTo(old(toppings), maxToppings, topping);
              if added.Ok? then r == Pass && toppings == added.value
              else r == Fail(added.error) && toppings == old(toppings)
    {
      if |toppings| >= maxToppings as int {
        return Fail(IllegalStateException);
      }
      if topping.None? {
        return Fail(NullPointerException);
      }
      toppings := toppings + {topping.value};
      r := Pass;
    }

    /** `addToppings(ts)`: one `addTopping` per argument, in order, until one throws. */
    method AddToppings(ts: seq<Option<Topping>>) returns (r: Outcome)
      modifies this
      ensures maxToppings == old(maxToppings)
      ensures Added(toppings, r) == AddAll(old(toppings), maxToppings, ts)
    {
      for i := 0 to |ts|
        invariant maxToppings == old(maxToppings)
        invariant AddAll(old(toppings), maxToppings, ts) == AddAll(toppings, maxToppings, ts[i..])
      {
        assert ts[i..][1..] == ts[i + 1..];
        var outcome := AddTopping(ts[i]);
        if outcome.Fail? {
          return outcome;
        }
      }
      r := Pass;
    }

    /** `setMaxToppings(max)`: a cap below one is rejected and changes nothing. */
    method SetMaxToppings(max: int32) returns (r: Outcome)
      modifies this
      ensures toppings == old(toppings)
      ensures max < 1 ==> r == Fail(IllegalArgumentException) && maxToppings == old(maxToppings)
      ensures max >= 1 ==> r == Pass && maxToppings == max
    {
      if max < 1 {
        return Fail(IllegalArgumentException);
      }
      maxToppings := max;
      r := Pass;
    }
  }

  // ---------------------------------------------------------------------
  // NyPizza
  // ---------------------------------------------------------------------

  datatype Size = SMALL | MEDIUM | LARGE

  datatype NyPizza = NyPizza(toppings: set<Topping>, size: Size)

  class NyPizzaBuilder {
    const base: PizzaBuilder
    const size: Size

    constructor (size: Size)
      ensures this.size == size && fresh(base)
      ensures base.toppings == {} && base.maxToppings == DEFAULT_MAX_TOPPINGS
    {
      this.size := size;
      base := new PizzaBuilder();
    }

    /** `build()`: the builder's toppings, copied, and its size. */
    function Build(): (p: NyPizza)
      reads this, base
      ensures p.toppings == base.toppings && p.size == size
    {
      NyPizza(base.toppings, size)
    }
  }

  /** `new NyPizza.Builder(size)`: a null size is rejected. */
  method NewNyPizzaBuilder(size: Option<Size>) returns (r: Result<NyPizzaBuilder>)
    ensures size.None? <==> r == Err(NullPointerException)
    ensures size.Some? ==>
              && r.Ok? && fresh(r.value) && fresh(r.value.base) && r.value.size == size.value
              && r.value.base.toppings == {} && r.value.base.maxToppings == DEFAULT_MAX_TOPPINGS
  {
    if size.None? {
      return Err(NullPointerException);
    }
    var builder := new NyPizzaBuilder(size.value);
    r := Ok(builder);
  }

  // ---------------------------------------------------------------------
  // Calzone
  // ---------------------------------------------------------------------

  datatype Calzone = Calzone(toppings: set<Topping>, sauceInside: bool)

  class CalzoneBuilder {
    const base: PizzaBuilder
    var sauceInside: bool

    constructor ()
      ensures fresh(base) && !sauceInside
      ensures base.toppings == {} && base.maxToppings == DEFAULT_MAX_TOPPINGS
    {
      base := new PizzaBuilder();
      sauceInside := false;
    }

    /** `sauceInside()`. */
    method SauceInside()
      modifies this
      ensures sauceInside
    {
      sauceInside := true;
    }

    /** `build()`. */
    function Build(): (p: Calzone)
      reads this, base
      ensures p.toppings == base.toppings && p.sauceInside == sauceInside
    {
      Calzone(base.toppings, sauceInside)
    }
  }

  // ---------------------------------------------------------------------
  // ChicagoPizza
  // ---------------------------------------------------------------------

  datatype CrustThickness = THIN | MEDIUM | THICK

  datatype ChicagoPizza = ChicagoPizza(toppings: set<Topping>, crustThickness: CrustThickness,
                                       extraCheese: bool, stuffedCrust: bool)

  class ChicagoPizzaBuilder {
    const base: PizzaBuilder
    var crustThickness: CrustThickness
    var extraCheese: bool
    var stuffedCrust: bool

    /** A new builder: medium crust, no extras, up to eight toppings. */
    constructor ()
      ensures fresh(base) && base.toppings == {} && base.maxToppings == CHICAGO_MAX_TOPPINGS
      ensures crustThickness == CrustThickness.MEDIUM && !extraCheese && !stuffedCrust
    {
      base := new PizzaBuilder();
      crustThickness := CrustThickness.MEDIUM;
      extraCheese := false;
      stuffedCrust := false;
      new;
      var _ := base.SetMaxToppings(CHICAGO_MAX_TOPPINGS);
    }

    /** `crustThickness(thickness)`: a null thickness is rejected. */
    method SetCrustThickness(thickness: Option<CrustThickness>) returns (r: Outcome)
      modifies this
      ensures extraCheese == old(extraCheese) && stuffedCrust == old(stuffedCrust)
      ensures thickness.None? ==> r == Fail(NullPointerException) && crustThickness == old(crustThickness)
      ensures thickness.Some? ==> r == Pass && crustThickness == thickness.value
    {
      if thickness.None? {
        return Fail(NullPointerException);
      }
      crustThickness := thickness.value;
      r := Pass;
    }

    /** `extraCheese()`. */
    method ExtraCheese()
      modifies this
      ensures extraCheese
      ensures crustThickness == old(crustThickness) && stuffedCrust == old(stuffedCrust)
    {
      extraCheese := true;
    }

    /** `stuffedCrust()`: refused while the crust is thin. */
    method StuffedCrust() returns (r: Outcome)
      modifies this
      ensures crustThickness == old(crustThickness) && extraCheese == old(extraCheese)
      ensures crustThickness == THIN ==> r == Fail(IllegalStateException) && stuffedCrust == old(stuffedCrust)
      ensures crustThickness != THIN ==> r == Pass && stuffedCrust
    {
      if crustThickness == THIN {
        return Fail(IllegalStateException);
      }
      stuffedCrust := true;
      r := Pass;
    }

    /** `build()`: a Chicago pizza needs at least one topping. */
    function Build(): (r: Result<ChicagoPizza>)
      reads this, base
      ensures base.toppings == {} <==> r == Err(IllegalStateException)
      ensures r.Ok? ==> r.value == ChicagoPizza(base.toppings, crustThickness, extraCheese, stuffedCrust)
    {
      if base.toppings == {} then Err(IllegalStateException)
      else Ok(ChicagoPizza(base.toppings, crustThickness, extraCheese, stuffedCrust))
    }
  }

  // ---------------------------------------------------------------------
  // The demonstrated builder chains
  // ---------------------------------------------------------------------

  /**
   * A large NY pizza with seven `addTopping` calls, two of them repeats,
   * builds with all five toppings: none of the calls throws. Adding to the
   * builder afterwards leaves the built pizza alone.
   */
  method SevenToppingNyPizza() returns (outcomes: seq<Outcome>, p: NyPizza, afterwards: set<Topping>)
    ensures outcomes == seq(7, _ => Pass)
    ensures p == NyPizza(ALL_TOPPINGS, LARGE)
    ensures afterwards == ALL_TOPPINGS
  {
    var b := new NyPizzaBuilder(LARGE);
    outcomes := [];
    var chain := [HAM, MUSHROOM, ONION, PEPPER, SAUSAGE, HAM, MUSHROOM];
    for n := 0 to 7
      invariant b.base.maxToppings == DEFAULT_MAX_TOPPINGS
      invariant b.base.toppings == set i | 0 <= i < n :: chain[i]
      invariant outcomes == seq(n, _ => Pass)
    {
      CapIsNeverReached(b.base.toppings, b.base.maxToppings, chain[n]);
      var outcome := b.base.AddTopping(Some(chain[n]));
      outcomes := outcomes + [outcome];
      assert (set i | 0 <= i < n + 1 :: chain[i]) == (set i | 0 <= i < n :: chain[i]) + {chain[n]};
    }
    assert ALL_TOPPINGS <= b.base.toppings by {
      assert chain[0] == HAM && chain[1] == MUSHROOM && chain[2] == ONION;
      assert chain[3] == PEPPER && chain[4] == SAUSAGE;
    }
    ToppingSetsHoldAtMostFive(b.base.toppings);
    SubsetCardinality(ALL_TOPPINGS, b.base.toppings);
    p := b.Build();
    CapIsNeverReached(b.base.toppings, b.base.maxToppings, ONION);
    var outcome := b.base.AddTopping(Some(ONION));
    afterwards := p.toppings;
  }

  /** A thick, stuffed Chicago pizza with three toppings and extra cheese builds. */
  method ChicagoChain() returns (r: Result<ChicagoPizza>)
    ensures r == Ok(ChicagoPizza({SAUSAGE, MUSHROOM, ONION}, THICK, true, true))
  {
    var b := new ChicagoPizzaBuilder();
    var _ := b.SetCrustThickness(Some(THICK));
    var ts := [Some(SAUSAGE), Some(MUSHROOM), Some(ONION)];
    ThreeToppingsAdded(ts);
    var _ := b.base.AddToppings(ts);
    b.ExtraCheese();
    var _ := b.StuffedCrust();
    r := b.Build();
  }

  /**
   * The crust conflict is checked in one direction only: stuffing a thin
   * crust fails, but thinning a stuffed crust succeeds.
   */
  method CrustConflictOneWay() returns (thinThenStuffed: Outcome, stuffedThenThin: Result<ChicagoPizza>)
    ensures thinThenStuffed == Fail(IllegalStateException)
    ensures stuffedThenThin.Ok? && stuffedThenThin.value.crustThickness == THIN && stuffedThenThin.value.stuffedCrust
  {
    var b1 := new ChicagoPizzaBuilder();
    var _ := b1.SetCrustThickness(Some(THIN));
    var _ := b1.base.AddTopping(Some(SAUSAGE));
    thinThenStuffed := b1.StuffedCrust();

    var b2 := new ChicagoPizzaBuilder();
    var _ := b2.base.AddTopping(Some(SAUSAGE));
    var _ := b2.StuffedCrust();
    var _ := b2.SetCrustThickness(Some(THIN));
    stuffedThenThin := b2.Build();
  }

  /** A Chicago pizza with extra cheese but no toppings does not build. */
  method ChicagoWithoutToppings() returns (r: Result<ChicagoPizza>)
    ensures r == Err(IllegalStateException)
  {
    var b := new ChicagoPizzaBuilder();
    b.ExtraCheese();
    r := b.Build();
  }
}
