/**
 * Item 2 (chapter2/item2_builder_pattern): `NutritionFacts` and its builder.
 * The builder validates each value as it is set and the calorie cap at
 * build time; the product is an immutable value whose fields are its
 * getters (`getServingSize()` is `servingSize`, and so on).
 */
module Nutrition {
  import opened Lang

  const MAX_CALORIES: int32 := 1000

  datatype NutritionFacts = NutritionFacts(
    servingSize: int32,
    servings: int32,
    calories: int32,
    fat: int32,
    sodium: int32,
    carbohydrate: int32)

  /** What every built `NutritionFacts` satisfies. */
  predicate WellFormed(f: NutritionFacts) {
    && f.servingSize > 0 && f.servings > 0
    && f.calories >= 0 && f.fat >= 0 && f.sodium >= 0 && f.carbohydrate >= 0
    && f.calories <= MAX_CALORIES
  }

  class Builder {
    const servingSize: int32
    const servings: int32
    var calories: int32
    var fat: int32
    var sodium: int32
    var carbohydrate: int32

    /** What the constructor and the setters guarantee. */
    ghost predicate Valid()
      reads this
    {
      && servingSize > 0 && servings > 0
      && calories >= 0 && fat >= 0 && sodium >= 0 && carbohydrate >= 0
    }

    /** The private part of `new Builder(servingSize, servings)`, after validation: optional values start at 0. */
    constructor (servingSize: int32, servings: int32)
      requires servingSize > 0 && servings > 0
      ensures Valid()
      ensures this.servingSize == servingSize && this.servings == servings
      ensures calories == 0 && fat == 0 && sodium == 0 && carbohydrate == 0
    {
      this.servingSize := servingSize;
      this.servings := servings;
      calories, fat, sodium, carbohydrate := 0, 0, 0, 0;
    }

    /** `calories(val)`: a negative value is rejected; only `calories` changes. */
    method Calories(val: int32) returns (r: Outcome)
      requires Valid()
      modifies this
      ensures Valid() && fat == old(fat) && sodium == old(sodium) && carbohydrate == old(carbohydrate)
      ensures val < 0 ==> r == Fail(IllegalArgumentException) && calories == old(calories)
      ensures val >= 0 ==> r == Pass && calories == val
    {
      if val < 0 {
        return Fail(IllegalArgumentException);
      }
      calories := val;
      r := Pass;
    }

    /** `fat(val)`: a negative value is rejected; only `fat` changes. */
    method Fat(val: int32) returns (r: Outcome)
      requires Valid()
      modifies this
      ensures Valid() && calories == old(calories) && sodium == old(sodium) && carbohydrate == old(carbohydrate)
      ensures val < 0 ==> r == Fail(IllegalArgumentException) && fat == old(fat)
      ensures val >= 0 ==> r == Pass && fat == val
    {
      if val < 0 {
        return Fail(IllegalArgumentException);
      }
      fat := val;
      r := Pass;
    }

    /** `sodium(val)`: a negative value is rejected; only `sodium` changes. */
    method Sodium(val: int32) returns (r: Outcome)
      requires Valid()
      modifies this
      ensures Valid() && calories == old(calories) && fat == old(fat) && carbohydrate == old(carbohydrate)
      ensures val < 0 ==> r == Fail(IllegalArgumentException) && sodium == old(sodium)
      ensures val >= 0 ==> r == Pass && sodium == val
    {
      if val < 0 {
        return Fail(IllegalArgumentException);
      }
      sodium := val;
      r := Pass;
    }

    /** `carbohydrate(val)`: a negative value is rejected; only `carbohydrate` changes. */
    method Carbohydrate(val: int32) returns (r: Outcome)
      requires Valid()
      modifies this
      ensures Valid() && calories == old(calories) && fat == old(fat) && sodium == old(sodium)
      ensures val < 0 ==> r == Fail(IllegalArgumentException) && carbohydrate == old(carbohydrate)
      ensures val >= 0 ==> r == Pass && carbohydrate == val
    {
      if val < 0 {
        return Fail(IllegalArgumentException);
      }
      carbohydrate := val;
      r := Pass;
    }

    /**
     * `build()`: refused above 1000 calories; otherwise a `NutritionFacts`
     * carrying the builder's six values, which is then well formed.
     */
    function Build(): (r: Result<NutritionFacts>)
      reads this
      requires Valid()
      ensures calories > MAX_CALORIES <==> r == Err(IllegalStateException)
      ensures r.Ok? ==> r.value == NutritionFacts(servingSize, servings, calories, fat, sodium, carbohydrate)
      ensures r.Ok? ==> WellFormed(r.value)
    {
      if calories > MAX_CALORIES then Err(IllegalStateException)
      else Ok(NutritionFacts(servingSize, servings, calories, fat, sodium, carbohydrate))
    }
  }

  /** `new Builder(servingSize, servings)`: both must be positive. */
  method NewBuilder(servingSize: int32, servings: int32) returns (r: Result<Builder>)
    ensures servingSize <= 0 || servings <= 0 <==> r == Err(IllegalArgumentException)
    ensures r.Ok? ==> && fresh(r.value) && r.value.Valid()
                      && r.value.servingSize == servingSize && r.value.servings == servings
                      && r.value.calories == 0 && r.value.fat == 0
                      && r.value.sodium == 0 && r.value.carbohydrate == 0
  {
    if servingSize <= 0 {
      return Err(IllegalArgumentException);
    }
    if servings <= 0 {
      return Err(IllegalArgumentException);
    }
    var b := new Builder(servingSize, servings);
    r := Ok(b);
  }

  // ---------------------------------------------------------------------
  // The demonstrated builder chains
  // ---------------------------------------------------------------------

  /** Coca-Cola (240 mL, 8 servings, 100 kcal, 35 mg sodium, 27 g carbohydrate) and water (500 mL, 1 serving). */
  method Drinks() returns (cocaCola: Result<NutritionFacts>, water: Result<NutritionFacts>)
    ensures cocaCola == Ok(NutritionFacts(240, 8, 100, 0, 35, 27))
    ensures water == Ok(NutritionFacts(500, 1, 0, 0, 0, 0))
  {
    var b := new Builder(240, 8);
    var _ := b.Calories(100);
    var _ := b.Sodium(35);
    var _ := b.Carbohydrate(27);
    cocaCola := b.Build();
    var w := new Builder(500, 1);
    water := w.Build();
  }

  /** A negative serving size is rejected before any builder exists. */
  method NegativeServingSize() returns (r: Result<Builder>)
    ensures r == Err(IllegalArgumentException)
  {
    r := NewBuilder(-1, 1);
  }

  /**
   * The calorie cap is inclusive: exactly 1000 builds and 1001 does not;
   * a later `calories` call overwrites an earlier one.
   */
  method CalorieCap() returns (atCap: Result<NutritionFacts>, overCap: Result<NutritionFacts>, rewritten: Result<NutritionFacts>)
    ensures atCap.Ok? && atCap.value.calories == 1000
    ensures overCap == Err(IllegalStateException)
    ensures rewritten.Ok? && rewritten.value.calories == 200
  {
    var b := new Builder(100, 1);
    var _ := b.Calories(1000);
    atCap := b.Build();
    var _ := b.Calories(1001);
    overCap := b.Build();
    var _ := b.Calories(-5);
    var _ := b.Calories(200);
    rewritten := b.Build();
  }
}
