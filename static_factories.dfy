/**
 * Item 1 (chapter2/item1_static_factory_methods): `StaticFactoryMethodDemo`,
 * an immutable value holder created only through static factories. Some
 * factories allocate a new object on every call, others hand out one of the
 * two instances the class caches; object identity is Dafny reference
 * identity, and a new object is a `fresh` one.
 */
module StaticFactories {
  import opened Lang

  /** An instance of `StaticFactoryMethodDemo`: one final `value`. */
  class Demo {
    const value: string

    /** The private constructor. */
    constructor (value: string)
      ensures this.value == value
    {
      this.value := value;
    }

    /** `getValue()`: the string the instance was created with. */
    function GetValue(): (r: string)
      ensures r == value
    {
      value
    }
  }

  /**
   * The class's static state: `EMPTY` and `SINGLETON`, created once when
   * the class is initialised and never replaced.
   */
  class Statics {
    const EMPTY: Demo
    const SINGLETON: Demo

    ghost predicate Valid() {
      && EMPTY.value == ""
      && SINGLETON.value == "singleton"
      && EMPTY != SINGLETON
    }

    /** Class initialisation. */
    constructor ()
      ensures Valid() && fresh(EMPTY) && fresh(SINGLETON)
    {
      EMPTY := new Demo("");
      SINGLETON := new Demo("singleton");
    }

    /** `empty()`: the cached empty instance, the same object on every call. */
    function Empty(): (r: Demo)
      requires Valid()
      ensures r == EMPTY && r.value == ""
    {
      EMPTY
    }

    /** `singleton()`: the cached instance holding "singleton", the same object on every call. */
    function Singleton(): (r: Demo)
      requires Valid()
      ensures r == SINGLETON && r.value == "singleton" && r != Empty()
    {
      SINGLETON
    }
  }

  /** `valueOf(value)`: a new instance holding `value`. */
  method ValueOf(value: string) returns (r: Demo)
    ensures fresh(r) && r.value == value
  {
    r := new Demo(value);
  }

  /** `of(value)`: a new instance holding `value`, like `valueOf`. */
  method Of(value: string) returns (r: Demo)
    ensures fresh(r) && r.value == value
  {
    r := new Demo(value);
  }

  /** `newInstance()`: a new instance holding "newInstance" on every call. */
  method NewInstance() returns (r: Demo)
    ensures fresh(r) && r.value == "newInstance"
  {
    r := new Demo("newInstance");
  }

  // ---------------------------------------------------------------------
  // createAnimal: a subtype chosen by the argument
  // ---------------------------------------------------------------------

  /** The two private `Animal` implementations. */
  datatype Animal = Dog | Cat

  /** `makeSound()`. */
  function MakeSound(a: Animal): (r: string)
    ensures a.Dog? <==> r == "Woof!"
    ensures a.Cat? <==> r == "Meow!"
  {
    match a
    case Dog => "Woof!"
    case Cat => "Meow!"
  }

  /** `createAnimal(type)`: switch on the lower-cased type name. */
  function CreateAnimal(kind: string): (r: Result<Animal>)
    ensures r == Ok(Dog) <==> ToLower(kind) == "dog"
    ensures r == Ok(Cat) <==> ToLower(kind) == "cat"
    ensures r.Err? ==> r.error == IllegalArgumentException
  {
    match ToLower(kind)
    case "dog" => Ok(Dog)
    case "cat" => Ok(Cat)
    case _ => Err(IllegalArgumentException)
  }

  /** The type name is matched regardless of case: "DOG", "Dog" and "dog" make the same animal. */
  lemma CreateAnimalIgnoresCase(kind: string)
    ensures CreateAnimal(kind) == CreateAnimal(ToLower(kind))
  {
    ToLowerIdempotent(kind);
  }

  /** "dog" barks, "cat" meows, "elephant" is rejected. */
  lemma CreateAnimalExamples()
    ensures CreateAnimal("dog").Ok? && MakeSound(CreateAnimal("dog").value) == "Woof!"
    ensures CreateAnimal("cat").Ok? && MakeSound(CreateAnimal("cat").value) == "Meow!"
    ensures CreateAnimal("elephant") == Err(IllegalArgumentException)
  {
    assert ToLower("dog") == "dog";
    assert ToLower("cat") == "cat";
    assert ToLower("elephant")[0] == 'e';
  }

  // ---------------------------------------------------------------------
  // String.valueOf(int)
  // ---------------------------------------------------------------------

  function DigitChar(d: nat): (c: char)
    requires d < 10
    ensures '0' <= c <= '9' && c as int - '0' as int == d
  {
    ('0' as int + d) as char
  }

  /** The decimal digits of `n`, most significant first, with no leading zero. */
  function Digits(n: nat): (r: string)
    ensures |r| > 0 && forall i :: 0 <= i < |r| ==> '0' <= r[i] <= '9'
    ensures r[0] == '0' ==> n == 0
  {
    if n < 10 then [DigitChar(n)] else Digits(n / 10) + [DigitChar(n % 10)]
  }

  /** `String.valueOf(n)` for an `int`: a minus sign for a negative number, then its digits. */
  function DecimalString(n: int32): (r: string)
    ensures |r| > 0 && (r[0] == '-' <==> n < 0)
  {
    if n < 0 then "-" + Digits(-(n as int)) else Digits(n as nat)
  }

  /** The value of a string of decimal digits. */
  function ParseDigits(s: string): int
    decreases |s|
  {
    if s == [] then 0 else 10 * ParseDigits(s[..|s| - 1]) + (s[|s| - 1] as int - '0' as int)
  }

  /** `Integer.parseInt` of a decimal string. */
  function ParseDecimal(s: string): int {
    if s != [] && s[0] == '-' then -ParseDigits(s[1..]) else ParseDigits(s)
  }

  lemma {:induction false} ParseDigitsOfDigits(n: nat)
    ensures ParseDigits(Digits(n)) == n
  {
    if n >= 10 {
      ParseDigitsOfDigits(n / 10);
      var s := Digits(n);
      assert s[..|s| - 1] == Digits(n / 10);
    }
  }

  /** `String.valueOf` loses nothing: parsing the decimal string gives the number back. */
  lemma DecimalStringRoundTrip(n: int32)
    ensures ParseDecimal(DecimalString(n)) == n as int
  {
    if n < 0 {
      ParseDigitsOfDigits(-(n as int));
      assert DecimalString(n)[1..] == Digits(-(n as int));
    } else {
      ParseDigitsOfDigits(n as nat);
    }
  }

  /** Different numbers have different decimal strings. */
  lemma DecimalStringInjective(m: int32, n: int32)
    ensures DecimalString(m) == DecimalString(n) <==> m == n
  {
    if DecimalString(m) == DecimalString(n) {
      DecimalStringRoundTrip(m);
      DecimalStringRoundTrip(n);
    }
  }

  // ---------------------------------------------------------------------
  // from: the result's kind depends on the argument
  // ---------------------------------------------------------------------

  /** A run-time argument of `from`: null, a boxed `Integer` or `Boolean`, or another object given by its `toString()`. */
  datatype JavaObject =
    | Null
    | Integer(n: int32)
    | Boolean(b: bool)
    | Other(text: string)

  /**
   * `from(obj)`: an `Integer` becomes a new instance holding its decimal
   * string, a `Boolean` selects a cached instance, and any other object
   * goes through `valueOf(obj.toString())`, which throws on null.
   */
  method From(statics: Statics, obj: JavaObject) returns (r: Result<Demo>)
    requires statics.Valid()
    ensures obj.Null? <==> r == Err(NullPointerException)
    ensures obj.Integer? ==> r.Ok? && fresh(r.value) && r.value.value == DecimalString(obj.n)
    ensures obj == Boolean(true) ==> r == Ok(statics.Singleton())
    ensures obj == Boolean(false) ==> r == Ok(statics.Empty())
    ensures obj.Other? ==> r.Ok? && fresh(r.value) && r.value.value == obj.text
  {
    match obj
    case Integer(n) =>
      var d := new Demo(DecimalString(n));
      r := Ok(d);
    case Boolean(b) =>
      r := if b then Ok(statics.Singleton()) else Ok(statics.Empty());
    case Null =>
      r := Err(NullPointerException);
    case Other(text) =>
      var d := ValueOf(text);
      r := Ok(d);
  }

  /**
   * The identity checks of the demonstration: `empty()` and `singleton()`
   * return the same object twice, two `newInstance()` calls two distinct
   * objects, and `from(true)`/`from(false)` the cached instances.
   */
  method IdentityDemo(statics: Statics) returns (sameEmpty: bool, sameSingleton: bool, distinctNew: bool, fromTrueIsSingleton: bool, fromFalseIsEmpty: bool)
    requires statics.Valid()
    ensures sameEmpty && sameSingleton && distinctNew && fromTrueIsSingleton && fromFalseIsEmpty
  {
    var empty1 := statics.Empty();
    var empty2 := statics.Empty();
    sameEmpty := empty1 == empty2;
    var singleton1 := statics.Singleton();
    var singleton2 := statics.Singleton();
    sameSingleton := singleton1 == singleton2;
    var new1 := NewInstance();
    var new2 := NewInstance();
    distinctNew := new1 != new2;
    var fromTrue := From(statics, Boolean(true));
    var fromFalse := From(statics, Boolean(false));
    fromTrueIsSingleton := fromTrue == Ok(statics.Singleton());
    fromFalseIsEmpty := fromFalse == Ok(statics.Empty());
  }
}
