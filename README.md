# Effective Java, chapters 2 and 3: a verified model

This project models, in Dafny, the small pieces of working logic in the
chapter 2 and chapter 3 idiom demonstrations of the `effective-java`
study repository, and proves what those pieces promise:

- **Item 1, static factories** (`static_factories.dfy`). `StaticFactoryMethodDemo` is a class
  whose instances are Dafny objects, so "a new instance" is `fresh` and
  "the cached instance" is reference equality. The module also models
  `createAnimal` and `from`, together with `String.valueOf(int)` and its inverse.
- **Item 2, builders** (`nutrition_facts.dfy`, `pizza.dfy`). `NutritionFacts.Builder` is a class with
  validating setters and a build-time calorie cap. `Pizza.Builder` holds the
  topping set and its cap. The NY, Calzone and Chicago builders each hold a
  `Pizza.Builder` as their `base` part.
- **Item 4, `StringUtils`** (`string_utils.dfy`). These are null-aware string helpers, with `null` modelled as `Option`.
- **Item 5, dictionaries and spell checkers** (`dictionaries.dfy`, `spell_checkers.dfy`).
  These are `SimpleDictionary`, `EnglishDictionary` and the three spell checkers that
  delegate to them. The supplier-based checker calls its supplier exactly once.
- **Item 6, Roman numerals** (`roman_numerals.dfy`). The pattern's meaning is written as a
  predicate over split points. A one-pass scanner plays the compiled matcher,
  and the two are proved to accept the same strings.
- **Item 7, `Stack` and `UIComponent`** (`stack.dfy`, `callback.dfy`). The stack is an array-backed class
  with a leaky `pop` and a clearing `popFixed`. The two demonstrations count
  the references left in the buffer. `UIComponent` keeps its listener list as a
  `seq` field.
- **Item 8, `FileResource`** (`file_resource.dfy`). This is an open/closed state machine with a
  buffer of `sizeInMB * 1024 * 1024` bytes, computed in 32-bit `int` arithmetic.
- **Items 10 and 11, `equals` and `hashCode`** (`equals_contract.dfy`, `hashcode_contract.dfy`, `awt_color.dfy`).
  These are both `Point`/`ColorPoint` pairs. Points are value datatypes, and the argument of `equals` is an
  `Object` datatype naming the classes involved. Hash codes are computed in
  wrapping 32-bit arithmetic. The module also has a minimal bucketed hash map for the `HashMap`
  demonstration.

Shared Java semantics live in `lang.dfy`:

- `Option` for nullable references;
- `Result` and `Outcome` for a value or an exception;
- the `Exception` kinds;
- `int32` with `Wrap`, `Add32` and `Mul32` for Java `int` arithmetic;
- `Character.isWhitespace` and `toLowerCase` on characters.

A Java setter that returns `this` for chaining returns an `Outcome` here, and a chain of calls is a sequence of
method calls.

Notes on the source:

- `chapter3/item11_hashcode/ColorPoint.java` uses `Objects.equals` and
  `Objects.hashCode` but never imports `java.util.Objects`. The model gives both their
  `java.util.Objects` meaning.
- The comment "Violates symmetry!" on `InheritanceColorPoint.equals` does not
  match the code. A plain `Point` and an `InheritanceColorPoint` compare
  colour-blind in both directions (`EqualsContract.InheritanceIsSymmetric`). What fails is
  transitivity (`EqualsContract.InheritanceBreaksTransitivity`).
- The topping cap of `Pizza.Builder` can never be reached, because `Topping` has five values and
  the smallest cap is six (`Pizzas.CapIsNeverReached`). The seven-call chain that
  `BuilderPatternDemoTest` expects to throw `IllegalStateException` builds
  a pizza with all five toppings (`Pizzas.SevenToppingCallsSucceed`,
  `Pizzas.SevenToppingNyPizza`).
- `new FileResource(name, sizeInMB)` computes its buffer size in `int`. From
  2048 MB the size wraps: 2048 MB gives a negative size, so the allocation throws, and 4096 MB gives an
  empty buffer (`FileResources.ContentSizeOverflows`).

## Model

| member | source | states |
|---|---|---|
| Lang.WrapAdd | src/chapter3/item10_equals/Point.java:45 | wrapping an intermediate sum to `int` does not change the wrapped result |
| Lang.WrapMul | src/chapter3/item10_equals/Point.java:45 | wrapping an intermediate factor to `int` does not change the wrapped product |
| Lang.ToLowerIdempotent | src/chapter2/item5_dependency_injection/EnglishDictionary.java:16 | lower-casing twice is lower-casing once |
| Lang.ToLower | src/chapter2/item5_dependency_injection/EnglishDictionary.java:16 | `String.toLowerCase` keeps the length and lower-cases each character on its own; `ToLowerIdempotent` shows a second pass changes nothing |
| Lang.IsWhitespace | src/chapter2/item4_private_constructor/StringUtils.java:35 | `Character.isWhitespace`: the Unicode space separators other than the no-break spaces, the line and paragraph separators, and the controls U+0009..U+000D and U+001C..U+001F; `StringUtils.IsBlank` is proved against it |
| StaticFactories.Demo.constructor | src/chapter2/item1_static_factory_methods/StaticFactoryMethodDemo.java:16-18 | the new instance holds the given value |
| StaticFactories.Demo.GetValue | src/chapter2/item1_static_factory_methods/StaticFactoryMethodDemo.java:101-103 | `getValue()` is the value the instance was created with |
| StaticFactories.Statics.constructor | src/chapter2/item1_static_factory_methods/StaticFactoryMethodDemo.java:37-46 | class initialisation creates two distinct new instances holding "" and "singleton" |
| StaticFactories.Statics.Empty | src/chapter2/item1_static_factory_methods/StaticFactoryMethodDemo.java:40-42 | `empty()` is always the cached `EMPTY` object, whose value is "" |
| StaticFactories.Statics.Singleton | src/chapter2/item1_static_factory_methods/StaticFactoryMethodDemo.java:48-50 | `singleton()` is always the cached `SINGLETON` object, holding "singleton" and distinct from `empty()` |
| StaticFactories.ValueOf | src/chapter2/item1_static_factory_methods/StaticFactoryMethodDemo.java:23-25 | `valueOf(s)` is a fresh instance holding `s` |
| StaticFactories.Of | src/chapter2/item1_static_factory_methods/StaticFactoryMethodDemo.java:28-30 | `of(s)` is a fresh instance holding `s` |
| StaticFactories.NewInstance | src/chapter2/item1_static_factory_methods/StaticFactoryMethodDemo.java:53-55 | every call returns a fresh instance holding "newInstance" |
| StaticFactories.MakeSound | src/chapter2/item1_static_factory_methods/StaticFactoryMethodDemo.java:63-75 | a dog says "Woof!" and a cat "Meow!", and each sound identifies its animal |
| StaticFactories.CreateAnimal | src/chapter2/item1_static_factory_methods/StaticFactoryMethodDemo.java:78-87 | the result is a dog iff the lower-cased name is "dog", a cat iff it is "cat"; every other name gives `IllegalArgumentException` |
| StaticFactories.CreateAnimalIgnoresCase | src/chapter2/item1_static_factory_methods/StaticFactoryMethodDemo.java:79 | a name and its lower-case form make the same animal |
| StaticFactories.CreateAnimalExamples | src/chapter2/item1_static_factory_methods/StaticFactoryMethodDemoTest.java:53-62 | "dog" barks, "cat" meows, "elephant" is rejected |
| StaticFactories.DecimalString | src/chapter2/item1_static_factory_methods/StaticFactoryMethodDemo.java:92 | `String.valueOf(n)` is non-empty and starts with '-' exactly for negative `n` |
| StaticFactories.DecimalStringRoundTrip | src/chapter2/item1_static_factory_methods/StaticFactoryMethodDemo.java:92 | parsing `String.valueOf(n)` gives `n` back |
| StaticFactories.DecimalStringInjective | src/chapter2/item1_static_factory_methods/StaticFactoryMethodDemo.java:92 | two `int`s have the same decimal string iff they are equal |
| StaticFactories.From | src/chapter2/item1_static_factory_methods/StaticFactoryMethodDemo.java:90-98 | an `Integer` gives a fresh instance holding its decimal string, `true`/`false` the cached singleton/empty objects, another object a fresh instance holding its `toString()`, and null gives `NullPointerException` |
| StaticFactories.IdentityDemo | src/chapter2/item1_static_factory_methods/StaticFactoryMethodDemoTest.java:27-45 | two `empty()` and two `singleton()` calls give the same object each, two `newInstance()` calls distinct objects, and `from(true)`/`from(false)` the cached objects |
| Nutrition.Builder.constructor | src/chapter2/item2_builder_pattern/NutritionFacts.java:19-38 | the required values are stored and the four optional values start at 0 |
| Nutrition.NewBuilder | src/chapter2/item2_builder_pattern/NutritionFacts.java:28-38 | `IllegalArgumentException` iff either required value is at most 0; otherwise a fresh builder with zero optional values |
| Nutrition.Builder.Calories | src/chapter2/item2_builder_pattern/NutritionFacts.java:40-46 | a negative value is rejected and changes nothing; otherwise only `calories` changes, to the value |
| Nutrition.Builder.Fat | src/chapter2/item2_builder_pattern/NutritionFacts.java:48-54 | a negative value is rejected and changes nothing; otherwise only `fat` changes, to the value |
| Nutrition.Builder.Sodium | src/chapter2/item2_builder_pattern/NutritionFacts.java:56-62 | a negative value is rejected and changes nothing; otherwise only `sodium` changes, to the value |
| Nutrition.Builder.Carbohydrate | src/chapter2/item2_builder_pattern/NutritionFacts.java:64-70 | a negative value is rejected and changes nothing; otherwise only `carbohydrate` changes, to the value |
| Nutrition.Builder.Build | src/chapter2/item2_builder_pattern/NutritionFacts.java:72-96 | `IllegalStateException` iff calories exceed 1000; otherwise the product carries exactly the builder's six values (its getters) and is well formed: positive required values, non-negative optional ones, at most 1000 calories |
| Nutrition.Drinks | src/chapter2/item2_builder_pattern/BuilderPatternDemoTest.java:14-22 | the Coca-Cola chain builds (240, 8, 100, 0, 35, 27) and the water chain (500, 1, 0, 0, 0, 0) |
| Nutrition.NegativeServingSize | src/chapter2/item2_builder_pattern/BuilderPatternDemoTest.java:61-66 | a serving size of -1 is rejected with `IllegalArgumentException` |
| Nutrition.CalorieCap | src/chapter2/item2_builder_pattern/NutritionFacts.java:40-77 | exactly 1000 calories builds, 1001 does not, a rejected value leaves the field alone, and the last accepted value wins |
| Pizzas.AddToppingTo | src/chapter2/item2_builder_pattern/Pizza.java:19-25 | at or above the cap `IllegalStateException`, checked first; then null gives `NullPointerException`; otherwise set union, never above the cap |
| Pizzas.AddAll | src/chapter2/item2_builder_pattern/Pizza.java:27-32 | adding a list never removes a topping, and a changed set stays within the cap; `FirstNullStopsAddAll` gives its failure path and `NonNullToppingsAllAdded` its success path |
| Pizzas.FirstNullStopsAddAll | src/chapter2/item2_builder_pattern/Pizza.java:19-32 | with a cap of six or more, `addToppings` adds the arguments before the first null one and then throws `NullPointerException`, keeping those toppings added |
| Pizzas.AddAllAddsOnlyNamed | src/chapter2/item2_builder_pattern/Pizza.java:27-32 | `addToppings` adds no topping its arguments do not name |
| Pizzas.ToppingSetsHoldAtMostFive | src/chapter2/item2_builder_pattern/Pizza.java:12 | a topping set has at most five elements |
| Pizzas.CapIsNeverReached | src/chapter2/item2_builder_pattern/Pizza.java:12-23 | with a cap of six or more, adding a non-null topping always succeeds |
| Pizzas.NonNullToppingsAllAdded | src/chapter2/item2_builder_pattern/Pizza.java:19-32 | with a cap of six or more, `addToppings` without null arguments succeeds and adds exactly the named toppings |
| Pizzas.SevenToppingCallsSucceed | src/chapter2/item2_builder_pattern/BuilderPatternDemoTest.java:70-78 | the seven additions of the "too many toppings" chain all succeed and leave the five toppings |
| Pizzas.ThreeToppingsAdded | src/chapter2/item2_builder_pattern/BuilderPatternDemoTest.java:46-50 | sausage, mushroom and onion on a Chicago builder are all added |
| Pizzas.PizzaBuilder.constructor | src/chapter2/item2_builder_pattern/Pizza.java:16-17 | a new builder has no toppings and a cap of six |
| Pizzas.PizzaBuilder.AddTopping | src/chapter2/item2_builder_pattern/Pizza.java:19-25 | the new set is what `AddToppingTo` gives; on an exception nothing changes; the cap never changes |
| Pizzas.PizzaBuilder.AddToppings | src/chapter2/item2_builder_pattern/Pizza.java:27-32 | the loop leaves the set and outcome `AddAll` gives: the toppings added before a failing one stay added (`FirstNullStopsAddAll`) |
| Pizzas.PizzaBuilder.SetMaxToppings | src/chapter2/item2_builder_pattern/Pizza.java:34-39 | a cap below one is rejected with `IllegalArgumentException` and changes nothing; otherwise the cap becomes `max` |
| Pizzas.NyPizzaBuilder.constructor | src/chapter2/item2_builder_pattern/Pizza.java:57-62 | the size is stored over a fresh, empty `Pizza.Builder` part |
| Pizzas.NewNyPizzaBuilder | src/chapter2/item2_builder_pattern/Pizza.java:60-62 | a null size gives `NullPointerException`, and only then |
| Pizzas.NyPizzaBuilder.Build | src/chapter2/item2_builder_pattern/Pizza.java:64-78 | the pizza holds the builder's toppings and size |
| Pizzas.CalzoneBuilder.constructor | src/chapter2/item2_builder_pattern/Pizza.java:85-86 | no sauce inside and no toppings at first |
| Pizzas.CalzoneBuilder.SauceInside | src/chapter2/item2_builder_pattern/Pizza.java:88-91 | the sauce is inside afterwards |
| Pizzas.CalzoneBuilder.Build | src/chapter2/item2_builder_pattern/Pizza.java:93-107 | the calzone holds the builder's toppings and sauce flag |
| Pizzas.ChicagoPizzaBuilder.constructor | src/chapter2/item2_builder_pattern/Pizza.java:117-124 | medium crust, no extras, no toppings and a cap of eight |
| Pizzas.ChicagoPizzaBuilder.SetCrustThickness | src/chapter2/item2_builder_pattern/Pizza.java:126-129 | null gives `NullPointerException` and changes nothing; otherwise the thickness is set and the flags are kept |
| Pizzas.ChicagoPizzaBuilder.ExtraCheese | src/chapter2/item2_builder_pattern/Pizza.java:131-134 | extra cheese afterwards, other fields kept |
| Pizzas.ChicagoPizzaBuilder.StuffedCrust | src/chapter2/item2_builder_pattern/Pizza.java:136-142 | `IllegalStateException` iff the crust is thin, changing nothing; otherwise the crust is stuffed |
| Pizzas.ChicagoPizzaBuilder.Build | src/chapter2/item2_builder_pattern/Pizza.java:144-163 | `IllegalStateException` iff there are no toppings; otherwise the pizza carries the toppings and the three variant fields |
| Pizzas.SevenToppingNyPizza | src/chapter2/item2_builder_pattern/BuilderPatternDemoTest.java:68-81 | each of the seven chained `addTopping` calls passes, the chain builds a large pizza with all five toppings, and a later `addTopping` on the builder leaves the built pizza unchanged |
| Pizzas.ChicagoChain | src/chapter2/item2_builder_pattern/BuilderPatternDemoTest.java:44-53 | the thick, three-topping, extra-cheese, stuffed Chicago pizza builds with exactly those values |
| Pizzas.CrustConflictOneWay | src/chapter2/item2_builder_pattern/Pizza.java:126-142 | stuffing a thin crust fails, but thinning a stuffed crust is accepted and builds |
| Pizzas.ChicagoWithoutToppings | src/chapter2/item2_builder_pattern/BuilderPatternDemoTest.java:94-101 | a Chicago pizza with extra cheese but no toppings does not build |
| StringUtils.Constructor | src/chapter2/item4_private_constructor/StringUtils.java:15-17 | the private constructor always throws `AssertionError` |
| StringUtils.IsEmpty | src/chapter2/item4_private_constructor/StringUtils.java:22-24 | true iff the string is null or "" |
| StringUtils.Blank | src/chapter2/item4_private_constructor/StringUtils.java:29-40 | what `isBlank` promises: null, or every character whitespace; the loop `IsBlank` is proved equal to it, and `EmptyImpliesBlank` relates it to `isEmpty` |
| StringUtils.IsBlank | src/chapter2/item4_private_constructor/StringUtils.java:29-40 | the scan returns true iff the string is null or every character is `Character.isWhitespace` |
| StringUtils.Trim | src/chapter2/item4_private_constructor/StringUtils.java:46 | `String.trim`: neither end of the result is a character up to U+0020, and an empty result means every character was one |
| StringUtils.TrimIsSlice | src/chapter2/item4_private_constructor/StringUtils.java:46 | the trimmed string is a slice of the input with only characters up to U+0020 dropped at either end |
| StringUtils.TrimIdempotent | src/chapter2/item4_private_constructor/StringUtils.java:46 | trimming twice is trimming once |
| StringUtils.SafeTrim | src/chapter2/item4_private_constructor/StringUtils.java:45-47 | null iff the argument is null; otherwise the argument trimmed |
| StringUtils.NullToString | src/chapter2/item4_private_constructor/StringUtils.java:52-54 | null becomes "null", any other string is returned unchanged |
| StringUtils.EmptyImpliesBlank | src/chapter2/item4_private_constructor/UtilityClassTest.java:20-29 | an empty string is blank, while "  " is blank and not empty |
| StringUtils.BlankExamples | src/chapter2/item4_private_constructor/UtilityClassTest.java:26-29 | null, "" and "  " are blank; "test" is not |
| StringUtils.SafeTrimExamples | src/chapter2/item4_private_constructor/UtilityClassTest.java:32-33 | `safeTrim(null)` is null and `safeTrim("  test  ")` is "test" |
| Dictionaries.SimpleSuggestions | src/chapter2/item5_dependency_injection/SimpleDictionary.java:23-31 | a short typo gives one suggestion, the typo padded with 'x' to `minLength`; a long one its first `maxLength` characters, or `StringIndexOutOfBoundsException` for a negative `maxLength`; an in-range one none |
| Dictionaries.Contains | src/chapter2/item5_dependency_injection/Dictionary.java:7 | `contains` of each implementation: the length test of `SimpleDictionary` (`SimpleContainsIffInRange`) and the lower-cased lookup of `EnglishDictionary` (`EnglishIgnoresCase`) |
| Dictionaries.GetSuggestions | src/chapter2/item5_dependency_injection/Dictionary.java:8 | `getSuggestions` of each implementation: `SimpleSuggestions` for `SimpleDictionary`, the fixed pair for `EnglishDictionary`; `SimpleSuggestionsAreContained` and `EnglishSuggestionsAreContained` show the suggestions are words of the same dictionary |
| Dictionaries.SimpleContainsIffInRange | src/chapter2/item5_dependency_injection/SimpleDictionary.java:17-20 | a word is contained iff its length is within the bounds |
| Dictionaries.SimpleSuggestionsAreContained | src/chapter2/item5_dependency_injection/SimpleDictionary.java:17-31 | with `minLength <= maxLength` (unchecked by the constructor): an answer whenever `maxLength >= 0`, and an answer is at most one suggestion, none for a contained word, and only contained words |
| Dictionaries.SimpleDictionaryExamples | src/chapter2/item5_dependency_injection/SpellCheckerTest.java:10-13 | with bounds (3, 6): "a" gives ["axx"], "verylongword" gives ["verylo"], and "hello" is a word with no suggestions |
| Dictionaries.EnglishIgnoresCase | src/chapter2/item5_dependency_injection/EnglishDictionary.java:15-17 | a word is contained iff its lower-case form is |
| Dictionaries.EnglishSuggestionsAreContained | src/chapter2/item5_dependency_injection/EnglishDictionary.java:10-23 | the suggestions are always ["hello", "world"], and both are words of the dictionary |
| Dictionaries.ToLowerOfLowerCase | src/chapter2/item5_dependency_injection/EnglishDictionary.java:16 | a word without upper-case letters is its own lower-case form |
| Dictionaries.EnglishDictionaryAccepts | src/chapter2/item5_dependency_injection/SpellCheckerTest.java:13 | "hello" and "JAVA" are words |
| Dictionaries.EnglishDictionaryRejectsWrld | src/chapter2/item5_dependency_injection/SpellCheckerTest.java:13 | "wrld" is not a word |
| Dictionaries.EnglishDictionaryRejectsDependensy | src/chapter2/item5_dependency_injection/SpellCheckerTest.java:13 | "dependensy" is not a word |
| SpellCheckers.NewSpellChecker | src/chapter2/item5_dependency_injection/SpellChecker.java:11-13 | a null dictionary gives `NullPointerException`, and only then; otherwise the checker keeps that dictionary |
| SpellCheckers.IsValid | src/chapter2/item5_dependency_injection/SpellChecker.java:15-17 | the English dictionary's lower-cased membership, or the simple dictionary's length test |
| SpellCheckers.Suggestions | src/chapter2/item5_dependency_injection/SpellChecker.java:19-21 | the injected dictionary's suggestions |
| SpellCheckers.InjectedDictionaryDecides | src/chapter2/item5_dependency_injection/SpellCheckerTest.java:10-13 | a checker over a (3, 6) simple dictionary accepts "hello" and suggests "axx" for "a" |
| SupplierSpellCheckers.DictionarySupplier.Get | src/chapter2/item5_dependency_injection/SupplierSpellChecker.java:13 | one call of `get()`: counted, returning the supplier's next dictionary |
| SupplierSpellCheckers.NewSupplierSpellChecker | src/chapter2/item5_dependency_injection/SupplierSpellChecker.java:12-14 | the supplier is called exactly once; a null result gives `NullPointerException`; otherwise the checker keeps that dictionary |
| SupplierSpellCheckers.IsValid | src/chapter2/item5_dependency_injection/SupplierSpellChecker.java:16-18 | the stored dictionary's membership test |
| SupplierSpellCheckers.Suggestions | src/chapter2/item5_dependency_injection/SupplierSpellChecker.java:20-22 | the stored dictionary's suggestions |
| SupplierSpellCheckers.SupplierCalledOnce | src/chapter2/item5_dependency_injection/SupplierSpellChecker.java:9-22 | a supplier that would return a different dictionary on each call: the checker uses the first one for every check, and the supplier's call count after the checks is one |
| StaticSpellChecker.Constructor | src/chapter2/item5_dependency_injection/StaticSpellChecker.java:11-13 | the private constructor always throws `AssertionError` |
| StaticSpellChecker.IsValid | src/chapter2/item5_dependency_injection/StaticSpellChecker.java:8-17 | valid iff the lower-cased word is one of the six English words |
| StaticSpellChecker.Suggestions | src/chapter2/item5_dependency_injection/StaticSpellChecker.java:19-21 | always ["hello", "world"] |
| StaticSpellChecker.StaticCheckerExamples | src/chapter2/item5_dependency_injection/StaticSpellCheckerTest.java:8-22 | "hello" and "JAVA" are valid; "wrld" and "dependensy" are not |
| RomanNumerals.SkipM | src/chapter2/item6_avoid_creating_unnecessary_objects/RomanNumerals.java:13-14 | the scan of `M*` stops at the first non-M, having passed only M |
| RomanNumerals.IsRomanNumeralSlow | src/chapter2/item6_avoid_creating_unnecessary_objects/RomanNumerals.java:7-10 | `isRomanNumeralSlow`: non-empty, and splits into `M*`, a hundreds, a tens and a units group; `SlowAndFastAgree` shows the fast validator accepts the same strings |
| RomanNumerals.IsRomanNumeralFast | src/chapter2/item6_avoid_creating_unnecessary_objects/RomanNumerals.java:13-18 | `isRomanNumeralFast` with the precompiled pattern: one left-to-right scan of the four parts that must end at the end of the string; equal to the slow validator (`SlowAndFastAgree`) |
| RomanNumerals.ScanGroup | src/chapter2/item6_avoid_creating_unnecessary_objects/RomanNumerals.java:13-14 | the scan of one group always stops after a well-formed group |
| RomanNumerals.ScanGroupExact | src/chapter2/item6_avoid_creating_unnecessary_objects/RomanNumerals.java:13-14 | when the next letter cannot continue a group, the scan stops exactly at the group's end |
| RomanNumerals.CountOnesExact | src/chapter2/item6_avoid_creating_unnecessary_objects/RomanNumerals.java:13-14 | `o{0,3}` is scanned to the end of the run |
| RomanNumerals.SlowImpliesFast | src/chapter2/item6_avoid_creating_unnecessary_objects/RomanNumerals.java:7-17 | every string the pattern matches, the scanner accepts |
| RomanNumerals.FastImpliesSlow | src/chapter2/item6_avoid_creating_unnecessary_objects/RomanNumerals.java:7-17 | every string the scanner accepts, the pattern matches |
| RomanNumerals.SlowAndFastAgree | src/chapter2/item6_avoid_creating_unnecessary_objects/RomanNumerals.java:7-18 | `isRomanNumeralSlow` and `isRomanNumeralFast` accept exactly the same strings |
| RomanNumerals.EmptyRejected | src/chapter2/item6_avoid_creating_unnecessary_objects/RomanNumerals.java:13-14 | the empty string is rejected by both |
| RomanNumerals.AcceptedUsesRomanDigits | src/chapter2/item6_avoid_creating_unnecessary_objects/RomanNumerals.java:13-14 | an accepted string holds only M, D, C, L, X, V and I |
| RomanNumerals.GroupLetters | src/chapter2/item6_avoid_creating_unnecessary_objects/RomanNumerals.java:13-14 | a group is spelled with its own one, five and ten letters |
| RomanNumerals.Accepts1976 | src/chapter2/item6_avoid_creating_unnecessary_objects/RomanNumerals.java:23 | "MCMLXXVI" is accepted by both |
| RomanNumerals.Accepts1999 | src/chapter2/item6_avoid_creating_unnecessary_objects/RomanNumerals.java:24 | "MCMXCIX" is accepted by both |
| RomanNumerals.Accepts2021 | src/chapter2/item6_avoid_creating_unnecessary_objects/RomanNumerals.java:25 | "MMXXI" is accepted by both |
| RomanNumerals.RejectsABC | src/chapter2/item6_avoid_creating_unnecessary_objects/RomanNumerals.java:26 | "ABC" is rejected by both |
| RomanNumerals.RejectsIIII | src/chapter2/item6_avoid_creating_unnecessary_objects/RomanNumerals.java:27 | "IIII" is rejected by both |
| Stacks.Stack.constructor | src/chapter2/item7_eliminate_obsolete_references/Stack.java:9-14 | an empty stack over 16 null slots |
| Stacks.Grown | src/chapter2/item7_eliminate_obsolete_references/Stack.java:41-44 | a full buffer is copied into exactly `2 * size + 1` slots, keeping the first `size` and nulling the rest; a buffer with room is kept |
| Stacks.Stack.EnsureCapacity | src/chapter2/item7_eliminate_obsolete_references/Stack.java:41-44 | the buffer becomes `Grown` of the old one, with room above `size`, and is a new array exactly when it changes |
| Stacks.Stack.Push | src/chapter2/item7_eliminate_obsolete_references/Stack.java:16-19 | `e` goes to slot `size` of the grown buffer and `size` increases by one; the contents gain `e` on top |
| Stacks.Stack.Pop | src/chapter2/item7_eliminate_obsolete_references/Stack.java:22-26 | empty: `EmptyStackException` with nothing changed; otherwise the top is returned, `size` drops by one and the buffer is untouched, so the reference stays |
| Stacks.Stack.PopFixed | src/chapter2/item7_eliminate_obsolete_references/Stack.java:29-35 | as `pop`, but the vacated slot becomes null and nothing else in the buffer changes |
| Stacks.Stack.GetSize | src/chapter2/item7_eliminate_obsolete_references/Stack.java:47-49 | the number of elements, at most the capacity |
| Stacks.Stack.GetCapacity | src/chapter2/item7_eliminate_obsolete_references/Stack.java:51-53 | the buffer length |
| Stacks.Stack.GetInternalArray | src/chapter2/item7_eliminate_obsolete_references/Stack.java:56-58 | a new array equal to the whole buffer, stale slots included, with the stack unchanged |
| Stacks.NonNullCount | src/chapter2/item7_eliminate_obsolete_references/StackMemoryLeakDemo.java:59-63 | the number of references a buffer still holds, never more than its length; the loop `CountNonNull` computes it and `NonNullCountOfSplit` counts a filled-then-cleared buffer |
| Stacks.CountNonNull | src/chapter2/item7_eliminate_obsolete_references/StackMemoryLeakDemo.java:60-63 | the loop counts the non-null slots |
| Stacks.NonNullCountOfSplit | src/chapter2/item7_eliminate_obsolete_references/StackMemoryLeakDemo.java:59-63 | slots non-null below `n` and null from `n` on hold exactly `n` references |
| Stacks.LeakyDemo | src/chapter2/item7_eliminate_obsolete_references/StackMemoryLeakDemo.java:11-31 | after `n` pushes and `n` `pop`s the size is 0 but `n` references remain |
| Stacks.FixedDemo | src/chapter2/item7_eliminate_obsolete_references/StackMemoryLeakDemo.java:33-53 | after `n` pushes and `n` `popFixed`s the size is 0 and no reference remains |
| Callbacks.FirstIndexOf | src/chapter2/item7_eliminate_obsolete_references/CallbackExample.java:39 | the first position of a listener, or the length when it is absent |
| Callbacks.RemoveFirst | src/chapter2/item7_eliminate_obsolete_references/CallbackExample.java:39 | `ArrayList.remove(listener)`: exactly one registration of a registered listener goes and none otherwise (`RemoveFirstRemovesOne`), the rest keeping their order (`RemoveFirstKeepsOrder`) |
| Callbacks.RemoveFirstRemovesOne | src/chapter2/item7_eliminate_obsolete_references/CallbackExample.java:38-40 | removing an absent listener changes nothing; otherwise exactly one registration goes |
| Callbacks.RemoveFirstKeepsOrder | src/chapter2/item7_eliminate_obsolete_references/CallbackExample.java:38-40 | the registrations before the removed one keep their places, and those after move down one, in order |
| Callbacks.UIComponent.constructor | src/chapter2/item7_eliminate_obsolete_references/CallbackExample.java:26-32 | a new component has its name and no listeners |
| Callbacks.UIComponent.AddListener | src/chapter2/item7_eliminate_obsolete_references/CallbackExample.java:34-36 | the listener is appended, even when already registered |
| Callbacks.UIComponent.RemoveListener | src/chapter2/item7_eliminate_obsolete_references/CallbackExample.java:38-40 | the search loop removes the first registration of the listener |
| Callbacks.UIComponent.SimulateEvent | src/chapter2/item7_eliminate_obsolete_references/CallbackExample.java:42-47 | each registration up to the first null one is notified once, in order; the null one throws `NullPointerException`; the list is unchanged |
| Callbacks.UIComponent.GetListenerCount | src/chapter2/item7_eliminate_obsolete_references/CallbackExample.java:49-51 | the number of registrations |
| Callbacks.TenScreensStayRegistered | src/chapter2/item7_eliminate_obsolete_references/CallbackExample.java:121-145 | ten screens registered and never removed: ten listeners, all ten notified |
| Callbacks.DuplicateRegistration | src/chapter2/item7_eliminate_obsolete_references/CallbackExample.java:34-40 | registered twice and removed once leaves one registration; removing a stranger changes nothing |
| FileResources.ContentSize | src/chapter2/item8_avoid_finalizers_and_cleaners/FileResource.java:31 | `sizeInMB * 1024 * 1024` in `int` is the true product wrapped to 32 bits |
| FileResources.ContentSizeExact | src/chapter2/item8_avoid_finalizers_and_cleaners/FileResource.java:31 | up to 2047 MB the size is exact |
| FileResources.ContentSizeOverflows | src/chapter2/item8_avoid_finalizers_and_cleaners/FileResource.java:31 | 2048 MB gives -2^31 bytes and 4096 MB gives 0 |
| FileResources.FileResource.constructor | src/chapter2/item8_avoid_finalizers_and_cleaners/FileResource.java:28-33 | a new resource is open, holding a fresh buffer of the given size |
| FileResources.NewFileResource | src/chapter2/item8_avoid_finalizers_and_cleaners/FileResource.java:28-33 | `NegativeArraySizeException` iff the computed size is negative; otherwise an open resource with a buffer of that size |
| FileResources.FileResource.WriteData | src/chapter2/item8_avoid_finalizers_and_cleaners/FileResource.java:40-45 | `IllegalStateException` iff closed, changing nothing either way |
| FileResources.FileResource.Close | src/chapter2/item8_avoid_finalizers_and_cleaners/FileResource.java:52-59 | afterwards closed with the buffer released; on a closed resource nothing changes |
| FileResources.WriteAfterClose | src/chapter2/item8_avoid_finalizers_and_cleaners/FileResource.java:40-59 | a write before closing passes, a second close is harmless, and a write after closing fails |
| EqualsContract.PointEquals | src/chapter3/item10_equals/Point.java:23-39 | false for null and non-`Point`s; for a `Point` (or subclass) true iff the coordinates match; true for the point itself |
| EqualsContract.PointHashCode | src/chapter3/item10_equals/Point.java:43-47 | `Point.hashCode`: `31 * x + y` in wrapping `int` arithmetic (`PointHashCodeValue`), equal for equal points (`EqualPointsHaveEqualHashes`) |
| EqualsContract.PointEqualsIsEquivalence | src/chapter3/item10_equals/Point.java:23-39 | reflexive, symmetric, transitive and false on null |
| EqualsContract.PointEqualsIffSameCoordinates | src/chapter3/item10_equals/Point.java:35-38 | two points are equal iff they have the same coordinates |
| EqualsContract.PointHashCodeValue | src/chapter3/item10_equals/Point.java:43-47 | `hashCode` is `31 * x + y` wrapped to 32 bits |
| EqualsContract.EqualPointsHaveEqualHashes | src/chapter3/item10_equals/Point.java:41-47 | equal points have equal hash codes |
| EqualsContract.AsPoint | src/chapter3/item10_equals/ColorPoint.java:25-27 | the point view has the colour point's coordinates |
| EqualsContract.ColorPointEquals | src/chapter3/item10_equals/ColorPoint.java:30-39 | true iff the argument is a composition `ColorPoint` with an equal point and an equal colour |
| EqualsContract.ColorPointHashCode | src/chapter3/item10_equals/ColorPoint.java:42-46 | `ColorPoint.hashCode`: `961x + 31y + argb` wrapped (`ColorPointHashCodeValue`), equal for equal colour points (`EqualColorPointsHaveEqualHashes`) |
| EqualsContract.CompositionIsEquivalence | src/chapter3/item10_equals/EqualsDemo.java:84-86 | across points and composition colour points, `equals` is reflexive, symmetric, transitive and false on null |
| EqualsContract.AsPointIgnoresColor | src/chapter3/item10_equals/EqualsDemo.java:88-93 | colour points differing only in colour are unequal, yet their point views are equal |
| EqualsContract.ColorPointHashCodeValue | src/chapter3/item10_equals/ColorPoint.java:42-46 | `hashCode` is `31 * point.hashCode() + color.hashCode()`, i.e. `961x + 31y + argb`, wrapped |
| EqualsContract.EqualColorPointsHaveEqualHashes | src/chapter3/item10_equals/ColorPoint.java:42-46 | equal colour points have equal hash codes |
| EqualsContract.InheritanceEquals | src/chapter3/item10_equals/ColorPoint.java:65-78 | false for non-`Point`s; colour-blind against a plain `Point`; against an `InheritanceColorPoint` true iff coordinates and colour match |
| EqualsContract.Equals | src/chapter3/item10_equals/EqualsDemo.java:21-93 | `a.equals(b)` chosen by the class of `a`; the equivalence laws hold within the composition family (`CompositionIsEquivalence`), symmetry but not transitivity within the inheritance family (`InheritanceIsSymmetric`, `InheritanceBreaksTransitivity`) |
| EqualsContract.InheritanceIsSymmetric | src/chapter3/item10_equals/EqualsDemo.java:63-66 | between points and inheritance colour points, `equals` is symmetric |
| EqualsContract.InheritanceBreaksTransitivity | src/chapter3/item10_equals/EqualsDemo.java:68-72 | p equals the red and the blue inheritance colour points, which do not equal each other |
| EqualsContract.InheritanceEqualsKeepsHashes | src/chapter3/item10_equals/ColorPoint.java:55-78 | an inheritance colour point equal to a point has the point's hash code |
| EqualsContract.HashCodeExamples | src/chapter3/item10_equals/Point.java:43-47 | (1, 2) hashes to 33, and red (1, 2) to `33 * 31 + argb(RED)` |
| HashCodeContract.GetX | src/chapter3/item11_hashcode/Point.java:14-16 | `getX()` is the constructor's `x` |
| HashCodeContract.GetY | src/chapter3/item11_hashcode/Point.java:18-20 | `getY()` is the constructor's `y` |
| HashCodeContract.PointEquals | src/chapter3/item11_hashcode/Point.java:23-28 | true iff the argument is a `Point` (or `ColorPoint`) with the same coordinates |
| HashCodeContract.ColorPointEquals | src/chapter3/item11_hashcode/ColorPoint.java:18-22 | true iff the argument is a `ColorPoint` with the same coordinates and a colour equal under `Objects.equals` |
| HashCodeContract.HashCode | src/chapter3/item11_hashcode/Point.java:32-34 | `Objects.hash(x, y)`: `31 * (31 + x) + y` wrapped (`HashCodeValue`), equal for equal points (`EqualPointsHaveEqualHashes`) |
| HashCodeContract.ManualHashCode | src/chapter3/item11_hashcode/Point.java:37-41 | `manualHashCode`: `31 * x + y` wrapped (`ManualHashCodeValue`), never equal to `hashCode` (`HashCodeDiffersFromManual`) |
| HashCodeContract.ColorPointHashCode | src/chapter3/item11_hashcode/ColorPoint.java:25-27 | `31 * super.hashCode() + Objects.hashCode(color)`, equal for equal colour points (`EqualColorPointsHaveEqualHashes`) |
| HashCodeContract.PointEqualsIsEquivalence | src/chapter3/item11_hashcode/Point.java:23-28 | among points: reflexive, symmetric, transitive and false on null |
| HashCodeContract.ColorPointEqualsIsEquivalence | src/chapter3/item11_hashcode/ColorPoint.java:18-22 | among colour points: reflexive, symmetric and transitive, null colours included |
| HashCodeContract.ColorPointRejectsPlainPoints | src/chapter3/item11_hashcode/ColorPoint.java:19 | a colour point never equals a plain point |
| HashCodeContract.PointColorPointAsymmetry | src/chapter3/item11_hashcode/Point.java:25-27 | a point equals every colour point at its coordinates, which does not equal it back |
| HashCodeContract.HashCodeValue | src/chapter3/item11_hashcode/Point.java:32-34 | `Objects.hash(x, y)` is `31 * (31 + x) + y` wrapped |
| HashCodeContract.ManualHashCodeValue | src/chapter3/item11_hashcode/Point.java:37-41 | `manualHashCode` is `31 * x + y` wrapped |
| HashCodeContract.HashCodeDiffersFromManual | src/chapter3/item11_hashcode/Point.java:32-41 | the two hash codes differ for every point |
| HashCodeContract.EqualPointsHaveEqualHashes | src/chapter3/item11_hashcode/Point.java:22-41 | equal points have equal `hashCode` and `manualHashCode` |
| HashCodeContract.EqualColorPointsHaveEqualHashes | src/chapter3/item11_hashcode/ColorPoint.java:17-27 | equal colour points have equal hash codes |
| HashCodeContract.DemonstrationValues | src/chapter3/item11_hashcode/HashCodeDemo.java:22-69 | the demonstration's values: hash 994 and manual hash 33 for (1, 2), red and blue (1, 2) unequal, and a point equal to a colour point with a different hash |
| HashCodeContract.FindInBucket | src/chapter3/item11_hashcode/HashCodeDemo.java:71-80 | a bucket lookup finds the first entry whose key `equals` the probe, or reports that none does |
| HashCodeContract.Get | src/chapter3/item11_hashcode/HashCodeDemo.java:71-80 | `map.get(key)`: the value of the first entry in the key's hash bucket whose key `equals` it (`FindInBucket`) |
| HashCodeContract.Put | src/chapter3/item11_hashcode/HashCodeDemo.java:71-80 | `map.put(key, value)`: a later `get` with any equal key finds the value (`PutThenGetEqualKey`) |
| HashCodeContract.PutThenGetEqualKey | src/chapter3/item11_hashcode/HashCodeDemo.java:71-80 | a lookup with a key equal to the stored one finds the stored value |

## Left out

- `FileResource.finalize`, `CacheExample`, `NetworkManager`, the `Elvis` singletons, `WrongUtilityClass`, `AutoboxingExample`, `StringConcatenation` and the try-with-resources examples: their behaviour is garbage collection, reflection, random failures, timing or I/O.
- Console output, memory measurement, `System.gc`, `Thread.sleep` and all `toString` formatting are not modelled.
- The listener callbacks' reactions (`onComponentEvent`) are not modelled; a notification is recorded as the pair of listener and event, so reentrant changes to the list during `simulateEvent` are outside the model.
- `Dictionary` is an interface; it is modelled as a closed datatype of its two implementations, so a checker cannot be given a third, unknown dictionary.
- The F-bounded `self()` typing is a compile-time device: a setter that returns the builder returns an `Outcome`, and inheritance between builders is composition with a `base` part.
- A Java `Supplier` is modelled as a class whose `k`-th `get()` returns `produce(k)`; suppliers with other side effects are not modelled.
- `Lang.ToLower`: only ASCII letters are lower-cased; Unicode and locale case mapping are not modelled (the dictionary words, "dog" and "cat" are ASCII).
- `StringUtils.Trim` follows `String.trim` (characters up to U+0020); `Lang.IsWhitespace` lists `Character.isWhitespace`'s characters one by one, as fixed by the Unicode version Java follows; later changes to the Unicode space separators are not tracked.
- Dictionaries.SimpleContainsIffInRange: a word's length is counted in Unicode code points, while `String.length()` counts UTF-16 code units, so a word holding characters above U+FFFF is measured shorter than Java measures it; the same holds for `Dictionaries.Contains` and, through it, `SpellCheckers.IsValid` and `SupplierSpellCheckers.IsValid`. Strings here are sequences of Unicode scalar values, which cannot hold the lone surrogate that Java's `substring` can leave.
- Dictionaries.SimpleSuggestions: lengths are code points, not UTF-16 code units, so for a word holding characters above U+FFFF the padding is one 'x' longer per such character than in Java, and the cut to `maxLength` counts code points where Java's `substring(0, maxLength)` counts code units and can split a surrogate pair.
- `EqualsContract.ColorPointEquals`: colours are never null in item 10, so the `NullPointerException` that `cp.color.equals(color)` and `color.hashCode()` throw on a null colour is not modelled.
- `java.awt.Color` is its packed ARGB `int`; only `RED` and `BLUE` are named.
- Null `String` arguments are modelled where the code handles them (`StringUtils`, `from`); elsewhere, such as `createAnimal(null)` or `contains(null)`, the argument is a non-null `string`.
- `Stacks.Stack.EnsureCapacity` does not model `int` overflow of `2 * size + 1`, which would need more than a billion elements.
- `HashCodeContract.Put`: `HashMap` is reduced to buckets keyed by the full hash code; resizing, bucket indexing and replacement of an equal key are not modelled.
- The seven-topping chain and the Coca-Cola chain of the builder test are modelled; the test's small NY pizza and calzone chains are covered by the builder contracts only.
