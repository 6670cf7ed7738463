/**
 * Item 5: three spell checkers over a `Dictionary`. `SpellChecker` receives
 * its dictionary, `SupplierSpellChecker` obtains it once from a factory, and
 * `StaticSpellChecker` hardwires an `EnglishDictionary`. A checker's
 * dictionary is a final field, so each checker is an immutable value.
 */
module SpellCheckers {
  import opened Lang
  import opened Dictionaries

  datatype SpellChecker = SpellChecker(dictionary: Dictionary)

  /** `new SpellChecker(dictionary)`: `Objects.requireNonNull` rejects a null dictionary. */
  function NewSpellChecker(dictionary: Option<Dictionary>): (r: Result<SpellChecker>)
    ensures dictionary.None? <==> r == Err(NullPointerException)
    ensures dictionary.Some? ==> r.Ok? && r.value.dictionary == dictionary.value
  {
    if dictionary.None? then Err(NullPointerException) else Ok(SpellChecker(dictionary.value))
  }

  /** `isValid(word)`: asks the injected dictionary. */
  function IsValid(self: SpellChecker, word: string): (r: bool)
    ensures self.dictionary.EnglishDictionary? ==> (r <==> ToLower(word) in ENGLISH_WORDS)
    ensures self.dictionary.SimpleDictionary? ==>
              (r <==> self.dictionary.minLength as int <= |word| <= self.dictionary.maxLength as int)
  {
    Contains(self.dictionary, word)
  }

  /** `suggestions(typo)`: asks the injected dictionary. */
  function Suggestions(self: SpellChecker, typo: string): (r: Result<seq<string>>)
    ensures self.dictionary.EnglishDictionary? ==> r == Ok(ENGLISH_SUGGESTIONS)
    ensures self.dictionary.SimpleDictionary? ==>
              r == SimpleSuggestions(self.dictionary.minLength, self.dictionary.maxLength, typo)
  {
    GetSuggestions(self.dictionary, typo)
  }

  /** A checker built on a simple (3, 6) dictionary accepts "hello" and pads "a" to "axx". */
  lemma InjectedDictionaryDecides()
    ensures var sc := NewSpellChecker(Some(SimpleDictionary(3, 6)));
            sc.Ok? && IsValid(sc.value, "hello") && Suggestions(sc.value, "a") == Ok(["axx"])
  {
    SimpleDictionaryExamples();
  }
}

module SupplierSpellCheckers {
  import opened Lang
  import opened Dictionaries

  /**
   * A `Supplier<? extends Dictionary>`: its k-th call (from 0) returns
   * `produce(k)`, and `calls` counts the calls made so far.
   */
  class DictionarySupplier {
    const produce: nat -> Option<Dictionary>
    var calls: nat

    constructor (produce: nat -> Option<Dictionary>)
      ensures this.produce == produce && calls == 0
    {
      this.produce := produce;
      calls := 0;
    }

    /** `get()`. */
    method Get() returns (d: Option<Dictionary>)
      modifies this
      ensures calls == old(calls) + 1
      ensures d == produce(old(calls))
    {
      d := produce(calls);
      calls := calls + 1;
    }
  }

  datatype SupplierSpellChecker = SupplierSpellChecker(dictionary: Dictionary)

  /**
   * `new SupplierSpellChecker(dictionaryFactory)`: calls the supplier
   * exactly once and keeps what it returns; a null result is rejected.
   */
  method NewSupplierSpellChecker(dictionaryFactory: DictionarySupplier) returns (r: Result<SupplierSpellChecker>)
    modifies dictionaryFactory
    ensures dictionaryFactory.calls == old(dictionaryFactory.calls) + 1
    ensures var d := dictionaryFactory.produce(old(dictionaryFactory.calls));
            r == if d.None? then Err(NullPointerException) else Ok(SupplierSpellChecker(d.value))
  {
    var d := dictionaryFactory.Get();
    if d.None? {
      return Err(NullPointerException);
    }
    r := Ok(SupplierSpellChecker(d.value));
  }

  /** `isValid(word)`: asks the dictionary obtained at construction; the supplier is not called again. */
  function IsValid(self: SupplierSpellChecker, word: string): (r: bool)
    ensures self.dictionary.EnglishDictionary? ==> (r <==> ToLower(word) in ENGLISH_WORDS)
    ensures self.dictionary.SimpleDictionary? ==>
              (r <==> self.dictionary.minLength as int <= |word| <= self.dictionary.maxLength as int)
  {
    Contains(self.dictionary, word)
  }

  /** `suggestions(typo)`: asks the dictionary obtained at construction. */
  function Suggestions(self: SupplierSpellChecker, typo: string): (r: Result<seq<string>>)
    ensures self.dictionary.EnglishDictionary? ==> r == Ok(ENGLISH_SUGGESTIONS)
    ensures self.dictionary.SimpleDictionary? ==>
              r == SimpleSuggestions(self.dictionary.minLength, self.dictionary.maxLength, typo)
  {
    GetSuggestions(self.dictionary, typo)
  }

  /**
   * A supplier that would hand out a different dictionary on every call:
   * the checker keeps the first one, and any number of checks leave the
   * supplier's call count at one.
   */
  method SupplierCalledOnce() returns (checks: seq<bool>, calls: nat)
    ensures checks == [true, false, true]
    ensures calls == 1
  {
    var supplier := new DictionarySupplier(k => if k == 0 then Some(EnglishDictionary) else Some(SimpleDictionary(3, 6)));
    var checker := NewSupplierSpellChecker(supplier);
    assert checker == Ok(SupplierSpellChecker(EnglishDictionary));
    EnglishDictionaryAccepts();
    EnglishDictionaryRejectsWrld();
    checks := [IsValid(checker.value, "hello"), IsValid(checker.value, "wrld"), IsValid(checker.value, "JAVA")];
    calls := supplier.calls;
  }
}

module StaticSpellChecker {
  import opened Lang
  import opened Dictionaries

  /** The hardwired `static final` dictionary. */
  const DICTIONARY: Dictionary := EnglishDictionary

  /** The private constructor: it always throws, so no instance exists. */
  function Constructor(): (r: Outcome)
    ensures r.Fail? && r.error == AssertionError
  {
    Fail(AssertionError)
  }

  /** `StaticSpellChecker.isValid(word)`. */
  function IsValid(word: string): (r: bool)
    ensures r <==> ToLower(word) in ENGLISH_WORDS
  {
    Contains(DICTIONARY, word)
  }

  /** `StaticSpellChecker.suggestions(typo)`: always "hello" and "world". */
  function Suggestions(typo: string): (r: Result<seq<string>>)
    ensures r == Ok(["hello", "world"])
  {
    GetSuggestions(DICTIONARY, typo)
  }

  /** "hello" and "JAVA" are valid; "wrld" and "dependensy" are not. */
  lemma StaticCheckerExamples()
    ensures IsValid("hello") && IsValid("JAVA")
    ensures !IsValid("wrld") && !IsValid("dependensy")
  {
    EnglishDictionaryAccepts();
    EnglishDictionaryRejectsWrld();
    EnglishDictionaryRejectsDependensy("dependensy");
  }
}
