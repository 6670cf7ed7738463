/**
 * Item 5 (chapter2/item5_dependency_injection): the `Dictionary` interface
 * and its two implementations. The interface's implementations known to the
 * program form the closed datatype `Dictionary`; `Contains` and
 * `GetSuggestions` dispatch on it as the interface's calls dispatch on the
 * implementing class.
 */
module Dictionaries {
  import opened Lang

  datatype Dictionary =
    | SimpleDictionary(minLength: int32, maxLength: int32)
    | EnglishDictionary

  /** The words of `EnglishDictionary`, all lower case. */
  const ENGLISH_WORDS: set<string> := {"hello", "world", "java", "programming", "dependency", "injection"}

  /** The fixed suggestions of `EnglishDictionary`. */
  const ENGLISH_SUGGESTIONS: seq<string> := ["hello", "world"]

  /** `"x".repeat(n)`. */
  function RepeatX(n: nat): (r: string)
    ensures |r| == n && forall i :: 0 <= i < n ==> r[i] == 'x'
  {
    seq(n, _ => 'x')
  }

  /** `dictionary.contains(word)`. */
  function Contains(d: Dictionary, word: string): bool {
    match d
    case SimpleDictionary(minLength, maxLength) =>
      var length := |word|;
      length >= minLength as int && length <= maxLength as int
    case EnglishDictionary =>
      ToLower(word) in ENGLISH_WORDS
  }

  /**
   * `SimpleDictionary.getSuggestions(typo)`: pad a short word with 'x' up to
   * `minLength`, cut a long one down to `maxLength`, nothing otherwise.
   * `substring(0, maxLength)` throws when `maxLength` is negative.
   */
  function SimpleSuggestions(minLength: int32, maxLength: int32, typo: string): (r: Result<seq<string>>)
    ensures |typo| < minLength as int ==>
              r.Ok? && |r.value| == 1 && |r.value[0]| == minLength as int
              && r.value[0][..|typo|] == typo
              && forall i :: |typo| <= i < minLength as int ==> r.value[0][i] == 'x'
    ensures minLength as int <= |typo| && maxLength as int < |typo| ==>
              if maxLength < 0 then r == Err(StringIndexOutOfBoundsException)
              else r.Ok? && |r.value| == 1 && |r.value[0]| == maxLength as int
                   && r.value[0] <= typo
    ensures minLength as int <= |typo| <= maxLength as int ==> r == Ok([])
  {
    if |typo| < minLength as int then
      Ok([typo + RepeatX(minLength as int - |typo|)])
    else if |typo| > maxLength as int then
      if maxLength < 0 then Err(StringIndexOutOfBoundsException)
      else Ok([typo[..maxLength]])
    else
      Ok([])
  }

  /** `dictionary.getSuggestions(typo)`. */
  function GetSuggestions(d: Dictionary, typo: string): Result<seq<string>> {
    match d
    case SimpleDictionary(minLength, maxLength) => SimpleSuggestions(minLength, maxLength, typo)
    case EnglishDictionary => Ok(ENGLISH_SUGGESTIONS)
  }

  // ---------------------------------------------------------------------
  // SimpleDictionary
  // ---------------------------------------------------------------------

  /** A word is in a simple dictionary exactly when its length is within the bounds. */
  lemma SimpleContainsIffInRange(minLength: int32, maxLength: int32, word: string)
    ensures Contains(SimpleDictionary(minLength, maxLength), word)
            <==> minLength as int <= |word| <= maxLength as int
  {
  }

  /**
   * A simple dictionary whose bounds are in order (the constructor does not
   * check them) answers unless `maxLength` is negative, and then makes at
   * most one suggestion, none for a word it contains, and only words it
   * contains.
   */
  lemma SimpleSuggestionsAreContained(minLength: int32, maxLength: int32, typo: string)
    requires minLength <= maxLength
    ensures var r := GetSuggestions(SimpleDictionary(minLength, maxLength), typo);
            && (maxLength >= 0 ==> r.Ok?)
            && (r.Ok? ==>
                  && |r.value| <= 1
                  && (Contains(SimpleDictionary(minLength, maxLength), typo) ==> r.value == [])
                  && forall s :: s in r.value ==> Contains(SimpleDictionary(minLength, maxLength), s))
  {
    var r := GetSuggestions(SimpleDictionary(minLength, maxLength), typo);
    if |typo| > maxLength as int && maxLength >= 0 {
      assert |r.value[0]| == maxLength as int;
    }
  }

  /** With bounds 3 and 6: "a" becomes "axx", "verylongword" becomes "verylo", "hello" is a word. */
  lemma SimpleDictionaryExamples()
    ensures GetSuggestions(SimpleDictionary(3, 6), "a") == Ok(["axx"])
    ensures GetSuggestions(SimpleDictionary(3, 6), "verylongword") == Ok(["verylo"])
    ensures Contains(SimpleDictionary(3, 6), "hello")
    ensures GetSuggestions(SimpleDictionary(3, 6), "hello") == Ok([])
  {
    assert "a" + RepeatX(2) == "axx";
    assert "verylongword"[..6] == "verylo";
  }

  // ---------------------------------------------------------------------
  // EnglishDictionary
  // ---------------------------------------------------------------------

  /** The English dictionary ignores case: a word and its lower-case form are looked up alike. */
  lemma EnglishIgnoresCase(word: string)
    ensures Contains(EnglishDictionary, word) <==> Contains(EnglishDictionary, ToLower(word))
  {
    ToLowerIdempotent(word);
  }

  /** Every suggestion of the English dictionary is one of its words, whatever the typo. */
  lemma EnglishSuggestionsAreContained(typo: string)
    ensures var r := GetSuggestions(EnglishDictionary, typo);
            r == Ok(["hello", "world"]) && forall s :: s in r.value ==> Contains(EnglishDictionary, s)
  {
    assert ToLower("hello") == "hello";
    assert ToLower("world") == "world";
  }

  /** A word without upper-case letters is its own lower-case form. */
  lemma ToLowerOfLowerCase(s: string)
    requires forall i :: 0 <= i < |s| ==> !('A' <= s[i] <= 'Z')
    ensures ToLower(s) == s
  {
  }

  /** "hello" and "JAVA" are words. */
  lemma EnglishDictionaryAccepts()
    ensures Contains(EnglishDictionary, "hello")
    ensures Contains(EnglishDictionary, "JAVA")
  {
    ToLowerOfLowerCase("hello");
    assert ToLower("JAVA") == "java";
  }

  /** "wrld" is not a word: the only word of its length is "java". */
  lemma EnglishDictionaryRejectsWrld()
    ensures !Contains(EnglishDictionary, "wrld")
  {
    ToLowerOfLowerCase("wrld");
    assert "wrld"[0] != "java"[0];
  }

  /** "dependensy" is not a word: the only word of its length is "dependency". */
  lemma EnglishDictionaryRejectsDependensy(word: string)
    requires word == "dependensy"
    ensures !Contains(EnglishDictionary, word)
  {
    var lower := ToLower(word);
    assert |lower| == 10 && lower[8] == ToLowerChar(word[8]) == 's';
    assert "dependency"[8] == 'c';
  }
}
