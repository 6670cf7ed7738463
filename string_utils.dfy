/**
 * Item 4 (chapter2/item4_private_constructor): `StringUtils`, a
 * non-instantiable class of null-aware string helpers. A Java `String`
 * argument that may be null is an `Option<string>`.
 */
module StringUtils {
  import opened Lang

  /** The private constructor: it always throws, so no instance exists. */
  function Constructor(): (r: Outcome)
    ensures r.Fail? && r.error == AssertionError
  {
    Fail(AssertionError)
  }

  /** `isEmpty(str)`. */
  function IsEmpty(str: Option<string>): (r: bool)
    ensures r <==> str == None || str == Some("")
  {
    str.None? || |str.value| == 0
  }

  /** Null, or every character `Character.isWhitespace`. */
  predicate Blank(str: Option<string>) {
    str.None? || forall i :: 0 <= i < |str.value| ==> IsWhitespace(str.value[i])
  }

  /** `isBlank(str)`: scan for a character that is not whitespace. */
  method IsBlank(str: Option<string>) returns (r: bool)
    ensures r <==> Blank(str)
  {
    if str.None? {
      return true;
    }
    var s := str.value;
    for i := 0 to |s|
      invariant forall j :: 0 <= j < i ==> IsWhitespace(s[j])
    {
      if !IsWhitespace(s[i]) {
        return false;
      }
    }
    return true;
  }

  // ---------------------------------------------------------------------
  // String.trim
  // ---------------------------------------------------------------------

  /** `String.trim` removes the characters up to U+0020, not the Unicode whitespace. */
  predicate Trimmable(c: char) {
    c <= ' '
  }

  /** The first index from `st` whose character `trim` keeps. */
  function TrimStart(s: string, st: nat): (k: nat)
    requires st <= |s|
    ensures st <= k <= |s|
    ensures forall i :: st <= i < k ==> Trimmable(s[i])
    ensures k < |s| ==> !Trimmable(s[k])
    decreases |s| - st
  {
    if st < |s| && Trimmable(s[st]) then TrimStart(s, st + 1) else st
  }

  /** The end, at most `len` and at least `st`, past the last character `trim` keeps. */
  function TrimEnd(s: string, st: nat, len: nat): (k: nat)
    requires st <= len <= |s|
    ensures st <= k <= len
    ensures forall i :: k <= i < len ==> Trimmable(s[i])
    ensures st < k ==> !Trimmable(s[k - 1])
  {
    if st < len && Trimmable(s[len - 1]) then TrimEnd(s, st, len - 1) else len
  }

  /**
   * `String.trim`: the longest slice of `s` that neither starts nor ends
   * with a character up to U+0020, all of whose dropped characters are.
   */
  function Trim(s: string): (r: string)
    ensures |r| <= |s|
    ensures r != [] ==> !Trimmable(r[0]) && !Trimmable(r[|r| - 1])
    ensures r == [] ==> forall i :: 0 <= i < |s| ==> Trimmable(s[i])
  {
    var st := TrimStart(s, 0);
    var len := TrimEnd(s, st, |s|);
    s[st..len]
  }

  /** `Trim(s)` is `s` with exactly its leading and trailing trimmable characters dropped. */
  lemma TrimIsSlice(s: string)
    ensures exists i, j :: 0 <= i <= j <= |s| && Trim(s) == s[i..j]
                           && (forall k :: 0 <= k < i ==> Trimmable(s[k]))
                           && (forall k :: j <= k < |s| ==> Trimmable(s[k]))
  {
    var st := TrimStart(s, 0);
    var len := TrimEnd(s, st, |s|);
    assert Trim(s) == s[st..len];
  }

  /** Trimming twice is trimming once. */
  lemma TrimIdempotent(s: string)
    ensures Trim(Trim(s)) == Trim(s)
  {
    var t := Trim(s);
    if t != [] {
      assert TrimStart(t, 0) == 0;
      assert TrimEnd(t, 0, |t|) == |t|;
      assert t[0..|t|] == t;
    }
  }

  /** `safeTrim(str)`: null stays null, any other string is trimmed. */
  function SafeTrim(str: Option<string>): (r: Option<string>)
    ensures str.None? <==> r.None?
    ensures str.Some? ==> r.value == Trim(str.value)
  {
    if str.None? then None else Some(Trim(str.value))
  }

  /** `nullToString(str)`. */
  function NullToString(str: Option<string>): (r: string)
    ensures str.None? ==> r == "null"
    ensures str.Some? ==> r == str.value
  {
    if str.None? then "null" else str.value
  }

  // ---------------------------------------------------------------------
  // Properties
  // ---------------------------------------------------------------------

  /** An empty string is blank, but a blank string need not be empty. */
  lemma EmptyImpliesBlank(str: Option<string>)
    ensures IsEmpty(str) ==> Blank(str)
    ensures Blank(Some("  ")) && !IsEmpty(Some("  "))
  {
    assert IsWhitespace(' ');
  }

  /** `null`, "" and "  " are blank; "test" is not. */
  lemma BlankExamples()
    ensures Blank(None) && Blank(Some("")) && Blank(Some("  ")) && !Blank(Some("test"))
  {
    assert !IsWhitespace("test"[0]);
  }

  /** `safeTrim("  test  ")` is "test" and `safeTrim(null)` is null. */
  lemma SafeTrimExamples()
    ensures SafeTrim(Some("  test  ")) == Some("test")
    ensures SafeTrim(None) == None
  {
    var s := "  test  ";
    assert TrimStart(s, 2) == 2;
    assert TrimStart(s, 0) == 2;
    assert TrimEnd(s, 2, 6) == 6;
    assert TrimEnd(s, 2, 8) == 6;
    assert s[2..6] == "test";
  }
}
