/**
 * The username validator attached to the user model's `username` field:
 * an ordered chain of checks, the first failing one deciding the error.
 */
module Username {
  import opened Wrappers

  datatype UsernameError = Required | SpecialSymbols | TooShort | TooLong

  /** The character class the validator searches for: punctuation not allowed in a name. */
  const ForbiddenSymbols: set<char> := {
    '!', '@', '#', '$', '%', '^', '&', '*', '(', ')', '+', '=', '[', ']', '{', '}',
    ';', ':', '\'', '"', ',', '<', '>', '?', '/', '\\', '|', '`', '~'
  }

  predicate IsForbiddenSymbol(c: char) {
    c in ForbiddenSymbols
  }

  /** Some character of `s` is forbidden (the regular-expression search). */
  predicate HasForbiddenSymbol(s: string) {
    exists i :: 0 <= i < |s| && IsForbiddenSymbol(s[i])
  }

  /** The same search, one character at a time. */
  function FindForbiddenSymbol(s: string): (found: bool)
    ensures found <==> HasForbiddenSymbol(s)
    decreases |s|
  {
    if |s| == 0 then false
    else if IsForbiddenSymbol(s[0]) then true
    else
      assert forall i :: 1 <= i < |s| ==> s[i] == s[1..][i - 1];
      FindForbiddenSymbol(s[1..])
  }

  /** The shortest and longest names accepted, counted in code points. */
  const MinLength := 2
  const MaxLength := 150

  /**
   * `validate_username_arabic_allowed`: `None` when the value passes, else
   * the error of the first check that fails, in the order empty, symbols,
   * too short, too long.
   */
  function Validate(value: string): (r: Option<UsernameError>)
    ensures r == None <==>
      value != "" && !HasForbiddenSymbol(value) && MinLength <= |value| <= MaxLength
    ensures r == Some(Required) <==> value == ""
    ensures r == Some(SpecialSymbols) <==> value != "" && HasForbiddenSymbol(value)
    ensures r == Some(TooShort) <==> value != "" && !HasForbiddenSymbol(value) && |value| < MinLength
    ensures r == Some(TooLong) <==> !HasForbiddenSymbol(value) && |value| > MaxLength
  {
    if value == "" then Some(Required)
    else if FindForbiddenSymbol(value) then Some(SpecialSymbols)
    else if |value| < MinLength then Some(TooShort)
    else if |value| > MaxLength then Some(TooLong)
    else None
  }

  /** Letters of any script, digits, underscore, hyphen, dot and space: none is a forbidden symbol. */
  predicate IsNameChar(c: char) {
    || 'a' <= c <= 'z' || 'A' <= c <= 'Z' || '0' <= c <= '9'
    || c == '_' || c == '-' || c == '.' || c == ' '
    || c as int >= 0x80
  }

  /** A name made only of such characters, of allowed length, passes every check. */
  lemma AcceptsNameChars(value: string)
    requires MinLength <= |value| <= MaxLength
    requires forall i :: 0 <= i < |value| ==> IsNameChar(value[i])
    ensures Validate(value) == None
  {
    forall i | 0 <= i < |value| ensures !IsForbiddenSymbol(value[i]) {
      assert IsNameChar(value[i]);
    }
  }

  /** Arabic and Latin names with digits, underscores, hyphens, dots and spaces are accepted. */
  lemma AcceptsArabicAndLatin()
    ensures Validate("أحمد") == None
    ensures Validate("ali_99") == None
    ensures Validate("a.b-c d") == None
  {
    AcceptsNameChars("أحمد");
    AcceptsNameChars("ali_99");
    AcceptsNameChars("a.b-c d");
  }

  /** The checks are ordered: a one-character symbol reports the symbol, not the length. */
  lemma SymbolCheckedBeforeLength()
    ensures Validate("@") == Some(SpecialSymbols)
  {
    assert IsForbiddenSymbol("@"[0]);
  }
}
