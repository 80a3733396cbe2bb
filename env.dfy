/** Reading environment variables as lists and booleans; the environment
    is given as a map from name to value. */
module Env {
  import opened Results
  import opened Exceptions
  import opened Text

  /** `os.getenv(key, default)`. */
  function EnvValue(environ: map<string, string>, key: string, default: string): (r: string)
    ensures key !in environ ==> r == default
    ensures key in environ ==> r == environ[key]
  {
    if key in environ then environ[key] else default
  }

  /** `getenv_list`: `[]` for a value with no separator that is not
      alphanumeric; otherwise the stripped, non-empty pieces of the stripped
      value split on the separator. An empty separator makes `split` raise. */
  function GetenvList(environ: map<string, string>, key: string, default: string, separator: string)
    : (r: Outcome<seq<string>, Exception>)
    ensures var value := EnvValue(environ, key, default);
      (!Occurs(separator, value) && !IsAlnum(value) ==> r == Returned([]))
      && (separator == "" ==> r == Raised(ValueError))
      && (separator != "" ==> r.Returned?)
      && (r.Returned? && (Occurs(separator, value) || IsAlnum(value)) ==>
            r.value == StrippedNonEmpty(Split(Strip(value), separator)))
  {
    var value := EnvValue(environ, key, default);
    if !Occurs(separator, value) && !IsAlnum(value) then Returned([])
    else if separator == "" then Raised(ValueError)
    else Returned(StrippedNonEmpty(Split(Strip(value), separator)))
  }

  /** Every element of a list read from the environment is non-empty and
      neither starts nor ends with whitespace. */
  lemma ListElementsStripped(environ: map<string, string>, key: string, default: string, separator: string, i: int)
    requires GetenvList(environ, key, default, separator).Returned?
    requires 0 <= i < |GetenvList(environ, key, default, separator).value|
    ensures var x := GetenvList(environ, key, default, separator).value[i];
      x != "" && !IsSpace(x[0]) && !IsSpace(x[|x| - 1])
  {
    var value := EnvValue(environ, key, default);
    StrippedNonEmptyTokens(Split(Strip(value), separator));
    assert GetenvList(environ, key, default, separator).value[i] in StrippedNonEmpty(Split(Strip(value), separator));
  }

  /** An unset or empty variable with the default `''` reads as the empty list. */
  lemma EmptyValueEmptyList(environ: map<string, string>, key: string, separator: string)
    requires key !in environ || environ[key] == ""
    requires separator != ""
    ensures GetenvList(environ, key, "", separator) == Returned([])
  {
    var value := EnvValue(environ, key, "");
    assert value == "";
    assert !Occurs(separator, value);
  }

  /** An alphanumeric value without the separator is a one-element list. */
  lemma AlnumValueSingleton(environ: map<string, string>, key: string, default: string, c: char)
    requires var value := EnvValue(environ, key, default); IsAlnum(value) && c !in value
    ensures GetenvList(environ, key, default, [c]) == Returned([EnvValue(environ, key, default)])
  {
    var value := EnvValue(environ, key, default);
    assert value != [] && Unpadded(value) by {
      assert IsAlnum(value);
    }
    StripUnpadded(value);
    SplitWithoutSeparator(value, c);
    StrippedSingleton(value);
  }

  /** The lower-cased spellings that read as true. */
  const TrueSpellings: seq<string> := ["1", "true", "yes"]

  /** `getenv_bool`: true iff the lower-cased value (or default) is `1`, `true` or `yes`. */
  function GetenvBool(environ: map<string, string>, key: string, default: string): (r: bool)
    ensures r <==> AsciiLower(EnvValue(environ, key, default)) in TrueSpellings
  {
    AsciiLower(EnvValue(environ, key, default)) in TrueSpellings
  }

  /** Case does not matter; other spellings, and the empty default, read as false. */
  lemma BoolSpellings(environ: map<string, string>, key: string)
    ensures GetenvBool(map[key := "TRUE"], key, "")
    ensures GetenvBool(map[key := "Yes"], key, "")
    ensures !GetenvBool(map[key := "0"], key, "")
    ensures !GetenvBool(map[key := "on"], key, "")
    ensures key !in environ ==> !GetenvBool(environ, key, "")
  {
    assert AsciiLower("TRUE") == "true";
    assert AsciiLower("Yes") == "yes";
  }
}
