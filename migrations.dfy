/** The migration environment's option parsing and the table filter that
    keeps excluded tables out of autogenerated migrations. */
module Migrations {
  import opened Results
  import opened Text

  /** The tokens of each line, line after line. */
  function LineTokens(lines: seq<string>): (r: seq<string>)
    ensures forall t :: t in r ==> t != [] && Unpadded(t)
  {
    if lines == [] then []
    else
      StrippedNonEmptyTokens(Split(lines[0], ","));
      StrippedNonEmpty(Split(lines[0], ",")) + LineTokens(lines[1..])
  }

  /** `get_config_variable_as_list`: `None` for an absent option, otherwise
      its value split on newlines, then on commas, each token stripped and
      the empty ones dropped. */
  function ConfigVariableAsList(options: map<string, string>, key: string): (r: Option<seq<string>>)
    ensures r.None? <==> key !in options
    ensures r.Some? ==> r.value == LineTokens(Split(options[key], "\n"))
  {
    if key !in options then None else Some(LineTokens(Split(options[key], "\n")))
  }

  /** Token order follows the order of the lines. */
  lemma {:induction false} LineTokensAppend(a: seq<string>, b: seq<string>)
    ensures LineTokens(a + b) == LineTokens(a) + LineTokens(b)
    decreases |a|
  {
    if a == [] {
      assert a + b == b;
    } else {
      assert (a + b)[0] == a[0];
      assert (a + b)[1..] == a[1..] + b;
      LineTokensAppend(a[1..], b);
    }
  }

  /** No token holds a comma. */
  lemma {:induction false} TokensHaveNoComma(lines: seq<string>)
    ensures forall t :: t in LineTokens(lines) ==> ',' !in t
    decreases |lines|
  {
    if lines != [] {
      SplitPiecesAvoidSeparator(lines[0], ',');
      StrippedNonEmptyAvoids(Split(lines[0], ","), ',');
      TokensHaveNoComma(lines[1..]);
    }
  }

  /** `is_object_included`: everything is included when there is no exclude
      list; otherwise only tables named in it are left out. */
  function IsObjectIncluded(excludeTables: Option<seq<string>>, name: string, objectType: string): (r: bool)
    ensures excludeTables.None? ==> r
    ensures objectType != "table" ==> r
    ensures excludeTables.Some? && objectType == "table" ==> (r <==> name !in excludeTables.value)
  {
    excludeTables.None? || !(objectType == "table" && name in excludeTables.value)
  }

  /** A table named as a token of the `exclude_tables` option is left out of
      migrations, and a table the option does not name is kept. */
  lemma ExcludedTablesFromOptions(options: map<string, string>, name: string)
    requires "exclude_tables" in options
    ensures var excluded := ConfigVariableAsList(options, "exclude_tables");
      !IsObjectIncluded(excluded, name, "table") <==> name in LineTokens(Split(options["exclude_tables"], "\n"))
  {
  }
}
