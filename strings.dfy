/** The check whether a string holds `str.format` replacement fields:
    balanced braces that are not all doubled escapes. */
module Strings {
  import opened Text

  /** `s.count(c)` for one character. */
  function CountChar(s: string, c: char): nat
  {
    if s == [] then 0 else (if s[0] == c then 1 else 0) + CountChar(s[1..], c)
  }

  /** `s.count(sub)`: occurrences found from the left without overlapping. */
  function CountSub(s: string, sub: string): nat
    requires |sub| > 0
    decreases |s|
  {
    if |s| < |sub| then 0
    else if s[..|sub|] == sub then 1 + CountSub(s[|sub|..], sub)
    else CountSub(s[1..], sub)
  }

  /** Reading `s` with `depth` braces open: every `}` closes an open `{` and
      nothing is left open at the end. */
  predicate Nest(s: string, depth: nat)
    decreases |s|
  {
    if s == [] then depth == 0
    else if s[0] == '}' then depth > 0 && Nest(s[1..], depth - 1)
    else if s[0] == '{' then Nest(s[1..], depth + 1)
    else Nest(s[1..], depth)
  }

  /** Balanced in the counting sense: no prefix closes more braces than it
      (with `depth` already open) has opened, and the totals agree. */
  predicate ClosesInOrder(s: string, depth: nat)
  {
    (forall i :: 0 <= i <= |s| ==> CountChar(s[..i], '}') <= CountChar(s[..i], '{') + depth)
    && CountChar(s, '}') == CountChar(s, '{') + depth
  }

  /** What `has_format_brackets` decides: balanced braces, some `{` and some
      `}` that are not part of a doubled escape, and as many of one as of the other. */
  predicate FormatBrackets(s: string)
  {
    Nest(s, 0)
    && CountChar(s, '{') - 2 * CountSub(s, "{{") != 0
    && CountChar(s, '}') - 2 * CountSub(s, "}}") != 0
    && CountChar(s, '{') == CountChar(s, '}')
  }

  /** Counting in a non-empty prefix starts with its first character. */
  lemma PrefixCount(s: string, i: int, c: char)
    requires 1 <= i <= |s|
    ensures CountChar(s[..i], c) == (if s[0] == c then 1 else 0) + CountChar(s[1..][..i - 1], c)
  {
    assert s[..i][1..] == s[1..][..i - 1];
  }

  /** The stack reading and the counting reading of "balanced" agree. */
  lemma {:induction false} NestIffClosesInOrder(s: string, depth: nat)
    ensures Nest(s, depth) <==> ClosesInOrder(s, depth)
    decreases |s|
  {
    if s == [] {
      assert s[..0] == [];
    } else {
      var t := s[1..];
      var open := if s[0] == '{' then 1 else 0;
      var close := if s[0] == '}' then 1 else 0;
      forall i | 1 <= i <= |s|
        ensures CountChar(s[..i], '{') == open + CountChar(t[..i - 1], '{')
        ensures CountChar(s[..i], '}') == close + CountChar(t[..i - 1], '}')
      {
        PrefixCount(s, i, '{');
        PrefixCount(s, i, '}');
      }
      assert s[..0] == [];
      if s[0] == '}' && depth == 0 {
        assert CountChar(s[..1], '}') == 1 + CountChar(t[..0], '}');
        assert t[..0] == [];
      } else {
        var d: nat := depth + open - close;
        NestIffClosesInOrder(t, d);
        assert Nest(s, depth) == Nest(t, d);
        if ClosesInOrder(t, d) {
          forall i | 0 <= i <= |s| ensures CountChar(s[..i], '}') <= CountChar(s[..i], '{') + depth {
            if i > 0 {
              assert CountChar(t[..i - 1], '}') <= CountChar(t[..i - 1], '{') + d;
            }
          }
          assert s[..|s|] == s && t[..|t|] == t;
        }
        if ClosesInOrder(s, depth) {
          forall i | 0 <= i <= |t| ensures CountChar(t[..i], '}') <= CountChar(t[..i], '{') + d {
            assert CountChar(s[..i + 1], '}') <= CountChar(s[..i + 1], '{') + depth;
          }
          assert s[..|s|] == s && t[..|t|] == t;
        }
      }
    }
  }

  /** A string without braces has no replacement field. */
  lemma NoBracesNoFields(s: string)
    requires CountChar(s, '{') == 0
    ensures !FormatBrackets(s)
  {
  }

  /** `has_format_brackets`: pushes every `{` on a stack and pops it for every
      `}`, stopping at the first `}` with nothing to close; then compares counts. */
  method HasFormatBrackets(value: string) returns (r: bool)
    ensures r <==> FormatBrackets(value)
    ensures r ==> ClosesInOrder(value, 0) && CountChar(value, '{') == CountChar(value, '}')
  {
    var stack: seq<char> := [];
    var balanced := true;
    var i := 0;
    while i < |value|
      invariant 0 <= i <= |value|
      invariant forall j :: 0 <= j < |stack| ==> stack[j] == '{'
      invariant Nest(value, 0) == Nest(value[i..], |stack|)
    {
      var c := value[i];
      assert value[i..][1..] == value[i + 1..];
      if c == '}' {
        var top := '#';
        if |stack| > 0 {
          top := stack[|stack| - 1];
          stack := stack[..|stack| - 1];
        }
        if top != '{' {
          assert !Nest(value, 0);
          balanced := false;
          break;
        }
      } else if c == '{' {
        stack := stack + [c];
      }
      i := i + 1;
    }
    var isValid := if balanced then |stack| == 0 else balanced;
    assert isValid <==> Nest(value, 0);
    if !isValid {
      return isValid;
    }
    NestIffClosesInOrder(value, 0);
    var leftCount: int := CountChar(value, '{');
    var rightCount: int := CountChar(value, '}');
    var escapedLeft := CountSub(value, "{{");
    var escapedRight := CountSub(value, "}}");
    r := leftCount - escapedLeft * 2 != 0 && rightCount - escapedRight * 2 != 0 && leftCount == rightCount;
  }

  /** A character that never appears twice in a row has no doubled occurrence. */
  lemma {:induction false} NoDoubled(s: string, c: char)
    requires forall i :: 0 <= i < |s| - 1 ==> !(s[i] == c && s[i + 1] == c)
    ensures CountSub(s, [c, c]) == 0
    decreases |s|
  {
    if |s| >= 2 {
      assert s[..2] != [c, c] by {
        assert s[..2][0] == s[0] && s[..2][1] == s[1];
      }
      NoDoubled(s[1..], c);
    }
  }

  /** Counting over a concatenation adds the counts of the parts. */
  lemma {:induction false} CountCharAppend(a: string, b: string, c: char)
    ensures CountChar(a + b, c) == CountChar(a, c) + CountChar(b, c)
    decreases |a|
  {
    if a == [] {
      assert a + b == b;
    } else {
      assert (a + b)[1..] == a[1..] + b;
      CountCharAppend(a[1..], b, c);
    }
  }

  /** A string without `c` counts no `c`. */
  lemma {:induction false} CountAbsent(s: string, c: char)
    requires c !in s
    ensures CountChar(s, c) == 0
    decreases |s|
  {
    if s != [] {
      CountAbsent(s[1..], c);
    }
  }

  /** Characters other than braces leave the open count alone. */
  lemma {:induction false} NestPlain(name: string, t: string, depth: nat)
    requires '{' !in name && '}' !in name
    ensures Nest(name + t, depth) == Nest(t, depth)
    decreases |name|
  {
    if name != [] {
      assert (name + t)[0] == name[0];
      assert (name + t)[1..] == name[1..] + t;
      NestPlain(name[1..], t, depth);
    } else {
      assert name + t == t;
    }
  }

  /** With no `{` after the first character and no `}` before the last, no
      brace is directly followed by the same brace. */
  lemma FieldNotDoubled(s: string)
    requires s != [] && '{' !in s[1..] && '}' !in s[..|s| - 1]
    ensures forall i :: 0 <= i < |s| - 1 ==> !(s[i] == '{' && s[i + 1] == '{')
    ensures forall i :: 0 <= i < |s| - 1 ==> !(s[i] == '}' && s[i + 1] == '}')
  {
    forall i | 0 <= i < |s| - 1 ensures s[i] != '}' {
      assert s[i] == s[..|s| - 1][i];
    }
    forall i | 1 <= i < |s| ensures s[i] != '{' {
      assert s[i] == s[1..][i - 1];
    }
  }

  /** One replacement field whose name holds no braces is a format string. */
  lemma FieldWithoutBraces(name: string)
    requires '{' !in name && '}' !in name
    ensures FormatBrackets("{" + name + "}")
  {
    var s := "{" + name + "}";
    ConcatAssoc("{", name, "}");
    assert s[0] == '{' && s[1..] == name + "}";
    NestPlain(name, "}", 1);
    assert Nest("}", 1) by {
      assert "}"[1..] == "";
    }
    CountCharAppend("{", name + "}", '{');
    CountCharAppend("{", name + "}", '}');
    CountCharAppend(name, "}", '{');
    CountCharAppend(name, "}", '}');
    CountAbsent(name, '{');
    CountAbsent(name, '}');
    assert s[..|s| - 1] == "{" + name;
    FieldNotDoubled(s);
    NoDoubled(s, '{');
    NoDoubled(s, '}');
    SingleField(s);
  }

  /** The documented example of a string with an empty field. */
  lemma EmptyFieldExample()
    ensures FormatBrackets("{}")
  {
    FieldWithoutBraces("");
    assert "{" + "" + "}" == "{}";
  }

  /** A single-field string read off its counts. */
  lemma SingleField(s: string)
    requires Nest(s, 0) && CountChar(s, '{') == 1 && CountChar(s, '}') == 1
    requires CountSub(s, "{{") == 0 && CountSub(s, "}}") == 0
    ensures FormatBrackets(s)
  {
  }

  /** The documented example of a string with a named field. */
  lemma NamedFieldExample()
    ensures FormatBrackets("{some_var}")
  {
    var name := "some_var";
    assert forall j :: 0 <= j < |name| ==> name[j] !in "{}";
    FieldWithoutBraces(name);
    assert "{" + name + "}" == "{some_var}";
  }

  /** The documented examples of strings without fields: stray, unclosed or doubled braces. */
  lemma NoFieldExamples()
    ensures !FormatBrackets("{}}")
    ensures !FormatBrackets("{{}}")
    ensures !FormatBrackets("}{")
    ensures !FormatBrackets("}}{{")
  {
  }

  /** Braces left open make the long documented example fail: it opens nine and closes six. */
  lemma UnclosedExample()
    ensures !FormatBrackets("{{{{{{}}}{{}{}}")
  {
    var p1, p2, p3 := "{{{{{", "{}}}{", "{}{}}";
    assert "{{{{{{}}}{{}{}}" == (p1 + p2) + p3;
    PieceCounts();
    CountCharAppend(p1, p2, '{');
    CountCharAppend(p1, p2, '}');
    CountCharAppend(p1 + p2, p3, '{');
    CountCharAppend(p1 + p2, p3, '}');
  }

  /** The brace counts of the three pieces of that example. */
  lemma PieceCounts()
    ensures CountChar("{{{{{", '{') == 5 && CountChar("{{{{{", '}') == 0
    ensures CountChar("{}}}{", '{') == 2 && CountChar("{}}}{", '}') == 3
    ensures CountChar("{}{}}", '{') == 2 && CountChar("{}{}}", '}') == 3
  {
  }
}
