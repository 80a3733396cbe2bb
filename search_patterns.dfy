/** The search pattern of the list query: the search text is passed through
    `re.escape`, then `%`, `_` and `/` are backslash-escaped, and the result is
    wrapped in `%...%` for a case-insensitive `LIKE`. The module also gives
    the store's `LIKE` matching (backslash as escape character) as a
    reference, and proves that the pattern matches a value exactly when the
    search text occurs in it. */
module SearchPatterns {
  import opened Text

  /** The characters `re.escape` prefixes with a backslash (Python 3.7 and later). */
  predicate ReSpecial(c: char)
  {
    c == '(' || c == ')' || c == '[' || c == ']' || c == '{' || c == '}' || c == '?' || c == '*'
    || c == '+' || c == '-' || c == '|' || c == '^' || c == '$' || c == '\\' || c == '.' || c == '&'
    || c == '~' || c == '#' || c == ' ' || c == '\t' || c == '\n' || c == '\r' || c == '\U{b}' || c == '\U{c}'
  }

  /** `re.escape(s)`. */
  function ReEscape(s: string): (r: string)
    ensures |r| >= |s|
    ensures (forall i :: 0 <= i < |s| ==> !ReSpecial(s[i])) ==> r == s
  {
    if s == [] then []
    else (if ReSpecial(s[0]) then ['\\', s[0]] else [s[0]]) + ReEscape(s[1..])
  }

  /** The `LIKE` wildcard characters the translation table escapes. */
  predicate LikeMeta(c: char)
  {
    c == '%' || c == '_' || c == '/'
  }

  /** `t.translate(str.maketrans({'%': r'\%', '_': r'\_', '/': r'\/'}))`. */
  function TranslateLikeMeta(t: string): (r: string)
    ensures |r| >= |t|
  {
    if t == [] then []
    else (if LikeMeta(t[0]) then ['\\', t[0]] else [t[0]]) + TranslateLikeMeta(t[1..])
  }

  /** Both escaping steps, in the order the list query applies them. */
  function EscapeSearch(s: string): string
  {
    TranslateLikeMeta(ReEscape(s))
  }

  /** The pattern passed to `ilike` for an escaped search text. */
  function SearchPattern(escaped: string): (p: string)
    ensures |p| == |escaped| + 2 && p[0] == '%' && p[|p| - 1] == '%'
  {
    "%" + escaped + "%"
  }

  /** How one character of the search text comes out of both steps. */
  function EscapeChar(c: char): string
  {
    if ReSpecial(c) || LikeMeta(c) then ['\\', c] else [c]
  }

  lemma {:induction false} TranslateConcat(a: string, b: string)
    ensures TranslateLikeMeta(a + b) == TranslateLikeMeta(a) + TranslateLikeMeta(b)
    decreases |a|
  {
    if a == [] {
      assert a + b == b;
    } else {
      assert (a + b)[0] == a[0];
      assert (a + b)[1..] == a[1..] + b;
      TranslateConcat(a[1..], b);
    }
  }

  /** The two steps act character by character: escaping a non-empty text is
      escaping its first character followed by escaping the rest. */
  lemma EscapeSearchHead(s: string)
    requires s != []
    ensures EscapeSearch(s) == EscapeChar(s[0]) + EscapeSearch(s[1..])
  {
    var head := if ReSpecial(s[0]) then ['\\', s[0]] else [s[0]];
    assert ReEscape(s) == head + ReEscape(s[1..]);
    TranslateConcat(head, ReEscape(s[1..]));
    if ReSpecial(s[0]) {
      assert !LikeMeta(s[0]);
      assert TranslateLikeMeta(head) == ['\\'] + TranslateLikeMeta([s[0]]);
    }
  }

  /** `LIKE` matching of the store with `\` as escape character: `%` matches
      any run of characters, `_` any one character, `\x` the character `x`,
      and every other character itself. */
  predicate Like(p: string, v: string)
    decreases |p|, |v|
  {
    if p == [] then v == []
    else if p[0] == '%' then Like(p[1..], v) || (v != [] && Like(p, v[1..]))
    else if p[0] == '_' then v != [] && Like(p[1..], v[1..])
    else if p[0] == '\\' && |p| >= 2 then v != [] && v[0] == p[1] && Like(p[2..], v[1..])
    else v != [] && v[0] == p[0] && Like(p[1..], v[1..])
  }

  /** `ILIKE`: `LIKE` after lower-casing both sides. */
  predicate ILike(p: string, v: string)
  {
    Like(AsciiLower(p), AsciiLower(v))
  }

  /** A lone `%` matches every value. */
  lemma {:induction false} PercentMatchesAll(v: string)
    ensures Like("%", v)
    decreases |v|
  {
    if v != [] {
      PercentMatchesAll(v[1..]);
    }
  }

  /** `q` matches the suffix of `v` that starts at `k`. */
  predicate MatchesFrom(q: string, v: string, k: int)
  {
    0 <= k <= |v| && Like(q, v[k..])
  }

  /** A leading `%` lets the rest of the pattern match any suffix of the value. */
  lemma {:induction false} LeadingPercent(q: string, v: string)
    ensures Like("%" + q, v) <==> exists k :: MatchesFrom(q, v, k)
    decreases |v|
  {
    var p := "%" + q;
    assert p[1..] == q;
    if v == [] {
      if exists k :: MatchesFrom(q, v, k) {
        var k :| MatchesFrom(q, v, k);
        assert k == 0 && v[k..] == v;
      }
      assert Like(q, v) ==> MatchesFrom(q, v, 0) by { assert v[0..] == v; }
    } else {
      LeadingPercent(q, v[1..]);
      assert Like(q, v) ==> MatchesFrom(q, v, 0) by { assert v[0..] == v; }
      if Like(p, v[1..]) {
        var k :| MatchesFrom(q, v[1..], k);
        assert v[1..][k..] == v[k + 1..];
        assert MatchesFrom(q, v, k + 1);
      }
      if exists k :: MatchesFrom(q, v, k) {
        var k :| MatchesFrom(q, v, k);
        if k > 0 {
          assert v[1..][k - 1..] == v[k..];
          assert MatchesFrom(q, v[1..], k - 1);
        } else {
          assert v[0..] == v;
        }
      }
    }
  }

  /** One escaped character matches exactly that character. */
  lemma EscapeCharIsLiteral(c: char, rest: string, v: string)
    ensures Like(EscapeChar(c) + rest, v) <==> v != [] && v[0] == c && Like(rest, v[1..])
  {
    var p := EscapeChar(c) + rest;
    if ReSpecial(c) || LikeMeta(c) {
      assert p[0] == '\\' && p[1] == c && |p| >= 2;
      assert p[2..] == rest;
    } else {
      assert p[0] == c && p[1..] == rest;
    }
  }

  /** Matching a literal prefix one character at a time. */
  lemma PrefixStep(s: string, v: string)
    requires s != [] && v != []
    ensures (|s| <= |v| && v[..|s|] == s) <==>
            (v[0] == s[0] && |s| - 1 <= |v[1..]| && v[1..][..|s| - 1] == s[1..])
    ensures |s| <= |v| ==> v[1..][|s| - 1..] == v[|s|..]
  {
    if |s| <= |v| {
      assert v[1..][..|s| - 1] == v[1..|s|];
      assert v[..|s|] == [v[0]] + v[1..|s|];
      assert s == [s[0]] + s[1..];
    }
  }

  lemma EscapedEmptyIsLiteral(q: string, v: string)
    ensures Like(EscapeSearch([]) + q, v) <==> v[..0] == [] && Like(q, v[0..])
  {
    assert EscapeSearch([]) + q == q;
    assert v[0..] == v;
  }

  /** The bookkeeping of that step, with both matches abstracted to booleans. */
  lemma PrefixJoin(s: string, q: string, v: string, whole: bool, tail: bool)
    requires s != [] && v != []
    requires whole <==> v[0] == s[0] && tail
    requires tail <==> |s[1..]| <= |v[1..]| && v[1..][..|s[1..]|] == s[1..] && Like(q, v[1..][|s[1..]|..])
    ensures whole <==> |s| <= |v| && v[..|s|] == s && Like(q, v[|s|..])
  {
    PrefixStep(s, v);
  }

  /** The escaped first character of the search text matches the first character of the value. */
  lemma EscapedHead(s: string, q: string, v: string)
    requires s != []
    ensures Like(EscapeSearch(s) + q, v) <==> v != [] && v[0] == s[0] && Like(EscapeSearch(s[1..]) + q, v[1..])
  {
    EscapeSearchHeadAppend(s, q);
    EscapeCharIsLiteral(s[0], EscapeSearch(s[1..]) + q, v);
  }

  /** `EscapeSearchHead` with a suffix attached. */
  lemma EscapeSearchHeadAppend(s: string, q: string)
    requires s != []
    ensures EscapeSearch(s) + q == EscapeChar(s[0]) + (EscapeSearch(s[1..]) + q)
  {
    EscapeSearchHead(s);
    ConcatAssoc(EscapeChar(s[0]), EscapeSearch(s[1..]), q);
  }

  /** One step of the induction below: the first character of `s` against the first of `v`. */
  lemma EscapedIsLiteralStep(s: string, q: string, v: string)
    requires s != [] && v != []
    requires Like(EscapeSearch(s[1..]) + q, v[1..]) <==>
      |s[1..]| <= |v[1..]| && v[1..][..|s[1..]|] == s[1..] && Like(q, v[1..][|s[1..]|..])
    ensures Like(EscapeSearch(s) + q, v) <==> |s| <= |v| && v[..|s|] == s && Like(q, v[|s|..])
  {
    EscapedHead(s, q, v);
    PrefixJoin(s, q, v, Like(EscapeSearch(s) + q, v), Like(EscapeSearch(s[1..]) + q, v[1..]));
  }

  /** An escaped text matches exactly itself, literally: every wildcard in it
      has been neutralised. */
  lemma {:induction false} EscapedIsLiteral(s: string, q: string, v: string)
    ensures Like(EscapeSearch(s) + q, v) <==> |s| <= |v| && v[..|s|] == s && Like(q, v[|s|..])
    decreases |s|
  {
    if s == [] {
      EscapedEmptyIsLiteral(q, v);
    } else if v == [] {
      EscapedHead(s, q, v);
    } else {
      EscapedIsLiteral(s[1..], q, v[1..]);
      EscapedIsLiteralStep(s, q, v);
    }
  }

  /** `sub` sits in `s` at index `k`. */
  predicate OccursAtIndex(sub: string, s: string, k: int)
  {
    0 <= k <= |s| - |sub| && s[k..k + |sub|] == sub
  }

  /** The substring test as an index: `sub` occurs in `s` iff it sits there at some index. */
  lemma {:induction false} OccursAt(sub: string, s: string)
    ensures Occurs(sub, s) <==> exists k :: OccursAtIndex(sub, s, k)
    decreases |s|
  {
    if |s| >= |sub| {
      assert s[..|sub|] == sub <==> OccursAtIndex(sub, s, 0) by { assert s[0..0 + |sub|] == s[..|sub|]; }
      if |s| > 0 {
        OccursAt(sub, s[1..]);
        if Occurs(sub, s[1..]) {
          var k :| OccursAtIndex(sub, s[1..], k);
          assert s[1..][k..k + |sub|] == s[k + 1..k + 1 + |sub|];
          assert OccursAtIndex(sub, s, k + 1);
        }
      }
      if exists k :: OccursAtIndex(sub, s, k) {
        var k :| OccursAtIndex(sub, s, k);
        if k > 0 {
          assert s[1..][k - 1..k - 1 + |sub|] == s[k..k + |sub|];
          assert OccursAtIndex(sub, s[1..], k - 1);
        }
      }
    }
  }

  /** The wrapped, escaped search text matches a value under `LIKE` exactly
      when the search text occurs in the value. */
  lemma SearchPatternMatchesOccurrence(s: string, v: string)
    ensures Like(SearchPattern(EscapeSearch(s)), v) <==> Occurs(s, v)
  {
    var q := EscapeSearch(s) + "%";
    assert SearchPattern(EscapeSearch(s)) == "%" + q;
    LeadingPercent(q, v);
    OccursAt(s, v);
    forall k | 0 <= k <= |v|
      ensures MatchesFrom(q, v, k) <==> OccursAtIndex(s, v, k)
    {
      EscapedIsLiteral(s, "%", v[k..]);
      if |s| <= |v[k..]| {
        PercentMatchesAll(v[k..][|s|..]);
        assert v[k..][..|s|] == v[k..k + |s|];
      }
    }
    if Occurs(s, v) {
      var k :| OccursAtIndex(s, v, k);
      assert MatchesFrom(q, v, k);
    }
    if Like(SearchPattern(EscapeSearch(s)), v) {
      var k :| MatchesFrom(q, v, k);
      assert OccursAtIndex(s, v, k);
    }
  }

  lemma {:induction false} LowerConcat(a: string, b: string)
    ensures AsciiLower(a + b) == AsciiLower(a) + AsciiLower(b)
  {
    var l := AsciiLower(a + b);
    var r := AsciiLower(a) + AsciiLower(b);
    assert |l| == |r|;
    forall i | 0 <= i < |l| ensures l[i] == r[i] {
      if i < |a| {
        assert (a + b)[i] == a[i];
      } else {
        assert (a + b)[i] == b[i - |a|];
      }
    }
    assert l == r;
  }

  /** Lower-casing one escaped character: letters are never escaped. */
  lemma LowerEscapeChar(c: char)
    ensures AsciiLower(EscapeChar(c)) == EscapeChar(LowerChar(c))
  {
    if 'A' <= c <= 'Z' {
      assert !ReSpecial(c) && !LikeMeta(c);
      assert !ReSpecial(LowerChar(c)) && !LikeMeta(LowerChar(c));
    }
    assert LowerChar('\\') == '\\';
  }

  /** Lower-casing commutes with escaping. */
  lemma {:induction false} LowerEscapeCommute(s: string)
    ensures AsciiLower(EscapeSearch(s)) == EscapeSearch(AsciiLower(s))
    decreases |s|
  {
    if s != [] {
      var l := AsciiLower(s);
      EscapeSearchHead(s);
      EscapeSearchHead(l);
      assert l[1..] == AsciiLower(s[1..]);
      LowerEscapeCommute(s[1..]);
      LowerConcat(EscapeChar(s[0]), EscapeSearch(s[1..]));
      LowerEscapeChar(s[0]);
    }
  }

  /** The search filter of the list query, evaluated by `ILIKE`, selects a
      value exactly when the search text occurs in it, ignoring the case of
      ASCII letters. */
  lemma SearchFindsOccurrences(s: string, v: string)
    ensures ILike(SearchPattern(EscapeSearch(s)), v) <==> Occurs(AsciiLower(s), AsciiLower(v))
  {
    LowerEscapeCommute(s);
    LowerConcat("%" + EscapeSearch(s), "%");
    LowerConcat("%", EscapeSearch(s));
    assert AsciiLower(SearchPattern(EscapeSearch(s))) == SearchPattern(EscapeSearch(AsciiLower(s)));
    SearchPatternMatchesOccurrence(AsciiLower(s), AsciiLower(v));
  }
}
