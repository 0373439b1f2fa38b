/** Event type patterns: the SQL LIKE pattern compiled for the store means what the glob means. */
module GlobLike {

  // ---------------------------------------------------------------------------
  // Compilation, as a chain of replacements

  function ReplaceAll(s: string, c: char, sub: string): string {
    if s == "" then "" else (if s[0] == c then sub else [s[0]]) + ReplaceAll(s[1..], c, sub)
  }

  function EscapeForLike(s: string): string {
    ReplaceAll(ReplaceAll(ReplaceAll(s, '\\', "\\\\"), '%', "\\%"), '_', "\\_")
  }

  function TypePatternToSql(pattern: string): string {
    if pattern == "*" then "%" else ReplaceAll(EscapeForLike(pattern), '*', "%")
  }

  // ---------------------------------------------------------------------------
  // Meanings. SQLite folds ASCII case in LIKE, so both meanings take the character equality.

  type CharEq = (char, char) -> bool

  /** LIKE with ESCAPE '\'. An escape at the very end matches nothing. */
  predicate Like(eq: CharEq, p: string, t: string)
    decreases |p|, |t|
  {
    if p == "" then t == ""
    else if p[0] == '%' then Like(eq, p[1..], t) || (t != "" && Like(eq, p, t[1..]))
    else if p[0] == '_' then t != "" && Like(eq, p[1..], t[1..])
    else if p[0] == '\\' then |p| > 1 && t != "" && eq(p[1], t[0]) && Like(eq, p[2..], t[1..])
    else t != "" && eq(p[0], t[0]) && Like(eq, p[1..], t[1..])
  }

  /** A glob whose only metacharacter is the star. */
  predicate Glob(eq: CharEq, p: string, t: string)
    decreases |p|, |t|
  {
    if p == "" then t == ""
    else if p[0] == '*' then Glob(eq, p[1..], t) || (t != "" && Glob(eq, p, t[1..]))
    else t != "" && eq(p[0], t[0]) && Glob(eq, p[1..], t[1..])
  }

  /** MatchPattern of the event bus: "*", "prefix.*", or equality. */
  predicate MatchPattern(pattern: string, eventType: string) {
    if pattern == "*" then true
    else if |pattern| >= 2 && pattern[|pattern| - 2..] == ".*" then pattern[..|pattern| - 1] <= eventType
    else pattern == eventType
  }

  // ---------------------------------------------------------------------------
  // The chain is one translation per character

  function TranslateChar(c: char): string {
    if c == '\\' then "\\\\" else if c == '%' then "\\%" else if c == '_' then "\\_" else if c == '*' then "%" else [c]
  }

  function Translate(p: string): string {
    if p == "" then "" else TranslateChar(p[0]) + Translate(p[1..])
  }

  lemma {:induction false} ReplaceAppend(a: string, b: string, c: char, sub: string)
    ensures ReplaceAll(a + b, c, sub) == ReplaceAll(a, c, sub) + ReplaceAll(b, c, sub)
  {
    if a == "" {
      assert a + b == b;
    } else {
      ReplaceAppend(a[1..], b, c, sub);
      assert (a + b)[0] == a[0] && (a + b)[1..] == a[1..] + b;
      var head := if a[0] == c then sub else [a[0]];
      assert head + (ReplaceAll(a[1..], c, sub) + ReplaceAll(b, c, sub)) == head + ReplaceAll(a[1..], c, sub) + ReplaceAll(b, c, sub);
    }
  }

  function Chain(s: string): string {
    ReplaceAll(EscapeForLike(s), '*', "%")
  }

  lemma ChainAppend(a: string, b: string)
    ensures Chain(a + b) == Chain(a) + Chain(b)
  {
    ReplaceAppend(a, b, '\\', "\\\\");
    var a1, b1 := ReplaceAll(a, '\\', "\\\\"), ReplaceAll(b, '\\', "\\\\");
    ReplaceAppend(a1, b1, '%', "\\%");
    var a2, b2 := ReplaceAll(a1, '%', "\\%"), ReplaceAll(b1, '%', "\\%");
    ReplaceAppend(a2, b2, '_', "\\_");
    ReplaceAppend(ReplaceAll(a2, '_', "\\_"), ReplaceAll(b2, '_', "\\_"), '*', "%");
  }

  lemma ReplaceOne(a: char, c: char, sub: string)
    ensures ReplaceAll([a], c, sub) == if a == c then sub else [a]
  {
    assert [a][1..] == "";
  }

  lemma ReplaceTwo(a: char, b: char, c: char, sub: string)
    ensures ReplaceAll([a, b], c, sub) == (if a == c then sub else [a]) + (if b == c then sub else [b])
  {
    ReplaceOne(b, c, sub);
    assert [a, b][1..] == [b];
  }

  /** The order of the replacements matters: backslashes first, stars last. */
  lemma ChainChar(c: char)
    ensures Chain([c]) == TranslateChar(c)
  {
    ReplaceOne(c, '\\', "\\\\");
    if c == '\\' {
      ReplaceTwo('\\', '\\', '%', "\\%");
      ReplaceTwo('\\', '\\', '_', "\\_");
      ReplaceTwo('\\', '\\', '*', "%");
    } else {
      ReplaceOne(c, '%', "\\%");
      if c == '%' {
        ReplaceTwo('\\', '%', '_', "\\_");
        ReplaceTwo('\\', '%', '*', "%");
      } else {
        ReplaceOne(c, '_', "\\_");
        if c == '_' {
          ReplaceTwo('\\', '_', '*', "%");
        } else {
          ReplaceOne(c, '*', "%");
        }
      }
    }
  }

  lemma {:induction false} ChainIsTranslate(p: string)
    ensures Chain(p) == Translate(p)
  {
    if p != "" {
      ChainIsTranslate(p[1..]);
      ChainChar(p[0]);
      ChainAppend([p[0]], p[1..]);
      assert [p[0]] + p[1..] == p;
    }
  }

  lemma CompiledIsTranslate(p: string)
    ensures TypePatternToSql(p) == Translate(p)
  {
    ChainIsTranslate(p);
    if p == "*" { assert p[1..] == "" && Translate(p) == "%" + ""; }
  }

  // ---------------------------------------------------------------------------
  // Meaning is preserved

  lemma {:induction false} TranslateKeepsMeaning(eq: CharEq, p: string, t: string)
    ensures Like(eq, Translate(p), t) <==> Glob(eq, p, t)
    decreases |p|, |t|
  {
    if p != "" {
      var c, rest := p[0], Translate(p[1..]);
      assert Translate(p) == TranslateChar(c) + rest;
      if c == '*' {
        assert Translate(p)[1..] == rest;
        TranslateKeepsMeaning(eq, p[1..], t);
        if t != "" { TranslateKeepsMeaning(eq, p, t[1..]); }
      } else {
        if t != "" { TranslateKeepsMeaning(eq, p[1..], t[1..]); }
        if c == '\\' || c == '%' || c == '_' {
          assert Translate(p)[0] == '\\' && Translate(p)[1] == c && Translate(p)[2..] == rest;
        } else {
          assert Translate(p)[0] == c && Translate(p)[1..] == rest;
        }
      }
    }
  }

  /** For every pattern, event type and character equality: LIKE on the compiled pattern matches
      exactly if the glob does. */
  lemma CompilePreservesMeaning(eq: CharEq, p: string, t: string)
    ensures Like(eq, TypePatternToSql(p), t) <==> Glob(eq, p, t)
  {
    CompiledIsTranslate(p);
    TranslateKeepsMeaning(eq, p, t);
  }

  /** The type filter of ListEvents: no filter, LIKE on the compiled pattern, or plain equality. */
  predicate Selects(eq: CharEq, pattern: string, eventType: string) {
    if pattern == "" || pattern == "*" then true
    else if '*' in pattern then Like(eq, TypePatternToSql(pattern), eventType)
    else pattern == eventType
  }

  /** The filter selects what the glob matches, the empty pattern everything. Only patterns with a
      star are compared by LIKE and its character equality, the others character by character. */
  lemma FilterSelectsGlob(eq: CharEq, pattern: string, t: string)
    ensures Selects(eq, pattern, t) <==> pattern == "" || Glob(if '*' in pattern then eq else EXACT, pattern, t)
  {
    CompilePreservesMeaning(eq, pattern, t);
    if pattern == "*" {
      StarMatchesAll(eq, t);
    } else if '*' !in pattern {
      LiteralGlob(pattern, t);
    }
  }

  // ---------------------------------------------------------------------------
  // Agreement with the event bus

  ghost const EXACT: CharEq := (a, b) => a == b

  /** The pattern has no star, is the star, or has its only star at the end after a dot. */
  ghost predicate BusForm(p: string) {
    || '*' !in p
    || p == "*"
    || (|p| >= 2 && p[|p| - 2..] == ".*" && '*' !in p[..|p| - 1])
  }

  lemma {:induction false} StarMatchesAll(eq: CharEq, t: string)
    ensures Glob(eq, "*", t)
  {
    assert "*"[1..] == "";
    if t != "" { StarMatchesAll(eq, t[1..]); }
  }

  lemma {:induction false} LiteralGlob(p: string, t: string)
    requires '*' !in p
    ensures Glob(EXACT, p, t) <==> p == t
  {
    if p != "" && t != "" {
      assert p[0] in p;
      assert '*' !in p[1..];
      LiteralGlob(p[1..], t[1..]);
      assert p == [p[0]] + p[1..] && t == [t[0]] + t[1..];
    }
  }

  predicate Matches(eq: CharEq, q: string, t: string) {
    |q| <= |t| && forall i :: 0 <= i < |q| ==> eq(q[i], t[i])
  }

  lemma {:induction false} PrefixGlob(eq: CharEq, q: string, t: string)
    requires '*' !in q
    ensures Glob(eq, q + "*", t) <==> Matches(eq, q, t)
  {
    if q == "" {
      assert q + "*" == "*";
      StarMatchesAll(eq, t);
    } else if t != "" {
      assert q[0] in q && '*' !in q[1..];
      assert (q + "*")[1..] == q[1..] + "*";
      PrefixGlob(eq, q[1..], t[1..]);
      MatchesHead(eq, q, t);
    }
  }

  lemma MatchesHead(eq: CharEq, q: string, t: string)
    requires q != "" && t != ""
    ensures Matches(eq, q, t) <==> eq(q[0], t[0]) && Matches(eq, q[1..], t[1..])
  {
    if eq(q[0], t[0]) && Matches(eq, q[1..], t[1..]) {
      forall i | 0 <= i < |q| ensures eq(q[i], t[i]) {
        if i > 0 { assert q[1..][i - 1] == q[i] && t[1..][i - 1] == t[i]; }
      }
    }
  }

  /** What is left of a pattern when its stars are rubbed out. */
  function Rubbed(p: string): string {
    if p == "" then "" else (if p[0] == '*' then "" else [p[0]]) + Rubbed(p[1..])
  }

  lemma {:induction false} RubbedMatches(eq: CharEq, p: string)
    requires forall c :: eq(c, c)
    ensures Glob(eq, p, Rubbed(p))
  {
    if p != "" {
      RubbedMatches(eq, p[1..]);
      if p[0] == '*' {
        assert Rubbed(p) == Rubbed(p[1..]);
      } else {
        assert Rubbed(p) == [p[0]] + Rubbed(p[1..]);
        assert Rubbed(p)[1..] == Rubbed(p[1..]);
      }
    }
  }

  ghost function Stars(p: string): nat {
    multiset(p)['*']
  }

  lemma {:induction false} RubbedLength(p: string)
    ensures |Rubbed(p)| + Stars(p) == |p|
  {
    if p != "" {
      RubbedLength(p[1..]);
      assert p == [p[0]] + p[1..];
    }
  }

  /** Each character of q equals only itself. */
  ghost predicate Sharp(eq: CharEq, q: string) {
    forall i, c {:trigger eq(q[i], c)} :: 0 <= i < |q| && eq(q[i], c) ==> q[i] == c
  }

  /** The event bus and the store's filter read a pattern alike exactly if it is not empty, has one
      of the three forms the bus documents, and, where LIKE compares a prefix, the characters of
      that prefix equal only themselves. */
  lemma BusAgreesIff(eq: CharEq, p: string)
    requires forall c :: eq(c, c)
    ensures (forall t :: MatchPattern(p, t) <==> Selects(eq, p, t))
      <==> (p != "" && BusForm(p) && ('*' in p && p != "*" ==> Sharp(eq, p[..|p| - 1])))
  {
    if p == "" {
      assert Selects(eq, p, "a") && !MatchPattern(p, "a");
    } else if !BusForm(p) {
      RubbedMatches(eq, p);
      OtherFormDisagrees(p);
      CompilePreservesMeaning(eq, p, Rubbed(p));
      assert Selects(eq, p, Rubbed(p)) && !MatchPattern(p, Rubbed(p));
    } else if '*' in p && p != "*" {
      PrefixAgreesIff(eq, p, p[..|p| - 1]);
    } else if '*' !in p && |p| >= 2 {
      assert p[|p| - 1] in p && p[|p| - 2..][1] == p[|p| - 1];
    }
  }

  lemma PrefixAgreesIff(eq: CharEq, p: string, q: string)
    requires (forall c :: eq(c, c)) && '*' !in q && p == q + "*" && q != "" && q[|q| - 1] == '.'
    ensures (forall t :: MatchPattern(p, t) <==> Selects(eq, p, t)) <==> Sharp(eq, q)
  {
    assert p[|p| - 2..] == ".*" && p[..|p| - 1] == q;
    assert p[|p| - 1] in p;
    forall t ensures (MatchPattern(p, t) <==> q <= t) && (Selects(eq, p, t) <==> Matches(eq, q, t)) {
      CompilePreservesMeaning(eq, p, t);
      PrefixGlob(eq, q, t);
    }
    if Sharp(eq, q) {
      forall t ensures q <= t <==> Matches(eq, q, t) {}
    } else {
      var i, c :| 0 <= i < |q| && eq(q[i], c) && q[i] != c;
      var t := q[i := c];
      assert t[i] != q[i];
      assert Matches(eq, q, t) && !(q <= t);
    }
  }

  // SQLite's LIKE folds the case of ASCII letters.

  predicate IsLetter(c: char) { 'a' <= c <= 'z' || 'A' <= c <= 'Z' }

  function Lower(c: char): char {
    if 'A' <= c <= 'Z' then c + 32 as char else c
  }

  ghost const FOLDED: CharEq := (a, b) => Lower(a) == Lower(b)

  /** With SQLite's comparison bus and store agree exactly on a lone star, on non-empty patterns
      without a star, and on prefixes free of letters: "run.*" is read differently. */
  lemma SqliteAgreesIff(p: string)
    ensures (forall t :: MatchPattern(p, t) <==> Selects(FOLDED, p, t))
      <==> (p != "" && BusForm(p) && ('*' in p && p != "*" ==> forall c :: c in p ==> !IsLetter(c)))
  {
    BusAgreesIff(FOLDED, p);
    if '*' in p && p != "*" && BusForm(p) {
      var q := p[..|p| - 1];
      SharpIffNoLetters(q);
      assert p[|p| - 2..][1] == p[|p| - 1] == '*';
      assert forall c :: c in p <==> c in q || c == '*';
      hide Sharp, MatchPattern, Selects, BusForm;
    }
  }

  lemma SharpIffNoLetters(q: string)
    ensures Sharp(FOLDED, q) <==> forall c :: c in q ==> !IsLetter(c)
  {
    if i :| 0 <= i < |q| && IsLetter(q[i]) {
      var other := OtherCase(q[i]);
    } else {
      forall i, c | 0 <= i < |q| && FOLDED(q[i], c) ensures q[i] == c { assert q[i] in q; OnlyItself(q[i], c); }
    }
  }

  lemma OtherCase(c: char) returns (other: char)
    requires IsLetter(c)
    ensures FOLDED(c, other) && other != c
  {
    other := if 'A' <= c <= 'Z' then c + 32 as char else c - 32 as char;
  }

  lemma OnlyItself(c: char, d: char)
    requires !IsLetter(c) && FOLDED(c, d)
    ensures c == d
  {
  }

  /** Any other pattern matches its own remains as a glob, but not on the bus. */
  lemma OtherFormDisagrees(p: string)
    requires !BusForm(p)
    ensures !MatchPattern(p, Rubbed(p))
  {
    RubbedLength(p);
    assert '*' in p;
    if |p| >= 2 && p[|p| - 2..] == ".*" {
      var q := p[..|p| - 1];
      assert p[|p| - 2..][1] == p[|p| - 1];
      assert p == q + "*";
      assert multiset(p) == multiset(q) + multiset("*");
      assert Stars(p) >= 2;
    }
  }

  // ---------------------------------------------------------------------------
  // What the wildcards stand for

  /** A star stands for any part of the text, also an empty one. */
  lemma {:induction false} StarSplits(eq: CharEq, p: string, t: string)
    ensures Glob(eq, "*" + p, t) <==> exists i :: 0 <= i <= |t| && Glob(eq, p, t[i..])
  {
    var q := "*" + p;
    assert q[0] == '*' && q[1..] == p && t[0..] == t;
    if t != "" {
      StarSplits(eq, p, t[1..]);
      if j :| 0 <= j <= |t[1..]| && Glob(eq, p, t[1..][j..]) { assert t[1..][j..] == t[j + 1..]; }
      if i :| 0 < i <= |t| && Glob(eq, p, t[i..]) { assert t[i..] == t[1..][i - 1..]; }
    }
  }

  /** In LIKE an underscore stands for any one character... */
  lemma UnderscoreIsOne(eq: CharEq, p: string, t: string)
    ensures Like(eq, "_" + p, t) <==> |t| > 0 && Like(eq, p, t[1..])
  {
    assert ("_" + p)[1..] == p;
  }

  /** ... and a percent sign for any part of the text. */
  lemma {:induction false} PercentSplits(eq: CharEq, p: string, t: string)
    ensures Like(eq, "%" + p, t) <==> exists i :: 0 <= i <= |t| && Like(eq, p, t[i..])
  {
    var q := "%" + p;
    assert q[0] == '%' && q[1..] == p && t[0..] == t;
    if t != "" {
      PercentSplits(eq, p, t[1..]);
      if j :| 0 <= j <= |t[1..]| && Like(eq, p, t[1..][j..]) { assert t[1..][j..] == t[j + 1..]; }
      if i :| 0 < i <= |t| && Like(eq, p, t[i..]) { assert t[i..] == t[1..][i - 1..]; }
    }
  }
}
