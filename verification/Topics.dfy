/**
 * Topic filters: their translation into regular expressions, and the matching by topic
 * levels of section 4.7.1 of MQTT 3.1.1 that the translation has to agree with.
 */
module Topics {
  import opened Results
  import opened Regex

  // ---- the translation ----------------------------------------------------------

  const PLUS_TEXT := "[^/]*"
  const HASH_TEXT := "[^/]*(?:/[^/]*)*$"

  /** Every occurrence of c in s replaced by text. */
  function ReplaceAll(s: string, c: char, text: string): string {
    if s == "" then ""
    else (if s[0] == c then text else [s[0]]) + ReplaceAll(s[1..], c, text)
  }

  /** The pattern text of a topic filter: '+' is rewritten first, '#' in what results. */
  function PatternText(filter: string): string {
    ReplaceAll(ReplaceAll(filter, '+', PLUS_TEXT), '#', HASH_TEXT)
  }

  function TopicToRegex(filter: string): Option<Expr> { Parse(PatternText(filter)) }

  /** Does the code hand a message with this topic to a subscription with this filter? */
  predicate CodeMatches(filter: string, topic: string) {
    var re := TopicToRegex(filter);
    re.Some? && FullMatch(re.value, topic)
  }

  /** No operator outside the fragment; '.' and '$' are inside it and keep their regex meaning. */
  predicate InFragment(filter: string) { forall c | c in filter :: !IsOperator(c) }

  // ---- reading a filter character by character -----------------------------------

  datatype Token = Lit(c: char) | Any | Stop | Plus | Hash

  /** What a character of a filter means to the code. */
  function CodeToken(c: char): Token {
    if c == '+' then Plus else if c == '#' then Hash
    else if c == '.' then Any else if c == '$' then Stop else Lit(c)
  }

  /** What it means to the standard. */
  function StandardToken(c: char): Token {
    if c == '+' then Plus else if c == '#' then Hash else Lit(c)
  }

  function CodeTokens(f: string): seq<Token> { seq(|f|, i requires 0 <= i < |f| => CodeToken(f[i])) }

  function StandardTokens(f: string): seq<Token> { seq(|f|, i requires 0 <= i < |f| => StandardToken(f[i])) }

  /** A left-to-right match: '+' takes any run without '/', '#' takes all that is left. */
  predicate Accepts(ts: seq<Token>, t: string)
    decreases |ts| + |t|
  {
    if ts == [] then t == ""
    else
      match ts[0]
      case Lit(c) => t != "" && t[0] == c && Accepts(ts[1..], t[1..])
      case Any => t != "" && !IsLineTerminator(t[0]) && Accepts(ts[1..], t[1..])
      case Stop => t == "" && Accepts(ts[1..], t)
      case Plus => Accepts(ts[1..], t) || (t != "" && t[0] != '/' && Accepts(ts, t[1..]))
      case Hash => Accepts(ts[1..], "")
  }

  // ---- two rewrites are one translation -------------------------------------------

  function CharText(c: char): string {
    if c == '+' then PLUS_TEXT else if c == '#' then HASH_TEXT else [c]
  }

  function OnePassText(f: string): string {
    if f == "" then "" else CharText(f[0]) + OnePassText(f[1..])
  }

  lemma {:induction false} ReplaceAllConcat(a: string, b: string, c: char, text: string)
    ensures ReplaceAll(a + b, c, text) == ReplaceAll(a, c, text) + ReplaceAll(b, c, text)
  {
    if a == "" {
      assert a + b == b;
    } else {
      assert (a + b)[1..] == a[1..] + b;
      ReplaceAllConcat(a[1..], b, c, text);
    }
  }

  lemma {:induction false} ReplaceAllAbsent(s: string, c: char, text: string)
    requires c !in s
    ensures ReplaceAll(s, c, text) == s
  {
    if s == "" {
    } else {
      ReplaceAllAbsent(s[1..], c, text);
    }
  }

  /** The second rewrite leaves alone what the first one inserted. */
  lemma {:induction false} PatternTextIsOnePass(f: string)
    ensures PatternText(f) == OnePassText(f)
  {
    if f == "" {
    } else {
      var head := if f[0] == '+' then PLUS_TEXT else [f[0]];
      ReplaceAllConcat(head, ReplaceAll(f[1..], '+', PLUS_TEXT), '#', HASH_TEXT);
      PatternTextIsOnePass(f[1..]);
      if f[0] == '+' {
        ReplaceAllAbsent(PLUS_TEXT, '#', HASH_TEXT);
      } else {
        assert ReplaceAll([f[0]], '#', HASH_TEXT) == CharText(f[0]) + ReplaceAll("", '#', HASH_TEXT);
      }
    }
  }

  // ---- the pattern text parses ----------------------------------------------------

  /** What the text of one character parses to, followed by what the rest parses to. */
  function ExprOf(f: string): Expr {
    if f == "" then Empty
    else
      var rest := ExprOf(f[1..]);
      match CodeToken(f[0])
      case Lit(c) => Cat(Chr(c), rest)
      case Any => Cat(AnyChar, rest)
      case Stop => Cat(End, rest)
      case Plus => Cat(SLASH_FREE, rest)
      case Hash => Cat(SLASH_FREE, Cat(SLASH_GROUPS, Cat(End, rest)))
  }

  lemma ParseSlashFree(s: string)
    ensures PLUS_TEXT + s != "" && ParseTerm(PLUS_TEXT + s) == Accept(SLASH_FREE, s)
  {
    var text := PLUS_TEXT + s;
    assert text[4..] == "*" + s;
    assert ("*" + s)[1..] == s;
  }

  /** What is inside the group, up to its end. */
  lemma ParseGroupBody(close: string)
    requires close != "" && close[0] == ')'
    ensures ParseSequence("/" + (PLUS_TEXT + close)) == Accept(Cat(Chr('/'), Cat(SLASH_FREE, Empty)), close)
  {
    var text := "/" + (PLUS_TEXT + close);
    assert text[1..] == PLUS_TEXT + close;
    ParseSlashFree(close);
    assert ParseSequence(close) == Accept(Empty, close);
    assert ParseTerm(text) == Accept(Chr('/'), PLUS_TEXT + close);
  }

  lemma ParseGroup(body: string, re: Expr, s: string)
    requires ParseSequence(body) == Accept(re, ")*" + s)
    ensures "(?:" + body != "" && ParseTerm("(?:" + body) == Accept(Star(re), s)
  {
    assert ("(?:" + body)[3..] == body;
    assert (")*" + s)[1..] == "*" + s;
    assert ("*" + s)[1..] == s;
  }

  lemma ParseSlashGroups(s: string)
    ensures "(?:/[^/]*)*" + s != "" && ParseTerm("(?:/[^/]*)*" + s) == Accept(SLASH_GROUPS, s)
  {
    var close := ")*" + s;
    var body := "/" + (PLUS_TEXT + close);
    ParseGroupBody(close);
    ParseGroup(body, Cat(Chr('/'), Cat(SLASH_FREE, Empty)), s);
    assert "(?:/[^/]*)*" + s == "(?:" + body;
  }

  lemma ParseHash(s: string, rest: Expr)
    requires ParseSequence(s) == Accept(rest, "")
    ensures ParseSequence(HASH_TEXT + s) == Accept(Cat(SLASH_FREE, Cat(SLASH_GROUPS, Cat(End, rest))), "")
  {
    var stop := "$" + s;
    assert stop[1..] == s;
    assert ParseSequence(stop) == Accept(Cat(End, rest), "");
    ParseGroupsAndStop(stop, Cat(End, rest));
    HashTextParts(s);
    ParseSlashFree("(?:/[^/]*)*" + stop);
  }

  lemma HashTextParts(s: string)
    ensures HASH_TEXT + s == PLUS_TEXT + ("(?:/[^/]*)*" + ("$" + s))
  {
    assert HASH_TEXT == PLUS_TEXT + "(?:/[^/]*)*" + "$";
  }

  lemma ParseGroupsAndStop(stop: string, rest: Expr)
    requires ParseSequence(stop) == Accept(rest, "")
    ensures ParseSequence("(?:/[^/]*)*" + stop) == Accept(Cat(SLASH_GROUPS, rest), "")
  {
    ParseSlashGroups(stop);
  }

  lemma ParseSingle(c: char, s: string, rest: Expr)
    requires !IsOperator(c) && c != '+' && c != '#'
    requires s != "" ==> s[0] != '*'
    requires ParseSequence(s) == Accept(rest, "")
    ensures ParseSequence([c] + s) ==
            Accept(Cat(if c == '.' then AnyChar else if c == '$' then End else Chr(c), rest), "")
  {
    var text := [c] + s;
    assert text[0] == c && text[1..] == s;
    if c != '$' {
      assert ParseAtom(text) == Accept(if c == '.' then AnyChar else Chr(c), s);
    }
    assert ParseTerm(text) == Accept(if c == '.' then AnyChar else if c == '$' then End else Chr(c), s);
  }

  lemma {:induction false} ParseOnePass(f: string)
    requires InFragment(f)
    ensures OnePassText(f) != "" ==> OnePassText(f)[0] != '*'
    ensures ParseSequence(OnePassText(f)) == Accept(ExprOf(f), "")
  {
    if f == "" {
    } else {
      ParseOnePass(f[1..]);
      var rest := OnePassText(f[1..]);
      assert !IsOperator(f[0]);
      if f[0] == '+' {
        ParseSlashFree(rest);
      } else if f[0] == '#' {
        ParseHash(rest, ExprOf(f[1..]));
      } else {
        ParseSingle(f[0], rest, ExprOf(f[1..]));
      }
    }
  }

  lemma TranslationParses(f: string)
    requires InFragment(f)
    ensures TopicToRegex(f) == Some(ExprOf(f))
  {
    PatternTextIsOnePass(f);
    ParseOnePass(f);
  }

  // ---- what the parsed expression means --------------------------------------------

  lemma TokensTail(f: string)
    requires f != ""
    ensures CodeTokens(f) == [CodeToken(f[0])] + CodeTokens(f[1..])
    ensures StandardTokens(f) == [StandardToken(f[0])] + StandardTokens(f[1..])
    ensures CodeTokens(f)[1..] == CodeTokens(f[1..])
    ensures StandardTokens(f)[1..] == StandardTokens(f[1..])
  {
  }

  lemma StretchStep(t: string, i: nat, k: nat)
    requires i < k <= |t|
    ensures '/' !in t[i..k] <==> t[i] != '/' && '/' !in t[i + 1..k]
  {
    assert t[i..k] == [t[i]] + t[i + 1..k];
  }

  lemma SlashFreeUnfolds(re: Expr, t: string, i: nat)
    requires i <= |t| && Denotes(Cat(SLASH_FREE, re), t, i, |t|)
    ensures Denotes(re, t, i, |t|) || (i < |t| && t[i] != '/' && Denotes(Cat(SLASH_FREE, re), t, i + 1, |t|))
  {
    var k := CatSplit(SLASH_FREE, re, t, i, |t|);
    if i < k {
      SlashFreeMeaning(t, i, k);
      StretchStep(t, i, k);
      SlashFreeMeaning(t, i + 1, k);
    }
  }

  lemma SlashFreeFolds(re: Expr, t: string, i: nat)
    requires i <= |t|
    requires Denotes(re, t, i, |t|) || (i < |t| && t[i] != '/' && Denotes(Cat(SLASH_FREE, re), t, i + 1, |t|))
    ensures Denotes(Cat(SLASH_FREE, re), t, i, |t|)
  {
    if Denotes(re, t, i, |t|) {
      SlashFreeMeaning(t, i, i);
    } else {
      var k := CatSplit(SLASH_FREE, re, t, i + 1, |t|);
      SlashFreeMeaning(t, i + 1, k);
      StretchStep(t, i, k);
      SlashFreeMeaning(t, i, k);
    }
  }

  /** `[^/]*` followed by re, unfolded at the front of the subject. */
  lemma SlashFreeThen(re: Expr, t: string, i: nat)
    requires i <= |t|
    ensures Denotes(Cat(SLASH_FREE, re), t, i, |t|) <==>
            Denotes(re, t, i, |t|) || (i < |t| && t[i] != '/' && Denotes(Cat(SLASH_FREE, re), t, i + 1, |t|))
  {
    if Denotes(Cat(SLASH_FREE, re), t, i, |t|) {
      SlashFreeUnfolds(re, t, i);
    } else if Denotes(re, t, i, |t|) || (i < |t| && t[i] != '/' && Denotes(Cat(SLASH_FREE, re), t, i + 1, |t|)) {
      SlashFreeFolds(re, t, i);
    }
  }

  /** The text of '#' followed by re takes everything and leaves re the empty rest. */
  lemma HashThen(re: Expr, t: string, i: nat)
    requires i <= |t|
    ensures Denotes(Cat(SLASH_FREE, Cat(SLASH_GROUPS, Cat(End, re))), t, i, |t|) <==> Denotes(re, t, |t|, |t|)
  {
    var all := Cat(SLASH_FREE, Cat(SLASH_GROUPS, Cat(End, re)));
    if Denotes(all, t, i, |t|) {
      var k := CatSplit(SLASH_FREE, all.right, t, i, |t|);
      var m := CatSplit(SLASH_GROUPS, Cat(End, re), t, k, |t|);
      var n := CatSplit(End, re, t, m, |t|);
    }
    if Denotes(re, t, |t|, |t|) {
      LoopsTakeAll(t, i);
      var k := CatSplit(SLASH_FREE, SLASH_GROUPS, t, i, |t|);
      assert Denotes(End, t, |t|, |t|);
      assert Denotes(Cat(End, re), t, |t|, |t|);
      assert Denotes(Cat(SLASH_GROUPS, Cat(End, re)), t, k, |t|);
    }
  }

  /** The expression of a filter denotes what its tokens accept. */
  lemma {:induction false} ExprMeaning(f: string, t: string, i: nat)
    requires i <= |t|
    ensures Denotes(ExprOf(f), t, i, |t|) <==> Accepts(CodeTokens(f), t[i..])
    decreases |f|, |t| - i
  {
    if f == "" {
    } else {
      TokensTail(f);
      var rest := ExprOf(f[1..]);
      ExprMeaning(f[1..], t, i);
      if i < |t| {
        assert t[i..][1..] == t[i + 1..];
        ExprMeaning(f[1..], t, i + 1);
      }
      match CodeToken(f[0])
      case Plus =>
        SlashFreeThen(rest, t, i);
        if i < |t| {
          ExprMeaning(f, t, i + 1);
        }
      case Hash =>
        HashThen(rest, t, i);
        ExprMeaning(f[1..], t, |t|);
        assert t[|t|..] == "";
      case Stop =>
        assert Denotes(End, t, i, i) <==> i == |t|;
      case _ =>
        var head := ExprOf(f).left;
        assert forall k: nat | i <= k <= |t| && k != i + 1 :: !Denotes(head, t, i, k);
        assert i < |t| ==> (Denotes(ExprOf(f), t, i, |t|) <==>
                            Denotes(head, t, i, i + 1) && Denotes(rest, t, i + 1, |t|));
    }
  }

  /** The translation is right: for every filter in the fragment, well formed or not. */
  lemma CodeMatchesIsAccepts(f: string, t: string)
    requires InFragment(f)
    ensures CodeMatches(f, t) <==> Accepts(CodeTokens(f), t)
  {
    TranslationParses(f);
    ExprMeaning(f, t, 0);
    assert t[0..] == t;
  }

  // ---- filters without wildcards ---------------------------------------------------------

  /** What a topic has to be for a filter without wildcards. */
  predicate Spells(f: string, t: string) {
    |t| == |f| && forall i | 0 <= i < |f| :: t[i] == f[i] || (f[i] == '.' && t[i] != '\n' && t[i] != '\r')
  }

  lemma SpellsTail(f: string, t: string)
    requires f != "" && t != ""
    ensures Spells(f, t) <==>
            (t[0] == f[0] || (f[0] == '.' && t[0] != '\n' && t[0] != '\r')) && Spells(f[1..], t[1..])
  {
    assert forall i | 0 <= i < |f| - 1 :: f[1..][i] == f[i + 1];
    assert forall i | 0 <= i < |t| - 1 :: t[1..][i] == t[i + 1];
    if Spells(f[1..], t[1..]) {
      assert forall i | 0 < i < |f| :: f[i] == f[1..][i - 1];
      assert forall i | 0 < i < |t| :: t[i] == t[1..][i - 1];
    }
  }

  lemma {:induction false} LiteralTokens(f: string, t: string)
    requires forall c | c in f :: c !in "#+$"
    ensures Accepts(CodeTokens(f), t) <==> Spells(f, t)
  {
    if f == "" {
    } else {
      TokensTail(f);
      assert f[0] in f && (forall c | c in f[1..] :: c in f);
      if t != "" {
        LiteralTokens(f[1..], t[1..]);
        SpellsTail(f, t);
      }
    }
  }

  /** Every character that is not listed here stands for itself, save that '.' takes any character of the line. */
  lemma LiteralFilter(f: string, t: string)
    requires forall c | c in f :: c !in "\\^*?|()[]{}#+$"
    ensures CodeMatches(f, t) <==>
            |t| == |f| && forall i | 0 <= i < |f| :: t[i] == f[i] || (f[i] == '.' && t[i] != '\n' && t[i] != '\r')
  {
    forall c | c in f
      ensures !IsOperator(c) && c !in "#+$"
    {
      assert c !in "\\^*?|()[]{}#+$";
    }
    CodeMatchesIsAccepts(f, t);
    LiteralTokens(f, t);
  }

  // ---- matching by levels ----------------------------------------------------------

  /** The levels of a topic or filter: the pieces between the '/'s. */
  function Levels(s: string): (levels: seq<string>)
    ensures levels != []
  {
    if s == "" then [""]
    else
      var rest := Levels(s[1..]);
      if s[0] == '/' then [""] + rest else [[s[0]] + rest[0]] + rest[1..]
  }

  /** The pieces put together again. */
  function Join(levels: seq<string>): string
    requires levels != []
  {
    if |levels| == 1 then levels[0] else levels[0] + "/" + Join(levels[1..])
  }

  /** No piece holds a '/', and together they are the text. */
  lemma {:induction false} LevelsJoin(s: string)
    ensures Join(Levels(s)) == s && forall level | level in Levels(s) :: '/' !in level
  {
    if s == "" {
    } else {
      var rest, all := Levels(s[1..]), Levels(s);
      LevelsJoin(s[1..]);
      assert s == [s[0]] + s[1..];
      if s[0] == '/' {
        assert all[1..] == rest;
      } else {
        assert all[1..] == rest[1..] && all[0] == [s[0]] + rest[0];
        if |rest| > 1 {
          assert Join(rest) == rest[0] + "/" + Join(rest[1..]);
          assert [s[0]] + (rest[0] + "/" + Join(rest[1..])) == all[0] + "/" + Join(all[1..]);
        }
      }
    }
  }

  /** Level by level: a literal equals itself, '+' takes one level, '#' one or more trailing levels. */
  predicate LevelMatch(filter: seq<string>, topic: seq<string>) {
    if filter == ["#"] then topic != []
    else if filter == [] || topic == [] then filter == [] && topic == []
    else (filter[0] == "+" || filter[0] == topic[0]) && LevelMatch(filter[1..], topic[1..])
  }

  /** Section 4.7.1.2 lets '#' also stand for no level at all. */
  predicate StandardMatch(filter: seq<string>, topic: seq<string>) {
    if filter == ["#"] then true
    else if filter == [] || topic == [] then filter == [] && topic == []
    else (filter[0] == "+" || filter[0] == topic[0]) && StandardMatch(filter[1..], topic[1..])
  }

  predicate PlainLevel(level: string) { '+' !in level && '#' !in level }

  /** '+' fills its level; '#' is alone in the last one. */
  predicate WellFormedLevels(levels: seq<string>) {
    forall i | 0 <= i < |levels| ::
      levels[i] == "+" || PlainLevel(levels[i]) || (levels[i] == "#" && i == |levels| - 1)
  }

  predicate WellFormed(filter: string) { WellFormedLevels(Levels(filter)) }

  /** Dropping a literal character keeps a filter well formed. */
  lemma WellFormedTail(f: string)
    requires f != "" && WellFormed(f) && f[0] != '#' && f[0] != '+'
    ensures WellFormed(f[1..])
  {
    var rest := Levels(f[1..]);
    if f[0] == '/' {
      assert Levels(f)[1..] == rest;
      forall i | 0 <= i < |rest|
        ensures rest[i] == "+" || PlainLevel(rest[i]) || (rest[i] == "#" && i == |rest| - 1)
      {
        assert rest[i] == Levels(f)[i + 1];
      }
    } else {
      assert Levels(f)[0] == [f[0]] + rest[0];
      assert f[0] in Levels(f)[0];
      assert |Levels(f)[0]| == 1 ==> rest[0] == "";
      assert PlainLevel(Levels(f)[0]);
      forall i | 0 <= i < |rest|
        ensures rest[i] == "+" || PlainLevel(rest[i]) || (rest[i] == "#" && i == |rest| - 1)
      {
        if i > 0 {
          assert rest[i] == Levels(f)[i];
        }
      }
    }
  }

  lemma {:induction false} LevelsWithoutSlash(t: string)
    ensures |Levels(t)| == 1 <==> '/' !in t
    ensures |Levels(t)| == 1 ==> Levels(t)[0] == t
  {
    if t == "" {
    } else {
      LevelsWithoutSlash(t[1..]);
      assert t == [t[0]] + t[1..];
    }
  }

  /** A wildcard at the front of a well-formed filter ends its level. */
  lemma WildcardFillsLevel(f: string)
    requires f != "" && WellFormed(f) && (f[0] == '+' || f[0] == '#')
    ensures Levels(f)[0] == [f[0]]
    ensures |f| == 1 || (f[0] == '+' && f[1] == '/')
  {
    assert f[0] in Levels(f)[0];
    var rest := Levels(f[1..]);
    assert Levels(f)[0] == [f[0]] + rest[0];
    assert rest[0] == "";
    if |f| > 1 {
      assert f[1..][0] == f[1];
      if f[0] == '#' {
        assert false;
      }
    }
  }

  lemma WellFormedAfterPlus(f: string)
    requires |f| > 1 && WellFormed(f) && f[0] == '+'
    ensures f[1] == '/' && WellFormed(f[1..])
  {
    WildcardFillsLevel(f);
    var rest := Levels(f[1..]);
    forall i | 0 <= i < |rest|
      ensures rest[i] == "+" || PlainLevel(rest[i]) || (rest[i] == "#" && i == |rest| - 1)
    {
      if i > 0 {
        assert rest[i] == Levels(f)[i];
      }
    }
  }

  // ---- well-formedness on the text -------------------------------------------------------

  /** Each '+' and '#' begins at a '/' or the front; a '+' also ends at one or the back, and a '#' is last. */
  predicate StandsAlone(f: string, i: nat)
    requires i < |f|
  {
    && (f[i] == '+' || f[i] == '#' ==> i == 0 || f[i - 1] == '/')
    && (f[i] == '+' ==> i == |f| - 1 || f[i + 1] == '/')
    && (f[i] == '#' ==> i == |f| - 1)
  }

  predicate AllStandAlone(f: string) { forall i | 0 <= i < |f| :: StandsAlone(f, i) }

  predicate BeginsWithWildcard(f: string) { f != "" && (f[0] == '+' || f[0] == '#') }

  lemma StandAloneTail(f: string)
    requires f != ""
    ensures AllStandAlone(f) <==>
            AllStandAlone(f[1..]) && StandsAlone(f, 0) && (f[0] != '/' ==> !BeginsWithWildcard(f[1..]))
  {
    var g := f[1..];
    forall i | 0 <= i < |g|
      ensures StandsAlone(f, i + 1) <==>
              StandsAlone(g, i) && (i == 0 && f[0] != '/' ==> g[0] != '+' && g[0] != '#')
    {
      assert g[i] == f[i + 1];
    }
    if AllStandAlone(g) && StandsAlone(f, 0) && (f[0] != '/' ==> !BeginsWithWildcard(g)) {
      forall i | 0 <= i < |f|
        ensures StandsAlone(f, i)
      {
        assert i > 0 ==> StandsAlone(g, i - 1);
      }
    }
    if AllStandAlone(f) {
      forall i | 0 <= i < |g|
        ensures StandsAlone(g, i)
      {
        assert StandsAlone(f, i + 1);
      }
      assert g != "" ==> StandsAlone(f, 1);
    }
  }

  /** The level at i, among those that begin there. */
  predicate GoodLevel(levels: seq<string>, i: nat)
    requires i < |levels|
  {
    levels[i] == "+" || PlainLevel(levels[i]) || (levels[i] == "#" && i == |levels| - 1)
  }

  predicate GoodRest(levels: seq<string>) { forall i | 1 <= i < |levels| :: GoodLevel(levels, i) }

  lemma GoodLevels(levels: seq<string>)
    requires levels != []
    ensures WellFormedLevels(levels) <==> GoodLevel(levels, 0) && GoodRest(levels)
  {
    if GoodLevel(levels, 0) && GoodRest(levels) {
      forall i | 0 <= i < |levels|
        ensures levels[i] == "+" || PlainLevel(levels[i]) || (levels[i] == "#" && i == |levels| - 1)
      {
        assert i > 0 ==> GoodLevel(levels, i);
      }
    }
  }

  /** How well-formedness follows the text. */
  lemma WellFormedFirst(f: string)
    requires f != ""
    ensures WellFormed(f) <==>
            WellFormed(f[1..]) && StandsAlone(f, 0) && (f[0] != '/' ==> !BeginsWithWildcard(f[1..]))
  {
    var rest, all := Levels(f[1..]), Levels(f);
    GoodLevels(rest);
    GoodLevels(all);
    assert f[0] != '/' ==> all[0] == [f[0]] + rest[0];
    FirstLevel(f[1..]);
    if f[0] == '/' {
      SlashShiftsLevels(rest);
    } else {
      assert GoodRest(all) <==> GoodRest(rest) by {
        assert forall i | 1 <= i < |all| :: all[i] == rest[i];
        assert forall i | 1 <= i < |all| :: GoodLevel(all, i) <==> GoodLevel(rest, i);
      }
      FirstLevelGrows(f[0], rest[0]);
    }
  }

  lemma SlashShiftsLevels(rest: seq<string>)
    requires rest != []
    ensures WellFormedLevels([""] + rest) <==> WellFormedLevels(rest)
  {
    var all := [""] + rest;
    assert forall i | 0 <= i < |rest| :: all[i + 1] == rest[i];
    if WellFormedLevels(rest) {
      forall i | 0 <= i < |all|
        ensures GoodLevel(all, i)
      {
        assert i > 0 ==> GoodLevel(rest, i - 1);
      }
      assert forall i | 0 <= i < |all| :: GoodLevel(all, i);
    }
    if WellFormedLevels(all) {
      forall i | 0 <= i < |rest|
        ensures GoodLevel(rest, i)
      {
        assert GoodLevel(all, i + 1);
      }
    }
  }

  lemma FirstLevel(g: string)
    ensures Levels(g)[0] == "" <==> g == "" || g[0] == '/'
    ensures Levels(g)[0] != "" ==> Levels(g)[0][0] == g[0]
    ensures |Levels(g)| == 1 && Levels(g)[0] == "" <==> g == ""
  {
  }

  /** A character in front of a level. */
  lemma FirstLevelGrows(c: char, level: string)
    requires c != '/'
    ensures PlainLevel([c] + level) <==> c != '+' && c != '#' && PlainLevel(level)
    ensures [c] + level == "+" <==> c == '+' && level == ""
    ensures [c] + level == "#" <==> c == '#' && level == ""
    ensures level != "" && (level[0] == '+' || level[0] == '#') ==> !PlainLevel(level)
    ensures level == "+" || level == "#" ==> level[0] == '+' || level[0] == '#'
  {
    assert c in [c] + level;
    assert forall d | d in level :: d in [c] + level;
  }

  /** A filter is well formed, level by level, exactly when every wildcard stands alone in the text. */
  lemma {:induction false} WellFormedIff(f: string)
    ensures WellFormed(f) <==> AllStandAlone(f)
  {
    if f == "" {
    } else {
      WellFormedIff(f[1..]);
      WellFormedFirst(f);
      StandAloneTail(f);
    }
  }

  /** The character-by-character reading of a well-formed filter is the level-by-level one. */
  lemma {:induction false} AcceptsIsLevelMatch(f: string, t: string)
    requires WellFormed(f)
    ensures Accepts(StandardTokens(f), t) <==> LevelMatch(Levels(f), Levels(t))
    decreases |f| + |t|
  {
    if f == "" {
      assert Levels(f)[1..] == [] && Levels(f)[0] != "+";
      if t != "" {
        LevelsWithoutSlash(t);
      }
    } else {
      TokensTail(f);
      var fs, ts := Levels(f), Levels(t);
      if f[0] == '#' || f[0] == '+' {
        WildcardFillsLevel(f);
      }
      if f[0] == '#' {
        LevelsWithoutSlash(f);
        assert fs == ["#"];
      } else if f[0] == '+' {
        PlusStep(f, t);
      } else {
        WellFormedTail(f);
        LiteralStep(f, t);
      }
    }
  }

  lemma {:induction false} PlusStep(f: string, t: string)
    requires f != "" && WellFormed(f) && f[0] == '+'
    ensures Accepts(StandardTokens(f), t) <==> LevelMatch(Levels(f), Levels(t))
    decreases |f| + |t|, 0
  {
    TokensTail(f);
    WildcardFillsLevel(f);
    var fs, ts := Levels(f), Levels(t);
    assert fs == ["+"] + fs[1..];
    if t != "" && t[0] != '/' {
      // The level goes on: '+' does not care what it holds.
      var ts' := Levels(t[1..]);
      assert ts[1..] == ts'[1..];
      assert LevelMatch(fs, ts) <==> LevelMatch(fs, ts');
      PlusStep(f, t[1..]);
      if |f| > 1 {
        TokensTail(f[1..]);
        assert !Accepts(StandardTokens(f[1..]), t);
      } else {
        assert StandardTokens(f[1..]) == [];
      }
    } else {
      // The level is empty or has ended.
      assert ts[0] == "";
      if |f| > 1 {
        var rest := Levels(f[1..]);
        assert rest == [""] + Levels(f[1..][1..]);
        assert fs[1..] == rest[1..];
        assert fs == ["+"] + rest[1..];
        assert LevelMatch(fs, ts) <==> LevelMatch(fs[1..], ts[1..]);
        assert LevelMatch(rest, ts) <==> LevelMatch(rest[1..], ts[1..]);
        WellFormedAfterPlus(f);
        AcceptsIsLevelMatch(f[1..], t);
      } else {
        assert f == "+" && fs[1..] == [];
        assert StandardTokens(f[1..]) == [];
        LevelsWithoutSlash(t);
      }
    }
  }

  lemma {:induction false} LiteralStep(f: string, t: string)
    requires f != "" && WellFormed(f) && f[0] != '+' && f[0] != '#' && WellFormed(f[1..])
    ensures Accepts(StandardTokens(f), t) <==> LevelMatch(Levels(f), Levels(t))
    decreases |f| + |t|, 0
  {
    TokensTail(f);
    var fs, ts := Levels(f), Levels(t);
    var fs' := Levels(f[1..]);
    if f[0] == '/' {
      assert fs[1..] == fs';
      if t == "" {
        assert ts[1..] == [];
      } else {
        var ts' := Levels(t[1..]);
        assert t[0] == '/' ==> ts[1..] == ts';
        AcceptsIsLevelMatch(f[1..], t[1..]);
      }
    } else {
      assert fs[0] == [f[0]] + fs'[0] && fs[1..] == fs'[1..];
      assert fs[0][0] == f[0];
      assert PlainLevel(fs[0]);
      if t != "" {
        var ts' := Levels(t[1..]);
        AcceptsIsLevelMatch(f[1..], t[1..]);
        if t[0] == f[0] {
          assert ts[0] == [f[0]] + ts'[0] && ts[1..] == ts'[1..];
          assert fs[0][1..] == fs'[0] && ts[0][1..] == ts'[0];
          assert f[0] in fs[0];
          forall c | c in fs'[0] ensures c in fs[0] {}
          assert PlainLevel(fs'[0]);
        }
      }
    }
  }

  // ---- main results ----------------------------------------------------------------

  /** The only filters in the fragment that the translation reads differently from the standard. */
  predicate HasRegexMeaning(filter: string) { '.' in filter || '$' in filter }

  lemma TokensAgree(f: string)
    requires !HasRegexMeaning(f)
    ensures CodeTokens(f) == StandardTokens(f)
  {
    assert forall i | 0 <= i < |f| :: f[i] in f;
  }

  /** Translating and matching the regular expression is matching level by level. */
  lemma TranslationIsLevelMatch(f: string, t: string)
    requires WellFormed(f) && InFragment(f) && !HasRegexMeaning(f)
    ensures CodeMatches(f, t) <==> LevelMatch(Levels(f), Levels(t))
  {
    CodeMatchesIsAccepts(f, t);
    TokensAgree(f);
    AcceptsIsLevelMatch(f, t);
  }

  /** The filter with its wildcards taken out, and every '.' turned into dot. */
  function Skeleton(f: string, dot: char): string {
    if f == "" then ""
    else (if f[0] == '+' || f[0] == '#' then "" else if f[0] == '.' then [dot] else [f[0]]) + Skeleton(f[1..], dot)
  }

  /** A wildcard of a well-formed filter takes nothing of the skeleton: it meets a '/' or the end. */
  lemma SkeletonStep(f: string, dot: char)
    requires f != "" && WellFormed(f)
    ensures f[0] == '#' ==> |f| == 1
    ensures f[0] == '+' && |f| > 1 ==> WellFormed(f[1..]) && Skeleton(f, dot) != "" && Skeleton(f, dot)[0] == '/'
    ensures f[0] == '+' ==> Skeleton(f, dot) == Skeleton(f[1..], dot)
    ensures f[0] != '+' && f[0] != '#' ==> WellFormed(f[1..])
    ensures f[0] != '+' && f[0] != '#' ==> Skeleton(f, dot)[1..] == Skeleton(f[1..], dot)
    ensures Skeleton(f, dot) == "" ==> |f| == 1
  {
    if f[0] == '+' || f[0] == '#' {
      WildcardFillsLevel(f);
      if |f| > 1 {
        WellFormedAfterPlus(f);
        assert f[1..][0] == '/';
      }
    } else {
      WellFormedTail(f);
    }
  }

  /** With '.' kept, the skeleton is a topic the standard accepts and a filter with '$' does not match. */
  lemma {:induction false} StopRejectsSkeleton(f: string)
    requires WellFormed(f)
    ensures Accepts(StandardTokens(f), Skeleton(f, '.'))
    ensures '$' in f ==> !Accepts(CodeTokens(f), Skeleton(f, '.'))
  {
    if f == "" {
    } else {
      TokensTail(f);
      SkeletonStep(f, '.');
      assert f == [f[0]] + f[1..];
      if |f| == 1 {
        assert StandardTokens(f[1..]) == [] && f[1..] == "";
      } else {
        StopRejectsSkeleton(f[1..]);
      }
    }
  }

  /** With '.' disguised, the skeleton is a topic the code accepts although the standard does not. */
  lemma {:induction false} DotAcceptsDisguise(f: string)
    requires WellFormed(f) && '$' !in f
    ensures Accepts(CodeTokens(f), Skeleton(f, 'x'))
    ensures '.' in f ==> !Accepts(StandardTokens(f), Skeleton(f, 'x'))
  {
    if f == "" {
    } else {
      TokensTail(f);
      SkeletonStep(f, 'x');
      assert f == [f[0]] + f[1..];
      if |f| == 1 {
        assert CodeTokens(f[1..]) == [] && f[1..] == "";
      } else {
        DotAcceptsDisguise(f[1..]);
      }
    }
  }

  /** Exactly when the code matches as the standard's levels do, on every topic. */
  lemma {:induction false} TranslationIsLevelMatchIff(f: string)
    requires WellFormed(f) && InFragment(f)
    ensures (forall t: string :: CodeMatches(f, t) <==> LevelMatch(Levels(f), Levels(t))) <==> !HasRegexMeaning(f)
  {
    if !HasRegexMeaning(f) {
      forall t: string
        ensures CodeMatches(f, t) <==> LevelMatch(Levels(f), Levels(t))
      {
        TranslationIsLevelMatch(f, t);
      }
    } else {
      var t := Skeleton(f, if '$' in f then '.' else 'x');
      CodeMatchesIsAccepts(f, t);
      AcceptsIsLevelMatch(f, t);
      StopRejectsSkeleton(f);
      if '$' !in f {
        DotAcceptsDisguise(f);
      }
      assert CodeMatches(f, t) != LevelMatch(Levels(f), Levels(t));
    }
  }

  /** Level match and standard match differ by the parent level only. */
  lemma {:induction false} ParentLevel(fs: seq<string>, ts: seq<string>)
    requires WellFormedLevels(fs) && fs != []
    ensures StandardMatch(fs, ts) <==>
            LevelMatch(fs, ts) || (fs[|fs| - 1] == "#" && LevelMatch(fs[..|fs| - 1], ts))
  {
    var n := |fs| - 1;
    if n == 0 {
      assert fs == [fs[0]] && fs[..0] == [] && fs[1..] == [];
    } else {
      assert fs[0] == "+" || PlainLevel(fs[0]);
      assert '#' in "#";
      if ts != [] {
        assert WellFormedLevels(fs[1..]) by {
          assert forall i | 0 <= i < n :: fs[1..][i] == fs[i + 1];
        }
        ParentLevel(fs[1..], ts[1..]);
        assert fs[..n][1..] == fs[1..][..n - 1];
        assert fs[..n][0] == fs[0];
        assert fs[..n] != ["#"] && fs[1..] != [];
        assert fs[n] == fs[1..][n - 1];
      }
    }
  }

  lemma {:induction false} LevelsOfParent(p: string)
    ensures Levels(p + "/#") == Levels(p) + ["#"]
  {
    if p == "" {
      assert p + "/#" == "/#" && "/#"[1..] == "#";
      HashAlone();
    } else {
      LevelsOfParent(p[1..]);
      assert (p + "/#")[1..] == p[1..] + "/#";
    }
  }

  predicate EndsInHashLevel(f: string) { |f| >= 2 && f[|f| - 2..] == "/#" }

  /** The levels of a filter that ends in `/#`, and of what is before it. */
  lemma HashLevelLast(f: string)
    requires WellFormed(f) && EndsInHashLevel(f)
    ensures var p, n := f[..|f| - 2], |Levels(f)| - 1;
            n >= 1 && Levels(f)[n] == "#" && Levels(f)[..n] == Levels(p) && WellFormed(p)
  {
    var p := f[..|f| - 2];
    assert f == p + "/#";
    LevelsOfParent(p);
    assert '#' in "#";
    assert WellFormed(p) by {
      assert forall i | 0 <= i < |Levels(p)| :: Levels(p)[i] == Levels(f)[i];
    }
  }

  /** What `p/#` says about p. */
  lemma ParentFilter(f: string)
    requires WellFormed(f) && InFragment(f) && !HasRegexMeaning(f) && EndsInHashLevel(f)
    ensures var p, n := f[..|f| - 2], |Levels(f)| - 1;
            && WellFormed(p) && InFragment(p) && !HasRegexMeaning(p)
            && Levels(f)[n] == "#" && Levels(f)[..n] == Levels(p)
  {
    HashLevelLast(f);
  }

  /** The code against section 4.7.1: nothing too much, and too little only at the parent level of `p/#`. */
  lemma {:induction false} CodeAgainstStandard(f: string, t: string)
    requires WellFormed(f) && InFragment(f) && !HasRegexMeaning(f)
    ensures StandardMatch(Levels(f), Levels(t)) <==>
            CodeMatches(f, t) || (EndsInHashLevel(f) && CodeMatches(f[..|f| - 2], t))
  {
    ParentLevel(Levels(f), Levels(t));
    TranslationIsLevelMatch(f, t);
    if EndsInHashLevel(f) {
      ParentFilter(f);
      TranslationIsLevelMatch(f[..|f| - 2], t);
    } else if Levels(f)[|Levels(f)| - 1] == "#" {
      LastLevelIsHash(f);
      HashAlone();
      assert Levels(f)[..0] == [];
    }
  }

  // ---- on which filters the code is the standard's ------------------------------------------

  /** The skeleton keeps the '/'s. */
  lemma {:induction false} SkeletonKeepsLevels(f: string, dot: char)
    requires dot != '/'
    ensures |Levels(Skeleton(f, dot))| == |Levels(f)|
  {
    if f == "" {
    } else {
      var rest := Skeleton(f[1..], dot);
      SkeletonKeepsLevels(f[1..], dot);
      if f[0] == '+' || f[0] == '#' {
        assert Skeleton(f, dot) == rest;
      } else {
        assert Skeleton(f, dot)[1..] == rest;
      }
    }
  }

  /** Without '#' a filter matches topics of its own number of levels only, and with '#' of that many or more. */
  lemma {:induction false} LevelMatchCounts(fs: seq<string>, ts: seq<string>)
    requires WellFormedLevels(fs) && LevelMatch(fs, ts)
    ensures |ts| >= |fs|
    ensures fs == [] || fs[|fs| - 1] != "#" ==> |ts| == |fs|
  {
    if fs == [] || ts == [] || fs == ["#"] {
    } else {
      assert WellFormedLevels(fs[1..]) by {
        assert forall i | 0 <= i < |fs| - 1 :: fs[1..][i] == fs[i + 1];
      }
      LevelMatchCounts(fs[1..], ts[1..]);
    }
  }

  /** A topic with one level for each level of fs: what fs and the standard say about it, or about one level less. */
  lemma ParentLevelsDiffer(fs: seq<string>, ts: seq<string>)
    requires WellFormedLevels(fs) && |fs| >= 2 && fs[|fs| - 1] == "#"
    ensures |ts| == |fs| ==> !LevelMatch(fs[..|fs| - 1], ts)
    ensures |ts| == |fs| - 1 ==> !LevelMatch(fs, ts)
    ensures |ts| == |fs| ==> (StandardMatch(fs, ts) <==> LevelMatch(fs, ts))
  {
    var n := |fs| - 1;
    assert '#' in "#";
    assert WellFormedLevels(fs[..n]) && fs[..n][n - 1] != "#";
    if LevelMatch(fs[..n], ts) {
      LevelMatchCounts(fs[..n], ts);
    }
    if LevelMatch(fs, ts) {
      LevelMatchCounts(fs, ts);
    }
    ParentLevel(fs, ts);
  }

  /** The parent level of `p/#`: a topic that the standard accepts and the code does not. */
  lemma ParentTopicIsMissed(f: string)
    requires WellFormed(f) && InFragment(f) && !HasRegexMeaning(f) && EndsInHashLevel(f)
    ensures var t := Skeleton(f[..|f| - 2], '.');
            StandardMatch(Levels(f), Levels(t)) && !CodeMatches(f, t)
  {
    var p := f[..|f| - 2];
    HashLevelLast(f);
    SkeletonMatches(p);
    ParentLevel(Levels(f), Levels(Skeleton(p, '.')));
    ParentLevelsDiffer(Levels(f), Levels(Skeleton(p, '.')));
    TranslationIsLevelMatch(f, Skeleton(p, '.'));
  }

  /** The levels of a filter match those of its skeleton, one for one. */
  lemma SkeletonMatches(p: string)
    requires WellFormed(p)
    ensures LevelMatch(Levels(p), Levels(Skeleton(p, '.'))) && |Levels(Skeleton(p, '.'))| == |Levels(p)|
  {
    StopRejectsSkeleton(p);
    AcceptsIsLevelMatch(p, Skeleton(p, '.'));
    SkeletonKeepsLevels(p, '.');
  }

  /** On the skeleton of the whole filter the parent level plays no part. */
  lemma SkeletonHasNoParentMatch(f: string, dot: char)
    requires WellFormed(f) && dot != '/'
    ensures StandardMatch(Levels(f), Levels(Skeleton(f, dot))) <==> LevelMatch(Levels(f), Levels(Skeleton(f, dot)))
  {
    var fs, ts := Levels(f), Levels(Skeleton(f, dot));
    SkeletonKeepsLevels(f, dot);
    ParentLevel(fs, ts);
    if fs[|fs| - 1] == "#" && |fs| >= 2 {
      ParentLevelsDiffer(fs, ts);
    }
  }

  /** A '.' or '$' is read differently by the standard too. */
  lemma RegexMeaningIsMissed(f: string)
    requires WellFormed(f) && InFragment(f) && HasRegexMeaning(f)
    ensures var t := Skeleton(f, if '$' in f then '.' else 'x');
            CodeMatches(f, t) != StandardMatch(Levels(f), Levels(t))
  {
    var dot := if '$' in f then '.' else 'x';
    var t := Skeleton(f, dot);
    CodeMatchesIsAccepts(f, t);
    AcceptsIsLevelMatch(f, t);
    StopRejectsSkeleton(f);
    if '$' !in f {
      DotAcceptsDisguise(f);
    }
    SkeletonHasNoParentMatch(f, dot);
  }

  /** Exactly when the code matches as section 4.7.1 demands, on every topic: a test on the filter alone. */
  lemma {:induction false} CodeIsStandardIff(f: string)
    requires WellFormed(f) && InFragment(f)
    ensures (forall t: string :: CodeMatches(f, t) <==> StandardMatch(Levels(f), Levels(t))) <==>
            !HasRegexMeaning(f) && !EndsInHashLevel(f)
  {
    if HasRegexMeaning(f) {
      RegexMeaningIsMissed(f);
    } else if EndsInHashLevel(f) {
      ParentTopicIsMissed(f);
    } else {
      forall t: string
        ensures CodeMatches(f, t) <==> StandardMatch(Levels(f), Levels(t))
      {
        CodeAgainstStandard(f, t);
      }
    }
  }

  lemma HashAlone()
    ensures Levels("#") == ["#"]
  {
    assert "#"[1..] == "";
    LevelsWithoutSlash("#");
    assert |Levels("#")| == 1 && Levels("#") == [Levels("#")[0]];
  }

  lemma LastLevelOfTail(f: string)
    requires f != "" && (f[0] == '/' || |Levels(f[1..])| > 1)
    ensures Levels(f)[|Levels(f)| - 1] == Levels(f[1..])[|Levels(f[1..])| - 1]
  {
  }

  lemma HashTail(f: string)
    requires f != "" && ((f[1..] == "#" && f[0] == '/') || EndsInHashLevel(f[1..]))
    ensures EndsInHashLevel(f)
  {
    if |f| >= 3 {
      assert f[1..][|f| - 3..] == f[|f| - 2..];
    } else {
      assert f == [f[0]] + f[1..];
    }
  }

  lemma OnlyLevel(f: string)
    requires |Levels(f)| == 1
    ensures Levels(f)[0] == f
  {
    LevelsWithoutSlash(f);
  }

  lemma {:induction false} LastLevelIsHash(f: string)
    requires Levels(f)[|Levels(f)| - 1] == "#"
    ensures f == "#" || EndsInHashLevel(f)
  {
    if |Levels(f)| == 1 {
      OnlyLevel(f);
    } else {
      LastLevelOfTail(f);
      LastLevelIsHash(f[1..]);
      HashAlone();
      HashTail(f);
    }
  }
}
