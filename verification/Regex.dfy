/**
 * The fragment of ECMAScript regular expressions that the topic translation produces:
 * literals, '.', `[^/]`, '*', `(?:...)` and '$'. Pattern texts are parsed, and a parsed
 * expression is given its meaning on a stretch of the subject string, so that '$' can
 * see where the subject ends.
 */
module Regex {
  import opened Results

  datatype Expr =
    | Empty
    | Chr(c: char)
    | AnyChar
    | NotSlash
    | End
    | Cat(left: Expr, right: Expr)
    | Star(body: Expr)

  /** Characters whose meaning in a pattern lies outside the fragment. */
  predicate IsOperator(c: char) {
    c == '\\' || c == '^' || c == '*' || c == '?' || c == '|' ||
    c == '(' || c == ')' || c == '[' || c == ']' || c == '{' || c == '}'
  }

  /** '.' matches everything but the line terminators. */
  predicate IsLineTerminator(c: char) { c == '\n' || c == '\r' }

  // ---- parsing ----------------------------------------------------------------

  datatype Parsed = Reject | Accept(re: Expr, rest: string)

  /** A sequence of terms, up to the end of the text or an unmatched ')'. */
  function ParseSequence(s: string): (p: Parsed)
    ensures p.Accept? ==> |p.rest| <= |s|
    decreases |s|, 2
  {
    if s == "" || s[0] == ')' then Accept(Empty, s)
    else
      match ParseTerm(s)
      case Reject => Reject
      case Accept(head, rest) =>
        match ParseSequence(rest)
        case Reject => Reject
        case Accept(tail, rest') => Accept(Cat(head, tail), rest')
  }

  /** An assertion, or an atom with an optional '*'. */
  function ParseTerm(s: string): (p: Parsed)
    requires s != ""
    ensures p.Accept? ==> |p.rest| < |s|
    decreases |s|, 1
  {
    if s[0] == '$' then Accept(End, s[1..])
    else
      match ParseAtom(s)
      case Reject => Reject
      case Accept(atom, rest) =>
        if rest != "" && rest[0] == '*' then Accept(Star(atom), rest[1..]) else Accept(atom, rest)
  }

  function ParseAtom(s: string): (p: Parsed)
    requires s != ""
    ensures p.Accept? ==> |p.rest| < |s|
    decreases |s|, 0
  {
    if s[0] == '[' then
      if |s| >= 4 && s[1] == '^' && s[2] == '/' && s[3] == ']' then Accept(NotSlash, s[4..]) else Reject
    else if s[0] == '(' then
      if |s| >= 3 && s[1] == '?' && s[2] == ':' then
        match ParseSequence(s[3..])
        case Reject => Reject
        case Accept(group, rest) =>
          if rest != "" && rest[0] == ')' then Accept(group, rest[1..]) else Reject
      else Reject
    else if IsOperator(s[0]) then Reject
    else if s[0] == '.' then Accept(AnyChar, s[1..])
    else Accept(Chr(s[0]), s[1..])
  }

  /** Construction of a regular expression from its text; None stands for a text outside the fragment. */
  function Parse(s: string): Option<Expr> {
    match ParseSequence(s)
    case Accept(re, rest) => if rest == "" then Some(re) else None
    case Reject => None
  }

  // ---- meaning ----------------------------------------------------------------

  /** re matches exactly t[i..j], looked at inside t. */
  predicate Denotes(re: Expr, t: string, i: nat, j: nat)
    requires i <= j <= |t|
    decreases re, j - i
  {
    match re
    case Empty => i == j
    case Chr(c) => j == i + 1 && t[i] == c
    case AnyChar => j == i + 1 && !IsLineTerminator(t[i])
    case NotSlash => j == i + 1 && t[i] != '/'
    case End => i == j == |t|
    case Cat(left, right) => exists k: nat | i <= k <= j :: Denotes(left, t, i, k) && Denotes(right, t, k, j)
    case Star(body) => i == j || exists k: nat | i < k <= j :: Denotes(body, t, i, k) && Denotes(re, t, k, j)
  }

  /** A match of the whole subject. */
  predicate FullMatch(re: Expr, t: string) { Denotes(re, t, 0, |t|) }

  lemma CatSplit(left: Expr, right: Expr, t: string, i: nat, j: nat) returns (k: nat)
    requires i <= j <= |t| && Denotes(Cat(left, right), t, i, j)
    ensures i <= k <= j && Denotes(left, t, i, k) && Denotes(right, t, k, j)
  {
    k :| i <= k <= j && Denotes(left, t, i, k) && Denotes(right, t, k, j);
  }

  // ---- the two loops the translation uses ---------------------------------------

  const SLASH_FREE := Star(NotSlash)
  const SLASH_GROUPS := Star(Cat(Chr('/'), Cat(SLASH_FREE, Empty)))

  /** `[^/]*` takes exactly the stretches without '/'. */
  lemma {:induction false} SlashFreeMeaning(t: string, i: nat, j: nat)
    requires i <= j <= |t|
    ensures Denotes(SLASH_FREE, t, i, j) <==> '/' !in t[i..j]
    decreases j - i
  {
    if i < j {
      SlashFreeMeaning(t, i + 1, j);
      assert t[i..j] == [t[i]] + t[i + 1..j];
      assert Denotes(NotSlash, t, i, i + 1) <==> t[i] != '/';
      assert forall k: nat | i < k <= j && k != i + 1 :: !Denotes(NotSlash, t, i, k);
    }
  }

  /** `(?:/[^/]*)*` takes every stretch that starts with '/'. */
  lemma {:induction false} SlashGroupsTakeAll(t: string, i: nat)
    requires i <= |t|
    requires i < |t| ==> t[i] == '/'
    ensures Denotes(SLASH_GROUPS, t, i, |t|)
    decreases |t| - i
  {
    if i < |t| {
      var k := NextSlash(t, i + 1);
      SlashFreeMeaning(t, i + 1, k);
      assert Denotes(Empty, t, k, k);
      assert Denotes(Cat(SLASH_FREE, Empty), t, i + 1, k);
      assert Denotes(Chr('/'), t, i, i + 1);
      assert Denotes(SLASH_GROUPS.body, t, i, k);
      SlashGroupsTakeAll(t, k);
    }
  }

  /** Where the next '/' is, or the end of the string. */
  function NextSlash(t: string, i: nat): (k: nat)
    requires i <= |t|
    ensures i <= k <= |t| && '/' !in t[i..k]
    ensures k < |t| ==> t[k] == '/'
    decreases |t| - i
  {
    if i == |t| || t[i] == '/' then i
    else
      var k := NextSlash(t, i + 1);
      assert t[i..k] == [t[i]] + t[i + 1..k];
      k
  }

  /** `[^/]*(?:/[^/]*)*` denotes every string. */
  lemma LoopsTakeAll(t: string, i: nat)
    requires i <= |t|
    ensures Denotes(Cat(SLASH_FREE, SLASH_GROUPS), t, i, |t|)
  {
    var k := NextSlash(t, i);
    SlashFreeMeaning(t, i, k);
    SlashGroupsTakeAll(t, k);
  }
}
