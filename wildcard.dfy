/**
 * The wildcard filter of the vote count: a pattern is turned into a regular expression by
 * replacing `?` with `.?` and then `*` with `.*?`, and a string passes when the whole string
 * matches that expression. Only the regular-expression forms this translation produces
 * are modelled: literal characters, `.`, `.?` and `.*?`.
 */
module Wildcard {

  /** Replaces every occurrence of the character `c` in `s` by `r`. */
  function ReplaceChar(s: string, c: char, r: string): string
  {
    if s == [] then [] else (if s[0] == c then r else [s[0]]) + ReplaceChar(s[1..], c, r)
  }

  /**
   * The source's `toWildcard`: `?` becomes `.?`, then `*` becomes `.*?`. The `.*?` that a `*`
   * becomes is not rewritten again, so the translation works character by character.
   */
  function ToWildcard(pattern: string): (regex: string)
    ensures pattern == [] ==> regex == []
    ensures pattern != [] ==>
      regex == (if pattern[0] == '*' then ".*?" else if pattern[0] == '?' then ".?" else [pattern[0]])
               + ToWildcard(pattern[1..])
    decreases |pattern|
  {
    if pattern != [] then
      var head := [pattern[0]];
      assert pattern == head + pattern[1..];
      ReplaceCharAppend(head, pattern[1..], '?', ".?");
      ReplaceCharAppend(ReplaceChar(head, '?', ".?"), ReplaceChar(pattern[1..], '?', ".?"), '*', ".*?");
      assert ReplaceChar(head, '?', ".?") == (if pattern[0] == '?' then ".?" else head);
      ReplaceChar(ReplaceChar(pattern, '?', ".?"), '*', ".*?")
    else
      ReplaceChar(ReplaceChar(pattern, '?', ".?"), '*', ".*?")
  }

  /** One element of the regular-expression subset. */
  datatype Atom =
    | Lit(c: char)  // the character itself
    | AnyOne        // `.`   : one character
    | AnyOptional   // `.?`  : zero or one character
    | AnyRun        // `.*?` : any number of characters (reluctant, which a whole-string match ignores)

  /** Reads a regular expression of the subset into its atoms. */
  function ParseRegex(r: string): seq<Atom>
    decreases |r|
  {
    if r == [] then []
    else if r[0] == '.' && |r| >= 3 && r[1] == '*' && r[2] == '?' then [AnyRun] + ParseRegex(r[3..])
    else if r[0] == '.' && |r| >= 2 && r[1] == '?' then [AnyOptional] + ParseRegex(r[2..])
    else if r[0] == '.' then [AnyOne] + ParseRegex(r[1..])
    else [Lit(r[0])] + ParseRegex(r[1..])
  }

  /** The characters a regular-expression `.` does not match by default. */
  predicate LineTerminator(c: char)
  {
    c == '\n' || c == '\r' || c as int == 0x85 || c as int == 0x2028 || c as int == 0x2029
  }

  predicate NoLineTerminator(s: string)
  {
    forall i :: 0 <= i < |s| ==> !LineTerminator(s[i])
  }

  /** Whole-string matching of `s` against a sequence of atoms. */
  predicate Matches(atoms: seq<Atom>, s: string)
    decreases |s|, |atoms|
  {
    if atoms == [] then s == []
    else
      match atoms[0]
      case Lit(c) => |s| > 0 && s[0] == c && Matches(atoms[1..], s[1..])
      case AnyOne => |s| > 0 && !LineTerminator(s[0]) && Matches(atoms[1..], s[1..])
      case AnyOptional =>
        Matches(atoms[1..], s) || (|s| > 0 && !LineTerminator(s[0]) && Matches(atoms[1..], s[1..]))
      case AnyRun =>
        Matches(atoms[1..], s) || (|s| > 0 && !LineTerminator(s[0]) && Matches(atoms, s[1..]))
  }

  /** The source's `s.matches(toWildcard(pattern))`. */
  predicate WildcardMatches(pattern: string, s: string): (b: bool)
    ensures PlainPattern(pattern) ==> (b <==> Matches(Glob(pattern), s))
  {
    if PlainPattern(pattern) then
      ToWildcardReadsAsGlob(pattern);
      Matches(ParseRegex(ToWildcard(pattern)), s)
    else
      Matches(ParseRegex(ToWildcard(pattern)), s)
  }

  /** The glob reading of a wildcard pattern: `*` any run, `?` at most one character. */
  function Glob(pattern: string): (atoms: seq<Atom>)
    ensures |atoms| == |pattern|
  {
    if pattern == [] then []
    else
      var c := pattern[0];
      [if c == '*' then AnyRun else if c == '?' then AnyOptional else if c == '.' then AnyOne else Lit(c)]
      + Glob(pattern[1..])
  }

  /** Regular-expression metacharacters other than `.`, `*` and `?`, which the translation leaves as they are. */
  predicate OtherMetaCharacter(c: char)
  {
    c in "\\^$|+()[]{}"
  }

  predicate PlainPattern(pattern: string)
  {
    forall i :: 0 <= i < |pattern| ==> !OtherMetaCharacter(pattern[i])
  }

  lemma {:induction false} ReplaceCharAppend(a: string, b: string, c: char, r: string)
    ensures ReplaceChar(a + b, c, r) == ReplaceChar(a, c, r) + ReplaceChar(b, c, r)
  {
    if a == [] {
      assert a + b == b;
    } else {
      assert (a + b)[1..] == a[1..] + b;
      ReplaceCharAppend(a[1..], b, c, r);
    }
  }

  /** A translated pattern never starts with a quantifier. */
  lemma ToWildcardHead(pattern: string)
    ensures ToWildcard(pattern) == [] || ToWildcard(pattern)[0] !in "*?"
  {
  }

  /**
   * For a pattern without other metacharacters, the regular expression the translation
   * produces reads back as the glob: `*` any run, `?` zero or one character, `.` one
   * character, every other character itself.
   */
  lemma {:induction false} ToWildcardReadsAsGlob(pattern: string)
    requires PlainPattern(pattern)
    ensures ParseRegex(ToWildcard(pattern)) == Glob(pattern)
  {
    if pattern != [] {
      var c := pattern[0];
      var rest := ToWildcard(pattern[1..]);
      ToWildcardHead(pattern[1..]);
      ToWildcardReadsAsGlob(pattern[1..]);
      var r := ToWildcard(pattern);
      if c == '*' {
        assert r == ".*?" + rest && r[3..] == rest;
      } else if c == '?' {
        assert r == ".?" + rest && r[2..] == rest;
      } else {
        assert r == [c] + rest && r[1..] == rest;
      }
    }
  }

  /** `.*?` matches exactly the strings without a line terminator. */
  lemma {:induction false} AnyRunMatches(s: string)
    ensures Matches([AnyRun], s) <==> NoLineTerminator(s)
  {
    assert [AnyRun][1..] == [];
    if s != [] {
      AnyRunMatches(s[1..]);
      assert NoLineTerminator(s) <==> !LineTerminator(s[0]) && NoLineTerminator(s[1..]);
    }
  }

  /** `.?` matches exactly the strings of at most one character that is not a line terminator. */
  lemma AnyOptionalMatches(s: string)
    ensures Matches([AnyOptional], s) <==> |s| <= 1 && NoLineTerminator(s)
  {
    assert [AnyOptional][1..] == [];
  }

  /** The pattern `*` keeps every string without a line terminator, and no other. */
  lemma StarMatches(s: string)
    ensures WildcardMatches("*", s) <==> NoLineTerminator(s)
  {
    ToWildcardReadsAsGlob("*");
    assert Glob("*") == [AnyRun];
    AnyRunMatches(s);
  }

  /** The pattern `?` keeps exactly the strings of at most one character. */
  lemma QuestionMarkMatches(s: string)
    ensures WildcardMatches("?", s) <==> |s| <= 1 && NoLineTerminator(s)
  {
    ToWildcardReadsAsGlob("?");
    assert Glob("?") == [AnyOptional];
    AnyOptionalMatches(s);
  }
}
