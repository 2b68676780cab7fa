/**
 The search box: the term is escaped, compiled to a regular expression with the `i` flag, and
 matched against four fields. A pattern is read as a sequence of atoms: characters that stand for
 themselves, and characters or escapes that mean something else.
 */
module Regex {
  /** SyntaxCharacter, section 22.2.1 of ECMA-262. */
  predicate IsSyntax(c: char) {
    c in "^$\\.*+?()[]{}|"
  }

  function Escape(term: string): string {
    if term == "" then ""
    else (if IsSyntax(term[0]) then ['\\', term[0]] else [term[0]]) + Escape(term[1..])
  }

  datatype Atom = Literal(c: char) | Active(c: char)

  /** What means something by itself in a pattern, and itself after a backslash. */
  predicate IsMeta(c: char) {
    || c == '^' || c == '$' || c == '\\' || c == '.' || c == '*' || c == '+' || c == '?' || c == '('
    || c == ')' || c == '[' || c == ']' || c == '{' || c == '}' || c == '|'
  }

  function Lex(pattern: string): seq<Atom> {
    if pattern == "" then []
    else if pattern[0] == '\\' then
      if |pattern| == 1 then [Active('\\')]
      else [if IsMeta(pattern[1]) then Literal(pattern[1]) else Active(pattern[1])] + Lex(pattern[2..])
    else [if IsMeta(pattern[0]) then Active(pattern[0]) else Literal(pattern[0])] + Lex(pattern[1..])
  }

  function Literals(term: string): seq<Atom> {
    if term == "" then [] else [Literal(term[0])] + Literals(term[1..])
  }

  /** How a pattern is read, character by character: a backslash makes the next one itself, if that has a meaning. */
  lemma LexReads(c: char, rest: string)
    ensures c != '\\' ==> Lex([c] + rest) == [if IsMeta(c) then Active(c) else Literal(c)] + Lex(rest)
    ensures Lex(['\\', c] + rest) == [if IsMeta(c) then Literal(c) else Active(c)] + Lex(rest)
    ensures Lex("\\") == [Active('\\')]
  {
    assert ([c] + rest)[1..] == rest;
    assert (['\\', c] + rest)[2..] == rest;
  }

  lemma SyntaxIsMeta(c: char)
    ensures IsSyntax(c) <==> IsMeta(c)
  {
  }

  /** Whatever is typed, the compiled pattern is that text and nothing but that text. */
  lemma {:induction false} EscapeRoundTrip(term: string)
    ensures Lex(Escape(term)) == Literals(term)
  {
    if term != "" {
      EscapeRoundTrip(term[1..]);
      SyntaxIsMeta(term[0]);
      var rest := Escape(term[1..]);
      if IsSyntax(term[0]) {
        assert Escape(term) == ['\\', term[0]] + rest;
        assert Escape(term)[2..] == rest;
      } else {
        assert Escape(term) == [term[0]] + rest;
        assert Escape(term)[1..] == rest;
      }
    }
  }

  lemma {:induction false} LiteralsLength(term: string)
    ensures |Literals(term)| == |term|
  {
    if term != "" {
      LiteralsLength(term[1..]);
    }
  }

  // ---- Matching, up to the case folding `fold` of the `i` flag ----

  predicate AtomMatches(a: Atom, c: char, fold: char -> char) {
    a.Literal? && fold(a.c) == fold(c)
  }

  /** An unanchored match of a pattern of literal atoms: a run of the text that spells it. */
  predicate MatchesAt(atoms: seq<Atom>, text: string, at: nat, fold: char -> char) {
    at + |atoms| <= |text| && forall k :: 0 <= k < |atoms| ==> AtomMatches(atoms[k], text[at + k], fold)
  }

  predicate Matches(pattern: string, text: string, fold: char -> char) {
    exists at :: 0 <= at <= |text| && MatchesAt(Lex(pattern), text, at, fold)
  }

  predicate OccursAt(term: string, text: string, at: nat, fold: char -> char) {
    at + |term| <= |text| && forall k :: 0 <= k < |term| ==> fold(term[k]) == fold(text[at + k])
  }

  /** What the search box promises: the text contains the term, up to case. */
  predicate Contains(text: string, term: string, fold: char -> char) {
    exists at :: 0 <= at <= |text| && OccursAt(term, text, at, fold)
  }

  lemma {:induction false} LiteralsAt(term: string, k: nat)
    requires k < |term|
    ensures |Literals(term)| == |term| && Literals(term)[k] == Literal(term[k])
  {
    LiteralsLength(term);
    if k > 0 {
      LiteralsAt(term[1..], k - 1);
    }
  }

  lemma SearchIsContainment(term: string, text: string, fold: char -> char)
    ensures Matches(Escape(term), text, fold) <==> Contains(text, term, fold)
  {
    EscapeRoundTrip(term);
    LiteralsLength(term);
    forall k | 0 <= k < |term| ensures Literals(term)[k] == Literal(term[k]) {
      LiteralsAt(term, k);
    }
    forall at: nat | at <= |text|
      ensures MatchesAt(Lex(Escape(term)), text, at, fold) <==> OccursAt(term, text, at, fold)
    {
      if MatchesAt(Lex(Escape(term)), text, at, fold) {
        forall k | 0 <= k < |term| ensures fold(term[k]) == fold(text[at + k]) {
          assert AtomMatches(Literals(term)[k], text[at + k], fold);
        }
      }
    }
  }
}
