/** Party-name normalization (`screening.rs`). Lower-casing is a parameter: it agrees with
    ASCII lower-casing on ASCII text and never yields an ASCII capital. */
module Screening {
  import opened Text

  ghost predicate LowerCases(lower: string -> string) {
    && (forall s :: IsAscii(s) ==> lower(s) == Lower(s))
    && (forall s :: NoCapitals(lower(s)))
  }

  predicate NoCapitals(s: string) { forall i :: 0 <= i < |s| ==> !('A' <= s[i] <= 'Z') }

  const ENTITY_SUFFIXES: set<string> := {
    "incorporated", "corporation", "company", "limited", "holding", "holdings", "group",
    "international", "technology", "technologies", "electronics", "industries", "industrial",
    "gmbh", "corp", "inc", "ltd", "llc", "co", "plc", "nv", "sa", "ag"
  }

  predicate IsAlphanumeric(c: char) { '0' <= c <= '9' || 'a' <= c <= 'z' || 'A' <= c <= 'Z' }

  /** `is_ascii_whitespace`: vertical tab is not among them. */
  predicate IsAsciiSpace(c: char) { c == ' ' || c == '\t' || c == '\n' || c == '\r' || c as int == 0xC }

  /** A full stop disappears, other punctuation separates words. */
  function CleanChar(c: char): string {
    if IsAlphanumeric(c) || IsAsciiSpace(c) then [c] else if c != '.' then " " else ""
  }

  function Clean(s: string): string {
    if s == [] then [] else Clean(s[..|s| - 1]) + CleanChar(s[|s| - 1])
  }

  function WordLength(s: string): (n: nat)
    ensures n <= |s|
  {
    if s == [] || IsWhitespace(s[0]) then 0 else 1 + WordLength(s[1..])
  }

  /** `split_whitespace`. */
  function Words(s: string): seq<string> {
    if s == [] then []
    else if IsWhitespace(s[0]) then Words(s[1..])
    else
      var n := WordLength(s);
      [s[..n]] + Words(s[n..])
  }

  function StripSuffixes(tokens: seq<string>): seq<string> {
    if tokens != [] && tokens[|tokens| - 1] in ENTITY_SUFFIXES then StripSuffixes(tokens[..|tokens| - 1]) else tokens
  }

  function Join(tokens: seq<string>): string {
    if tokens == [] then ""
    else if |tokens| == 1 then tokens[0]
    else tokens[0] + " " + Join(tokens[1..])
  }

  function Normalize(name: string, lower: string -> string): string {
    Join(StripSuffixes(Words(Clean(lower(Trim(name))))))
  }

  /** Builds the cleaned text character by character and pops suffixes off the word list. */
  method NormalizePartyName(name: string, lower: string -> string) returns (r: string)
    ensures r == Normalize(name, lower)
  {
    var lowered := lower(Trim(name));
    var cleaned := "";
    for i := 0 to |lowered|
      invariant cleaned == Clean(lowered[..i])
    {
      var ch := lowered[i];
      assert lowered[..i + 1][..i] == lowered[..i];
      if IsAlphanumeric(ch) || IsAsciiSpace(ch) {
        cleaned := cleaned + [ch];
      } else if ch != '.' {
        cleaned := cleaned + " ";
      }
    }
    assert lowered[..|lowered|] == lowered;
    var tokens := Words(cleaned);
    while tokens != [] && tokens[|tokens| - 1] in ENTITY_SUFFIXES
      invariant StripSuffixes(tokens) == StripSuffixes(Words(cleaned))
      decreases |tokens|
    {
      tokens := tokens[..|tokens| - 1];
    }
    r := Join(tokens);
  }

  // ----- idempotence -----

  /** A word of a normalized name. */
  predicate IsToken(w: string) {
    w != [] && forall i :: 0 <= i < |w| ==> IsAlphanumeric(w[i]) && !('A' <= w[i] <= 'Z')
  }

  ghost predicate AreTokens(ws: seq<string>) { forall i :: 0 <= i < |ws| ==> IsToken(ws[i]) }

  /** Characters of a cleaned lower-case text. */
  predicate IsCleanText(s: string) {
    forall i :: 0 <= i < |s| ==> (IsAlphanumeric(s[i]) || IsAsciiSpace(s[i])) && !('A' <= s[i] <= 'Z')
  }

  lemma {:induction false} CleanIsClean(s: string)
    requires NoCapitals(s)
    ensures IsCleanText(Clean(s))
  {
    if s != [] {
      CleanIsClean(s[..|s| - 1]);
    }
  }

  lemma {:induction false} WordLengthIs(s: string)
    ensures forall i :: 0 <= i < WordLength(s) ==> !IsWhitespace(s[i])
    ensures WordLength(s) < |s| ==> IsWhitespace(s[WordLength(s)])
  {
    if s != [] && !IsWhitespace(s[0]) {
      WordLengthIs(s[1..]);
      assert forall i :: 0 < i < |s| ==> s[i] == s[1..][i - 1];
    }
  }

  lemma {:induction false} WordsAreTokens(s: string)
    requires IsCleanText(s)
    ensures AreTokens(Words(s))
    decreases |s|
  {
    if s == [] {
    } else if IsWhitespace(s[0]) {
      WordsAreTokens(s[1..]);
    } else {
      var n := WordLength(s);
      WordLengthIs(s);
      assert IsToken(s[..n]);
      WordsAreTokens(s[n..]);
    }
  }

  lemma {:induction false} StripSuffixesIs(tokens: seq<string>)
    ensures StripSuffixes(tokens) <= tokens
    ensures StripSuffixes(StripSuffixes(tokens)) == StripSuffixes(tokens)
    decreases |tokens|
  {
    if tokens != [] && tokens[|tokens| - 1] in ENTITY_SUFFIXES {
      StripSuffixesIs(tokens[..|tokens| - 1]);
    }
  }

  /** How long the first word is when a token is followed by a space or nothing. */
  lemma {:induction false} FirstWord(w: string, rest: string)
    requires IsToken(w) && (rest != [] ==> rest[0] == ' ')
    ensures WordLength(w + rest) == |w|
  {
    assert (w + rest)[1..] == w[1..] + rest;
    if |w| > 1 {
      FirstWord(w[1..], rest);
    } else {
      assert w[1..] + rest == rest;
    }
  }

  lemma {:induction false} WordsOfJoin(tokens: seq<string>)
    requires AreTokens(tokens)
    ensures Words(Join(tokens)) == tokens
    decreases |tokens|
  {
    if tokens != [] {
      var rest := if |tokens| == 1 then "" else " " + Join(tokens[1..]);
      var w := tokens[0];
      var s := w + rest;
      assert s == Join(tokens);
      FirstWord(w, rest);
      assert s[..|w|] == w && s[|w|..] == rest;
      WordsOfJoin(tokens[1..]);
      if |tokens| > 1 {
        assert rest[1..] == Join(tokens[1..]);
      }
      assert tokens == [w] + tokens[1..];
    }
  }

  lemma {:induction false} JoinIsClean(tokens: seq<string>)
    requires AreTokens(tokens)
    ensures IsCleanText(Join(tokens)) && Trimmed(Join(tokens)) && (tokens != [] ==> Join(tokens) != [])
    decreases |tokens|
  {
    if |tokens| > 1 {
      JoinIsClean(tokens[1..]);
    }
  }

  lemma {:induction false} CleanKeepsCleanText(s: string)
    requires IsCleanText(s)
    ensures Clean(s) == s
  {
    if s != [] {
      CleanKeepsCleanText(s[..|s| - 1]);
      assert s == s[..|s| - 1] + [s[|s| - 1]];
    }
  }

  lemma LowerKeepsCleanText(s: string, lower: string -> string)
    requires LowerCases(lower) && IsCleanText(s)
    ensures lower(s) == s
  {
    assert Lower(s) == s;
  }

  /** Normalizing a normalized name changes nothing, whatever the name. */
  lemma NormalizeIdempotent(name: string, lower: string -> string)
    requires LowerCases(lower)
    ensures Normalize(Normalize(name, lower), lower) == Normalize(name, lower)
  {
    var words := Words(Clean(lower(Trim(name))));
    CleanIsClean(lower(Trim(name)));
    WordsAreTokens(Clean(lower(Trim(name))));
    StripSuffixesIs(words);
    var tokens := StripSuffixes(words);
    assert AreTokens(tokens);
    JoinIsClean(tokens);
    TrimOfTrimmed(Join(tokens));
    LowerKeepsCleanText(Join(tokens), lower);
    CleanKeepsCleanText(Join(tokens));
    WordsOfJoin(tokens);
  }

  /** What normalization forgets: two names agree exactly when the words of their cleaned
      texts agree once legal suffixes are gone. */
  lemma SamePartyIff(a: string, b: string, lower: string -> string)
    requires LowerCases(lower)
    ensures Normalize(a, lower) == Normalize(b, lower)
            <==> StripSuffixes(Words(Clean(lower(Trim(a))))) == StripSuffixes(Words(Clean(lower(Trim(b)))))
  {
    forall x | x == a || x == b
      ensures Words(Normalize(x, lower)) == StripSuffixes(Words(Clean(lower(Trim(x)))))
    {
      CleanIsClean(lower(Trim(x)));
      WordsAreTokens(Clean(lower(Trim(x))));
      StripSuffixesIs(Words(Clean(lower(Trim(x)))));
      WordsOfJoin(StripSuffixes(Words(Clean(lower(Trim(x))))));
    }
  }

  /** What is cut off is legal suffixes only, and all of them at the end. */
  lemma {:induction false} StripsExactlySuffixes(tokens: seq<string>)
    ensures var kept := StripSuffixes(tokens);
            && kept <= tokens
            && (forall i :: |kept| <= i < |tokens| ==> tokens[i] in ENTITY_SUFFIXES)
            && (kept != [] ==> kept[|kept| - 1] !in ENTITY_SUFFIXES)
    decreases |tokens|
  {
    if tokens != [] && tokens[|tokens| - 1] in ENTITY_SUFFIXES {
      StripsExactlySuffixes(tokens[..|tokens| - 1]);
    }
  }

  /** The words of a normalized name are lower-case ASCII letters and digits, and the last is
      no legal suffix. */
  lemma NormalizedWords(name: string, lower: string -> string)
    requires LowerCases(lower)
    ensures var words := Words(Normalize(name, lower));
            && AreTokens(words)
            && (words != [] ==> words[|words| - 1] !in ENTITY_SUFFIXES)
            && Normalize(name, lower) == Join(words)
  {
    var words := Words(Clean(lower(Trim(name))));
    CleanIsClean(lower(Trim(name)));
    WordsAreTokens(Clean(lower(Trim(name))));
    StripsExactlySuffixes(words);
    WordsOfJoin(StripSuffixes(words));
  }
}
