/**
 * The string operations the application relies on: Python's str.strip() and
 * str.split() and their words, str.upper() below U+0100, the ASCII case
 * folding of SQLite's LIKE '%term%' containment, the
 * e-mail and login regular expressions of the account forms, and str() of an
 * integer.
 */
module Text {
  import opened Common

  /** Python's str.isspace() for the code points below 256: TAB through CR,
      the four information separators, SPACE, NEL and NO-BREAK SPACE. */
  predicate IsSpace(c: char) {
    ('\t' <= c <= '\r') || ('\U{1C}' <= c <= '\U{1F}') || c == ' ' || c == '\U{85}' || c == '\U{A0}'
  }

  predicate AllSpace(s: string) {
    forall k | 0 <= k < |s| :: IsSpace(s[k])
  }

  /** str.lstrip(): drops the leading whitespace. */
  function StripLeft(s: string): string {
    if s != [] && IsSpace(s[0]) then StripLeft(s[1..]) else s
  }

  /** str.rstrip(): drops the trailing whitespace. */
  function StripRight(s: string): string {
    if s != [] && IsSpace(s[|s| - 1]) then StripRight(s[..|s| - 1]) else s
  }

  /** lstrip() removes a prefix made of whitespace and keeps the rest, which
      starts with non-whitespace when anything is left. */
  lemma {:induction false} StripLeftSpec(s: string)
    ensures var r := StripLeft(s);
      && |r| <= |s| && r == s[|s| - |r|..]
      && AllSpace(s[..|s| - |r|])
      && (r != [] ==> !IsSpace(r[0]))
    decreases |s|
  {
    if s != [] && IsSpace(s[0]) {
      StripLeftSpec(s[1..]);
      var r := StripLeft(s[1..]);
      assert s[..|s| - |r|] == [s[0]] + s[1..][..|s| - 1 - |r|];
    }
  }

  /** rstrip() removes a suffix made of whitespace and keeps the rest, which
      ends with non-whitespace when anything is left. */
  lemma {:induction false} StripRightSpec(s: string)
    ensures var r := StripRight(s);
      && |r| <= |s| && r == s[..|r|]
      && AllSpace(s[|r|..])
      && (r != [] ==> !IsSpace(r[|r| - 1]))
    decreases |s|
  {
    if s != [] && IsSpace(s[|s| - 1]) {
      StripRightSpec(s[..|s| - 1]);
      var r := StripRight(s[..|s| - 1]);
      assert s[|r|..] == s[..|s| - 1][|r|..] + [s[|s| - 1]];
    }
  }

  /** lstrip() leaves nothing exactly when the text is all whitespace. */
  lemma StripLeftEmptyIff(s: string)
    ensures StripLeft(s) == [] <==> AllSpace(s)
  {
    StripLeftSpec(s);
    var t := StripLeft(s);
    if t == [] {
      assert s[..|s|] == s;
    } else {
      assert s[|s| - |t|] == t[0];
    }
  }

  /** str.strip(): the text between the leading and the trailing whitespace. */
  function Strip(s: string): string {
    StripRight(StripLeft(s))
  }

  /** strip() leaves nothing exactly when the text is all whitespace, and
      otherwise a text that starts and ends with non-whitespace. */
  lemma StripSpec(s: string)
    ensures var r := Strip(s);
      && |r| <= |s|
      && (r == [] <==> AllSpace(s))
      && (r != [] ==> !IsSpace(r[0]) && !IsSpace(r[|r| - 1]))
  {
    var t := StripLeft(s);
    StripLeftSpec(s);
    StripLeftEmptyIff(s);
    StripRightSpec(t);
    var r := StripRight(t);
    assert r != [] ==> r[0] == t[0];
  }

  /** Text without whitespace is its own strip(). */
  lemma StripSemEspaco(s: string)
    requires forall k | 0 <= k < |s| :: !IsSpace(s[k])
    ensures Strip(s) == s
  {
    if s != [] {
      assert !IsSpace(s[0]) && !IsSpace(s[|s| - 1]);
    }
  }

  /** A field left blank: Python's `not text.strip()`. */
  predicate IsBlank(s: string) {
    Strip(s) == []
  }

  /** Length of the run of non-whitespace characters that starts s. */
  function WordLength(s: string): (n: nat)
    ensures n <= |s|
    ensures forall k | 0 <= k < n :: !IsSpace(s[k])
    ensures n < |s| ==> IsSpace(s[n])
  {
    if s == [] || IsSpace(s[0]) then 0 else 1 + WordLength(s[1..])
  }

  predicate IsWord(w: string) {
    w != [] && forall k | 0 <= k < |w| :: !IsSpace(w[k])
  }

  /** str.split() with no separator: the maximal runs of non-whitespace characters. */
  function Split(s: string): (ws: seq<string>)
    ensures forall k | 0 <= k < |ws| :: IsWord(ws[k])
    ensures ws == [] <==> AllSpace(s)
    decreases |s|
  {
    if s == [] then
      []
    else if IsSpace(s[0]) then
      var ws := Split(s[1..]);
      assert AllSpace(s[1..]) ==> AllSpace(s) by {
        assert forall k | 1 <= k < |s| :: s[k] == s[1..][k - 1];
      }
      ws
    else
      var n := WordLength(s);
      [s[..n]] + Split(s[n..])
  }

  /** A name is blank exactly when it has no words. */
  lemma {:induction false} BlankIffNoWords(s: string)
    ensures IsBlank(s) <==> Split(s) == []
  {
    StripSpec(s);
  }

  /** The text spelt by whitespace gaps and words, a gap first and last:
      gs[0] + ws[0] + gs[1] + ... + ws[n - 1] + gs[n]. */
  function Intercalar(gs: seq<string>, ws: seq<string>): string
    requires |gs| == |ws| + 1
    decreases ws
  {
    if ws == [] then gs[0] else gs[0] + ws[0] + Intercalar(gs[1..], ws[1..])
  }

  /** Gaps and words as str.split() separates them: every gap whitespace,
      the gaps between two words non-empty, every word a non-empty run
      without whitespace. */
  predicate Decomposicao(gs: seq<string>, ws: seq<string>) {
    && |gs| == |ws| + 1
    && (forall k | 0 <= k < |gs| :: AllSpace(gs[k]))
    && (forall k | 0 < k < |ws| :: gs[k] != [])
    && (forall k | 0 <= k < |ws| :: IsWord(ws[k]))
  }

  lemma {:induction false} SplitAposEspacos(g: string, t: string)
    requires AllSpace(g)
    ensures Split(g + t) == Split(t)
    decreases |g|
  {
    if g != [] {
      assert IsSpace((g + t)[0]);
      assert Split(g + t) == Split((g + t)[1..]);
      assert (g + t)[1..] == g[1..] + t;
      assert AllSpace(g[1..]) by {
        assert forall k | 0 <= k < |g| - 1 :: g[1..][k] == g[k + 1];
      }
      SplitAposEspacos(g[1..], t);
    } else {
      assert g + t == t;
    }
  }

  lemma {:induction false} WordLengthDePalavra(w: string, t: string)
    requires IsWord(w) && (t == [] || IsSpace(t[0]))
    ensures WordLength(w + t) == |w|
    decreases |w|
  {
    assert (w + t)[1..] == w[1..] + t;
    if |w| > 1 {
      WordLengthDePalavra(w[1..], t);
    } else {
      assert w[1..] + t == t;
    }
  }

  lemma SplitAposPalavra(w: string, t: string)
    requires IsWord(w) && (t == [] || IsSpace(t[0]))
    ensures Split(w + t) == [w] + Split(t)
  {
    WordLengthDePalavra(w, t);
    assert (w + t)[..|w|] == w && (w + t)[|w|..] == t;
  }

  /** A text made of whitespace gaps and words, with a non-empty gap between
      any two words, splits into exactly those words. */
  lemma {:induction false} SplitUnica(gs: seq<string>, ws: seq<string>)
    requires Decomposicao(gs, ws)
    ensures Split(Intercalar(gs, ws)) == ws
    decreases |ws|
  {
    if ws == [] {
      SplitAposEspacos(gs[0], []);
      assert gs[0] + [] == gs[0];
    } else {
      var t := Intercalar(gs[1..], ws[1..]);
      assert Decomposicao(gs[1..], ws[1..]) by {
        assert forall k | 0 <= k < |gs| - 1 :: gs[1..][k] == gs[k + 1];
      }
      SplitUnica(gs[1..], ws[1..]);
      assert t == [] || IsSpace(t[0]) by {
        if |ws| >= 2 {
          assert t == gs[1] + ws[1] + Intercalar(gs[2..], ws[2..]);
          assert gs[1] != [] && IsSpace(gs[1][0]);
        } else {
          assert t == gs[1];
        }
      }
      ConcatAssoc(gs[0], ws[0], t);
      SplitAposEspacos(gs[0], ws[0] + t);
      SplitAposPalavra(ws[0], t);
      assert [ws[0]] + ws[1..] == ws;
    }
  }

  /** A whitespace character in front of a decomposed text joins its first gap. */
  lemma PrefixarLacuna(c: char, g: seq<string>, ws: seq<string>)
    requires IsSpace(c) && Decomposicao(g, ws)
    ensures Decomposicao([[c] + g[0]] + g[1..], ws)
    ensures Intercalar([[c] + g[0]] + g[1..], ws) == [c] + Intercalar(g, ws)
  {
    var gs := [[c] + g[0]] + g[1..];
    assert gs[1..] == g[1..];
    assert forall k | 1 <= k < |gs| :: gs[k] == g[k];
    assert forall k | 1 <= k < |gs[0]| :: gs[0][k] == g[0][k - 1];
    if ws != [] {
      var t := Intercalar(g[1..], ws[1..]);
      ConcatAssoc([c], g[0], ws[0]);
      ConcatAssoc([c], g[0] + ws[0], t);
    }
  }

  /** A word in front of a decomposed text that is empty or starts with
      whitespace becomes its first word, behind an empty gap. */
  lemma PrefixarPalavra(w: string, g: seq<string>, ws: seq<string>)
    requires IsWord(w) && Decomposicao(g, ws)
    requires var t := Intercalar(g, ws); t == [] || IsSpace(t[0])
    ensures Decomposicao([[]] + g, [w] + ws)
    ensures Intercalar([[]] + g, [w] + ws) == w + Intercalar(g, ws)
  {
    var gs := [[]] + g;
    assert gs[1..] == g && ([w] + ws)[1..] == ws;
    assert forall k | 1 <= k < |gs| :: gs[k] == g[k - 1];
  }

  /** Every text is whitespace gaps interleaved with the words split()
      returns; with SplitUnica, the words are the text's maximal runs of
      non-whitespace, in order. */
  lemma {:induction false} SplitDecompoe(s: string)
    ensures exists gs :: Decomposicao(gs, Split(s)) && Intercalar(gs, Split(s)) == s
    decreases |s|
  {
    var ws := Split(s);
    if s == [] {
      assert Decomposicao([[]], ws) && Intercalar([[]], ws) == s;
    } else if IsSpace(s[0]) {
      SplitDecompoe(s[1..]);
      var g :| Decomposicao(g, ws) && Intercalar(g, ws) == s[1..];
      PrefixarLacuna(s[0], g, ws);
      assert [s[0]] + s[1..] == s;
      assert Decomposicao([[s[0]] + g[0]] + g[1..], ws);
    } else {
      var n := WordLength(s);
      var t := s[n..];
      assert ws == [s[..n]] + Split(t);
      SplitDecompoe(t);
      var g :| Decomposicao(g, Split(t)) && Intercalar(g, Split(t)) == t;
      PrefixarPalavra(s[..n], g, Split(t));
      assert s[..n] + t == s;
      assert Decomposicao([[]] + g, ws);
    }
  }

  predicate IsAsciiLetter(c: char) {
    'a' <= c <= 'z' || 'A' <= c <= 'Z'
  }

  /** The lower-case letters below U+0100 that str.upper() changes: a to z,
      the micro sign, sharp s, and U+00E0 to U+00FF except the division sign. */
  predicate IsLowerLatin1(c: char) {
    || 'a' <= c <= 'z' || c == '\U{B5}' || c == '\U{DF}'
    || ('\U{E0}' <= c <= '\U{FF}' && c != '\U{F7}')
  }

  /** str.upper() on one character below U+0100. Sharp s becomes "SS", the
      micro sign the capital mu U+039C, y with diaeresis U+0178, and the other
      lower-case letters the capital 32 code points below them. */
  function Upper(c: char): (u: string)
    ensures |u| == if c == '\U{DF}' then 2 else 1
    ensures u == [c] <==> !IsLowerLatin1(c)
  {
    if 'a' <= c <= 'z' || ('\U{E0}' <= c <= '\U{FE}' && c != '\U{F7}') then [(c as int - 32) as char]
    else if c == '\U{DF}' then "SS"
    else if c == '\U{B5}' then ['\U{039C}']
    else if c == '\U{FF}' then ['\U{0178}']
    else [c]
  }

  /** Upper-casing an upper-cased character changes nothing more. */
  lemma UpperIdempotente(c: char)
    ensures forall k | 0 <= k < |Upper(c)| :: Upper(Upper(c)[k]) == [Upper(c)[k]]
  {
  }

  /** ASCII lower-casing, as SQLite's LIKE folds case. */
  function LowerChar(c: char): (l: char)
    ensures 'A' <= c <= 'Z' ==> 'a' <= l <= 'z' && l as int == c as int + 32
    ensures !('A' <= c <= 'Z') ==> l == c
  {
    if 'A' <= c <= 'Z' then (c as int + 32) as char else c
  }

  function Lower(s: string): string {
    seq(|s|, k requires 0 <= k < |s| => LowerChar(s[k]))
  }

  predicate IsPrefix(p: string, s: string) {
    |p| <= |s| && s[..|p|] == p
  }

  predicate OccursAt(hay: string, needle: string, i: int) {
    0 <= i && i + |needle| <= |hay| && hay[i..i + |needle|] == needle
  }

  /** `needle in hay` for strings. */
  predicate Contains(hay: string, needle: string)
    decreases |hay|
  {
    IsPrefix(needle, hay) || (hay != [] && Contains(hay[1..], needle))
  }

  /** Contains agrees with the positional definition of a substring. */
  lemma {:induction false} ContainsIff(hay: string, needle: string)
    ensures Contains(hay, needle) <==> exists i :: OccursAt(hay, needle, i)
    decreases |hay|
  {
    if hay != [] {
      ContainsIff(hay[1..], needle);
    }
    if IsPrefix(needle, hay) {
      assert OccursAt(hay, needle, 0);
    } else if hay != [] && Contains(hay[1..], needle) {
      var i :| OccursAt(hay[1..], needle, i);
      assert hay[1..][i..i + |needle|] == hay[i + 1..i + 1 + |needle|];
      assert OccursAt(hay, needle, i + 1);
    }
    forall i | OccursAt(hay, needle, i)
      ensures Contains(hay, needle)
    {
      if i == 0 {
        assert hay[0..|needle|] == hay[..|needle|];
      } else {
        assert hay[1..][i - 1..i - 1 + |needle|] == hay[i..i + |needle|];
        assert OccursAt(hay[1..], needle, i - 1);
      }
    }
  }

  /** SQLite's `column LIKE '%term%'` without wildcards inside the term:
      substring test with ASCII case folded. */
  predicate LikeContains(value: string, term: string) {
    Contains(Lower(value), Lower(term))
  }

  function DigitChar(d: int): char
    requires 0 <= d < 10
  {
    ('0' as int + d) as char
  }

  function NatToString(n: nat): string
    decreases n
  {
    if n < 10 then [DigitChar(n)] else NatToString(n / 10) + [DigitChar(n % 10)]
  }

  /** Python's str() of an int. */
  function IntToString(n: int): string {
    if n < 0 then "-" + NatToString(-n) else NatToString(n)
  }

  // ---------------------------------------------------------------------
  // The e-mail pattern [^@]+@[^@]+\.[a-zA-Z]{2,} (QRegExp exact match)
  // ---------------------------------------------------------------------

  predicate NoAt(s: string) {
    forall k | 0 <= k < |s| :: s[k] != '@'
  }

  predicate AllLetters(s: string) {
    forall k | 0 <= k < |s| :: IsAsciiLetter(s[k])
  }

  /** s splits as A '@' B '.' C at positions i ('@') and j ('.'), where A and B
      are non-empty and free of '@' and C is two or more ASCII letters. */
  ghost predicate EmailSplitAt(s: string, i: int, j: int) {
    && 0 < i && i + 1 < j && j + 3 <= |s|
    && s[i] == '@' && s[j] == '.'
    && NoAt(s[..i]) && NoAt(s[i + 1..j]) && AllLetters(s[j + 1..])
  }

  /** The regular expression, read as a language. */
  ghost predicate MatchesEmailPattern(s: string) {
    exists i, j :: EmailSplitAt(s, i, j)
  }

  /** Position of the first c in s, or |s| when there is none. */
  function IndexOf(s: string, c: char): (k: nat)
    ensures k <= |s|
    ensures k < |s| ==> s[k] == c
    ensures forall m | 0 <= m < k :: s[m] != c
  {
    if s == [] || s[0] == c then 0 else 1 + IndexOf(s[1..], c)
  }

  /** Position of the last c in s, or -1 when there is none. */
  function LastIndexOf(s: string, c: char): (k: int)
    ensures -1 <= k < |s|
    ensures k >= 0 ==> s[k] == c
    ensures forall m | k < m < |s| :: s[m] != c
  {
    if s == [] then -1 else if s[|s| - 1] == c then |s| - 1 else LastIndexOf(s[..|s| - 1], c)
  }

  lemma IndexOfAt(s: string, c: char, i: nat)
    requires i < |s| && s[i] == c
    requires forall m | 0 <= m < i :: s[m] != c
    ensures IndexOf(s, c) == i
  {
  }

  lemma LastIndexOfAt(s: string, c: char, j: nat)
    requires j < |s| && s[j] == c
    requires forall m | j < m < |s| :: s[m] != c
    ensures LastIndexOf(s, c) == j
  {
  }

  /** Decides the e-mail pattern: the '@' must be the only one and not the
      first character, and the last '.' after it must leave at least one
      character before it and two or more letters after it. */
  predicate IsEmail(s: string) {
    var i := IndexOf(s, '@');
    0 < i < |s| &&
    var rest := s[i + 1..];
    NoAt(rest) &&
    var j := LastIndexOf(rest, '.');
    0 < j && j + 3 <= |rest| && AllLetters(rest[j + 1..])
  }

  /** Every string IsEmail accepts matches the regular expression. */
  lemma IsEmailCorreto(s: string)
    requires IsEmail(s)
    ensures MatchesEmailPattern(s)
  {
    var i := IndexOf(s, '@');
    var rest := s[i + 1..];
    var j := LastIndexOf(rest, '.');
    assert s[i + 1..i + 1 + j] == rest[..j];
    assert s[i + 1 + j + 1..] == rest[j + 1..];
    assert EmailSplitAt(s, i, i + 1 + j);
  }

  /** Every string the regular expression matches is accepted by IsEmail. */
  lemma IsEmailCompleto(s: string)
    requires MatchesEmailPattern(s)
    ensures IsEmail(s)
  {
    var i, j :| EmailSplitAt(s, i, j);
    IndexOfAt(s, '@', i);
    var rest := s[i + 1..];
    DepoisDaArroba(s, i, j);
    assert NoAt(rest);
    LastIndexOfAt(rest, '.', j - i - 1);
    assert rest[j - i..] == s[j + 1..];
  }

  /** After the '@' of a matching split there is no other '@' and no '.'
      after the one at j. */
  lemma DepoisDaArroba(s: string, i: int, j: int)
    requires EmailSplitAt(s, i, j)
    ensures forall k | i < k < |s| :: s[k] != '@'
    ensures forall k | j < k < |s| :: s[k] != '.'
  {
    forall k | i < k < |s| ensures s[k] != '@' {
      if k < j {
        assert s[k] == s[i + 1..j][k - i - 1];
      } else if k > j {
        assert s[k] == s[j + 1..][k - j - 1];
      }
    }
    forall k | j < k < |s| ensures s[k] != '.' {
      assert s[k] == s[j + 1..][k - j - 1];
    }
  }

  /** IsEmail accepts exactly the strings the regular expression matches. */
  lemma IsEmailIff(s: string)
    ensures IsEmail(s) <==> MatchesEmailPattern(s)
  {
    if IsEmail(s) {
      IsEmailCorreto(s);
    }
    if MatchesEmailPattern(s) {
      IsEmailCompleto(s);
    }
  }

  // ---------------------------------------------------------------------
  // The login pattern [a-zA-Z0-9_]+
  // ---------------------------------------------------------------------

  predicate IsLoginChar(c: char) {
    IsAsciiLetter(c) || ('0' <= c <= '9') || c == '_'
  }

  predicate AllLoginChars(s: string) {
    forall k | 0 <= k < |s| :: IsLoginChar(s[k])
  }

  /** Exact match of [a-zA-Z0-9_]+. */
  predicate MatchesLoginPattern(s: string) {
    s != [] && AllLoginChars(s)
  }
}
