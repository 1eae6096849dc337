/** Input normalisation used by the survey handlers: Python's `str.strip()`
    (no argument) and `str.lower()`, restricted to the letters the survey
    reads, and the yes/no test of the first question. */
module TextNorm {
  import opened Wrappers

  /** The characters CPython's `str.isspace` accepts; `str.strip()` removes
      exactly these from both ends of a string. */
  predicate IsSpace(c: char) {
    || ('\t' <= c <= '\r')
    || ('\U{1C}' <= c <= '\U{1F}')
    || c == ' ' || c == '\U{85}' || c == '\U{A0}' || c == '\U{1680}'
    || ('\U{2000}' <= c <= '\U{200A}')
    || c == '\U{2028}' || c == '\U{2029}' || c == '\U{202F}' || c == '\U{205F}' || c == '\U{3000}'
  }

  predicate AllSpace(s: string) {
    forall i :: 0 <= i < |s| ==> IsSpace(s[i])
  }

  /** Drops leading whitespace. */
  function TrimStart(s: string): string {
    if s != [] && IsSpace(s[0]) then TrimStart(s[1..]) else s
  }

  /** Drops trailing whitespace. */
  function TrimEnd(s: string): string {
    if s != [] && IsSpace(s[|s| - 1]) then TrimEnd(s[..|s| - 1]) else s
  }

  /** `s.strip()`. */
  function Strip(s: string): string {
    TrimEnd(TrimStart(s))
  }

  /** What `TrimStart` drops is whitespace, and what it keeps is a suffix of
      `s` that does not start with whitespace. */
  lemma {:induction false} TrimStartShape(s: string)
    ensures var r := TrimStart(s);
      && |r| <= |s| && r == s[|s| - |r|..]
      && AllSpace(s[..|s| - |r|])
      && (r != [] ==> !IsSpace(r[0]))
  {
    if s != [] && IsSpace(s[0]) {
      TrimStartShape(s[1..]);
      var r := TrimStart(s);
      assert s[..|s| - |r|] == [s[0]] + s[1..][..|s| - 1 - |r|];
    }
  }

  /** What `TrimEnd` drops is whitespace, and what it keeps is a prefix of
      `s` that does not end with whitespace. */
  lemma {:induction false} TrimEndShape(s: string)
    ensures var r := TrimEnd(s);
      && |r| <= |s| && r == s[..|r|]
      && AllSpace(s[|r|..])
      && (r != [] ==> !IsSpace(r[|r| - 1]))
  {
    if s != [] && IsSpace(s[|s| - 1]) {
      TrimEndShape(s[..|s| - 1]);
      var r := TrimEnd(s);
      assert s[|r|..] == s[..|s| - 1][|r|..] + [s[|s| - 1]];
    }
  }

  /** `strip()` gives the empty string exactly for all-whitespace text, and
      otherwise text that neither starts nor ends with whitespace. */
  lemma StripShape(s: string)
    ensures Strip(s) == [] <==> AllSpace(s)
    ensures Strip(s) != [] ==> !IsSpace(Strip(s)[0]) && !IsSpace(Strip(s)[|Strip(s)| - 1])
  {
    var t := TrimStart(s);
    TrimStartEmpty(s);
    TrimEndEmpty(t);
    TrimStartShape(s);
    TrimEndShape(t);
  }

  lemma {:induction false} TrimStartEmpty(s: string)
    ensures TrimStart(s) == [] <==> AllSpace(s)
  {
    if s != [] && IsSpace(s[0]) {
      TrimStartEmpty(s[1..]);
      assert s == [s[0]] + s[1..];
    }
  }

  lemma {:induction false} TrimEndEmpty(s: string)
    ensures TrimEnd(s) == [] <==> AllSpace(s)
  {
    if s != [] && IsSpace(s[|s| - 1]) {
      TrimEndEmpty(s[..|s| - 1]);
      assert s == s[..|s| - 1] + [s[|s| - 1]];
    }
  }

  lemma {:induction false} TrimStartPadded(p: string, u: string)
    requires AllSpace(p) && u != [] && !IsSpace(u[0])
    ensures TrimStart(p + u) == u
  {
    if p == [] {
      assert p + u == u;
    } else {
      assert (p + u)[1..] == p[1..] + u;
      TrimStartPadded(p[1..], u);
    }
  }

  lemma {:induction false} TrimEndPadded(u: string, q: string)
    requires AllSpace(q) && u != [] && !IsSpace(u[|u| - 1])
    ensures TrimEnd(u + q) == u
  {
    if q == [] {
      assert u + q == u;
    } else {
      var s := u + q;
      assert s[..|s| - 1] == u + q[..|q| - 1];
      TrimEndPadded(u, q[..|q| - 1]);
    }
  }

  /** `str.lower()` on one character: ASCII capitals and the capitals of the
      basic Cyrillic block (U+0400..U+042F) map to their small letters;
      every other character is left as it is. */
  function LowerChar(c: char): char {
    if 'A' <= c <= 'Z' then (c as int + 0x20) as char
    else if '\U{410}' <= c <= '\U{42F}' then (c as int + 0x20) as char
    else if '\U{400}' <= c <= '\U{40F}' then (c as int + 0x50) as char
    else c
  }

  /** `s.lower()`: a character-by-character map. */
  function Lower(s: string): (r: string)
    ensures |r| == |s|
  {
    seq(|s|, i requires 0 <= i < |s| => LowerChar(s[i]))
  }

  /** The normalisation of the first question: `text.strip().lower()`. */
  function Normalize(t: string): string {
    Lower(Strip(t))
  }

  const Yes: string := "да"
  const No: string := "нет"

  /** The yes/no test of the first question. */
  function YesNo(t: string): Option<bool> {
    var n := Normalize(t);
    if n == Yes then Some(true)
    else if n == No then Some(false)
    else None
  }

  // ---------------------------------------------------------------------
  // Properties of the normalisation

  /** Whitespace is never lowered into something else, and nothing else is
      lowered into whitespace. */
  lemma LowerCharKeepsSpace(c: char)
    ensures IsSpace(LowerChar(c)) <==> IsSpace(c)
  {
  }

  /** Lowering and dropping leading whitespace commute. */
  lemma {:induction false} LowerTrimStart(s: string)
    ensures Lower(TrimStart(s)) == TrimStart(Lower(s))
  {
    if s != [] {
      LowerCharKeepsSpace(s[0]);
      assert Lower(s)[1..] == Lower(s[1..]);
      if IsSpace(s[0]) {
        LowerTrimStart(s[1..]);
      }
    }
  }

  /** Lowering and dropping trailing whitespace commute. */
  lemma {:induction false} LowerTrimEnd(s: string)
    ensures Lower(TrimEnd(s)) == TrimEnd(Lower(s))
  {
    if s != [] {
      LowerCharKeepsSpace(s[|s| - 1]);
      assert Lower(s)[..|s| - 1] == Lower(s[..|s| - 1]);
      if IsSpace(s[|s| - 1]) {
        LowerTrimEnd(s[..|s| - 1]);
      }
    }
  }

  /** `text.strip().lower()` is `text.lower().strip()`: the order of the two
      steps of the first question's normalisation does not matter. */
  lemma NormalizeCommutes(t: string)
    ensures Normalize(t) == Strip(Lower(t))
  {
    LowerTrimStart(t);
    LowerTrimEnd(TrimStart(t));
  }

  /** Stripping a word padded on both sides by whitespace gives back the
      word, whatever the padding. */
  lemma StripPadded(p: string, w: string, q: string)
    requires AllSpace(p) && AllSpace(q)
    requires w != [] && !IsSpace(w[0]) && !IsSpace(w[|w| - 1])
    ensures Strip(p + w + q) == w
  {
    assert p + w + q == p + (w + q);
    TrimStartPadded(p, w + q);
    TrimEndPadded(w, q);
  }

  /** `w` spells `word` up to letter case. */
  predicate SpellsCaseless(w: string, word: string) {
    |w| == |word| && forall i :: 0 <= i < |w| ==> LowerChar(w[i]) == word[i]
  }

  /** Any spelling of "да" or "нет" in any letter case, padded with any
      whitespace, is accepted, and it is read as "yes" exactly for "да". */
  lemma PaddedAnswer(p: string, w: string, q: string, word: string)
    requires AllSpace(p) && AllSpace(q)
    requires word == Yes || word == No
    requires SpellsCaseless(w, word)
    ensures YesNo(p + w + q) == Some(word == Yes)
  {
    LowerCharKeepsSpace(w[0]);
    LowerCharKeepsSpace(w[|w| - 1]);
    StripPadded(p, w, q);
    assert Lower(w) == word;
  }

  /** `strip()` only removes whitespace: the text is the stripped text with
      whitespace before and after it. */
  lemma StripSplits(s: string) returns (p: string, q: string)
    ensures s == p + Strip(s) + q && AllSpace(p) && AllSpace(q)
  {
    var a := TrimStart(s);
    TrimStartShape(s);
    TrimEndShape(a);
    p := s[..|s| - |a|];
    q := a[|Strip(s)|..];
    assert s == p + a;
    assert a == Strip(s) + q;
  }

  /** The converse of `PaddedAnswer`: every accepted answer is a spelling of
      "да" or "нет" in some letter case with only whitespace around it, and
      it is read as the word it spells. */
  lemma AcceptedIsPaddedWord(t: string)
    requires YesNo(t).Some?
    ensures exists p, w, q ::
      (t == p + w + q && AllSpace(p) && AllSpace(q) && SpellsCaseless(w, if YesNo(t).value then Yes else No))
  {
    var p, q := StripSplits(t);
    var w := Strip(t);
    assert SpellsCaseless(w, Lower(w));
  }

  /** "Да" as offered on the reply keyboard is accepted as "yes", with any
      whitespace around it. */
  lemma KeyboardYesAccepted(p: string, q: string)
    requires AllSpace(p) && AllSpace(q)
    ensures YesNo(p + "Да" + q) == Some(true)
  {
    assert SpellsCaseless("Да", Yes);
    PaddedAnswer(p, "Да", q, Yes);
  }

  /** "Нет" as offered on the reply keyboard is accepted as "no". */
  lemma KeyboardNoAccepted(p: string, q: string)
    requires AllSpace(p) && AllSpace(q)
    ensures YesNo(p + "Нет" + q) == Some(false)
  {
    assert SpellsCaseless("Нет", No);
    PaddedAnswer(p, "Нет", q, No);
  }

  /** Text with anything besides whitespace around the word is refused. */
  lemma ExtraCharactersRefused(p: string, q: string)
    requires AllSpace(p) && AllSpace(q)
    ensures YesNo(p + "да!" + q) == None
  {
    StripPadded(p, "да!", q);
    assert Normalize(p + "да!" + q)[2] == '!';
  }
}
