/** Text normalisation: ASCII lower case, blank stripping, and the slugs that billing uses as keys. */
module Slug {
  import opened Common

  const LIMIT := 120

  function LowerChar(c: char): char {
    if 'A' <= c <= 'Z' then c + 'a' - 'A' else c
  }

  /** str.lower on ASCII letters. */
  function Lower(s: string): (r: string)
    ensures |r| == |s|
  {
    seq(|s|, i requires 0 <= i < |s| => LowerChar(s[i]))
  }

  predicate IsSpace(c: char) {
    c == ' ' || 9 <= c as int <= 13 || 28 <= c as int <= 31
  }

  predicate IsWord(c: char) {
    'a' <= c <= 'z' || 'A' <= c <= 'Z' || '0' <= c <= '9' || c == '_' || c == '-'
  }

  predicate IsSlugChar(c: char) {
    'a' <= c <= 'z' || '0' <= c <= '9' || c == '_' || c == '-'
  }

  ghost predicate SlugChars(s: string) {
    forall i :: 0 <= i < |s| ==> IsSlugChar(s[i])
  }

  function TrimLeft(s: string, drop: char -> bool): string {
    if s == "" || !drop(s[0]) then s else TrimLeft(s[1..], drop)
  }

  function TrimRight(s: string, drop: char -> bool): string {
    if s == "" || !drop(Last(s)) then s else TrimRight(Init(s), drop)
  }

  function Trim(s: string, drop: char -> bool): string {
    TrimRight(TrimLeft(s, drop), drop)
  }

  /** Replaces each run of characters that are not word characters by one underscore. */
  function Collapse(s: string, inRun: bool): string {
    if s == "" then ""
    else if IsWord(s[0]) then [s[0]] + Collapse(s[1..], false)
    else if inRun then Collapse(s[1..], true)
    else "_" + Collapse(s[1..], true)
  }

  /** str.strip on ASCII blanks. */
  function Strip(s: string): string {
    Trim(s, c => IsSpace(c))
  }

  function Cleaned(raw: string): string {
    Trim(Collapse(Lower(Strip(raw)), false), c => c == '_')
  }

  function SafeSlug(raw: string, fallback: string): string {
    var cut := First(Cleaned(raw), LIMIT);
    if cut == "" then fallback else cut
  }

  // ----- normal form -----

  lemma {:induction false} CollapseChars(s: string, inRun: bool)
    requires Lower(s) == s
    ensures SlugChars(Collapse(s, inRun))
  {
    if s != "" {
      assert Lower(s)[0] == s[0];
      forall i | 0 <= i < |s[1..]|
        ensures Lower(s[1..])[i] == s[1..][i]
      {
        assert Lower(s)[i + 1] == s[i + 1];
      }
      CollapseChars(s[1..], IsWord(s[0]));
      CollapseChars(s[1..], !IsWord(s[0]));
    }
  }

  lemma {:induction false} CollapseFixed(s: string)
    requires SlugChars(s)
    ensures Collapse(s, false) == s
  {
    if s != "" {
      assert IsSlugChar(s[0]);
      assert SlugChars(s[1..]);
      CollapseFixed(s[1..]);
    }
  }

  lemma {:induction false} TrimLeftShape(s: string, drop: char -> bool)
    ensures var t := TrimLeft(s, drop); |t| <= |s| && t == s[|s| - |t|..] && (t == "" || !drop(t[0]))
  {
    if s != "" && drop(s[0]) {
      TrimLeftShape(s[1..], drop);
    }
  }

  lemma {:induction false} TrimRightShape(s: string, drop: char -> bool)
    ensures var t := TrimRight(s, drop); t <= s && (t == "" || !drop(Last(t)))
  {
    if s != "" && drop(Last(s)) {
      TrimRightShape(Init(s), drop);
    }
  }

  /** A trimmed text is a piece of the input whose ends are kept characters. */
  lemma TrimShape(s: string, drop: char -> bool)
    ensures var t := Trim(s, drop);
      && (exists i, j :: 0 <= i <= j <= |s| && t == s[i..j])
      && (t == "" || (!drop(t[0]) && !drop(Last(t))))
  {
    TrimLeftShape(s, drop);
    TrimRightShape(TrimLeft(s, drop), drop);
    var l, t := TrimLeft(s, drop), Trim(s, drop);
    assert t == l[..|t|] == s[|s| - |l|..|s| - |l| + |t|];
  }

  lemma LowerTwice(s: string)
    ensures Lower(Lower(s)) == Lower(s)
  {
  }

  lemma CleanedShape(raw: string)
    ensures var t := Cleaned(raw); SlugChars(t) && (t == "" || (t[0] != '_' && Last(t) != '_'))
  {
    var s := Lower(Strip(raw));
    LowerTwice(Strip(raw));
    CollapseChars(s, false);
    TrimShape(Collapse(s, false), c => c == '_');
  }

  /** Every slug is the fallback or a non-empty text of at most 120 characters out of a-z, 0-9, "_" and "-". */
  lemma SlugNormalForm(raw: string, fallback: string)
    ensures var s := SafeSlug(raw, fallback); s == fallback || (SlugChars(s) && 1 <= |s| <= LIMIT && s[0] != '_')
  {
    CleanedShape(raw);
  }

  /** On slug characters cleaning only strips underscores. */
  lemma CleanedOfSlug(s: string)
    requires SlugChars(s)
    ensures Cleaned(s) == Trim(s, c => c == '_')
  {
    PlainText(s);
    CollapseFixed(s);
  }

  /** Stripping and lower-casing leave slug characters alone. */
  lemma PlainText(s: string)
    requires SlugChars(s)
    ensures Strip(s) == s && Lower(s) == s
  {
    if s != "" {
      assert IsSlugChar(s[0]) && IsSlugChar(Last(s));
    }
    forall i | 0 <= i < |s|
      ensures Lower(s)[i] == s[i]
    {
      assert IsSlugChar(s[i]);
    }
  }

  /** The cut at 120 characters does not end on an underscore. */
  predicate CutsCleanly(raw: string) {
    |Cleaned(raw)| <= LIMIT || Cleaned(raw)[LIMIT - 1] != '_'
  }

  predicate GoodFallback(fallback: string) {
    SafeSlug(fallback, fallback) == fallback
  }

  /** Normalising a second time changes nothing exactly when the cut is clean. */
  lemma SlugTwice(raw: string, fallback: string)
    requires GoodFallback(fallback)
    ensures SafeSlug(SafeSlug(raw, fallback), fallback) == SafeSlug(raw, fallback) <==> CutsCleanly(raw)
  {
    CleanedShape(raw);
    var cut := First(Cleaned(raw), LIMIT);
    if cut != "" {
      assert SlugChars(cut) && cut[0] == Cleaned(raw)[0];
      CleanedOfSlug(cut);
      TrimOfCut(cut);
      assert Last(cut) != '_' <==> CutsCleanly(raw);
    }
  }

  lemma TrimOfCut(cut: string)
    requires cut != "" && cut[0] != '_' && |cut| <= LIMIT
    ensures Trim(cut, c => c == '_') == cut <==> Last(cut) != '_'
    ensures Trim(cut, c => c == '_') != "" && |Trim(cut, c => c == '_')| <= |cut|
  {
    TrimRightShape(cut, c => c == '_');
    TrimRightKeeps(cut, c => c == '_');
  }

  lemma {:induction false} TrimRightKeeps(s: string, drop: char -> bool)
    requires s != "" && !drop(s[0])
    ensures TrimRight(s, drop) != ""
  {
    if drop(Last(s)) {
      TrimRightKeeps(Init(s), drop);
    }
  }

  /** A slug that does not end on an underscore is its own slug. */
  lemma PlainSlug(s: string, fallback: string)
    requires SlugChars(s) && 1 <= |s| <= LIMIT && s[0] != '_' && Last(s) != '_'
    ensures SafeSlug(s, fallback) == s
  {
    CleanedOfSlug(s);
    TrimOfCut(s);
  }

  lemma FallbackIsGood(fallback: string)
    requires SlugChars(fallback) && 1 <= |fallback| <= LIMIT && fallback[0] != '_' && Last(fallback) != '_'
    ensures GoodFallback(fallback)
  {
    PlainSlug(fallback, fallback);
  }

  // ----- what a slug is made of -----

  predicate Word(s: string) {
    s != "" && forall i :: 0 <= i < |s| ==> IsWord(s[i])
  }

  predicate Gap(s: string) {
    s != "" && forall i :: 0 <= i < |s| ==> !IsWord(s[i])
  }

  /** Words with a gap between each two. */
  function Phrase(words: seq<string>, gaps: seq<string>): string
    requires |words| == |gaps| + 1
  {
    if gaps == [] then words[0] else words[0] + gaps[0] + Phrase(words[1..], gaps[1..])
  }

  function Underscored(words: seq<string>): string {
    if words == [] then "" else if |words| == 1 then Lower(words[0]) else Lower(words[0]) + "_" + Underscored(words[1..])
  }

  /** The ASCII characters that str.strip removes. */
  predicate Blank(s: string) {
    forall i :: 0 <= i < |s| ==> s[i] as int in {9, 10, 11, 12, 13, 28, 29, 30, 31, 32}
  }

  lemma {:induction false} TrimLeftBlanks(pre: string, s: string)
    requires Blank(pre) && (s == "" || !IsSpace(s[0]))
    ensures TrimLeft(pre + s, c => IsSpace(c)) == s
  {
    if pre == "" {
      assert pre + s == s;
    } else {
      assert (pre + s)[0] == pre[0] && (pre + s)[1..] == pre[1..] + s;
      TrimLeftBlanks(pre[1..], s);
    }
  }

  lemma {:induction false} TrimRightBlanks(s: string, post: string)
    requires Blank(post) && (s == "" || !IsSpace(Last(s)))
    ensures TrimRight(s + post, c => IsSpace(c)) == s
  {
    if post == "" {
      assert s + post == s;
    } else {
      assert Last(s + post) == Last(post) && Init(s + post) == s + Init(post);
      TrimRightBlanks(s, Init(post));
    }
  }

  /** Blanks around a text do not matter, blanks inside stay. */
  lemma StripBlanks(pre: string, text: string, post: string)
    requires Blank(pre) && Blank(post) && text != "" && !Blank(text[..1]) && !Blank([Last(text)])
    ensures Strip(pre + text + post) == text
  {
    assert pre + text + post == pre + (text + post);
    assert text[..1] == [text[0]] && (text + post)[0] == text[0];
    TrimLeftBlanks(pre, text + post);
    TrimRightBlanks(text, post);
  }

  /** Capital letters move to the small ones, everything else stays. */
  lemma LowerLetters(s: string, i: nat)
    requires i < |s|
    ensures Lower(s)[i] == if s[i] in "ABCDEFGHIJKLMNOPQRSTUVWXYZ" then (s[i] as int + 32) as char else s[i]
  {
    CapitalsAreARange(s[i]);
  }

  lemma CapitalsAreARange(c: char)
    ensures c in "ABCDEFGHIJKLMNOPQRSTUVWXYZ" <==> 'A' <= c <= 'Z'
  {
    var capitals := "ABCDEFGHIJKLMNOPQRSTUVWXYZ";
    assert |capitals| == 26;
    assert forall k :: 0 <= k < 26 ==> capitals[k] == (65 + k) as char;
    if 'A' <= c <= 'Z' {
      assert capitals[c as int - 65] == c;
    }
  }

  lemma LowerConcat(a: string, b: string)
    ensures Lower(a + b) == Lower(a) + Lower(b)
  {
  }

  lemma LowerKeepsWords(s: string)
    ensures Word(s) ==> Word(Lower(s))
    ensures Gap(s) ==> Lower(s) == s
  {
  }

  lemma {:induction false} CollapseWord(word: string, rest: string, inRun: bool)
    requires Word(word)
    ensures Collapse(word + rest, inRun) == word + Collapse(rest, false)
  {
    assert (word + rest)[0] == word[0] && (word + rest)[1..] == word[1..] + rest;
    if |word| == 1 {
      assert word[1..] + rest == rest && word == [word[0]];
    } else {
      CollapseWord(word[1..], rest, false);
      assert word == [word[0]] + word[1..];
    }
  }

  lemma {:induction false} CollapseGap(gap: string, rest: string, inRun: bool)
    requires Gap(gap) && (rest == "" || IsWord(rest[0]))
    ensures Collapse(gap + rest, inRun) == (if inRun then "" else "_") + Collapse(rest, false)
  {
    assert (gap + rest)[0] == gap[0] && (gap + rest)[1..] == gap[1..] + rest;
    if |gap| == 1 {
      assert gap[1..] + rest == rest;
    } else {
      CollapseGap(gap[1..], rest, true);
    }
  }

  ghost predicate Words(words: seq<string>, gaps: seq<string>) {
    |words| == |gaps| + 1 && (forall i :: 0 <= i < |words| ==> Word(words[i])) && (forall i :: 0 <= i < |gaps| ==> Gap(gaps[i]))
  }

  lemma {:induction false} PhraseStart(words: seq<string>, gaps: seq<string>)
    requires Words(words, gaps) && words[0] != "" && Last(words) != ""
    ensures Phrase(words, gaps) != "" && IsWord(Phrase(words, gaps)[0]) && Phrase(words, gaps)[0] == words[0][0]
    ensures Last(Phrase(words, gaps)) == Last(Last(words))
  {
    assert Word(words[0]);
    if gaps != [] {
      assert Word(words[1]);
      PhraseStart(words[1..], gaps[1..]);
    }
  }

  lemma CollapseWordGap(word: string, gap: string, rest: string)
    requires Word(word) && Gap(gap) && rest != "" && IsWord(rest[0])
    ensures Collapse(Lower(word + gap + rest), false) == Lower(word) + "_" + Collapse(Lower(rest), false)
  {
    LowerKeepsWords(word);
    LowerKeepsWords(gap);
    LowerConcat(word, gap + rest);
    LowerConcat(gap, rest);
    assert word + gap + rest == word + (gap + rest);
    CollapseWord(Lower(word), gap + Lower(rest), false);
    CollapseGap(gap, Lower(rest), false);
    assert Lower(word) + ("_" + Collapse(Lower(rest), false)) == Lower(word) + "_" + Collapse(Lower(rest), false);
  }

  lemma {:induction false} CollapsePhrase(words: seq<string>, gaps: seq<string>)
    requires Words(words, gaps)
    ensures Collapse(Lower(Phrase(words, gaps)), false) == Underscored(words)
  {
    var word := words[0];
    assert Word(word);
    if gaps == [] {
      LowerKeepsWords(word);
      CollapseWord(Lower(word), "", false);
      assert Lower(word) + "" == Lower(word);
    } else {
      assert Word(words[1]) && Word(Last(words)) && Gap(gaps[0]);
      CollapsePhrase(words[1..], gaps[1..]);
      PhraseStart(words[1..], gaps[1..]);
      CollapseWordGap(word, gaps[0], Phrase(words[1..], gaps[1..]));
    }
  }

  lemma {:induction false} UnderscoredEnds(words: seq<string>)
    requires words != [] && words[0] != "" && Last(words) != "" && forall i :: 0 <= i < |words| ==> Word(words[i])
    ensures Underscored(words) != "" && Underscored(words)[0] == LowerChar(words[0][0])
    ensures Last(Underscored(words)) == LowerChar(Last(Last(words)))
  {
    assert Word(words[0]);
    if |words| > 1 {
      assert Word(words[1]) && Last(words[1..]) == Last(words);
      UnderscoredEnds(words[1..]);
    }
  }

  /** The slug of words with anything but words between them is the words in lower case joined by underscores, cut at 120. */
  lemma SlugOfWords(words: seq<string>, gaps: seq<string>, fallback: string)
    requires Words(words, gaps)
    requires words[0] != "" && words[0][0] != '_' && Last(words) != "" && Last(Last(words)) != '_'
    ensures SafeSlug(Phrase(words, gaps), fallback) == First(Underscored(words), 120)
  {
    var text := Phrase(words, gaps);
    PhraseStart(words, gaps);
    assert Word(Last(words));
    assert Strip(text) == text;
    CollapsePhrase(words, gaps);
    UnderscoredEnds(words);
    assert Trim(Underscored(words), c => c == '_') == Underscored(words);
  }

  /** A text without any word gives the fallback. */
  lemma NoWordsGiveFallback(text: string, fallback: string)
    requires text == "" || Gap(text)
    ensures SafeSlug(text, fallback) == fallback
  {
    var stripped := Strip(text);
    TrimShape(text, c => IsSpace(c));
    if stripped == "" {
      assert Cleaned(text) == "";
    } else {
      assert Gap(stripped);
      LowerKeepsWords(stripped);
      CollapseGap(stripped, "", false);
      assert stripped + "" == stripped;
      assert Trim("_", c => c == '_') == "";
    }
  }
}
