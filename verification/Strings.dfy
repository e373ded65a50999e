/** String helpers of the runtime; only ASCII letters have a case. */
module Strings {

  predicate Capital(c: char) {
    'A' <= c <= 'Z'
  }

  function LowerChar(c: char): char {
    if Capital(c) then c + 32 as char else c
  }

  function Lower(s: string): (r: string)
    ensures |r| == |s| && forall k :: 0 <= k < |r| ==> r[k] == LowerChar(s[k])
  {
    seq(|s|, k requires 0 <= k < |s| => LowerChar(s[k]))
  }

  /** White space and line ends, as trimming and patterns understand them. */
  predicate Blank(c: char) {
    var code := c as int;
    9 <= code <= 13 || 0x2000 <= code <= 0x200a ||
    code in {0x20, 0xa0, 0x1680, 0x2028, 0x2029, 0x202f, 0x205f, 0x3000, 0xfeff}
  }

  function Trim(s: string): string {
    if |s| > 0 && Blank(s[0]) then Trim(s[1..])
    else if |s| > 0 && Blank(s[|s| - 1]) then Trim(s[..|s| - 1])
    else s
  }

  predicate AllBlank(s: string) {
    forall k | 0 <= k < |s| :: Blank(s[k])
  }

  /** The text from `i` to `j`, with nothing but blanks around it and none at its ends. */
  predicate Core(s: string, i: nat, j: nat) {
    && i <= j <= |s| && AllBlank(s[..i]) && AllBlank(s[j..])
    && (i < j ==> !Blank(s[i]) && !Blank(s[j - 1]))
  }

  /** Trimming leaves the core of a text. */
  lemma {:induction false} TrimIsCore(s: string) returns (i: nat, j: nat)
    ensures Core(s, i, j) && Trim(s) == s[i..j]
  {
    if |s| > 0 && Blank(s[0]) {
      i, j := TrimIsCore(s[1..]);
      assert s[..i + 1] == [s[0]] + s[1..][..i] && s[j + 1..] == s[1..][j..] && s[1..][i..j] == s[i + 1..j + 1];
      i, j := i + 1, j + 1;
    } else if |s| > 0 && Blank(s[|s| - 1]) {
      i, j := TrimIsCore(s[..|s| - 1]);
      assert s[j..] == s[..|s| - 1][j..] + [s[|s| - 1]] && s[..i] == s[..|s| - 1][..i];
    } else {
      i, j := 0, |s|;
    }
  }

  lemma CoreIsBlank(s: string, i: nat, j: nat)
    requires Core(s, i, j)
    ensures i == j <==> AllBlank(s)
  {
    if i == j {
      assert s == s[..i] + s[j..];
    } else {
      assert !Blank(s[i]);
    }
  }

  lemma BlankAround(s: string, i: nat, j: nat)
    requires Core(s, i, j)
    ensures forall m :: 0 <= m < i || j <= m < |s| ==> Blank(s[m])
  {
    hide Blank;
    forall m | 0 <= m < i || j <= m < |s|
      ensures Blank(s[m])
    {
      assert if m < i then s[m] == s[..i][m] else s[m] == s[j..][m - j];
    }
  }

  lemma CoreIsOne(s: string, i: nat, j: nat, k: nat, l: nat)
    requires Core(s, i, j) && Core(s, k, l) && i < j && k < l
    ensures i == k && j == l
  {
    hide Blank;
    BlankAround(s, i, j);
    BlankAround(s, k, l);
  }

  /** A text without anything but blanks trims to nothing, and nothing else does. */
  lemma TrimsToNothing(s: string)
    ensures Trim(s) == "" <==> AllBlank(s)
  {
    var i, j := TrimIsCore(s);
    CoreIsBlank(s, i, j);
  }

  /** A letter, in either case, or any other character as it is. */
  predicate SameLetter(c: char, w: char) {
    c == w || ('a' <= w <= 'z' && c as int == w as int - 32)
  }

  /** The text is the word, in any letter case and with blanks around it. */
  ghost predicate Spells(text: string, word: string) {
    exists i: nat :: SpellsAt(text, word, i)
  }

  predicate SpellsAt(text: string, word: string, i: nat) {
    && i + |word| <= |text|
    && AllBlank(text[..i]) && AllBlank(text[i + |word|..])
    && forall k | 0 <= k < |word| :: SameLetter(text[i + k], word[k])
  }

  /** A word in lower case, without blanks at its ends. */
  predicate IsWord(word: string) {
    |word| > 0 && !Blank(word[0]) && !Blank(word[|word| - 1]) && forall k | 0 <= k < |word| :: !Capital(word[k])
  }

  lemma LowerKeepsBlank(c: char)
    ensures Blank(LowerChar(c)) <==> Blank(c)
    ensures forall w: char :: !Capital(w) ==> (SameLetter(c, w) <==> LowerChar(c) == w)
  {
  }

  lemma LowerBlank(s: string)
    ensures AllBlank(Lower(s)) <==> AllBlank(s)
  {
    forall k | 0 <= k < |s|
      ensures Blank(Lower(s)[k]) <==> Blank(s[k])
    {
      LowerKeepsBlank(s[k]);
    }
  }

  lemma LowerSlices(s: string, i: nat, j: nat)
    requires i <= j <= |s|
    ensures Lower(s)[i..j] == Lower(s[i..j])
  {
  }

  lemma SpelledIsTrimmed(text: string, word: string, i: nat)
    requires IsWord(word) && SpellsAt(text, word, i)
    ensures Trim(Lower(text)) == word
  {
    var s, j := Lower(text), i + |word|;
    forall k | 0 <= k < |word|
      ensures s[i + k] == word[k]
    {
      LowerKeepsBlank(text[i + k]);
    }
    assert s[i..j] == word;
    LowerSlices(text, 0, i);
    LowerSlices(text, j, |text|);
    LowerBlank(text[..i]);
    LowerBlank(text[j..]);
    assert text[0..i] == text[..i] && s[0..i] == s[..i] && text[j..|text|] == text[j..] && s[j..|text|] == s[j..];
    assert Core(s, i, j);
    var a, b := TrimIsCore(s);
    CoreIsBlank(s, i, j);
    CoreIsBlank(s, a, b);
    CoreIsOne(s, i, j, a, b);
  }

  /** Lower-casing and trimming a text gives the word exactly when the text spells it. */
  lemma SpellsMeans(text: string, word: string)
    requires IsWord(word)
    ensures Trim(Lower(text)) == word <==> Spells(text, word)
  {
    if Trim(Lower(text)) == word {
      var s := Lower(text);
      var i, j := TrimIsCore(s);
      LowerSlices(text, 0, i);
      LowerSlices(text, j, |text|);
      LowerBlank(text[..i]);
      LowerBlank(text[j..]);
      assert text[0..i] == text[..i] && s[0..i] == s[..i] && text[j..|text|] == text[j..] && s[j..|text|] == s[j..];
      forall k | 0 <= k < |word|
        ensures SameLetter(text[i + k], word[k])
      {
        assert s[i..j][k] == s[i + k];
        LowerKeepsBlank(text[i + k]);
      }
      assert SpellsAt(text, word, i);
    }
    if i: nat :| SpellsAt(text, word, i) {
      SpelledIsTrimmed(text, word, i);
    }
  }
}
