/** The scoring rule of a turn. */
module Scoring {

  /** The white space that is trimmed: Unicode's White_Space property. */
  predicate IsSpace(c: char) {
    var n := c as int;
    || 9 <= n <= 13 || n == 0x20 || n == 0x85 || n == 0xa0 || n == 0x1680 || 0x2000 <= n <= 0x200a
    || n == 0x2028 || n == 0x2029 || n == 0x202f || n == 0x205f || n == 0x3000
  }

  predicate Blank(s: string) {
    forall c :: c in s ==> IsSpace(c)
  }

  function TrimLeft(s: string): string {
    if s != [] && IsSpace(s[0]) then TrimLeft(s[1..]) else s
  }

  function TrimRight(s: string): string {
    if s != [] && IsSpace(s[|s| - 1]) then TrimRight(s[..|s| - 1]) else s
  }

  /** Lower case as far as it can matter: no other letter becomes one of the words'. */
  function LowerCase(c: char): char {
    if 'A' <= c <= 'Z' then (c as int + 32) as char else c
  }

  function Lower(s: string): string {
    seq(|s|, i requires 0 <= i < |s| => LowerCase(s[i]))
  }

  function Normal(word: string): string {
    Lower(TrimRight(TrimLeft(word)))
  }

  /** The points of a word and what is said about it. */
  function ScoreWord(word: string): (score: (int, string))
    ensures -1 <= score.0 <= 1
  {
    match Normal(word)
    case "cat" => (1, "Good human")
    case "dog" => (-1, "Bad human")
    case "" => (0, "Silent human")
    case "cog" => (0, "what?")
    case "dat" => (0, "what?")
    case _ => (0, "Unintelligible human")
  }

  predicate IsStatusWord(word: string) {
    Normal(word) == "status"
  }

  lemma {:induction false} TrimLeftPad(pad: string, s: string)
    requires Blank(pad)
    ensures TrimLeft(pad + s) == TrimLeft(s)
  {
    if pad == [] {
      assert pad + s == s;
    } else {
      assert (pad + s)[1..] == pad[1..] + s;
      TrimLeftPad(pad[1..], s);
    }
  }

  lemma {:induction false} TrimRightPad(s: string, pad: string)
    requires Blank(pad)
    ensures TrimRight(s + pad) == TrimRight(s)
    decreases |pad|
  {
    if pad == [] {
      assert s + pad == s;
    } else {
      var n := |pad| - 1;
      assert (s + pad)[..|s + pad| - 1] == s + pad[..n];
      TrimRightPad(s, pad[..n]);
    }
  }

  lemma {:induction false} TrimLeftBefore(s: string, pad: string)
    requires Blank(pad)
    ensures TrimLeft(s + pad) == if TrimLeft(s) == [] then [] else TrimLeft(s) + pad
  {
    if s == [] {
      TrimLeftPad(pad, []);
      assert s + pad == pad + [];
    } else if IsSpace(s[0]) {
      assert (s + pad)[1..] == s[1..] + pad;
      TrimLeftBefore(s[1..], pad);
    } else {
      assert (s + pad)[0] == s[0];
    }
  }

  /** White space around a word, and the case of its letters, make no difference. */
  lemma ScoreIgnoresForm(before: string, word: string, after: string, other: string)
    requires Blank(before) && Blank(after) && Lower(word) == Lower(other)
    requires Trimmed(word) && Trimmed(other)
    ensures ScoreWord(before + word + after) == ScoreWord(other)
    ensures IsStatusWord(before + word + after) <==> IsStatusWord(other)
  {
    NormalIgnoresPad(before, word, after);
    hide Lower;
    assert Normal(other) == Lower(other);
    assert Normal(before + word + after) == Normal(other);
    hide Normal;
  }

  lemma NormalIgnoresPad(before: string, word: string, after: string)
    requires Blank(before) && Blank(after) && Trimmed(word)
    ensures Normal(before + word + after) == Lower(word)
  {
    hide Lower;
    assert before + word + after == before + (word + after);
    TrimLeftPad(before, word + after);
    TrimLeftBefore(word, after);
    if word != [] {
      TrimRightPad(word, after);
    }
  }

  /** A word without white space at either end. */
  predicate Trimmed(w: string) {
    w == "" || (!IsSpace(w[0]) && !IsSpace(w[|w| - 1]))
  }

  /** `w` is what is left of the input without the white space around it. */
  ghost predicate Core(word: string, w: string) {
    Trimmed(w) && exists before, after :: Blank(before) && Blank(after) && word == before + w + after
  }

  /** What the rule of the game says of a lower-case word: cat is worth a point, dog
      costs one, and nothing else counts. */
  predicate Rule(w: string, delta: int, text: string) {
    && (w == "cat" ==> delta == 1 && text == "Good human")
    && (w == "dog" ==> delta == -1 && text == "Bad human")
    && (w != "cat" && w != "dog" ==> delta == 0)
    && (w == "" ==> text == "Silent human")
    && (w == "cog" || w == "dat" ==> text == "what?")
    && (w !in {"cat", "dog", "", "cog", "dat"} ==> text == "Unintelligible human")
  }

  /** Every input is scored as the rule says of its core in lower case, and asks for the
      score exactly when that is "status". */
  lemma ScoreIsRight(word: string, w: string)
    requires Core(word, w)
    ensures Rule(Lower(w), ScoreWord(word).0, ScoreWord(word).1)
    ensures IsStatusWord(word) <==> Lower(w) == "status"
  {
    var before, after :| Blank(before) && Blank(after) && word == before + w + after;
    NormalIgnoresPad(before, w, after);
    hide Lower, Normal;
    assert Normal(word) == Lower(w);
    RuleOf(word);
  }

  lemma RuleOf(word: string)
    ensures Rule(Normal(word), ScoreWord(word).0, ScoreWord(word).1)
  {
    hide Normal;
  }

  /** Every input has such a core. */
  lemma SomeCore(word: string) returns (w: string)
    ensures Core(word, w)
  {
    var a := LeftSpace(word);
    var b := RightSpace(TrimLeft(word));
    w := TrimRight(TrimLeft(word));
    assert word == a + w + b;
  }

  lemma {:induction false} LeftSpace(s: string) returns (pad: string)
    ensures Blank(pad) && s == pad + TrimLeft(s)
    ensures TrimLeft(s) == "" || !IsSpace(TrimLeft(s)[0])
  {
    if s != "" && IsSpace(s[0]) {
      pad := LeftSpace(s[1..]);
      pad := [s[0]] + pad;
    } else {
      pad := "";
    }
  }

  lemma {:induction false} RightSpace(s: string) returns (pad: string)
    ensures Blank(pad) && s == TrimRight(s) + pad
    ensures TrimRight(s) == "" || (!IsSpace(TrimRight(s)[|TrimRight(s)| - 1]) && TrimRight(s)[0] == s[0])
    decreases |s|
  {
    if s != "" && IsSpace(s[|s| - 1]) {
      pad := RightSpace(s[..|s| - 1]);
      pad := pad + [s[|s| - 1]];
    } else {
      pad := "";
    }
  }

  /** The 26 letters that have a lower case here, and no other character. */
  lemma LowerIs(c: char)
    ensures var upper, lower := "ABCDEFGHIJKLMNOPQRSTUVWXYZ", "abcdefghijklmnopqrstuvwxyz";
      && (forall i :: 0 <= i < 26 ==> LowerCase(upper[i]) == lower[i])
      && (c !in upper ==> LowerCase(c) == c)
  {
    var upper := "ABCDEFGHIJKLMNOPQRSTUVWXYZ";
    if 'A' <= c <= 'Z' {
      assert upper[c as int - 65] == c;
    }
  }

  /** The 25 characters that are trimmed, and no other. */
  lemma SpacesAre(c: char)
    ensures IsSpace(c) <==> c as int in {
      0x09, 0x0a, 0x0b, 0x0c, 0x0d, 0x20, 0x85, 0xa0, 0x1680, 0x2000, 0x2001, 0x2002, 0x2003, 0x2004, 0x2005,
      0x2006, 0x2007, 0x2008, 0x2009, 0x200a, 0x2028, 0x2029, 0x202f, 0x205f, 0x3000}
  {
  }
}
