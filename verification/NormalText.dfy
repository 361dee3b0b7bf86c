/** What normalizing a name, a model or a serial does to it. */
module NormalText {
  import opened Documents

  function Letters(text: string): string {
    if text == "" then "" else (if IsSpace(text[0]) then "" else [text[0]]) + Letters(text[1..])
  }

  function Lowered(text: string): string {
    if text == "" then "" else [LowerChar(text[0])] + Lowered(text[1..])
  }

  /** Words set apart by single spaces, with nothing before the first or after the last. */
  predicate Neat(text: string) {
    && (text != "" ==> !IsSpace(text[0]) && !IsSpace(text[|text| - 1]))
    && (forall i | 0 <= i < |text| && IsSpace(text[i]) :: text[i] == ' ')
    && (forall i | 0 <= i < |text| - 1 && IsSpace(text[i]) :: !IsSpace(text[i + 1]))
  }

  lemma {:induction false} LettersJoin(a: string, b: string)
    ensures Letters(a + b) == Letters(a) + Letters(b)
  {
    if a == "" {
      assert a + b == b;
    } else {
      assert (a + b)[1..] == a[1..] + b;
      LettersJoin(a[1..], b);
    }
  }

  lemma {:induction false} LoweredJoin(a: string, b: string)
    ensures Lowered(a + b) == Lowered(a) + Lowered(b)
  {
    if a == "" {
      assert a + b == b;
    } else {
      assert (a + b)[1..] == a[1..] + b;
      LoweredJoin(a[1..], b);
    }
  }

  lemma {:induction false} WordTaken(text: string)
    ensures var word := TakeWord(text);
            && |word| <= |text| && word == Letters(word) == Lowered(Letters(text[..|word|]))
            && (forall i | 0 <= i < |word| :: !IsSpace(word[i]))
            && (|word| < |text| ==> IsSpace(text[|word|]))
  {
    if text != "" && !IsSpace(text[0]) {
      WordTaken(text[1..]);
      var word := TakeWord(text);
      assert word[1..] == TakeWord(text[1..]);
      assert text[..|word|][1..] == text[1..][..|word| - 1];
      assert !IsSpace(LowerChar(text[0]));
    }
  }

  lemma {:induction false} SpaceSkipped(text: string)
    ensures Letters(SkipSpace(text)) == Letters(text)
    ensures SkipSpace(text) != "" ==> !IsSpace(SkipSpace(text)[0])
  {
    if text != "" && IsSpace(text[0]) { SpaceSkipped(text[1..]); }
  }

  /** One word of a normalization, and what follows it. */
  lemma NormalizeStep(text: string, gap: bool) returns (word: string, rest: string, tail: string)
    requires text != "" && !IsSpace(text[0])
    ensures word == TakeWord(text) && 0 < |word| <= |text| && rest == text[|word|..] && |rest| < |text|
    ensures tail == NormalizeFrom(rest, true)
    ensures NormalizeFrom(text, gap) == if gap then " " + (word + tail) else word + tail
    ensures Letters(word) == Lowered(Letters(text[..|word|])) && text == text[..|word|] + rest
    ensures forall i | 0 <= i < |word| :: !IsSpace(word[i])
  {
    WordTaken(text);
    word := TakeWord(text);
    rest := text[|word|..];
    Split(text, |word|);
    tail := NormalizeFrom(rest, true);
    NormalizeUnfolds(text, gap, word, tail);
  }

  lemma Split(text: string, n: nat)
    requires n <= |text|
    ensures text == text[..n] + text[n..]
  {
  }

  lemma NormalizeUnfolds(text: string, gap: bool, word: string, tail: string)
    requires text != "" && !IsSpace(text[0]) && word == TakeWord(text) && tail == NormalizeFrom(text[|word|..], true)
    ensures NormalizeFrom(text, gap) == if gap then " " + (word + tail) else word + tail
  {
    if gap { Regroup(" ", word, tail); } else { Regroup("", word, tail); }
  }

  lemma Regroup(a: string, b: string, c: string)
    ensures a + b + c == a + (b + c)
    ensures a == "" ==> a + (b + c) == b + c
  {
  }

  /** Normalizing keeps the letters of a text and their order, in lower case. */
  lemma {:induction false} NormalizeKeepsLetters(text: string, gap: bool)
    ensures Letters(NormalizeFrom(text, gap)) == Lowered(Letters(text))
    decreases |text|
  {
    if text != "" && IsSpace(text[0]) {
      SpaceSkipped(text);
      NormalizeKeepsLetters(SkipSpace(text), gap);
    } else if text != "" {
      var word, rest, tail := NormalizeStep(text, gap);
      NormalizeKeepsLetters(rest, true);
      LettersJoin(text[..|word|], rest);
      LoweredJoin(Letters(text[..|word|]), Letters(rest));
      LettersJoin(word, tail);
      if gap {
        LettersJoin(" ", word + tail);
        assert Letters(" ") == "";
      }
    }
  }

  /** What follows a word is nothing, or one space and then neat text. */
  lemma {:induction false} NormalizeIsNeat(text: string, gap: bool)
    ensures var neat := NormalizeFrom(text, gap);
            if gap then neat == "" || (|neat| > 1 && neat[0] == ' ' && Neat(neat[1..])) else Neat(neat)
    decreases |text|
  {
    if text != "" && IsSpace(text[0]) {
      NormalizeIsNeat(SkipSpace(text), gap);
    } else if text != "" {
      var word, rest, tail := NormalizeStep(text, gap);
      NormalizeIsNeat(rest, true);
      NeatJoin(word, tail);
      if gap { assert (" " + (word + tail))[1..] == word + tail; }
    }
  }

  lemma NeatJoin(word: string, tail: string)
    requires word != "" && forall i | 0 <= i < |word| :: !IsSpace(word[i])
    requires tail == "" || (|tail| > 1 && tail[0] == ' ' && Neat(tail[1..]))
    ensures Neat(word + tail)
  {
    var text := word + tail;
    forall i | 0 <= i < |text| && IsSpace(text[i]) ensures text[i] == ' ' && (i < |text| - 1 ==> !IsSpace(text[i + 1])) {
      assert i >= |word|;
      if i > |word| {
        assert tail[1..][i - |word| - 1] == text[i];
        if i < |text| - 1 { assert tail[1..][i - |word|] == text[i + 1]; }
      } else {
        assert text[i + 1] == tail[1..][0];
      }
    }
    if tail != "" { assert text[|text| - 1] == tail[1..][|tail| - 2]; }
  }

  /** A normalized text is the original's letters in lower case, as words one space apart. */
  lemma NormalizeIsExact(text: string)
    ensures Neat(NormalizeText(text)) && Letters(NormalizeText(text)) == Lowered(Letters(text))
  {
    NormalizeIsNeat(text, false);
    NormalizeKeepsLetters(text, false);
  }
}
