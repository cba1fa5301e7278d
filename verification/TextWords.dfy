/** Normalised text and its words: what the zone matcher compares, and what its string
    functions compute, said of the text itself. */
module TextWords {
  import opened Strings

  // ----- normalised text -----

  /** What NFD, dropping diacritics and lower-casing make of one character. */
  type Folding = char -> string

  function FoldAll(fold: Folding, s: string): string {
    if s == [] then [] else fold(s[0]) + FoldAll(fold, s[1..])
  }

  /** Every run of blanks becomes one space. */
  function CollapseBlanks(s: string): string {
    if s == [] then []
    else if !IsBlank(s[0]) then [s[0]] + CollapseBlanks(s[1..])
    else if |s| >= 2 && IsBlank(s[1]) then CollapseBlanks(s[1..])
    else [' '] + CollapseBlanks(s[1..])
  }

  function NormalizeText(fold: Folding, s: string): string { CollapseBlanks(Trim(FoldAll(fold, s))) }

  /** The maximal non-empty runs of characters that satisfy `inWord`. */
  function Words(s: string, inWord: char -> bool): seq<string> { WordsFrom(s, inWord, "") }

  function WordsFrom(s: string, inWord: char -> bool, open: string): seq<string> {
    if s == [] then (if open == "" then [] else [open])
    else if inWord(s[0]) then WordsFrom(s[1..], inWord, open + [s[0]])
    else (if open == "" then [] else [open]) + WordsFrom(s[1..], inWord, "")
  }

  predicate NotBlank(c: char) { !IsBlank(c) }

  // ----- words are the runs of the text -----

  predicate AllIn(s: string, inWord: char -> bool) { forall i :: 0 <= i < |s| ==> inWord(s[i]) }

  predicate NoneIn(s: string, inWord: char -> bool) { forall i :: 0 <= i < |s| ==> !inWord(s[i]) }

  /** A non-empty stretch of word characters with none on either side. */
  predicate IsRun(s: string, i: nat, j: nat, inWord: char -> bool) {
    && i < j <= |s| && (forall k :: i <= k < j ==> inWord(s[k]))
    && (i > 0 ==> !inWord(s[i - 1])) && (j < |s| ==> !inWord(s[j]))
  }

  ghost predicate RunFrom(s: string, m: nat, inWord: char -> bool, w: string) {
    exists i: nat, j: nat :: m <= i && IsRun(s, i, j, inWord) && w == s[i..j]
  }

  /** The run that starts at `m` ends where the stretch of word characters does. */
  lemma RunAt(s: string, m: nat, k: nat, inWord: char -> bool, i: nat, j: nat)
    requires m <= k <= |s| && (forall x :: m <= x < k ==> inWord(s[x])) && (k < |s| ==> !inWord(s[k]))
    requires m <= i && IsRun(s, i, j, inWord)
    ensures (i == m && j == k) || (k < |s| && i >= k + 1)
  {
    if i < k {
      assert j < |s| ==> !inWord(s[j]);
      assert k < |s| ==> !inWord(s[k]);
    }
  }

  lemma {:induction false} WordsFromAreRuns(s: string, m: nat, k: nat, inWord: char -> bool, w: string)
    requires m <= k <= |s| && (forall x :: m <= x < k ==> inWord(s[x])) && (m > 0 ==> !inWord(s[m - 1]))
    ensures w in WordsFrom(s[k..], inWord, s[m..k]) <==> RunFrom(s, m, inWord, w)
    decreases |s| - k
  {
    if k < |s| && inWord(s[k]) {
      assert s[m..k] + [s[k]] == s[m..k + 1] && s[k..][1..] == s[k + 1..];
      WordsFromAreRuns(s, m, k + 1, inWord, w);
    } else {
      if m < k { assert IsRun(s, m, k, inWord); }
      forall i: nat, j: nat | m <= i && IsRun(s, i, j, inWord)
        ensures (m < k && i == m && j == k) || (k < |s| && i >= k + 1)
      {
        RunAt(s, m, k, inWord, i, j);
      }
      if k < |s| {
        assert s[k..][1..] == s[k + 1..] && s[k + 1..k + 1] == "";
        WordsFromAreRuns(s, k + 1, k + 1, inWord, w);
      }
    }
  }

  /** The words of a text are exactly its maximal runs of word characters. */
  lemma WordsAreRuns(s: string, inWord: char -> bool, w: string)
    ensures w in Words(s, inWord) <==> exists i: nat, j: nat :: IsRun(s, i, j, inWord) && w == s[i..j]
  {
    assert s[0..] == s && s[0..0] == "";
    WordsFromAreRuns(s, 0, 0, inWord, w);
    if i: nat, j: nat :| IsRun(s, i, j, inWord) && w == s[i..j] { assert RunFrom(s, 0, inWord, w); }
  }

  // ----- nothing is lost, and what is written with gaps is read back -----

  function Flatten(words: seq<string>): string { if words == [] then "" else words[0] + Flatten(words[1..]) }

  /** The word characters of a text, in order. */
  function Kept(s: string, inWord: char -> bool): string {
    if s == [] then "" else (if inWord(s[0]) then [s[0]] else "") + Kept(s[1..], inWord)
  }

  lemma {:induction false} WordsFromKeep(s: string, inWord: char -> bool, open: string)
    requires AllIn(open, inWord)
    ensures Flatten(WordsFrom(s, inWord, open)) == open + Kept(s, inWord)
    ensures forall w :: w in WordsFrom(s, inWord, open) ==> w != "" && AllIn(w, inWord)
    decreases |s|
  {
    if s == [] {
      assert open + "" == open && Flatten([]) == "";
      if open != "" { assert [open][1..] == [] && Flatten([open]) == open + Flatten([]); }
    } else if inWord(s[0]) {
      WordsFromKeep(s[1..], inWord, open + [s[0]]);
      assert (open + [s[0]]) + Kept(s[1..], inWord) == open + ([s[0]] + Kept(s[1..], inWord));
    } else {
      var rest := WordsFrom(s[1..], inWord, "");
      WordsFromKeep(s[1..], inWord, "");
      assert "" + Kept(s[1..], inWord) == Kept(s[1..], inWord);
      if open == "" {
        assert [] + rest == rest && open + Kept(s, inWord) == Kept(s, inWord);
      } else {
        assert ([open] + rest)[1..] == rest;
      }
    }
  }

  /** Every word is a non-empty one of word characters, and end to end the words are all the
      word characters of the text in order. */
  lemma WordsKeepEverything(s: string, inWord: char -> bool)
    ensures Flatten(Words(s, inWord)) == Kept(s, inWord)
    ensures forall w :: w in Words(s, inWord) ==> w != "" && AllIn(w, inWord)
  {
    WordsFromKeep(s, inWord, "");
    assert "" + Kept(s, inWord) == Kept(s, inWord);
  }

  lemma {:induction false} WordThenGap(w: string, gap: string, rest: string, inWord: char -> bool, open: string)
    requires AllIn(w, inWord) && NoneIn(gap, inWord) && (gap == "" ==> rest == "")
    ensures WordsFrom(w + gap + rest, inWord, open)
            == (if open + w == "" then [] else [open + w]) + WordsFrom(rest, inWord, "")
    decreases |w|
  {
    if w == "" {
      assert w + gap + rest == gap + rest && open + w == open;
      GapSkipped(gap, rest, inWord, open);
    } else {
      var all := w + gap + rest;
      assert all[0] == w[0] && all[1..] == w[1..] + gap + rest && (open + [w[0]]) + w[1..] == open + w;
      WordThenGap(w[1..], gap, rest, inWord, open + [w[0]]);
    }
  }

  lemma {:induction false} GapSkipped(gap: string, rest: string, inWord: char -> bool, open: string)
    requires NoneIn(gap, inWord) && (gap == "" ==> open == "" || rest == "")
    ensures WordsFrom(gap + rest, inWord, open) == (if open == "" then [] else [open]) + WordsFrom(rest, inWord, "")
    decreases |gap|
  {
    if gap == "" {
      assert gap + rest == rest;
    } else {
      assert (gap + rest)[0] == gap[0] && (gap + rest)[1..] == gap[1..] + rest;
      GapSkipped(gap[1..], rest, inWord, "");
    }
  }

  /** The words with a gap after each one. */
  function Spaced(words: seq<string>, gaps: seq<string>): string
    requires |gaps| == |words|
  {
    if words == [] then "" else words[0] + gaps[0] + Spaced(words[1..], gaps[1..])
  }

  predicate AreGaps(gaps: seq<string>, inWord: char -> bool) {
    forall k :: 0 <= k < |gaps| ==> NoneIn(gaps[k], inWord) && (gaps[k] == "" ==> k == |gaps| - 1)
  }

  /** Words written with separators around and between them are read back. */
  lemma {:induction false} WordsReadBack(first: string, words: seq<string>, gaps: seq<string>, inWord: char -> bool)
    requires |gaps| == |words| && AreGaps(gaps, inWord) && NoneIn(first, inWord)
    requires forall w :: w in words ==> w != "" && AllIn(w, inWord)
    ensures Words(first + Spaced(words, gaps), inWord) == words
    decreases |words|
  {
    GapSkipped(first, Spaced(words, gaps), inWord, "");
    if words != [] {
      var rest := Spaced(words[1..], gaps[1..]);
      assert words[0] in words && words == [words[0]] + words[1..] && "" + words[0] == words[0];
      WordThenGap(words[0], gaps[0], rest, inWord, "");
      assert forall w :: w in words[1..] ==> w in words;
      WordsReadBack("", words[1..], gaps[1..], inWord);
      assert "" + rest == rest;
    }
  }

  // ----- normalised text is the words of the folded text, one space between them -----

  function Joined(words: seq<string>): string {
    if words == [] then "" else if |words| == 1 then words[0] else words[0] + [' '] + Joined(words[1..])
  }

  lemma {:induction false} CollapseJoins(s: string, open: string)
    requires s != "" ==> !IsBlank(s[|s| - 1]) && (open != "" || !IsBlank(s[0]))
    ensures open + CollapseBlanks(s) == Joined(WordsFrom(s, NotBlank, open))
    decreases |s|
  {
    if s == "" {
      assert open + "" == open;
    } else if !IsBlank(s[0]) {
      assert open + ([s[0]] + CollapseBlanks(s[1..])) == (open + [s[0]]) + CollapseBlanks(s[1..]);
      CollapseJoins(s[1..], open + [s[0]]);
    } else if IsBlank(s[1]) {
      CollapseJoins(s[1..], open);
      assert s[1..][0] == s[1] && s[1..][1..] == s[2..];
      assert [] + WordsFrom(s[2..], NotBlank, "") == WordsFrom(s[2..], NotBlank, "");
    } else {
      var rest := WordsFrom(s[1..], NotBlank, "");
      CollapseJoins(s[1..], "");
      assert "" + CollapseBlanks(s[1..]) == CollapseBlanks(s[1..]);
      SomeWord(s[1..], "");
      assert ([open] + rest)[1..] == rest;
      assert open + ([' '] + CollapseBlanks(s[1..])) == open + [' '] + Joined(rest);
    }
  }

  lemma {:induction false} SomeWord(s: string, open: string)
    requires open != "" || (s != "" && !IsBlank(s[0]))
    ensures WordsFrom(s, NotBlank, open) != []
    decreases |s|
  {
    if s != "" && !IsBlank(s[0]) { SomeWord(s[1..], open + [s[0]]); }
  }

  lemma {:induction false} TrimStartKeepsWords(s: string)
    ensures Words(TrimStart(s), NotBlank) == Words(s, NotBlank)
    decreases |s|
  {
    if s != [] && IsBlank(s[0]) {
      TrimStartKeepsWords(s[1..]);
      assert [] + Words(s[1..], NotBlank) == Words(s[1..], NotBlank);
    }
  }

  lemma {:induction false} TrimEndKeepsWords(s: string)
    ensures Words(TrimEnd(s), NotBlank) == Words(s, NotBlank)
    decreases |s|
  {
    if s != [] && IsBlank(s[|s| - 1]) {
      var front, c := s[..|s| - 1], s[|s| - 1];
      TrimEndKeepsWords(front);
      BlankAtEnd(front, c, "");
      assert s == front + [c];
    }
  }

  lemma {:induction false} TrimStartCuts(s: string) returns (n: nat)
    ensures n <= |s| && TrimStart(s) == s[n..] && AllBlank(s[..n]) && (n < |s| ==> !IsBlank(s[n]))
    decreases |s|
  {
    n := 0;
    if s != [] && IsBlank(s[0]) {
      var m := TrimStartCuts(s[1..]);
      n := m + 1;
      assert s[..n] == [s[0]] + s[1..][..m];
    }
  }

  lemma {:induction false} TrimEndCuts(s: string) returns (n: nat)
    ensures n <= |s| && TrimEnd(s) == s[..n] && AllBlank(s[n..]) && (n > 0 ==> !IsBlank(s[n - 1]))
    decreases |s|
  {
    n := |s|;
    if s != [] && IsBlank(s[|s| - 1]) {
      var front := s[..|s| - 1];
      n := TrimEndCuts(front);
      assert s[n..] == front[n..] + [s[|s| - 1]];
    }
  }

  lemma {:induction false} BlankAtEnd(s: string, c: char, open: string)
    requires IsBlank(c)
    ensures WordsFrom(s + [c], NotBlank, open) == WordsFrom(s, NotBlank, open)
    decreases |s|
  {
    var all := s + [c];
    if s == [] {
      assert all[0] == c && all[1..] == [];
    } else {
      assert all[0] == s[0] && all[1..] == s[1..] + [c];
      BlankAtEnd(s[1..], c, if IsBlank(s[0]) then "" else open + [s[0]]);
    }
  }

  /** Trimming takes the blanks at both ends away and nothing else. */
  lemma TrimmedIsInside(s: string) returns (i: nat, j: nat)
    ensures i <= j <= |s| && Trim(s) == s[i..j] && AllBlank(s[..i]) && AllBlank(s[j..])
    ensures i < j ==> !IsBlank(s[i]) && !IsBlank(s[j - 1])
  {
    i := TrimStartCuts(s);
    var n := TrimEndCuts(s[i..]);
    j := i + n;
    assert s[i..][..n] == s[i..j] && s[i..][n..] == s[j..];
    assert n > 0 ==> s[i..][n - 1] == s[j - 1];
    assert n == 0 && i < |s| ==> s[j..][0] == s[i];
  }

  lemma TrimKeepsWords(s: string)
    ensures Words(Trim(s), NotBlank) == Words(s, NotBlank)
  {
    TrimStartKeepsWords(s);
    TrimEndKeepsWords(TrimStart(s));
  }

  /** Normalised text is the words of the folded text with one space between them. */
  lemma NormalizedIsJoined(fold: Folding, s: string)
    ensures NormalizeText(fold, s) == Joined(Words(FoldAll(fold, s), NotBlank))
  {
    var t := FoldAll(fold, s);
    var i, j := TrimmedIsInside(t);
    TrimKeepsWords(t);
    CollapseJoins(Trim(t), "");
    assert "" + CollapseBlanks(Trim(t)) == CollapseBlanks(Trim(t));
  }

  /** No blank at either end, and no two in a row. */
  predicate SingleSpaced(s: string) {
    && (s != "" ==> !IsBlank(s[0]) && !IsBlank(s[|s| - 1]))
    && (forall i :: 0 <= i < |s| && IsBlank(s[i]) ==> s[i] == ' ')
    && (forall i :: 0 <= i < |s| - 1 && IsBlank(s[i]) ==> !IsBlank(s[i + 1]))
  }

  lemma {:induction false} JoinedIsSingleSpaced(words: seq<string>)
    requires forall w :: w in words ==> w != "" && AllIn(w, NotBlank)
    ensures SingleSpaced(Joined(words)) && (words != [] ==> Joined(words) != "")
    decreases |words|
  {
    if words != [] {
      assert words[0] in words;
      assert forall i :: 0 <= i < |words[0]| ==> NotBlank(words[0][i]);
      if |words| > 1 {
        assert forall w :: w in words[1..] ==> w in words;
        JoinedIsSingleSpaced(words[1..]);
        SpacedTwice(words[0], Joined(words[1..]));
      }
    }
  }

  lemma SpacedTwice(w: string, rest: string)
    requires w != "" && AllIn(w, NotBlank) && rest != "" && SingleSpaced(rest)
    ensures SingleSpaced(w + [' '] + rest)
  {
    var all, n := w + [' '] + rest, |w| + 1;
    assert forall i :: 0 <= i < |w| ==> NotBlank(w[i]) && all[i] == w[i];
    assert forall i :: n <= i < |all| ==> all[i] == rest[i - n];
  }

  function AllSpaces(n: nat): seq<string> { seq(n, i => if i < n - 1 then " " else "") }

  lemma {:induction false} JoinedIsSpaced(words: seq<string>)
    ensures Joined(words) == Spaced(words, AllSpaces(|words|))
    decreases |words|
  {
    if |words| > 1 {
      JoinedIsSpaced(words[1..]);
      assert AllSpaces(|words|)[1..] == AllSpaces(|words| - 1);
    } else if |words| == 1 {
      assert words[0] + "" + Spaced(words[1..], AllSpaces(1)[1..]) == words[0];
    }
  }

  /** Normalising leaves no blank at either end, single spaces elsewhere, and all other
      characters of the folded text in order, in the same words. */
  lemma NormalizedShape(fold: Folding, s: string)
    ensures var n, t := NormalizeText(fold, s), FoldAll(fold, s);
      && SingleSpaced(n) && Words(n, NotBlank) == Words(t, NotBlank) && Kept(n, NotBlank) == Kept(t, NotBlank)
  {
    var n, t := NormalizeText(fold, s), FoldAll(fold, s);
    var words := Words(t, NotBlank);
    NormalizedIsJoined(fold, s);
    WordsKeepEverything(t, NotBlank);
    JoinedIsSingleSpaced(words);
    JoinedIsSpaced(words);
    assert AreGaps(AllSpaces(|words|), NotBlank);
    WordsReadBack("", words, AllSpaces(|words|), NotBlank);
    assert "" + n == n;
    WordsKeepEverything(n, NotBlank);
  }

  /** Folding goes character by character. */
  lemma {:induction false} FoldsEach(fold: Folding, a: string, b: string)
    ensures FoldAll(fold, a + b) == FoldAll(fold, a) + FoldAll(fold, b)
    ensures forall c :: FoldAll(fold, [c]) == fold(c)
    decreases |a|
  {
    forall c ensures FoldAll(fold, [c]) == fold(c) {
      assert [c][1..] == "";
    }
    if a == "" {
      assert a + b == b;
    } else {
      assert (a + b)[1..] == a[1..] + b;
      FoldsEach(fold, a[1..], b);
    }
  }
}
