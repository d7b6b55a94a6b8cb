// What normalisation makes of a text: its words, with single spaces between them.
module ContentTokens {
  import opened Strings
  import opened Wrappers
  import opened ContentFilter

  predicate InWord(c: char) { 'a' <= c <= 'z' || '0' <= c <= '9' || c == '+' }

  function Emit(word: string): seq<string> { if word == "" then [] else [word] }

  // The maximal runs of letters, digits and plus signs, in order; `word` is the run so far.
  function Tokens(word: string, s: string): seq<string>
    decreases |s|
  {
    if s == "" then Emit(word)
    else if InWord(s[0]) then Tokens(word + [s[0]], s[1..])
    else Emit(word) + Tokens("", s[1..])
  }

  ghost predicate Separates(bad: char -> bool) { forall c :: bad(c) ==> !InWord(c) }

  lemma {:induction false} SkippedTokens(s: string, bad: char -> bool)
    requires Separates(bad)
    ensures Tokens("", Skip(s, bad)) == Tokens("", s)
    decreases |s|
  {
    if s != "" && bad(s[0]) { SkippedTokens(s[1..], bad); }
  }

  lemma {:induction false} ReplacedTokens(word: string, s: string, bad: char -> bool)
    requires Separates(bad)
    ensures Tokens(word, ReplaceRuns(s, bad)) == Tokens(word, s)
    decreases |s|
  {
    if s != "" {
      var r := ReplaceRuns(s, bad);
      if bad(s[0]) {
        var rest := Skip(s, bad);
        assert r == " " + ReplaceRuns(rest, bad) && r[1..] == ReplaceRuns(rest, bad);
        SkippedTokens(s[1..], bad);
        ReplacedTokens("", rest, bad);
      } else {
        assert r == [s[0]] + ReplaceRuns(s[1..], bad) && r[1..] == ReplaceRuns(s[1..], bad);
        ReplacedTokens(if InWord(s[0]) then word + [s[0]] else "", s[1..], bad);
      }
    }
  }

  lemma {:induction false} StartTrimmedTokens(s: string)
    ensures Tokens("", TrimStart(s)) == Tokens("", s)
    decreases |s|
  {
    if s != "" && IsSpace(s[0]) { StartTrimmedTokens(s[1..]); }
  }

  lemma {:induction false} TailTokens(word: string, s: string, c: char)
    requires !InWord(c)
    ensures Tokens(word, s + [c]) == Tokens(word, s)
    decreases |s|
  {
    var t := s + [c];
    if s == "" {
      assert t[1..] == "" && Emit(word) + [] == Emit(word);
    } else {
      assert t[1..] == s[1..] + [c];
      TailTokens(if InWord(s[0]) then word + [s[0]] else "", s[1..], c);
    }
  }

  lemma {:induction false} EndTrimmedTokens(s: string)
    ensures Tokens("", TrimEnd(s)) == Tokens("", s)
    decreases |s|
  {
    if s != "" && IsSpace(s[|s| - 1]) {
      var front, c := s[..|s| - 1], s[|s| - 1];
      EndTrimmedTokens(front);
      TailTokens("", front, c);
      assert s == front + [c];
    }
  }

  lemma {:induction false} WordTokens(word: string, w: string, rest: string)
    requires forall i :: 0 <= i < |w| ==> InWord(w[i])
    ensures Tokens(word, w + rest) == Tokens(word + w, rest)
    decreases |w|
  {
    if w == "" {
      assert w + rest == rest && word + w == word;
    } else {
      assert (w + rest)[1..] == w[1..] + rest;
      WordTokens(word + [w[0]], w[1..], rest);
      assert word + [w[0]] + w[1..] == word + w;
    }
  }

  lemma RestAreWords(words: seq<string>)
    requires AreWords(words) && |words| > 1
    ensures AreWords(words[1..])
  {
    forall i | 0 <= i < |words| - 1 ensures IsWord(words[1..][i]) { assert IsWord(words[i + 1]); }
  }

  lemma FirstWordTokens(w: string, rest: string)
    requires IsWord(w)
    ensures Tokens("", w) == [w] && Tokens("", w + (" " + rest)) == [w] + Tokens("", rest)
  {
    WordTokens("", w, "");
    WordTokens("", w, " " + rest);
    assert w + "" == w && "" + w == w && (" " + rest)[1..] == rest;
  }

  // A tidy text is its words with single spaces between them.
  lemma {:induction false} TidyTokens(words: seq<string>)
    requires AreWords(words)
    ensures Tokens("", Join(words, " ")) == words
    decreases |words|
  {
    var w := words[0];
    assert IsWord(w) && words == [w] + words[1..];
    var rest := Join(words[1..], " ");
    FirstWordTokens(w, rest);
    if |words| > 1 {
      RestAreWords(words);
      hide AreWords, IsWord, Tokens;
      TidyTokens(words[1..]);
      assert Join(words, " ") == w + (" " + rest);
    }
  }

  // Normalising folds case, undoes the leet characters, and joins the runs of letters, digits and plus signs by single
  // spaces; everything else separates.
  lemma NormalizeJoinsWords(input: string, lower: string -> string)
    ensures Normalize(input, lower) == Join(Tokens("", Unleet(lower(input))), " ")
  {
    var u := Unleet(lower(input));
    var runs := ReplaceRuns(u, NotKept);
    var spaced := ReplaceRuns(runs, IsSpace);
    var t := Normalize(input, lower);
    ReplacedTokens("", u, NotKept);
    ReplacedTokens("", runs, IsSpace);
    StartTrimmedTokens(spaced);
    EndTrimmedTokens(TrimStart(spaced));
    assert Tokens("", t) == Tokens("", u);
    NormalizeIsTidy(input, lower);
    if t != "" {
      SplitTidy(t);
      JoinOfSplit(t, ' ');
      TidyTokens(Split(t, " "));
    }
  }
}
