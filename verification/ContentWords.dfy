// What the keyword filter finds in a normalised text: whole words, one after another.
module ContentWords {
  import opened Strings
  import opened Wrappers
  import opened ContentFilter

  // The words stand one after another in the text.
  ghost predicate Found(words: seq<string>, texts: seq<string>) {
    exists k: nat :: StandAt(words, texts, k)
  }

  predicate StandAt(words: seq<string>, texts: seq<string>, k: nat) {
    k + |words| <= |texts| && texts[k..k + |words|] == words
  }

  lemma WordHasNoSpace(words: seq<string>)
    requires AreWords(words)
    ensures forall w :: w in words ==> ' ' !in w
  {
    forall w | w in words ensures ' ' !in w {
      var i :| 0 <= i < |words| && words[i] == w;
      assert IsWord(words[i]);
    }
  }

  // In a text with single spaces a pattern's body is its words with single spaces between them.
  lemma {:induction false} BodyIsJoin(words: seq<string>, s: string)
    requires AreWords(words) && BodyMatches(words, s) && Spaced(s) && Clean(s)
    ensures s == Join(words, " ")
    decreases words
  {
    if |words| > 1 {
      var k :| |words[0]| < k <= |s| && GapThenBody(words, s, k);
      GapIsOne(words, s, k);
      assert Spaced(s[k..]) && Clean(s[k..]);
      BodyIsJoin(words[1..], s[k..]);
      assert s == s[..|words[0]|] + s[|words[0]|..k] + s[k..];
    }
  }

  lemma {:induction false} JoinIsBody(words: seq<string>)
    requires AreWords(words)
    ensures BodyMatches(words, Join(words, " "))
    decreases words
  {
    if |words| > 1 {
      var rest := words[1..];
      assert rest[0] == words[1] && AreWords(rest);
      JoinIsBody(rest);
      var n, t := |words[0]|, Join(words, " ");
      assert t[..n] == words[0] && t[n] == ' ' && t[n + 1..] == Join(rest, " ");
      assert GapThenBody(words, t, n + 1);
    }
  }

  lemma GapIsOne(words: seq<string>, s: string, k: nat)
    requires AreWords(words) && |words| >= 2 && |words[0]| < k <= |s| && GapThenBody(words, s, k)
    requires Spaced(s) && Clean(s)
    ensures k == |words[0]| + 1 && s[|words[0]|..k] == " "
  {
    var n := |words[0]|;
    assert forall i :: n <= i < k ==> IsSpace(s[i]) && IsKept(s[i]);
    assert forall i :: n <= i < k ==> s[i] == ' ';
    assert n < |s| - 1 ==> !(s[n] == ' ' && s[n + 1] == ' ');
  }

  lemma StandsBetween(before: seq<string>, words: seq<string>, after: seq<string>)
    ensures Found(words, before + words + after)
  {
    assert StandAt(words, before + words + after, |before|);
  }

  lemma SliceIsClean(h: string, i: nat, j: nat)
    requires Tidy(h) && i <= j <= |h|
    ensures Spaced(h[i..j]) && Clean(h[i..j])
  {
    assert forall k :: 0 <= k < j - i ==> h[i..j][k] == h[i + k] && h[i + k] in h;
  }

  // A normalised text without a plus sign has words of letters and digits, and what stands beside a match is a space.
  lemma MatchIsFound(words: seq<string>, h: string, i: nat, j: nat)
    requires AreWords(words) && Tidy(h) && '+' !in h && i <= j <= |h| && MatchAt(words, h, i, j)
    ensures Found(words, Split(h, " "))
  {
    var m := h[i..j];
    BesideIsSpace(h, i, j);
    SliceIsClean(h, i, j);
    WordHasNoSpace(words);
    BodyIsJoin(words, m);
    hide Tidy, Clean, Spaced, MatchAt, BodyMatches, Found, IsWord;
    SplitAround(words, h, i, j);
  }

  lemma SplitAround(words: seq<string>, h: string, i: nat, j: nat)
    requires i <= j <= |h| && h[i..j] == Join(words, " ") && words != [] && forall w :: w in words ==> ' ' !in w
    requires (i > 0 ==> h[..i][i - 1] == ' ') && (j < |h| ==> h[j..][0] == ' ')
    ensures Found(words, Split(h, " "))
  {
    var left, m, right := h[..i], h[i..j], h[j..];
    assert h == left + m + right;
    SplitOfWords(words, ' ');
    hide Found;
    var before := SplitBefore(left, m);
    var after := SplitAfter(left + m, right);
    StandsBetween(before, words, after);
  }

  lemma BesideIsSpace(h: string, i: nat, j: nat)
    requires Tidy(h) && '+' !in h && i <= j <= |h| && Bounded(h, i, j)
    ensures i > 0 ==> h[..i][i - 1] == ' '
    ensures j < |h| ==> h[j..][0] == ' '
  {
    assert forall k :: 0 <= k < |h| ==> h[k] in h && IsKept(h[k]);
  }

  lemma SplitBefore(a: string, m: string) returns (before: seq<string>)
    requires a != "" ==> a[|a| - 1] == ' '
    ensures Split(a + m, " ") == before + Split(m, " ")
  {
    if a == "" {
      before := [];
      assert a + m == m;
    } else {
      var front := a[..|a| - 1];
      before := Split(front, " ");
      assert a + m == front + ([' '] + m);
      SplitAtChar(front, m, ' ');
    }
  }

  lemma SplitAfter(m: string, b: string) returns (after: seq<string>)
    requires b != "" ==> b[0] == ' '
    ensures Split(m + b, " ") == Split(m, " ") + after
  {
    if b == "" {
      after := [];
      assert m + b == m;
    } else {
      after := Split(b[1..], " ");
      assert m + b == m + ([' '] + b[1..]);
      SplitAtChar(m, b[1..], ' ');
    }
  }

  // What stands before and after some words of a text.
  lemma JoinAround(before: seq<string>, words: seq<string>, after: seq<string>) returns (left: string, right: string)
    requires words != []
    ensures Join(before + words + after, " ") == left + Join(words, " ") + right
    ensures (left != "" ==> left[|left| - 1] == ' ') && (right != "" ==> right[0] == ' ')
  {
    if before == [] {
      left := "";
      assert before + words == words;
    } else {
      left := Join(before, " ") + " ";
      JoinConcat(before, words, " ");
    }
    if after == [] {
      right := "";
      assert before + words + after == before + words;
    } else {
      right := " " + Join(after, " ");
      JoinConcat(before + words, after, " ");
      assert left + Join(words, " ") + " " + Join(after, " ") == left + Join(words, " ") + right;
    }
  }

  lemma FoundMatches(words: seq<string>, h: string)
    requires AreWords(words) && Found(words, Split(h, " "))
    ensures Matches(words, h)
  {
    var texts, n := Split(h, " "), |words|;
    var k: nat :| StandAt(words, texts, k);
    assert texts == texts[..k] + words + texts[k + n..];
    JoinOfSplit(h, ' ');
    JoinIsBody(words);
    hide AreWords, BodyMatches, Found, StandAt;
    var left, right := JoinAround(texts[..k], words, texts[k + n..]);
    var m := Join(words, " ");
    var i, j := |left|, |left| + |m|;
    assert h[i..j] == m && left == h[..i] && right == h[j..];
    assert Bounded(h, i, j);
    assert MatchAt(words, h, i, j);
  }

  // The filter finds a term in a normalised text without plus signs exactly if the term's words are some of the text's
  // words, one after another: never inside a longer word.
  lemma MatchesWholeWords(words: seq<string>, h: string)
    requires AreWords(words) && Tidy(h) && '+' !in h
    ensures Matches(words, h) <==> Found(words, Split(h, " "))
  {
    if Matches(words, h) {
      var i, j :| 0 <= i <= j <= |h| && MatchAt(words, h, i, j);
      MatchIsFound(words, h, i, j);
    }
    if Found(words, Split(h, " ")) { FoundMatches(words, h); }
  }

  // So it is for every listed term and every text that normalises to one without plus signs.
  lemma HitsWholeWords(term: string, part: Option<string>, lower: string -> string)
    requires TermOk(term) && FoldsCase(lower) && '+' !in TextOf(part, lower)
    ensures Hits(term, part, lower) <==> Found(PatternOf(term, lower), Split(TextOf(part, lower), " "))
  {
    TermHasWords(term, lower);
    NormalizeIsTidy(if part.Some? then part.value else "", lower);
    hide TermOk, FoldsCase, PatternOf, Matches, Found, Tidy, AreWords;
    MatchesWholeWords(PatternOf(term, lower), TextOf(part, lower));
  }
}
