// room-content-filter.ts: the keyword filter over a room's joined texts.
module ContentFilter {
  import opened Strings
  import opened Wrappers

  // ----- characters -----

  predicate IsAlnum(c: char) { 'a' <= c <= 'z' || '0' <= c <= '9' }

  // `[a-z0-9+ ]`
  predicate IsKept(c: char) { IsAlnum(c) || c == '+' || c == ' ' }

  predicate NotKept(c: char) { !IsKept(c) }

  // `\s`
  predicate IsSpace(c: char) {
    c == ' ' || '\U{0009}' <= c <= '\U{000D}' || c == '\U{00A0}' || c == '\U{1680}' || '\U{2000}' <= c <= '\U{200A}' ||
    c == '\U{2028}' || c == '\U{2029}' || c == '\U{202F}' || c == '\U{205F}' || c == '\U{3000}' || c == '\U{FEFF}'
  }

  function Leet(c: char): char {
    match c
    case '0' => 'o'
    case '1' => 'i'
    case '3' => 'e'
    case '4' => 'a'
    case '5' => 's'
    case '7' => 't'
    case '@' => 'a'
    case '$' => 's'
    case _ => c
  }

  // ----- normalize -----

  // Case folding is the platform's; all that is needed of it is that it leaves kept characters alone.
  ghost predicate FoldsCase(lower: string -> string) {
    forall s :: (forall c :: c in s ==> IsKept(c)) ==> lower(s) == s
  }

  function Unleet(s: string): (r: string)
    ensures |r| == |s|
  {
    seq(|s|, i requires 0 <= i < |s| => Leet(s[i]))
  }

  function Skip(s: string, bad: char -> bool): (r: string)
    ensures |r| <= |s| && (r != "" ==> !bad(r[0]))
    ensures s != "" && bad(s[0]) ==> |r| < |s|
  {
    if s != "" && bad(s[0]) then Skip(s[1..], bad) else s
  }

  // Every run of bad characters becomes one space.
  function ReplaceRuns(s: string, bad: char -> bool): string
    decreases |s|
  {
    if s == "" then ""
    else if bad(s[0]) then " " + ReplaceRuns(Skip(s, bad), bad)
    else [s[0]] + ReplaceRuns(s[1..], bad)
  }

  function TrimStart(s: string): string { if s != "" && IsSpace(s[0]) then TrimStart(s[1..]) else s }

  function TrimEnd(s: string): string { if s != "" && IsSpace(s[|s| - 1]) then TrimEnd(s[..|s| - 1]) else s }

  function Trim(s: string): string { TrimEnd(TrimStart(s)) }

  function Normalize(input: string, lower: string -> string): string {
    Trim(ReplaceRuns(ReplaceRuns(Unleet(lower(input)), NotKept), IsSpace))
  }

  // Words of kept characters, single spaces between them and none around.
  predicate Tidy(s: string) {
    && (forall c :: c in s ==> IsKept(c) && Leet(c) == c)
    && (forall i :: 0 <= i < |s| - 1 ==> !(s[i] == ' ' && s[i + 1] == ' '))
    && (s != "" ==> s[0] != ' ' && s[|s| - 1] != ' ')
  }

  // ----- patterns -----

  // A text that the body of a pattern matches whole: the words, with white space between.
  predicate BodyMatches(words: seq<string>, s: string)
    decreases words, 1
  {
    if words == [] then s == ""
    else if |words| == 1 then s == words[0]
    else exists k :: |words[0]| < k <= |s| && GapThenBody(words, s, k)
  }

  // The first word, white space up to `k`, and the rest.
  predicate GapThenBody(words: seq<string>, s: string, k: nat)
    requires |words| >= 2 && |words[0]| < k <= |s|
    decreases words, 0
  {
    && s[..|words[0]|] == words[0]
    && (forall i :: |words[0]| <= i < k ==> IsSpace(s[i]))
    && BodyMatches(words[1..], s[k..])
  }

  // The look-arounds: no letter or digit right before or after.
  predicate Bounded(h: string, i: nat, j: nat)
    requires i <= j <= |h|
  {
    (i > 0 ==> !IsAlnum(h[i - 1])) && (j < |h| ==> !IsAlnum(h[j]))
  }

  predicate MatchAt(words: seq<string>, h: string, i: nat, j: nat) {
    i <= j <= |h| && Bounded(h, i, j) && BodyMatches(words, h[i..j])
  }

  // `pattern.test(h)`
  predicate Matches(words: seq<string>, h: string) {
    exists i, j :: 0 <= i <= j <= |h| && MatchAt(words, h, i, j)
  }

  // The words of `termPattern`.
  function PatternOf(term: string, lower: string -> string): seq<string> { Split(Normalize(term, lower), " ") }

  // ----- the terms -----

  const BUY_SELL := ["buy", "buying", "buys", "sell", "selling", "sells"]
  const TRADE_DRUGS := ["coke", "cocaine", "weed", "meth", "heroin", "mdma", "molly", "lsd", "xanax", "ketamine",
                        "shrooms", "fentanyl"]
  const TRADE_GUNS := ["gun", "guns", "pistol", "pistols", "glock", "rifle", "rifles"]

  function Pairs(verb: string, objects: seq<string>): seq<string> {
    seq(|objects|, i requires 0 <= i < |objects| => verb + " " + objects[i])
  }

  function CrossProduct(verbs: seq<string>, objects: seq<string>): seq<string> {
    if verbs == [] then [] else Pairs(verbs[0], objects) + CrossProduct(verbs[1..], objects)
  }

  const MINORS := ["cp", "child porn", "child porno", "pedo", "pedophile", "underage nudes", "underage porn"]
  const DEALERS := ["drug plug", "dealer dm"]
  const GHOST_GUNS := ["ghost gun", "ghost guns"]
  const OTHERS := ["hitman", "hitmen", "hire a hitman", "hire a killer", "carding", "cvv shop", "fullz", "dox",
                   "doxx", "doxxing", "join isis", "bomb making"]

  function BlockedTerms(): seq<string> {
    MINORS + CrossProduct(BUY_SELL, TRADE_DRUGS) + DEALERS + CrossProduct(BUY_SELL, TRADE_GUNS) + GHOST_GUNS + OTHERS
  }

  const MATURE_DRUGS := ["drugs", "drug", "weed", "cannabis", "cocaine", "coke", "mdma", "molly", "lsd", "acid trip",
                         "shrooms", "ketamine", "meth", "heroin", "xanax"]
  const MATURE_OTHERS := ["nsfw", "porn", "sex", "nudes", "18+", "onlyfans", "gore", "gambling", "casino", "alcohol",
                          "booze"]

  function MatureTerms(): seq<string> { MATURE_DRUGS + MATURE_OTHERS }

  // ----- classify -----

  datatype Severity = Fine | Mature | Blocked
  datatype ContentVerdict = ContentVerdict(verdict: Severity, matched: Option<string>)

  // The first term whose pattern is found in `h`.
  function FindTerm(terms: seq<string>, h: string, lower: string -> string): Option<string> {
    if terms == [] then None
    else if Matches(PatternOf(terms[0], lower), h) then Some(terms[0])
    else FindTerm(terms[1..], h, lower)
  }

  // The non-empty normalised parts.
  function Texts(parts: seq<Option<string>>, lower: string -> string): seq<string> {
    if parts == [] then []
    else
      var text := Normalize(if parts[0].Some? then parts[0].value else "", lower);
      (if text != "" then [text] else []) + Texts(parts[1..], lower)
  }

  function ClassifyRoomText(parts: seq<Option<string>>, lower: string -> string): ContentVerdict {
    var haystack := Join(Texts(parts, lower), " / ");
    if haystack == "" then ContentVerdict(Fine, None)
    else
      var blocked := FindTerm(BlockedTerms(), haystack, lower);
      if blocked.Some? then ContentVerdict(Blocked, blocked)
      else
        var mature := FindTerm(MatureTerms(), haystack, lower);
        if mature.Some? then ContentVerdict(Mature, mature) else ContentVerdict(Fine, None)
  }

  // ----- what normalising yields -----

  predicate Clean(s: string) { forall i :: 0 <= i < |s| ==> IsKept(s[i]) && Leet(s[i]) == s[i] }

  predicate Spaced(s: string) { forall i :: 0 <= i < |s| - 1 ==> !(s[i] == ' ' && s[i + 1] == ' ') }

  lemma UnleetIsFixed(s: string)
    ensures forall i :: 0 <= i < |s| ==> Leet(Unleet(s)[i]) == Unleet(s)[i]
  {}

  lemma {:induction false} SkipIsSuffix(s: string, bad: char -> bool)
    ensures Skip(s, bad) == s[|s| - |Skip(s, bad)|..]
  {
    if s != "" && bad(s[0]) {
      SkipIsSuffix(s[1..], bad);
    }
  }

  lemma {:induction false} RunsAreClean(s: string)
    requires forall i :: 0 <= i < |s| ==> Leet(s[i]) == s[i]
    ensures Clean(ReplaceRuns(s, NotKept))
    decreases |s|
  {
    if s != "" {
      if NotKept(s[0]) {
        SkipIsSuffix(s, NotKept);
        RunsAreClean(Skip(s, NotKept));
      } else {
        RunsAreClean(s[1..]);
      }
    }
  }

  lemma {:induction false} RunsAreSpaced(s: string)
    requires Clean(s)
    ensures var r := ReplaceRuns(s, IsSpace);
            Clean(r) && Spaced(r) && (s != "" ==> r != "" && r[0] == if IsSpace(s[0]) then ' ' else s[0])
    decreases |s|
  {
    if s != "" {
      var rest := if IsSpace(s[0]) then Skip(s, IsSpace) else s[1..];
      SkipIsSuffix(s, IsSpace);
      RunsAreSpaced(rest);
      var tail := ReplaceRuns(rest, IsSpace);
      var r := ReplaceRuns(s, IsSpace);
      assert r == [if IsSpace(s[0]) then ' ' else s[0]] + tail;
      forall i | 0 <= i < |r| - 1 ensures !(r[i] == ' ' && r[i + 1] == ' ') {
        if i > 0 { assert r[i] == tail[i - 1] && r[i + 1] == tail[i]; }
      }
    }
  }

  lemma {:induction false} TrimsStart(s: string)
    ensures var r := TrimStart(s); |r| <= |s| && r == s[|s| - |r|..] && (r != "" ==> !IsSpace(r[0]))
    ensures s != "" && !IsSpace(s[0]) ==> TrimStart(s) == s
  {
    if s != "" && IsSpace(s[0]) { TrimsStart(s[1..]); }
  }

  lemma {:induction false} TrimsEnd(s: string)
    ensures var r := TrimEnd(s); |r| <= |s| && r == s[..|r|] && (r != "" ==> !IsSpace(r[|r| - 1]))
    ensures s != "" && !IsSpace(s[|s| - 1]) ==> TrimEnd(s) == s
    ensures s != "" && !IsSpace(s[0]) ==> TrimEnd(s) != ""
  {
    if s != "" && IsSpace(s[|s| - 1]) { TrimsEnd(s[..|s| - 1]); }
  }

  lemma SliceKeeps(s: string, a: nat, b: nat)
    requires Clean(s) && Spaced(s) && a <= b <= |s|
    ensures Clean(s[a..b]) && Spaced(s[a..b])
  {
    var r := s[a..b];
    forall i | 0 <= i < |r| - 1 ensures !(r[i] == ' ' && r[i + 1] == ' ') {
      var k := a + i;
      assert !(s[k] == ' ' && s[k + 1] == ' ');
    }
  }

  lemma CleanIsTidy(s: string)
    requires Clean(s) && Spaced(s) && (s != "" ==> !IsSpace(s[0]) && !IsSpace(s[|s| - 1]))
    ensures Tidy(s)
  {}

  lemma TrimmedIsTidy(s: string)
    requires Clean(s) && Spaced(s)
    ensures Tidy(Trim(s))
  {
    TrimsStart(s);
    TrimsEnd(TrimStart(s));
    var r := Trim(s);
    var a := |s| - |TrimStart(s)|;
    hide TrimStart, TrimEnd, Clean, Spaced, Tidy, IsSpace;
    assert r == s[a..a + |r|];
    if r != "" { assert r[0] == TrimStart(s)[0]; }
    SliceKeeps(s, a, a + |r|);
    CleanIsTidy(r);
  }

  lemma NormalizeIsTidy(input: string, lower: string -> string)
    ensures Tidy(Normalize(input, lower))
  {
    UnleetIsFixed(lower(input));
    RunsAreClean(Unleet(lower(input)));
    RunsAreSpaced(ReplaceRuns(Unleet(lower(input)), NotKept));
    TrimmedIsTidy(ReplaceRuns(ReplaceRuns(Unleet(lower(input)), NotKept), IsSpace));
  }

  lemma {:induction false} CleanHasNoRuns(s: string)
    requires Clean(s)
    ensures ReplaceRuns(s, NotKept) == s
    decreases |s|
  {
    if s != "" {
      CleanHasNoRuns(s[1..]);
      assert s == [s[0]] + s[1..];
    }
  }

  lemma {:induction false} SpacedHasNoRuns(s: string)
    requires Clean(s) && Spaced(s)
    ensures ReplaceRuns(s, IsSpace) == s
    decreases |s|
  {
    if s != "" {
      assert Spaced(s[1..]) by { assert forall i :: 0 <= i < |s[1..]| ==> s[1..][i] == s[i + 1]; }
      SpacedHasNoRuns(s[1..]);
      assert s == [s[0]] + s[1..];
      if IsSpace(s[0]) {
        assert s[0] == ' ';
        if |s| > 1 { assert s[0 + 1] != ' ' && IsKept(s[1]); }
        assert Skip(s[1..], IsSpace) == s[1..];
      }
    }
  }

  // All of normalising after the case folding leaves a tidy text as it is.
  lemma TidyStays(s: string)
    requires Tidy(s)
    ensures Unleet(s) == s && Trim(ReplaceRuns(ReplaceRuns(s, NotKept), IsSpace)) == s
  {
    assert Unleet(s) == s;
    TidyIsClean(s);
    hide Clean, Spaced, ReplaceRuns, Unleet, Tidy, IsSpace, TrimStart, TrimEnd;
    CleanHasNoRuns(s);
    SpacedHasNoRuns(s);
    TrimsStart(s);
    TrimsEnd(s);
  }

  lemma TidyIsClean(s: string)
    requires Tidy(s)
    ensures Clean(s) && Spaced(s) && (s != "" ==> !IsSpace(s[0]) && !IsSpace(s[|s| - 1]))
  {}

  lemma TidyIsFixed(s: string, lower: string -> string)
    requires Tidy(s) && FoldsCase(lower)
    ensures Normalize(s, lower) == s
  {
    assert lower(s) == s;
    hide FoldsCase;
    TidyStays(s);
  }

  // Normalising twice is normalising once.
  lemma NormalizeIsIdempotent(input: string, lower: string -> string)
    requires FoldsCase(lower)
    ensures Normalize(Normalize(input, lower), lower) == Normalize(input, lower)
  {
    NormalizeIsTidy(input, lower);
    TidyIsFixed(Normalize(input, lower), lower);
  }

  // What may stand for a letter.
  const DISGUISES := {('0', 'o'), ('1', 'i'), ('3', 'e'), ('4', 'a'), ('5', 's'), ('7', 't'), ('@', 'a'), ('$', 's')}

  predicate Disguised(t: string, s: string) {
    |t| == |s| && forall i :: 0 <= i < |s| ==> t[i] == s[i] || (t[i], s[i]) in DISGUISES
  }

  // Letters disguised as digits or signs, any number of them, are seen through.
  lemma DisguisesAreSeenThrough(t: string, s: string, lower: string -> string)
    requires FoldsCase(lower) && Tidy(s) && Disguised(t, s) && lower(t) == t
    ensures Normalize(t, lower) == s
  {
    assert Unleet(t) == s;
    hide FoldsCase, Tidy, Disguised;
    TidyStays(s);
  }

  // ----- what patterns look like -----

  predicate IsWord(w: string) { w != "" && forall i :: 0 <= i < |w| ==> IsKept(w[i]) && w[i] != ' ' }

  predicate AreWords(words: seq<string>) { words != [] && forall i :: 0 <= i < |words| ==> IsWord(words[i]) }

  lemma {:induction false} FirstSpace(s: string)
    ensures var i := IndexOf(s, " ");
            if i.None? then ' ' !in s else s[i.value] == ' ' && ' ' !in s[..i.value]
  {
    if s == "" {
    } else if StartsWith(s, " ") {
      assert s[0] == " "[0];
    } else {
      FirstSpace(s[1..]);
      var i := IndexOf(s, " ");
      if i.Some? { assert s[..i.value] == [s[0]] + s[1..][..i.value - 1]; }
    }
  }

  lemma {:induction false} SplitTidy(s: string)
    requires Tidy(s) && s != ""
    ensures AreWords(Split(s, " "))
    decreases |s|
  {
    FirstSpace(s);
    var i := IndexOf(s, " ");
    if i.Some? {
      var first, rest := s[..i.value], s[i.value + 1..];
      assert i.value > 0 && i.value + 1 < |s|;
      assert forall j :: 0 <= j < |rest| ==> rest[j] == s[i.value + 1 + j];
      assert Tidy(rest);
      SplitTidy(rest);
      assert IsWord(first);
    } else {
      assert IsWord(s);
    }
  }

  // A term of kept characters that starts with a letter or digit.
  predicate TermOk(t: string) { t != "" && IsAlnum(t[0]) && forall i :: 0 <= i < |t| ==> IsKept(t[i]) }

  lemma TermHasWords(t: string, lower: string -> string)
    requires TermOk(t) && FoldsCase(lower)
    ensures AreWords(PatternOf(t, lower))
  {
    assert lower(t) == t;
    var u := Unleet(t);
    UnleetIsFixed(t);
    assert IsAlnum(u[0]);
    var runs := ReplaceRuns(u, NotKept);
    assert runs != "" && runs[0] == u[0];
    RunsAreClean(u);
    RunsAreSpaced(runs);
    var spaced := ReplaceRuns(runs, IsSpace);
    assert spaced != "" && !IsSpace(spaced[0]);
    TrimsStart(spaced);
    TrimsEnd(spaced);
    NormalizeIsTidy(t, lower);
    SplitTidy(Normalize(t, lower));
  }

  predicate TermsOk(terms: seq<string>) { forall i :: 0 <= i < |terms| ==> TermOk(terms[i]) }

  lemma {:induction false} CrossProductOk(verbs: seq<string>, objects: seq<string>)
    requires TermsOk(verbs) && TermsOk(objects)
    ensures TermsOk(CrossProduct(verbs, objects))
  {
    if verbs != [] {
      assert TermOk(verbs[0]);
      forall i | 0 <= i < |objects| ensures TermOk(Pairs(verbs[0], objects)[i]) { assert TermOk(objects[i]); }
      CrossProductOk(verbs[1..], objects);
    }
  }

  lemma VerbsOk()
    ensures TermsOk(BUY_SELL) && TermsOk(TRADE_GUNS)
  {}

  lemma DrugsOk()
    ensures TermsOk(TRADE_DRUGS)
  {}

  lemma MatureDrugsOk()
    ensures TermsOk(MATURE_DRUGS)
  {}

  lemma MatureOthersOk()
    ensures TermsOk(MATURE_OTHERS)
  {}

  lemma MatureOk()
    ensures TermsOk(MatureTerms())
  {
    MatureDrugsOk();
    MatureOthersOk();
    hide TermsOk;
    JoinedOk(MATURE_DRUGS, MATURE_OTHERS);
  }

  lemma MinorsOk()
    ensures TermsOk(MINORS)
  {}

  lemma PairsOk()
    ensures TermsOk(DEALERS) && TermsOk(GHOST_GUNS)
  {}

  lemma OthersOk()
    ensures TermsOk(OTHERS)
  {}

  lemma JoinedOk(a: seq<string>, b: seq<string>)
    requires TermsOk(a) && TermsOk(b)
    ensures TermsOk(a + b)
  {}

  lemma BlockedOk()
    ensures TermsOk(BlockedTerms())
  {
    VerbsOk();
    DrugsOk();
    MinorsOk();
    OthersOk();
    PairsOk();
    CrossProductOk(BUY_SELL, TRADE_DRUGS);
    CrossProductOk(BUY_SELL, TRADE_GUNS);
    hide CrossProduct, TermsOk;
    var drugs, guns := CrossProduct(BUY_SELL, TRADE_DRUGS), CrossProduct(BUY_SELL, TRADE_GUNS);
    JoinedOk(MINORS, drugs);
    JoinedOk(MINORS + drugs, DEALERS);
    JoinedOk(MINORS + drugs + DEALERS, guns);
    JoinedOk(MINORS + drugs + DEALERS + guns, GHOST_GUNS);
    JoinedOk(MINORS + drugs + DEALERS + guns + GHOST_GUNS, OTHERS);
  }

  // ----- matches stay within one part -----

  // What a pattern matches starts and ends with a character of a word and contains no slash.
  predicate Solid(s: string) { s != "" && !IsSpace(s[0]) && !IsSpace(s[|s| - 1]) && '/' !in s }

  lemma {:induction false} BodyIsSolid(words: seq<string>, s: string)
    requires AreWords(words) && BodyMatches(words, s)
    ensures Solid(s)
    decreases words
  {
    assert IsWord(words[0]);
    if |words| > 1 {
      var k :| |words[0]| < k <= |s| && GapThenBody(words, s, k);
      BodyIsSolid(words[1..], s[k..]);
      assert s[0] == words[0][0];
      assert s[|s| - 1] == s[k..][|s[k..]| - 1];
      forall i | 0 <= i < |s| ensures s[i] != '/' {
        if i < |words[0]| { assert s[i] == words[0][i]; }
        else if i >= k { assert s[i] in s[k..] by { assert s[i] == s[k..][i - k]; } }
      }
    }
  }

  lemma MatchMoves(words: seq<string>, h: string, i: nat, j: nat, g: string, p: nat, q: nat)
    requires MatchAt(words, h, i, j) && p <= q <= |g| && g[p..q] == h[i..j] && Bounded(g, p, q)
    ensures Matches(words, g)
  {
    hide BodyMatches, Bounded;
    assert MatchAt(words, g, p, q);
  }

  // Around a joint, a match stays on one side of the slash, clear of the spaces.
  lemma ClearOfJoint(a: string, b: string, i: nat, j: nat)
    requires i <= j <= |a + " / " + b| && Solid((a + " / " + b)[i..j])
    ensures j <= |a| || i >= |a| + 3
  {
    var h, n := a + " / " + b, |a|;
    var m := h[i..j];
    assert h[n] == ' ' && h[n + 1] == '/' && h[n + 2] == ' ';
    assert forall k :: i <= k < j ==> h[k] in m by {
      forall k | i <= k < j ensures h[k] in m { assert m[k - i] == h[k]; }
    }
    assert m[0] == h[i] && m[|m| - 1] == h[j - 1];
  }

  lemma LeftMatch(words: seq<string>, a: string, b: string, i: nat, j: nat)
    requires MatchAt(words, a + " / " + b, i, j) && j <= |a|
    ensures Matches(words, a)
  {
    hide BodyMatches, Matches;
    var h := a + " / " + b;
    assert a[i..j] == h[i..j];
    assert forall k :: 0 <= k < |a| ==> a[k] == h[k];
    MatchMoves(words, h, i, j, a, i, j);
  }

  lemma SuffixMatch(words: seq<string>, h: string, n: nat, i: nat, j: nat)
    requires MatchAt(words, h, i, j) && n <= i && n <= |h|
    ensures Matches(words, h[n..])
  {
    hide BodyMatches, Matches;
    var b := h[n..];
    assert b[i - n..j - n] == h[i..j];
    assert i > n ==> b[i - n - 1] == h[i - 1];
    assert j < |h| ==> b[j - n] == h[j];
    MatchMoves(words, h, i, j, b, i - n, j - n);
  }

  lemma RightMatch(words: seq<string>, a: string, b: string, i: nat, j: nat)
    requires MatchAt(words, a + " / " + b, i, j) && i >= |a| + 3
    ensures Matches(words, b)
  {
    hide MatchAt, Matches;
    var h := a + " / " + b;
    assert h[|a| + 3..] == b;
    SuffixMatch(words, h, |a| + 3, i, j);
  }

  lemma JointMatch(words: seq<string>, a: string, b: string)
    requires AreWords(words) && Matches(words, a + " / " + b)
    ensures Matches(words, a) || Matches(words, b)
  {
    var h := a + " / " + b;
    var i, j :| 0 <= i <= j <= |h| && MatchAt(words, h, i, j);
    BodyIsSolid(words, h[i..j]);
    ClearOfJoint(a, b, i, j);
    hide MatchAt, Matches, AreWords, Solid;
    if j <= |a| { LeftMatch(words, a, b, i, j); } else { RightMatch(words, a, b, i, j); }
  }

  lemma SideMatch(words: seq<string>, a: string, b: string)
    requires Matches(words, a) || Matches(words, b)
    ensures Matches(words, a + " / " + b)
  {
    hide BodyMatches;
    var h, n := a + " / " + b, |a|;
    assert h[n] == ' ' && h[n + 2] == ' ';
    if Matches(words, a) {
      var i, j :| 0 <= i <= j <= |a| && MatchAt(words, a, i, j);
      assert h[i..j] == a[i..j];
      MatchMoves(words, a, i, j, h, i, j);
    } else {
      var p, q :| 0 <= p <= q <= |b| && MatchAt(words, b, p, q);
      assert h[p + n + 3..q + n + 3] == b[p..q];
      MatchMoves(words, b, p, q, h, p + n + 3, q + n + 3);
    }
  }

  // A match in two joined texts is a match in one of them.
  lemma MatchesInOne(words: seq<string>, a: string, b: string)
    requires AreWords(words)
    ensures Matches(words, a + " / " + b) <==> Matches(words, a) || Matches(words, b)
  {
    hide Matches, AreWords;
    if Matches(words, a + " / " + b) { JointMatch(words, a, b); }
    if Matches(words, a) || Matches(words, b) { SideMatch(words, a, b); }
  }

  predicate SomeMatches(words: seq<string>, texts: seq<string>) {
    exists i :: 0 <= i < |texts| && Matches(words, texts[i])
  }

  lemma SomeOfTwo(words: seq<string>, text: string, texts: seq<string>)
    ensures SomeMatches(words, [text] + texts) <==> Matches(words, text) || SomeMatches(words, texts)
  {
    hide Matches;
    var both := [text] + texts;
    assert both[0] == text;
    if SomeMatches(words, texts) {
      var i :| 0 <= i < |texts| && Matches(words, texts[i]);
      assert both[i + 1] == texts[i];
    }
    if i :| 0 <= i < |both| && Matches(words, both[i]) {
      if i > 0 { assert texts[i - 1] == both[i]; }
    }
  }

  lemma NoneOfNone(words: seq<string>)
    ensures !SomeMatches(words, [])
  {}

  lemma {:induction false} MatchesInSome(words: seq<string>, texts: seq<string>)
    requires AreWords(words)
    ensures Matches(words, Join(texts, " / ")) <==> SomeMatches(words, texts)
  {
    hide Matches, SomeMatches;
    if texts == [] {
      NothingMatches(words);
    } else if |texts| > 1 {
      MatchesInSome(words, texts[1..]);
      MatchesInOne(words, texts[0], Join(texts[1..], " / "));
      SomeOfTwo(words, texts[0], texts[1..]);
      assert texts == [texts[0]] + texts[1..];
    } else {
      SomeOfTwo(words, texts[0], []);
      assert texts == [texts[0]] + [];
    }
    NoneOfNone(words);
  }

  lemma NothingMatches(words: seq<string>)
    requires AreWords(words)
    ensures !Matches(words, "")
  {
    EmptyIsNoBody(words);
    hide BodyMatches, AreWords, Bounded;
    forall i, j | 0 <= i <= j <= |""| ensures !MatchAt(words, "", i, j) { assert ""[i..j] == ""; }
  }

  lemma EmptyIsNoBody(words: seq<string>)
    requires AreWords(words)
    ensures !BodyMatches(words, "")
  {
    assert IsWord(words[0]);
  }

  // ----- the classifier by its parts -----

  function TextOf(part: Option<string>, lower: string -> string): string {
    Normalize(if part.Some? then part.value else "", lower)
  }

  predicate Hits(term: string, part: Option<string>, lower: string -> string) {
    Matches(PatternOf(term, lower), TextOf(part, lower))
  }

  predicate HitsSome(term: string, parts: seq<Option<string>>, lower: string -> string) {
    exists i :: 0 <= i < |parts| && Hits(term, parts[i], lower)
  }

  function AllTexts(parts: seq<Option<string>>, lower: string -> string): seq<string> {
    seq(|parts|, i requires 0 <= i < |parts| => TextOf(parts[i], lower))
  }

  // The first term that is found in some one part.
  function FirstTerm(terms: seq<string>, parts: seq<Option<string>>, lower: string -> string): Option<string> {
    if terms == [] then None
    else if HitsSome(terms[0], parts, lower) then Some(terms[0])
    else FirstTerm(terms[1..], parts, lower)
  }

  lemma HaystackHits(term: string, parts: seq<Option<string>>, lower: string -> string)
    requires TermOk(term) && FoldsCase(lower)
    ensures Matches(PatternOf(term, lower), Join(Texts(parts, lower), " / ")) <==> HitsSome(term, parts, lower)
  {
    var words := PatternOf(term, lower);
    TermHasWords(term, lower);
    hide TermOk, FoldsCase, Matches, PatternOf, AreWords, TextOf;
    MatchesInSome(words, Texts(parts, lower));
    TextsHit(words, parts, lower);
    var all := AllTexts(parts, lower);
    assert forall i :: 0 <= i < |parts| ==> (Matches(words, all[i]) <==> Hits(term, parts[i], lower));
  }

  // Dropping the empty texts loses nothing.
  lemma {:induction false} TextsHit(words: seq<string>, parts: seq<Option<string>>, lower: string -> string)
    requires AreWords(words)
    ensures SomeMatches(words, Texts(parts, lower)) <==> SomeMatches(words, AllTexts(parts, lower))
  {
    hide SomeMatches, Matches, Normalize, AreWords;
    if parts != [] {
      var text := TextOf(parts[0], lower);
      var rest := Texts(parts[1..], lower);
      NothingMatches(words);
      TextsHit(words, parts[1..], lower);
      SomeOfTwo(words, text, rest);
      SomeOfTwo(words, text, AllTexts(parts[1..], lower));
      assert AllTexts(parts, lower) == [text] + AllTexts(parts[1..], lower);
      assert text == "" ==> Texts(parts, lower) == rest;
    } else {
      assert AllTexts(parts, lower) == [];
    }
  }

  lemma {:induction false} FindTermByParts(terms: seq<string>, parts: seq<Option<string>>, lower: string -> string)
    requires TermsOk(terms) && FoldsCase(lower)
    ensures FindTerm(terms, Join(Texts(parts, lower), " / "), lower) == FirstTerm(terms, parts, lower)
  {
    hide FoldsCase, Matches, PatternOf, HitsSome, Join, Texts;
    if terms != [] {
      assert TermOk(terms[0]);
      HaystackHits(terms[0], parts, lower);
      FindTermByParts(terms[1..], parts, lower);
    }
  }

  // The verdict is about single parts: the first blocked term that some part contains, else the first mature one. No
  // term is ever found across the joint between two parts.
  lemma ClassifyIsCompositional(parts: seq<Option<string>>, lower: string -> string)
    requires FoldsCase(lower)
    ensures var blocked, mature := FirstTerm(BlockedTerms(), parts, lower), FirstTerm(MatureTerms(), parts, lower);
            ClassifyRoomText(parts, lower)
            == if blocked.Some? then ContentVerdict(Blocked, blocked)
               else if mature.Some? then ContentVerdict(Mature, mature) else ContentVerdict(Fine, None)
  {
    BlockedOk();
    MatureOk();
    hide BlockedTerms, MatureTerms, Join, Texts, TermsOk, FoldsCase;
    FindTermByParts(BlockedTerms(), parts, lower);
    FindTermByParts(MatureTerms(), parts, lower);
    EmptyFindsNothing(BlockedTerms(), lower);
    EmptyFindsNothing(MatureTerms(), lower);
  }

  lemma {:induction false} EmptyFindsNothing(terms: seq<string>, lower: string -> string)
    requires TermsOk(terms) && FoldsCase(lower)
    ensures FindTerm(terms, "", lower).None?
  {
    hide FoldsCase, Matches, PatternOf, AreWords;
    if terms != [] {
      assert TermOk(terms[0]);
      TermHasWords(terms[0], lower);
      NothingMatches(PatternOf(terms[0], lower));
      EmptyFindsNothing(terms[1..], lower);
    }
  }

  // ----- severity -----

  function Rank(s: Severity): nat { match s case Fine => 0 case Mature => 1 case Blocked => 2 }

  function Worst(parts: seq<Option<string>>, lower: string -> string): nat {
    if parts == [] then 0
    else
      var first, rest := Rank(ClassifyRoomText([parts[0]], lower).verdict), Worst(parts[1..], lower);
      if first < rest then rest else first
  }

  lemma {:induction false} FirstTermExists(terms: seq<string>, parts: seq<Option<string>>, lower: string -> string)
    ensures FirstTerm(terms, parts, lower).Some? <==> exists t :: t in terms && HitsSome(t, parts, lower)
  {
    hide HitsSome;
    if terms != [] {
      FirstTermExists(terms[1..], parts, lower);
      assert terms == [terms[0]] + terms[1..];
    }
  }

  // A term is found in the parts together exactly when it is found in the first or in the others.
  lemma HitsSplit(term: string, parts: seq<Option<string>>, lower: string -> string)
    requires parts != []
    ensures HitsSome(term, parts, lower) <==> HitsSome(term, [parts[0]], lower) || HitsSome(term, parts[1..], lower)
  {
    hide Hits;
    if i :| 0 <= i < |parts| && Hits(term, parts[i], lower) {
      if i == 0 { assert Hits(term, [parts[0]][0], lower); } else { assert Hits(term, parts[1..][i - 1], lower); }
    }
    if i :| 0 <= i < |parts[1..]| && Hits(term, parts[1..][i], lower) { assert Hits(term, parts[i + 1], lower); }
    if HitsSome(term, [parts[0]], lower) { assert Hits(term, parts[0], lower); }
  }

  lemma FirstTermSplit(terms: seq<string>, parts: seq<Option<string>>, lower: string -> string)
    requires parts != []
    ensures FirstTerm(terms, parts, lower).Some? <==>
            FirstTerm(terms, [parts[0]], lower).Some? || FirstTerm(terms, parts[1..], lower).Some?
  {
    hide HitsSome, FirstTerm;
    FirstTermExists(terms, parts, lower);
    FirstTermExists(terms, [parts[0]], lower);
    FirstTermExists(terms, parts[1..], lower);
    forall t | t in terms
      ensures HitsSome(t, parts, lower) <==> HitsSome(t, [parts[0]], lower) || HitsSome(t, parts[1..], lower)
    {
      HitsSplit(t, parts, lower);
    }
  }

  // The severity is that of the worst part.
  lemma {:induction false} SeverityIsWorst(parts: seq<Option<string>>, lower: string -> string)
    requires FoldsCase(lower)
    ensures Rank(ClassifyRoomText(parts, lower).verdict) == Worst(parts, lower)
  {
    hide FoldsCase, FirstTerm, BlockedTerms, MatureTerms;
    if parts != [] {
      ClassifyIsCompositional(parts, lower);
      ClassifyIsCompositional([parts[0]], lower);
      ClassifyIsCompositional(parts[1..], lower);
      FirstTermSplit(BlockedTerms(), parts, lower);
      FirstTermSplit(MatureTerms(), parts, lower);
      SeverityIsWorst(parts[1..], lower);
      hide ClassifyRoomText;
    }
  }

  // More parts, in any order, never make it milder.
  lemma MorePartsNeverLower(fewer: seq<Option<string>>, more: seq<Option<string>>, lower: string -> string)
    requires FoldsCase(lower) && forall p :: p in fewer ==> p in more
    ensures Rank(ClassifyRoomText(fewer, lower).verdict) <= Rank(ClassifyRoomText(more, lower).verdict)
  {
    ClassifyIsCompositional(fewer, lower);
    ClassifyIsCompositional(more, lower);
    hide FoldsCase, FirstTerm, BlockedTerms, MatureTerms, ClassifyRoomText;
    MoreTerms(BlockedTerms(), fewer, more, lower);
    MoreTerms(MatureTerms(), fewer, more, lower);
  }

  lemma MoreTerms(terms: seq<string>, fewer: seq<Option<string>>, more: seq<Option<string>>, lower: string -> string)
    requires forall p :: p in fewer ==> p in more
    ensures FirstTerm(terms, fewer, lower).Some? ==> FirstTerm(terms, more, lower).Some?
  {
    hide Hits, FirstTerm;
    FirstTermExists(terms, fewer, lower);
    FirstTermExists(terms, more, lower);
    if FirstTerm(terms, fewer, lower).Some? {
      var t :| t in terms && HitsSome(t, fewer, lower);
      var i :| 0 <= i < |fewer| && Hits(t, fewer[i], lower);
      assert fewer[i] in more;
      var j :| 0 <= j < |more| && more[j] == fewer[i];
      assert Hits(t, more[j], lower);
      assert HitsSome(t, more, lower);
    }
  }
}
