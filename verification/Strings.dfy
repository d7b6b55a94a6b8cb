// What JavaScript's string methods do.
module Strings {
  import opened Wrappers

  predicate StartsWith(s: string, prefix: string) { prefix <= s }

  // Where `sep` first occurs in `s`, if it does.
  function IndexOf(s: string, sep: string): Option<nat>
    requires sep != ""
    ensures var i := IndexOf(s, sep); i.Some? ==> i.value + |sep| <= |s|
  {
    if StartsWith(s, sep) then Some(0)
    else if s == "" then None
    else
      var rest := IndexOf(s[1..], sep);
      if rest.None? then None else Some(rest.value + 1)
  }

  function Split(s: string, sep: string): (parts: seq<string>)
    requires sep != ""
    ensures parts != []
    decreases |s|
  {
    var i := IndexOf(s, sep);
    if i.None? then [s] else [s[..i.value]] + Split(s[i.value + |sep|..], sep)
  }

  function Join(parts: seq<string>, sep: string): string {
    if parts == [] then ""
    else if |parts| == 1 then parts[0]
    else parts[0] + sep + Join(parts[1..], sep)
  }

  // ----- separators of one character -----

  lemma {:induction false} CharIndex(s: string, c: char)
    ensures var i := IndexOf(s, [c]);
            if i.None? then c !in s else s[i.value] == c && c !in s[..i.value]
  {
    if s == "" {
    } else if StartsWith(s, [c]) {
      assert s[0] == [c][0];
    } else {
      CharIndex(s[1..], c);
      assert [s[0]] + s[1..] == s;
      var i := IndexOf(s, [c]);
      if i.Some? { assert s[..i.value] == [s[0]] + s[1..][..i.value - 1]; }
    }
  }

  // The first separator is where the first one is.
  lemma FoundAt(s: string, c: char, n: nat)
    requires n < |s| && s[n] == c && c !in s[..n]
    ensures IndexOf(s, [c]) == Some(n)
  {
    CharIndex(s, c);
    var i := IndexOf(s, [c]);
    assert c in s;
    assert forall k :: 0 <= k < n ==> s[..n][k] == s[k] && s[k] in s[..n];
    assert forall k :: 0 <= k < i.value ==> s[..i.value][k] == s[k] && s[k] in s[..i.value];
  }

  lemma CutAt(s: string, c: char, n: nat)
    requires n < |s| && s[n] == c && c !in s[..n]
    ensures Split(s, [c]) == [s[..n]] + Split(s[n + 1..], [c])
  {
    FoundAt(s, c, n);
    hide IndexOf;
  }

  lemma CutOf(a: string, b: string, n: nat)
    requires n < |a|
    ensures (a + b)[..n] == a[..n] && (a + b)[n] == a[n] && (a + b)[n + 1..] == a[n + 1..] + b
  {}

  lemma {:induction false} SplitAtChar(a: string, b: string, c: char)
    ensures Split(a + ([c] + b), [c]) == Split(a, [c]) + Split(b, [c])
    decreases |a|
  {
    var s := a + ([c] + b);
    CharIndex(a, c);
    var i := IndexOf(a, [c]);
    if i.None? {
      assert Split(a, [c]) == [a];
      hide Split, IndexOf;
      assert s[..|a|] == a && s[|a|] == c && s[|a| + 1..] == b;
      CutAt(s, c, |a|);
    } else {
      var n := i.value;
      hide Split, IndexOf;
      CutAt(a, c, n);
      CutOf(a, [c] + b, n);
      CutAt(s, c, n);
      SplitAtChar(a[n + 1..], b, c);
    }
  }

  lemma {:induction false} SplitOfWords(words: seq<string>, c: char)
    requires words != [] && forall w :: w in words ==> c !in w
    ensures Split(Join(words, [c]), [c]) == words
  {
    var w := words[0];
    assert w in words && words == [w] + words[1..];
    CharIndex(w, c);
    if |words| > 1 {
      SplitAtChar(w, Join(words[1..], [c]), c);
      assert Join(words, [c]) == w + ([c] + Join(words[1..], [c]));
      SplitOfWords(words[1..], c);
    }
  }

  lemma {:induction false} JoinOfSplit(s: string, c: char)
    ensures Join(Split(s, [c]), [c]) == s
    decreases |s|
  {
    CharIndex(s, c);
    var i := IndexOf(s, [c]);
    if i.Some? {
      JoinOfSplit(s[i.value + 1..], c);
      assert s == s[..i.value] + [c] + s[i.value + 1..];
    }
  }

  lemma {:induction false} JoinConcat(a: seq<string>, b: seq<string>, sep: string)
    requires a != [] && b != []
    ensures Join(a + b, sep) == Join(a, sep) + sep + Join(b, sep)
  {
    if |a| == 1 {
      assert (a + b)[1..] == b;
    } else {
      assert (a + b)[1..] == a[1..] + b;
      JoinConcat(a[1..], b, sep);
    }
  }
}
