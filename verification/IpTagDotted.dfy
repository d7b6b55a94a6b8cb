// The tag of an IPv4 address in dotted decimals, alone or behind the mapped prefix.
module IpTagDotted {
  import opened Strings
  import opened Wrappers
  import opened IpTag

  predicate IsDecimal(s: string) { s != "" && forall i :: 0 <= i < |s| ==> '0' <= s[i] <= '9' }

  function Dotted(numbers: seq<string>): string { Join(numbers, ".") }

  // Digits and dots.
  predicate IsDotted(s: string) { s != "" && forall i :: 0 <= i < |s| ==> '0' <= s[i] <= '9' || s[i] == '.' }

  lemma {:induction false} DottedText(numbers: seq<string>)
    requires numbers != [] && forall n :: n in numbers ==> IsDecimal(n)
    ensures IsDotted(Dotted(numbers)) && (|numbers| > 1 ==> '.' in Dotted(numbers))
  {
    assert numbers[0] in numbers;
    if |numbers| > 1 {
      DottedText(numbers[1..]);
      assert Dotted(numbers)[|numbers[0]|] == '.';
    }
  }

  // Such a text is its own normal form and one hextet, so nothing is thrown.
  lemma DottedIsPlain(text: string)
    requires IsDotted(text)
    ensures Normalized(text) == text && Hextets(text).Ok?
  {
    assert forall c :: c in text ==> c != ':';
    assert NoColon(text);
    assert ToLower(text) == text;
    assert text[0] != MAPPED[0];
    FindsNothing(text, "::");
    FindsNothing(text, ":");
  }

  lemma TagOfDotted(text: string, secret: string, hmac: (string, string) -> string)
    requires IsDotted(text) && '.' in text
    ensures Tag(text, secret, hmac) ==
            Ok(Join(FirstParts(Split(text, "."), 3) + ["#" + First(hmac(secret, text), 3)], "."))
  {
    DottedIsPlain(text);
    hide Normalized, Hextets, First, FirstParts, Split, Join, IsDotted;
  }

  // For every IPv4 address the tag shows the first three numbers and three digits of the digest of the whole.
  lemma DottedShowsThree(numbers: seq<string>, secret: string, hmac: (string, string) -> string)
    requires |numbers| == 4 && forall n :: n in numbers ==> IsDecimal(n)
    ensures var text := Dotted(numbers);
            Tag(text, secret, hmac) ==
            Ok(numbers[0] + "." + numbers[1] + "." + numbers[2] + "." + ("#" + First(hmac(secret, text), 3)))
  {
    var text := Dotted(numbers);
    DottedText(numbers);
    TagOfDotted(text, secret, hmac);
    forall n | n in numbers ensures '.' !in n { assert IsDecimal(n); }
    hide Tag, IsDotted, IsDecimal, First;
    SplitOfWords(numbers, '.');
    var digest := "#" + First(hmac(secret, text), 3);
    assert FirstParts(numbers, 3) + [digest] == [numbers[0], numbers[1], numbers[2], digest];
    hide Split, Join;
    JoinOfFour(numbers[0], numbers[1], numbers[2], digest);
  }

  lemma JoinOfFour(a: string, b: string, c: string, d: string)
    ensures Join([a, b, c, d], ".") == a + "." + b + "." + c + "." + d
  {
    assert [a, b, c, d][1..] == [b, c, d] && [b, c, d][1..] == [c, d] && [c, d][1..] == [d];
    assert Join([c, d], ".") == c + "." + d;
    assert Join([b, c, d], ".") == b + "." + (c + "." + d);
  }

  // Behind the mapped prefix, in any case, it is the same tag.
  lemma MappedDottedIsDotted(prefix: string, numbers: seq<string>, secret: string, hmac: (string, string) -> string)
    requires ToLower(prefix) == MAPPED && |numbers| == 4 && forall n :: n in numbers ==> IsDecimal(n)
    ensures Tag(prefix + Dotted(numbers), secret, hmac) == Tag(Dotted(numbers), secret, hmac)
  {
    DottedText(numbers);
    var text := Dotted(numbers);
    assert ToLower(text)[0] != MAPPED[0];
    hide Tag, IsDotted, IsDecimal;
    MappedPrefixIsDropped(prefix, text, secret, hmac);
  }
}
