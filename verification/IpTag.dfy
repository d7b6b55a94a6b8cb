// ip-tag.ts and normalizeIp of client-ip.ts: the text that stands for an address, over all spellings
// of forms 1 and 2 in section 2.2 of RFC 4291.
module IpTag {
  import opened Strings
  import opened Wrappers

  // `toLowerCase`, on the characters an address is made of.
  function LowerChar(c: char): char { if 'A' <= c <= 'Z' then c - 'A' + 'a' else c }

  function ToLower(s: string): (r: string)
    ensures |r| == |s|
  {
    seq(|s|, i requires 0 <= i < |s| => LowerChar(s[i]))
  }

  // ----- numbers -----

  predicate IsHexDigit(c: char) { '0' <= c <= '9' || 'a' <= c <= 'f' || 'A' <= c <= 'F' }

  function DigitValue(c: char): (v: nat)
    requires IsHexDigit(c)
    ensures v < 16
  {
    if '0' <= c <= '9' then (c - '0') as int
    else if 'a' <= c <= 'f' then (c - 'a') as int + 10
    else (c - 'A') as int + 10
  }

  function DigitChar(v: nat): (c: char)
    requires v < 16
    ensures IsHexDigit(c) && DigitValue(c) == v
  {
    if v < 10 then '0' + v as char else 'a' + (v - 10) as char
  }

  // The leading hexadecimal digits.
  function HexPrefix(s: string): (r: string)
    ensures forall i :: 0 <= i < |r| ==> IsHexDigit(r[i])
  {
    if s != "" && IsHexDigit(s[0]) then [s[0]] + HexPrefix(s[1..]) else ""
  }

  function HexValue(s: string): nat
    requires forall i :: 0 <= i < |s| ==> IsHexDigit(s[i])
  {
    if s == "" then 0 else 16 * HexValue(s[..|s| - 1]) + DigitValue(s[|s| - 1])
  }

  // `Number.parseInt(s, 16)`; none is NaN. The sign, the leading blanks and the "0x" that parseInt also takes occur
  // in no well-formed address and are not modelled.
  function ParseHex(s: string): Option<nat> {
    var digits := HexPrefix(s);
    if digits == "" then None else Some(HexValue(digits))
  }

  // `n.toString(16)`
  function ToHex(n: nat): (s: string)
    ensures s != "" && forall i :: 0 <= i < |s| ==> IsHexDigit(s[i])
  {
    if n < 16 then [DigitChar(n)] else ToHex(n / 16) + [DigitChar(n % 16)]
  }

  function Canonicalised(hextet: string): string {
    var n := ParseHex(hextet);
    if n.None? then "NaN" else ToHex(n.value)
  }

  // ----- the tag -----

  const MAPPED := "::ffff:"

  function NormalizeIp(ip: string): string { if StartsWith(ToLower(ip), MAPPED) then ip[7..] else ip }

  function Normalized(ip: string): string { ToLower(NormalizeIp(ip)) }

  function Parts(side: string): seq<string> { if side == "" then [] else Split(side, ":") }

  function Zeros(n: nat): seq<string> { seq(n, i => "0") }

  // `hextets`; a negative fill throws.
  function Hextets(normalized: string): Result<seq<string>> {
    var sides := Split(normalized, "::");
    var leading := Parts(sides[0]);
    var trailing := if |sides| > 1 then Parts(sides[1]) else [];
    if |leading| + |trailing| > 8 then Thrown("Invalid array length")
    else Ok(leading + Zeros(8 - |leading| - |trailing|) + trailing)
  }

  function Map(f: string -> string, xs: seq<string>): seq<string> { seq(|xs|, i requires 0 <= i < |xs| => f(xs[i])) }

  function First(s: string, n: nat): string { if |s| <= n then s else s[..n] }

  function FirstParts(xs: seq<string>, n: nat): seq<string> { if |xs| <= n then xs else xs[..n] }

  // `hmac(secret, text)` is the digest in hexadecimal.
  function Tag(ip: string, secret: string, hmac: (string, string) -> string): Result<string> {
    var normalized := Normalized(ip);
    var hextets := Hextets(normalized);
    if hextets.Thrown? then Thrown(hextets.message)
    else
      var canonicalHextets := Map(Canonicalised, hextets.value);
      var dotted := '.' in normalized;
      var canonical := if dotted then normalized else Join(canonicalHextets, ":");
      var digest := First(hmac(secret, canonical), 3);
      Ok(if dotted then Join(FirstParts(Split(normalized, "."), 3) + ["#" + digest], ".")
         else Join(FirstParts(canonicalHextets, 3), ":") + "::#" + digest)
  }

  // ----- addresses and their spellings -----

  type Groups = seq<nat>

  predicate IsGroup(token: string) { 1 <= |token| <= 4 && forall i :: 0 <= i < |token| ==> IsHexDigit(token[i]) }

  // All eight groups, or two runs of groups around a "::" that stands for at least one zero group.
  datatype Spelling = Full(groups: seq<string>) | Compressed(head: seq<string>, tail: seq<string>) {
    predicate Valid() {
      match this
      case Full(groups) => |groups| == 8 && AllGroups(groups)
      case Compressed(head, tail) => |head| + |tail| <= 7 && AllGroups(head) && AllGroups(tail)
    }

    function Text(): string {
      match this
      case Full(groups) => Join(groups, ":")
      case Compressed(head, tail) => Join(head, ":") + "::" + Join(tail, ":")
    }

    function Address(): (g: Groups)
      requires Valid()
      ensures |g| == 8
    {
      match this
      case Full(groups) => Values(groups)
      case Compressed(head, tail) => Values(head) + seq(8 - |head| - |tail|, i => 0) + Values(tail)
    }
  }

  predicate AllGroups(tokens: seq<string>) { forall i :: 0 <= i < |tokens| ==> IsGroup(tokens[i]) }

  function Values(tokens: seq<string>): (vs: Groups)
    requires AllGroups(tokens)
    ensures |vs| == |tokens|
  {
    seq(|tokens|, i requires 0 <= i < |tokens| => HexValue(tokens[i]))
  }

  // ----- splitting what was joined -----

  predicate NoColon(s: string) { ':' !in s }

  predicate Plain(tokens: seq<string>) { forall i :: 0 <= i < |tokens| ==> tokens[i] != "" && NoColon(tokens[i]) }

  // The first colon after a colon-free start.
  lemma {:induction false} FindsAfter(a: string, sep: string, rest: string)
    requires NoColon(a) && (sep == ":" || sep == "::")
    ensures IndexOf(a + sep + rest, sep) == Some(|a|)
  {
    var s := a + sep + rest;
    if a == "" {
      assert s == sep + rest;
    } else {
      assert a[0] in a && s[0] == a[0];
      assert s[1..] == a[1..] + sep + rest;
      assert forall c :: c in a[1..] ==> c in a;
      FindsAfter(a[1..], sep, rest);
    }
  }

  lemma {:induction false} FindsNothing(a: string, sep: string)
    requires NoColon(a) && (sep == ":" || sep == "::")
    ensures IndexOf(a, sep).None?
  {
    if a != "" {
      assert a[0] in a;
      assert forall c :: c in a[1..] ==> c in a;
      FindsNothing(a[1..], sep);
    }
  }

  lemma {:induction false} SplitJoined(tokens: seq<string>)
    requires tokens != [] && Plain(tokens)
    ensures Split(Join(tokens, ":"), ":") == tokens
  {
    if |tokens| == 1 {
      FindsNothing(tokens[0], ":");
    } else {
      var rest := Join(tokens[1..], ":");
      FindsAfter(tokens[0], ":", rest);
      var s := tokens[0] + ":" + rest;
      assert s[..|tokens[0]|] == tokens[0] && s[|tokens[0]| + 1..] == rest;
      SplitJoined(tokens[1..]);
    }
  }

  // Joined tokens neither start nor end with a colon.
  lemma {:induction false} JoinedEnds(tokens: seq<string>)
    requires tokens != [] && Plain(tokens)
    ensures var s := Join(tokens, ":"); s != "" && s[0] != ':' && s[|s| - 1] != ':'
  {
    assert tokens[0] != "" && NoColon(tokens[0]);
    assert tokens[0][0] in tokens[0];
    if |tokens| == 1 {
      assert tokens[0][|tokens[0]| - 1] in tokens[0];
    } else {
      JoinedEnds(tokens[1..]);
      assert Join(tokens, ":") == (tokens[0] + ":") + Join(tokens[1..], ":");
    }
  }

  // Single colons are no double colon: "::" is first found where it was put.
  lemma {:induction false} FindsDouble(tokens: seq<string>, rest: string)
    requires Plain(tokens) && (rest == "" || StartsWith(rest, "::"))
    ensures IndexOf(Join(tokens, ":") + rest, "::") == if rest == "" then None else Some(|Join(tokens, ":")|)
    decreases |tokens|
  {
    if tokens == [] {
      assert Join(tokens, ":") + rest == rest;
    } else if |tokens| == 1 {
      SkipToken(tokens[0], rest);
    } else {
      var tail := Join(tokens[1..], ":");
      JoinedEnds(tokens[1..]);
      FindsDouble(tokens[1..], rest);
      SkipToken(tokens[0], ":" + tail + rest);
      assert Join(tokens, ":") + rest == tokens[0] + (":" + tail + rest);
      SkipColon(tail, rest);
      hide IndexOf, Join, Plain;
    }
  }

  lemma SkipColon(tail: string, rest: string)
    requires tail != "" && tail[0] != ':'
    ensures IndexOf(":" + tail + rest, "::") ==
            match IndexOf(tail + rest, "::") case None => None case Some(i) => Some(i + 1)
  {
    var s := ":" + tail + rest;
    assert s[1] == tail[0] && s[1..] == tail + rest;
  }

  lemma {:induction false} SkipToken(a: string, rest: string)
    requires NoColon(a)
    ensures IndexOf(a + rest, "::") ==
            match IndexOf(rest, "::") case None => None case Some(i) => Some(|a| + i)
  {
    if a == "" {
      assert a + rest == rest;
    } else {
      assert a[0] in a && (a + rest)[0] == a[0];
      assert (a + rest)[1..] == a[1..] + rest;
      assert forall c :: c in a[1..] ==> c in a;
      SkipToken(a[1..], rest);
    }
  }

  lemma PartsJoined(tokens: seq<string>)
    requires Plain(tokens)
    ensures Parts(Join(tokens, ":")) == tokens
  {
    if tokens != [] {
      JoinedEnds(tokens);
      SplitJoined(tokens);
    }
  }

  lemma SplitPlain(tokens: seq<string>)
    requires Plain(tokens)
    ensures Split(Join(tokens, ":"), "::") == [Join(tokens, ":")]
  {
    var s := Join(tokens, ":");
    FindsDouble(tokens, "");
    assert s + "" == s;
  }

  lemma SplitCompressed(head: seq<string>, tail: seq<string>)
    requires Plain(head) && Plain(tail)
    ensures Split(Join(head, ":") + "::" + Join(tail, ":"), "::") == [Join(head, ":"), Join(tail, ":")]
  {
    var left, right := Join(head, ":"), Join(tail, ":");
    var s := left + "::" + right;
    FindsDouble(head, "::" + right);
    assert s == left + ("::" + right);
    assert s[..|left|] == left && s[|left| + 2..] == right;
    SplitPlain(tail);
  }

  // ----- lower case -----

  function LowerAll(tokens: seq<string>): (r: seq<string>)
    ensures |r| == |tokens|
  {
    seq(|tokens|, i requires 0 <= i < |tokens| => ToLower(tokens[i]))
  }

  lemma LowerConcat(a: string, b: string)
    ensures ToLower(a + b) == ToLower(a) + ToLower(b)
  {}

  lemma {:induction false} LowerJoin(tokens: seq<string>)
    ensures ToLower(Join(tokens, ":")) == Join(LowerAll(tokens), ":")
  {
    if |tokens| == 1 {
    } else if tokens != [] {
      LowerJoin(tokens[1..]);
      LowerConcat(tokens[0] + ":", Join(tokens[1..], ":"));
      LowerConcat(tokens[0], ":");
      assert LowerAll(tokens)[1..] == LowerAll(tokens[1..]);
      assert ToLower(":") == ":";
    }
  }

  lemma {:induction false} LowerValue(s: string)
    requires forall i :: 0 <= i < |s| ==> IsHexDigit(s[i])
    ensures forall i :: 0 <= i < |s| ==> IsHexDigit(ToLower(s)[i])
    ensures HexValue(ToLower(s)) == HexValue(s)
  {
    if s != "" {
      LowerValue(s[..|s| - 1]);
      assert ToLower(s)[..|s| - 1] == ToLower(s[..|s| - 1]);
    }
  }

  function Lowered(sp: Spelling): Spelling {
    match sp
    case Full(groups) => Full(LowerAll(groups))
    case Compressed(head, tail) => Compressed(LowerAll(head), LowerAll(tail))
  }

  lemma LowerGroups(tokens: seq<string>)
    requires AllGroups(tokens)
    ensures AllGroups(LowerAll(tokens)) && Values(LowerAll(tokens)) == Values(tokens)
  {
    forall i | 0 <= i < |tokens|
      ensures IsGroup(LowerAll(tokens)[i]) && HexValue(LowerAll(tokens)[i]) == HexValue(tokens[i])
    {
      assert IsGroup(tokens[i]);
      LowerValue(tokens[i]);
    }
  }

  // Lower case spells the same address.
  lemma LoweredSpelling(sp: Spelling)
    requires sp.Valid()
    ensures Lowered(sp).Valid() && Lowered(sp).Address() == sp.Address() && Lowered(sp).Text() == ToLower(sp.Text())
  {
    match sp
    case Full(groups) =>
      LowerGroups(groups);
      LowerJoin(groups);
    case Compressed(head, tail) =>
      LowerGroups(head);
      LowerGroups(tail);
      LowerJoin(head);
      LowerJoin(tail);
      LowerConcat(Join(head, ":") + "::", Join(tail, ":"));
      LowerConcat(Join(head, ":"), "::");
      assert ToLower("::") == "::";
  }

  // ----- reading groups -----

  lemma {:induction false} AllDigits(s: string)
    requires forall i :: 0 <= i < |s| ==> IsHexDigit(s[i])
    ensures HexPrefix(s) == s
  {
    if s != "" {
      AllDigits(s[1..]);
    }
  }

  lemma GroupReads(token: string)
    requires IsGroup(token)
    ensures ParseHex(token) == Some(HexValue(token)) && token != "" && NoColon(token) && '.' !in token
  {
    AllDigits(token);
  }

  lemma GroupsArePlain(tokens: seq<string>)
    requires AllGroups(tokens)
    ensures Plain(tokens)
  {
    forall i | 0 <= i < |tokens| ensures tokens[i] != "" && NoColon(tokens[i]) { GroupReads(tokens[i]); }
  }

  // The hextets of a text are these groups.
  ghost predicate Expands(normalized: string, g: Groups) {
    var hextets := Hextets(normalized);
    hextets.Ok? && |hextets.value| == |g| && forall i :: 0 <= i < |g| ==> ParseHex(hextets.value[i]) == Some(g[i])
  }

  lemma ZeroReads()
    ensures ParseHex("0") == Some(0)
  {
    assert "0"[..0] == "" && "0"[1..] == "";
    assert HexPrefix("0") == "0";
  }

  lemma PlainHextets(groups: seq<string>)
    requires Plain(groups) && 1 <= |groups| <= 8
    ensures Hextets(Join(groups, ":")) == Ok(groups + Zeros(8 - |groups|))
  {
    SplitPlain(groups);
    PartsJoined(groups);
    hide Split, Join, Parts, Plain;
    assert groups + Zeros(8 - |groups|) + [] == groups + Zeros(8 - |groups|);
  }

  lemma CompressedHextets(head: seq<string>, tail: seq<string>)
    requires Plain(head) && Plain(tail) && |head| + |tail| <= 8
    ensures Hextets(Join(head, ":") + "::" + Join(tail, ":")) == Ok(head + Zeros(8 - |head| - |tail|) + tail)
  {
    SplitCompressed(head, tail);
    PartsJoined(head);
    PartsJoined(tail);
    hide *;
    TwoSides(Join(head, ":") + "::" + Join(tail, ":"), Join(head, ":"), Join(tail, ":"), head, tail);
  }

  lemma TwoSides(text: string, left: string, right: string, head: seq<string>, tail: seq<string>)
    requires Split(text, "::") == [left, right] && Parts(left) == head && Parts(right) == tail && |head| + |tail| <= 8
    ensures Hextets(text) == Ok(head + Zeros(8 - |head| - |tail|) + tail)
  {
    hide Split, Parts, Zeros;
  }

  lemma FullExpands(groups: seq<string>)
    requires AllGroups(groups) && 1 <= |groups| <= 8
    ensures Expands(Join(groups, ":"), Values(groups) + seq(8 - |groups|, i => 0))
  {
    GroupsArePlain(groups);
    PlainHextets(groups);
    GroupsThenZeros(groups);
    hide *;
    ReadsAs(Join(groups, ":"), groups + Zeros(8 - |groups|), Values(groups) + seq(8 - |groups|, i => 0));
  }

  lemma GroupsThenZeros(groups: seq<string>)
    requires AllGroups(groups) && |groups| <= 8
    ensures var n := 8 - |groups|;
            var xs, g := groups + Zeros(n), Values(groups) + seq(n, i => 0);
            |xs| == |g| == 8 && forall i :: 0 <= i < 8 ==> ParseHex(xs[i]) == Some(g[i])
  {
    ZeroReads();
    forall i | 0 <= i < |groups| ensures ParseHex(groups[i]) == Some(Values(groups)[i]) { GroupReads(groups[i]); }
    hide ParseHex, HexValue, AllGroups;
  }

  lemma ReadsAs(normalized: string, hextets: seq<string>, g: Groups)
    requires Hextets(normalized) == Ok(hextets) && |hextets| == |g|
    requires forall i :: 0 <= i < |g| ==> ParseHex(hextets[i]) == Some(g[i])
    ensures Expands(normalized, g)
  {
    hide Hextets, ParseHex;
  }

  lemma CompressedExpands(head: seq<string>, tail: seq<string>)
    requires AllGroups(head) && AllGroups(tail) && |head| + |tail| <= 8
    ensures Expands(Join(head, ":") + "::" + Join(tail, ":"),
                    Values(head) + seq(8 - |head| - |tail|, i => 0) + Values(tail))
  {
    GroupsArePlain(head);
    GroupsArePlain(tail);
    CompressedHextets(head, tail);
    SidesRead(head, tail);
    hide Hextets, Join, ParseHex, HexValue, AllGroups, Plain, Zeros, Values;
  }

  // The text of a spelling expands to its address.
  lemma TextExpands(sp: Spelling)
    requires sp.Valid()
    ensures Expands(sp.Text(), sp.Address())
  {
    hide Expands, Join;
    match sp
    case Full(groups) =>
      FullExpands(groups);
      assert Values(groups) + seq(0, i => 0) == Values(groups);
    case Compressed(head, tail) => CompressedExpands(head, tail);
  }

  lemma SidesRead(head: seq<string>, tail: seq<string>)
    requires AllGroups(head) && AllGroups(tail) && |head| + |tail| <= 8
    ensures var n := 8 - |head| - |tail|;
            var xs, g := head + Zeros(n) + tail, Values(head) + seq(n, i => 0) + Values(tail);
            |xs| == |g| == 8 && forall i :: 0 <= i < 8 ==> ParseHex(xs[i]) == Some(g[i])
  {
    ZeroReads();
    forall i | 0 <= i < |head| ensures ParseHex(head[i]) == Some(Values(head)[i]) { GroupReads(head[i]); }
    forall i | 0 <= i < |tail| ensures ParseHex(tail[i]) == Some(Values(tail)[i]) { GroupReads(tail[i]); }
  }

  // ----- the prefix that is taken for a mapped IPv4 address -----

  lemma {:induction false} JoinedDrop(tokens: seq<string>)
    requires |tokens| >= 2
    ensures Join(tokens, ":") == tokens[0] + ":" + Join(tokens[1..], ":")
  {}

  // A spelling that starts with "::ffff:" (in any case) is a "::", the group ffff, and at least one more group.
  lemma MappedShape(sp: Spelling)
    requires sp.Valid() && StartsWith(sp.Text(), MAPPED)
    ensures sp.Compressed? && sp.head == [] && |sp.tail| >= 2 && sp.tail[0] == "ffff"
    ensures sp.Text()[7..] == Join(sp.tail[1..], ":")
  {
    var text := sp.Text();
    assert text[0] == ':' && text[1] == ':' && text[6] == ':' && forall i :: 2 <= i < 6 ==> text[i] == 'f';
    match sp
    case Full(groups) =>
      GroupsArePlain(groups);
      JoinedEnds(groups);
    case Compressed(head, tail) =>
      GroupsArePlain(head);
      GroupsArePlain(tail);
      if head != [] {
        JoinedEnds(head);
      } else {
        assert text == "::" + Join(tail, ":");
        MappedTail(tail, text);
      }
  }

  lemma MappedTail(tail: seq<string>, text: string)
    requires AllGroups(tail) && text == "::" + Join(tail, ":") && StartsWith(text, MAPPED)
    ensures |tail| >= 2 && tail[0] == "ffff" && text[7..] == Join(tail[1..], ":")
  {
    var joined := Join(tail, ":");
    AfterMapped(text, joined);
    assert tail != [];
    GroupReads(tail[0]);
    hide *;
    TakesFfff(tail, joined);
  }

  lemma AfterMapped(text: string, joined: string)
    requires text == "::" + joined && StartsWith(text, MAPPED)
    ensures |joined| >= 5 && joined[4] == ':' && (forall i :: 0 <= i < 4 ==> joined[i] == 'f')
    ensures text[7..] == joined[5..]
  {
    assert forall i :: 0 <= i < 7 ==> text[i] == MAPPED[i];
    assert forall i :: 0 <= i < |joined| ==> joined[i] == text[i + 2];
  }

  lemma TakesFfff(tail: seq<string>, joined: string)
    requires tail != [] && NoColon(tail[0]) && joined == Join(tail, ":")
    requires |joined| >= 5 && joined[4] == ':' && forall i :: 0 <= i < 4 ==> joined[i] == 'f'
    ensures |tail| >= 2 && tail[0] == "ffff" && joined[5..] == Join(tail[1..], ":")
  {
    hide NoColon;
    var first := tail[0];
    if |tail| == 1 {
      ColonIn(first, 4);
    } else {
      JoinedDrop(tail);
      var rest := Join(tail[1..], ":");
      hide Join;
      assert joined == first + ":" + rest;
      assert joined[|first|] == ':' && forall i :: 0 <= i < |first| ==> joined[i] == first[i];
      if |first| > 4 { ColonIn(first, 4); }
      assert |first| == 4;
      assert first == "ffff";
    }
  }

  lemma ColonIn(s: string, i: nat)
    requires i < |s| && s[i] == ':'
    ensures !NoColon(s)
  {}

  // Eight groups cannot be both `front`, then zeros, and zeros, then ffff, then `front`.
  lemma NotItsOwnShift(g: Groups, front: Groups)
    requires |g| == 8 && 1 <= |front| <= 6
    requires g == front + seq(8 - |front|, i => 0)
    requires g == seq(7 - |front|, i => 0) + [0xffff] + front
    ensures false
  {
    var d := 8 - |front|;
    forall i | d <= i < 8 ensures g[i] == g[i - d] { assert g[i] == front[i - d]; }
    assert g[d - 1] == 0xffff;
    Recurs(g, d, d - 1);
  }

  lemma {:induction false} Recurs(g: Groups, d: nat, i: nat)
    requires |g| == 8 && 2 <= d <= 7 && i < 8 && g[i] != 0
    requires forall j :: d <= j < 8 ==> g[j] == g[j - d]
    requires forall j :: 8 - d <= j < 8 ==> g[j] == 0
    ensures false
    decreases 8 - i
  {
    if i < 8 - d { Recurs(g, d, i + d); }
  }

  lemma ExpansionIsOne(normalized: string, g: Groups, h: Groups)
    requires Expands(normalized, g) && Expands(normalized, h)
    ensures g == h
  {
    hide ParseHex, Hextets;
    var xs := Hextets(normalized).value;
    forall i | 0 <= i < |g| ensures g[i] == h[i] { assert ParseHex(xs[i]) == Some(g[i]) == Some(h[i]); }
  }

  // Over every spelling of every address: the hextets are the address's groups exactly when the spelling does not start
  // with "::ffff:", in whatever case. With that prefix, cut off as if an IPv4 address followed, they never are.
  lemma ExpandsUnlessMapped(sp: Spelling)
    requires sp.Valid()
    ensures Expands(Normalized(sp.Text()), sp.Address()) <==> !StartsWith(ToLower(sp.Text()), MAPPED)
  {
    var low := Lowered(sp);
    LoweredSpelling(sp);
    if !StartsWith(low.Text(), MAPPED) {
      TextExpands(low);
    } else {
      MappedNeverExpands(sp, low);
    }
  }

  // What is left of a mapped spelling is read as the groups behind the prefix, followed by zeros.
  lemma MappedExpands(sp: Spelling, low: Spelling)
    requires low.Valid() && low.Text() == ToLower(sp.Text()) && StartsWith(low.Text(), MAPPED)
    ensures low.Compressed? && 2 <= |low.tail| <= 7 && AllGroups(low.tail[1..]) && '.' !in Normalized(sp.Text())
    ensures var front := Values(low.tail[1..]);
            && low.Address() == seq(7 - |front|, i => 0) + [0xffff] + front
            && Expands(Normalized(sp.Text()), front + seq(8 - |front|, i => 0))
  {
    MappedShape(low);
    var rest := low.tail[1..];
    assert Normalized(sp.Text()) == low.Text()[7..];
    hide Expands, Normalized;
    NoDots(rest);
    FullExpands(rest);
    MappedAddress(low, rest);
    hide Join, Values;
  }

  lemma MappedNeverExpands(sp: Spelling, low: Spelling)
    requires sp.Valid() && low.Valid() && low.Text() == ToLower(sp.Text()) && low.Address() == sp.Address()
    requires StartsWith(low.Text(), MAPPED)
    ensures !Expands(Normalized(sp.Text()), sp.Address())
  {
    MappedExpands(sp, low);
    var front := Values(low.tail[1..]);
    hide Expands, Normalized, Join, Values;
    if Expands(Normalized(sp.Text()), sp.Address()) {
      ExpansionIsOne(Normalized(sp.Text()), sp.Address(), front + seq(8 - |front|, i => 0));
      NotItsOwnShift(sp.Address(), front);
    }
  }

  lemma MappedAddress(low: Spelling, rest: seq<string>)
    requires low.Compressed? && low.Valid() && low.head == [] && low.tail != [] && low.tail[0] == "ffff"
    requires rest == low.tail[1..]
    ensures AllGroups(rest) && |rest| <= 6 && low.Address() == seq(7 - |rest|, i => 0) + [0xffff] + Values(rest)
  {
    FfffReads();
    hide HexValue;
  }

  lemma FfffReads()
    ensures HexValue("ffff") == 0xffff
  {
    assert "ffff"[..3] == "fff" && "fff"[..2] == "ff" && "ff"[..1] == "f" && "f"[..0] == "";
    assert HexValue("f") == 15 && HexValue("ff") == 255 && HexValue("fff") == 4095;
  }

  // ----- the tag of an address -----

  function HexTexts(g: Groups): (r: seq<string>)
    ensures |r| == |g|
  {
    seq(|g|, i requires 0 <= i < |g| => ToHex(g[i]))
  }

  function CanonicalText(g: Groups): string { Join(HexTexts(g), ":") }

  // The first three groups, and three digits of the digest of them all.
  function AddressTag(g: Groups, secret: string, hmac: (string, string) -> string): string
    requires |g| == 8
  {
    Join(HexTexts(g)[..3], ":") + "::#" + First(hmac(secret, CanonicalText(g)), 3)
  }

  lemma {:induction false} NoDots(tokens: seq<string>)
    requires AllGroups(tokens)
    ensures '.' !in Join(tokens, ":")
  {
    if tokens != [] {
      GroupReads(tokens[0]);
      if |tokens| > 1 { NoDots(tokens[1..]); }
    }
  }

  lemma TextHasNoDots(sp: Spelling)
    requires sp.Valid()
    ensures '.' !in sp.Text()
  {
    match sp
    case Full(groups) => NoDots(groups);
    case Compressed(head, tail) =>
      NoDots(head);
      NoDots(tail);
      hide Join;
  }

  // A text that expands to an address gets that address's tag.
  lemma TagOfExpansion(ip: string, g: Groups, secret: string, hmac: (string, string) -> string)
    requires |g| == 8 && Expands(Normalized(ip), g) && '.' !in Normalized(ip)
    ensures Tag(ip, secret, hmac) == Ok(AddressTag(g, secret, hmac))
  {
    var hextets := Hextets(Normalized(ip)).value;
    hide Hextets, Normalized, Join, ParseHex, ToHex;
    assert Map(Canonicalised, hextets) == HexTexts(g) by {
      forall i | 0 <= i < 8 ensures Canonicalised(hextets[i]) == ToHex(g[i]) {
        assert ParseHex(hextets[i]) == Some(g[i]);
      }
    }
  }

  // The tag depends on nothing but the address: neither case, nor leading zeros, nor what a "::" stands for matters.
  lemma TagOfSpelling(sp: Spelling, secret: string, hmac: (string, string) -> string)
    requires sp.Valid() && !StartsWith(ToLower(sp.Text()), MAPPED)
    ensures Tag(sp.Text(), secret, hmac) == Ok(AddressTag(sp.Address(), secret, hmac))
  {
    ExpandsUnlessMapped(sp);
    LoweredSpelling(sp);
    TextHasNoDots(Lowered(sp));
    assert Normalized(sp.Text()) == Lowered(sp).Text();
    hide Expands, Normalized, Tag, AddressTag;
    TagOfExpansion(sp.Text(), sp.Address(), secret, hmac);
  }

  lemma {:induction false} HexRoundTrip(n: nat)
    ensures HexValue(ToHex(n)) == n && ParseHex(ToHex(n)) == Some(n) && NoColon(ToHex(n))
  {
    var s := ToHex(n);
    AllDigits(s);
    if n < 16 {
      assert s == [DigitChar(n)] && s[..0] == "";
    } else {
      HexRoundTrip(n / 16);
      assert s[..|s| - 1] == ToHex(n / 16) && s[|s| - 1] == DigitChar(n % 16);
    }
  }

  // Different addresses have different canonical texts, so they share a tag only where digests agree.
  lemma CanonicalTextTellsAddresses(g: Groups, h: Groups)
    requires |g| == |h| == 8 && CanonicalText(g) == CanonicalText(h)
    ensures g == h
  {
    HexTextsArePlain(g);
    HexTextsArePlain(h);
    SplitJoined(HexTexts(g));
    SplitJoined(HexTexts(h));
    hide Join, Split, ToHex;
    forall i | 0 <= i < 8 ensures g[i] == h[i] {
      HexRoundTrip(g[i]);
      HexRoundTrip(h[i]);
      assert HexTexts(g)[i] == HexTexts(h)[i];
    }
  }

  lemma HexTextsArePlain(g: Groups)
    ensures Plain(HexTexts(g))
  {
    forall i | 0 <= i < |g| ensures HexTexts(g)[i] != "" && NoColon(HexTexts(g)[i]) { HexRoundTrip(g[i]); }
  }

  // What follows a mapped prefix gets the tag it gets on its own.
  lemma MappedPrefixIsDropped(prefix: string, ip: string, secret: string, hmac: (string, string) -> string)
    requires ToLower(prefix) == MAPPED && !StartsWith(ToLower(ip), MAPPED)
    ensures Tag(prefix + ip, secret, hmac) == Tag(ip, secret, hmac)
  {
    LowerConcat(prefix, ip);
    assert |prefix| == 7 && (prefix + ip)[7..] == ip;
    hide Hextets, Join, Split;
  }

  // Every mapped spelling gets the tag of an address that it does not spell.
  lemma MappedTagsAnother(sp: Spelling, secret: string, hmac: (string, string) -> string)
    requires sp.Valid() && StartsWith(ToLower(sp.Text()), MAPPED)
    ensures exists g :: |g| == 8 && g != sp.Address() && Tag(sp.Text(), secret, hmac) == Ok(AddressTag(g, secret, hmac))
  {
    var low := Lowered(sp);
    LoweredSpelling(sp);
    MappedExpands(sp, low);
    var front := Values(low.tail[1..]);
    var g := front + seq(8 - |front|, i => 0);
    hide Expands, Normalized, Tag, AddressTag, Join, Values;
    ExpandsUnlessMapped(sp);
    TagOfExpansion(sp.Text(), g, secret, hmac);
  }

  // "::ffff:1" spells the address 0:0:0:0:0:0:ffff:1, but is read as "1::" and so gets another tag,
  // whatever the digest.
  lemma MappedExample(secret: string, hmac: (string, string) -> string)
    ensures var short, full := Compressed([], ["ffff", "1"]), Full(["0", "0", "0", "0", "0", "0", "ffff", "1"]);
            && short.Text() == "::ffff:1" && short.Valid() && full.Valid()
            && short.Address() == full.Address() == [0, 0, 0, 0, 0, 0, 0xffff, 1]
            && Expands(Normalized(short.Text()), [1, 0, 0, 0, 0, 0, 0, 0])
            && Tag(short.Text(), secret, hmac) != Tag(full.Text(), secret, hmac)
  {
    var short, full := Compressed([], ["ffff", "1"]), Full(["0", "0", "0", "0", "0", "0", "ffff", "1"]);
    ExampleAddress();
    ExampleText();
    ExampleFullText();
    hide Expands, Normalized, Tag, AddressTag, Join, Values;
    TagOfExpansion("::ffff:1", [1, 0, 0, 0, 0, 0, 0, 0], secret, hmac);
    TagOfSpelling(full, secret, hmac);
    TagsStartApart([1, 0, 0, 0, 0, 0, 0, 0], full.Address(), secret, hmac);
  }

  lemma ExampleAddress()
    ensures var short, full := Compressed([], ["ffff", "1"]), Full(["0", "0", "0", "0", "0", "0", "ffff", "1"]);
            short.Valid() && full.Valid() && short.Address() == full.Address() == [0, 0, 0, 0, 0, 0, 0xffff, 1]
  {
    OneReads();
    FfffReads();
    hide HexValue;
    var ts := ["0", "0", "0", "0", "0", "0", "ffff", "1"];
    assert Values(ts) == [0, 0, 0, 0, 0, 0, 0xffff, 1];
    assert Values(["ffff", "1"]) == [0xffff, 1] && Values([]) == [];
  }

  lemma ExampleText()
    ensures Compressed([], ["ffff", "1"]).Text() == "::ffff:1"
    ensures Expands(Normalized("::ffff:1"), [1, 0, 0, 0, 0, 0, 0, 0]) && '.' !in Normalized("::ffff:1")
  {
    assert Join(["ffff", "1"], ":") == "ffff" + ":" + Join(["1"], ":");
    var text := "::ffff:1";
    assert ToLower(text) == text && text[7..] == "1" && ToLower("1") == "1";
    FullExpands(["1"]);
    assert Join(["1"], ":") == "1";
    OneReads();
    assert Values(["1"]) + seq(7, i => 0) == [1, 0, 0, 0, 0, 0, 0, 0];
  }

  lemma ExampleFullText()
    ensures var full := Full(["0", "0", "0", "0", "0", "0", "ffff", "1"]);
            !StartsWith(ToLower(full.Text()), MAPPED)
  {
    var tokens := ["0", "0", "0", "0", "0", "0", "ffff", "1"];
    JoinedDrop(tokens);
    var text := Join(tokens, ":");
    assert text[0] == '0';
    assert ToLower(text)[0] == '0' && MAPPED[0] == ':';
    hide ToLower, Join;
    if StartsWith(ToLower(text), MAPPED) { SameHead(ToLower(text), MAPPED); }
  }

  lemma SameHead(s: string, prefix: string)
    requires StartsWith(s, prefix) && prefix != ""
    ensures s != "" && s[0] == prefix[0]
  {}

  lemma TagsStartApart(g: Groups, h: Groups, secret: string, hmac: (string, string) -> string)
    requires |g| == |h| == 8 && g[0] < 16 && h[0] < 16 && g[0] != h[0]
    ensures AddressTag(g, secret, hmac) != AddressTag(h, secret, hmac)
  {
    TagStarts(g, secret, hmac);
    TagStarts(h, secret, hmac);
    hide AddressTag;
    assert DigitValue(DigitChar(g[0])) != DigitValue(DigitChar(h[0]));
  }

  lemma TagStarts(g: Groups, secret: string, hmac: (string, string) -> string)
    requires |g| == 8 && g[0] < 16
    ensures var t := AddressTag(g, secret, hmac); t != "" && t[0] == DigitChar(g[0])
  {
    var firsts := HexTexts(g)[..3];
    JoinedDrop(firsts);
    assert firsts[0] == [DigitChar(g[0])];
    assert Join(firsts, ":")[0] == DigitChar(g[0]);
    hide Join, ToHex, First, HexTexts;
  }

  lemma OneReads()
    ensures HexValue("1") == 1 && HexValue("0") == 0
  {
    assert "1"[..0] == "" && "0"[..0] == "";
  }
}
