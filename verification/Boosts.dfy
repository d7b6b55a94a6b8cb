// Stacked room boosts: how long a room is lit in all.
module Boosts {
  import opened Wrappers
  import opened ConsumableItems

  // The end time after boosts used at `times`, each worth `ms`.
  function Until(times: seq<int>, ms: int): Option<int> {
    if times == [] then None
    else Some(Extended(Until(times[..|times| - 1], ms), times[|times| - 1], ms))
  }

  predicate Nondecreasing(times: seq<int>) {
    forall i, j :: 0 <= i <= j < |times| ==> times[i] <= times[j]
  }

  // Lit at instant `t`: some boost has been used by then, and the end time it set is still to come.
  ghost predicate LitAt(times: seq<int>, ms: int, t: int) {
    exists i :: 0 <= i < |times| && LitBy(times, ms, i, t)
  }

  predicate LitBy(times: seq<int>, ms: int, i: nat, t: int)
    requires i < |times|
  {
    times[i] <= t < Until(times[..i + 1], ms).value
  }

  function Span(a: int, b: int): (s: set<int>)
    ensures forall t :: t in s <==> a <= t < b
    decreases b - a
  {
    if a < b then Span(a, b - 1) + {b - 1} else {}
  }

  lemma {:induction false} SpanSize(a: int, b: int)
    requires a <= b
    ensures |Span(a, b)| == b - a
    decreases b - a
  {
    if a < b { SpanSize(a, b - 1); }
  }

  // The lit instants.
  function Lit(times: seq<int>, ms: int): set<int> {
    if times == [] then {}
    else Lit(times[..|times| - 1], ms) + Span(times[|times| - 1], Until(times, ms).value)
  }

  lemma {:induction false} LitMeansLitAt(times: seq<int>, ms: int, t: int)
    ensures t in Lit(times, ms) <==> LitAt(times, ms, t)
  {
    if times != [] {
      var n := |times| - 1;
      var rest := times[..n];
      LitMeansLitAt(rest, ms, t);
      forall i | 0 <= i < n ensures LitBy(rest, ms, i, t) <==> LitBy(times, ms, i, t) {
        assert rest[..i + 1] == times[..i + 1];
      }
      assert times[..n + 1] == times;
      if i :| 0 <= i < n && LitBy(rest, ms, i, t) { assert LitBy(times, ms, i, t); }
      if i :| 0 <= i < |times| && LitBy(times, ms, i, t) {
        if i < n { assert LitBy(rest, ms, i, t); }
      }
      assert t in Span(times[n], Until(times, ms).value) <==> LitBy(times, ms, n, t);
    }
  }

  // Lit without a gap from the last use to the end, and dark from then on.
  ghost predicate GaplessTail(lit: set<int>, last: int, end: int) {
    (forall t :: last <= t < end ==> t in lit) && forall t :: t in lit ==> t < end
  }

  lemma StackOne(lit: set<int>, last: int, end: int, now: int, ms: int)
    requires GaplessTail(lit, last, end) && last <= now && ms > 0
    ensures var start := if now < end then end else now;
            var longer := lit + Span(now, start + ms);
            |longer| == |lit| + ms && GaplessTail(longer, now, start + ms)
  {
    hide Span;
    var start := if now < end then end else now;
    var added := Span(start, start + ms);
    assert lit + Span(now, start + ms) == lit + added;
    assert lit * added == {};
    assert |lit + added| == |lit| + |added|;
    SpanSize(start, start + ms);
  }

  function Last(times: seq<int>): int { if times == [] then 0 else times[|times| - 1] }

  function End(times: seq<int>, ms: int): int { if times == [] then 0 else Until(times, ms).value }

  lemma LitGrows(times: seq<int>, rest: seq<int>, ms: int)
    requires times != [] && rest == times[..|times| - 1] && Last(rest) <= Last(times) && Last(times) >= 0 && ms > 0
    requires GaplessTail(Lit(rest, ms), Last(rest), End(rest, ms))
    ensures |Lit(times, ms)| == |Lit(rest, ms)| + ms
    ensures GaplessTail(Lit(times, ms), Last(times), End(times, ms))
  {
    hide Span, GaplessTail;
    var end := Extended(Until(rest, ms), Last(times), ms);
    assert Until(times, ms) == Some(end);
    assert Lit(times, ms) == Lit(rest, ms) + Span(Last(times), end);
    assert Until(rest, ms).None? <==> rest == [];
    hide Lit, Until;
    StackOne(Lit(rest, ms), Last(rest), End(rest, ms), Last(times), ms);
  }

  lemma OneMore(n: nat, ms: int)
    ensures (n + 1) * ms == n * ms + ms
  {}

  // n boosts used at non-decreasing times light the room for exactly n times their worth: no boost is lost to an
  // overlap with an earlier one.
  lemma {:induction false} BoostsAddUp(times: seq<int>, ms: int)
    requires Nondecreasing(times) && (times != [] ==> times[0] >= 0) && ms > 0
    ensures |Lit(times, ms)| == |times| * ms
    ensures GaplessTail(Lit(times, ms), Last(times), End(times, ms))
  {
    if times != [] {
      var rest := times[..|times| - 1];
      BoostsAddUp(rest, ms);
      LitGrows(times, rest, ms);
      OneMore(|rest|, ms);
    }
  }

  // The end time is the room's column after the same uses.
  lemma UntilSnoc(times: seq<int>, now: int, ms: int)
    ensures Until(times + [now], ms) == Some(Extended(Until(times, ms), now, ms))
  {
    assert (times + [now])[..|times|] == times;
  }
}
