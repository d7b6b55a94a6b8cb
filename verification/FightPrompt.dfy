// The prompt generator and the cadence detector of the duel engine.
// Times are whole milliseconds; means and variances are exact reals.
module FightPrompt {

  const MIN_REACTION_MS := 120
  const STUN_MS := 1000
  const HIT_COOLDOWN_MS := 150
  const KEYS := "ABCDEFGHIJKLMNOPQRSTUVWXYZ"

  // "" is the key of a match that has not started.
  type Key = k: string | |k| <= 1

  datatype Prompt = Prompt(promptId: string, key: Key, sentAt: int)

  // `s.replace(c, '')`: only the first occurrence goes.
  function DropFirst(s: string, c: char): string {
    if s == "" then "" else if s[0] == c then s[1..] else [s[0]] + DropFirst(s[1..], c)
  }

  predicate Distinct(s: string) {
    forall i, j :: 0 <= i < j < |s| ==> s[i] != s[j]
  }

  lemma {:induction false} DropFirstContents(s: string, c: char)
    requires Distinct(s)
    ensures forall d :: d in DropFirst(s, c) <==> d in s && d != c
    ensures Distinct(DropFirst(s, c))
    ensures |DropFirst(s, c)| == if c in s then |s| - 1 else |s|
  {
    if s != "" {
      var t := s[1..];
      assert s == [s[0]] + t;
      assert Distinct(t) && s[0] !in t by {
        forall i, j | 0 <= i < j < |t| ensures t[i] != t[j] { assert s[i + 1] != s[j + 1]; }
        assert forall k :: 0 <= k < |t| ==> t[k] == s[k + 1];
      }
      DropFirstContents(t, c);
    }
  }

  lemma KeysAreDistinct()
    ensures Distinct(KEYS) && |KEYS| == 26
  {
    assert forall i :: 0 <= i < |KEYS| ==> KEYS[i] as int == 'A' as int + i;
  }

  // An empty previous key is falsy, so every key is a choice.
  function Choices(previousKey: Key): (r: string)
    ensures forall k :: k in r <==> k in KEYS && [k] != previousKey
    ensures |r| == if previousKey != "" && previousKey[0] in KEYS then 25 else 26
  {
    KeysAreDistinct();
    if previousKey == "" then KEYS
    else
      DropFirstContents(KEYS, previousKey[0]);
      DropFirst(KEYS, previousKey[0])
  }

  lemma KeysAreLetters(k: char)
    ensures k in KEYS <==> 'A' <= k <= 'Z'
  {
    if 'A' <= k <= 'Z' { assert KEYS[k as int - 'A' as int] == k; }
  }

  lemma ChoiceIsLetter(previousKey: Key, roll: nat)
    requires roll < |Choices(previousKey)|
    ensures 'A' <= Choices(previousKey)[roll] <= 'Z' && [Choices(previousKey)[roll]] != previousKey
  {
    var k := Choices(previousKey)[roll];
    assert k in Choices(previousKey);
    hide Choices;
    KeysAreLetters(k);
  }

  // `randomUUID()` and `randomInt(choices.length)` arrive as parameters.
  function CreatePrompt(now: int, previousKey: Key, promptId: string, roll: nat): (p: Prompt)
    requires roll < |Choices(previousKey)|
    ensures p.sentAt == now && p.promptId == promptId
    ensures |p.key| == 1 && 'A' <= p.key[0] <= 'Z' && p.key != previousKey
  {
    ChoiceIsLetter(previousKey, roll);
    Prompt(promptId, [Choices(previousKey)[roll]], now)
  }

  // ----- cadence -----

  const WINDOW := 11

  function Sum(xs: seq<real>): real {
    if xs == [] then 0.0 else xs[0] + Sum(xs[1..])
  }

  // Sum of squared distances from `mean`.
  function Spread(xs: seq<real>, mean: real): real {
    if xs == [] then 0.0 else (xs[0] - mean) * (xs[0] - mean) + Spread(xs[1..], mean)
  }

  function LastN<T>(xs: seq<T>, n: nat): seq<T> {
    if |xs| <= n then xs else xs[|xs| - n..]
  }

  function Intervals(ts: seq<int>): (ds: seq<real>)
    ensures |ds| == if ts == [] then 0 else |ts| - 1
    ensures forall i :: 0 <= i < |ds| ==> ds[i] == (ts[i + 1] - ts[i]) as real
  {
    if |ts| <= 1 then [] else [(ts[1] - ts[0]) as real] + Intervals(ts[1..])
  }

  function Variance(ds: seq<real>): real
    requires |ds| == 10
  {
    Spread(ds, Sum(ds) / 10.0) / 10.0
  }

  // The source compares `Math.sqrt(variance)` with 15; see SuspicionByDeviation.
  predicate IsSuspiciousCadence(timestamps: seq<int>) {
    |timestamps| >= WINDOW &&
    Variance(Intervals(LastN(timestamps, WINDOW))) < 15.0 * 15.0
  }

  lemma ProductNonNegative(a: real, b: real)
    requires (a >= 0.0 && b >= 0.0) || (a <= 0.0 && b <= 0.0)
    ensures a * b >= 0.0
  {}

  lemma SpreadNonNegative(xs: seq<real>, mean: real)
    ensures Spread(xs, mean) >= 0.0
  {
    if xs != [] {
      var d := xs[0] - mean;
      ProductNonNegative(d, d);
      SpreadNonNegative(xs[1..], mean);
    }
  }

  // For the standard deviation `s` the source computes, `s < 15` is the same test.
  lemma SuspicionByDeviation(timestamps: seq<int>, s: real)
    requires |timestamps| >= WINDOW
    requires s >= 0.0 && s * s == Variance(Intervals(LastN(timestamps, WINDOW)))
    ensures IsSuspiciousCadence(timestamps) <==> s < 15.0
  {
    if s < 15.0 {
      assert s * s <= 15.0 * s < 15.0 * 15.0;
    } else {
      assert s * s >= 15.0 * s >= 15.0 * 15.0;
    }
  }

  function Square(x: real): real { x * x }

  function Expansion(around0: real, mean: real, sum: real, n: real): real {
    around0 - 2.0 * mean * sum + n * (mean * mean)
  }

  // One more interval, in numbers alone.
  lemma ExpandOne(x: real, mean: real, n: real, sum: real, around0: real)
    ensures Square(x - mean) + Expansion(around0, mean, sum, n) ==
            Expansion(Square(x - 0.0) + around0, mean, x + sum, n + 1.0)
  {
    assert (x - mean) * (x - mean) == x * x - 2.0 * mean * x + mean * mean;
    assert 2.0 * mean * (x + sum) == 2.0 * mean * x + 2.0 * mean * sum;
    assert (n + 1.0) * (mean * mean) == n * (mean * mean) + mean * mean;
  }

  lemma SpreadCons(xs: seq<real>, mean: real)
    requires xs != []
    ensures Spread(xs, mean) == Square(xs[0] - mean) + Spread(xs[1..], mean)
    ensures Sum(xs) == xs[0] + Sum(xs[1..])
  {}

  lemma {:induction false} SpreadIsExpansion(xs: seq<real>, mean: real)
    ensures Spread(xs, mean) == Expansion(Spread(xs, 0.0), mean, Sum(xs), |xs| as real)
  {
    if xs != [] {
      var t := xs[1..];
      SpreadCons(xs, mean);
      SpreadCons(xs, 0.0);
      hide Spread, Sum, Square, Expansion;
      SpreadIsExpansion(t, mean);
      ExpandOne(xs[0], mean, |t| as real, Sum(t), Spread(t, 0.0));
      assert |xs| as real == |t| as real + 1.0;
    }
  }

  lemma SpreadExpands(xs: seq<real>, mean: real)
    ensures Spread(xs, mean) == Spread(xs, 0.0) - 2.0 * mean * Sum(xs) + (|xs| as real) * (mean * mean)
  {
    SpreadIsExpansion(xs, mean);
  }

  // The intervals telescope: their sum is the time from the first hit to the last.
  lemma {:induction false} IntervalsTelescope(ts: seq<int>)
    requires ts != []
    ensures Sum(Intervals(ts)) == (ts[|ts| - 1] - ts[0]) as real
  {
    if |ts| > 1 {
      IntervalsTelescope(ts[1..]);
      assert Intervals(ts)[1..] == Intervals(ts[1..]);
    }
  }

  // The test without means or roots: ten times the squared intervals against the squared span.
  lemma CadenceClosedForm(timestamps: seq<int>)
    requires |timestamps| >= WINDOW
    ensures var w := LastN(timestamps, WINDOW);
            var span := (w[10] - w[0]) as real;
            IsSuspiciousCadence(timestamps) <==> 10.0 * Spread(Intervals(w), 0.0) - span * span < 22500.0
  {
    var w := LastN(timestamps, WINDOW);
    var ds := Intervals(w);
    var S := Sum(ds);
    var mean := S / 10.0;
    IntervalsTelescope(w);
    SpreadExpands(ds, mean);
    assert 10.0 * mean == S;
    assert 2.0 * mean * S == 2.0 * mean * (10.0 * mean) == 20.0 * (mean * mean);
    assert S * S == (10.0 * mean) * (10.0 * mean) == 100.0 * (mean * mean);
  }

  // Moving every hit by the same amount changes nothing.
  lemma CadenceShiftInvariant(a: seq<int>, b: seq<int>, shift: int)
    requires |a| == |b| && forall i :: 0 <= i < |a| ==> b[i] == a[i] + shift
    ensures IsSuspiciousCadence(a) <==> IsSuspiciousCadence(b)
  {
    if |a| >= WINDOW {
      var u, v := LastN(a, WINDOW), LastN(b, WINDOW);
      assert forall i :: 0 <= i < 11 ==> v[i] == u[i] + shift;
      assert |Intervals(u)| == |Intervals(v)|;
      forall i | 0 <= i < 10 ensures Intervals(v)[i] == Intervals(u)[i] {
        assert v[i + 1] - v[i] == u[i + 1] - u[i];
      }
      assert Intervals(u) == Intervals(v);
    }
  }

  predicate Within(ds: seq<real>, lo: real, hi: real) {
    forall i :: 0 <= i < |ds| ==> lo <= ds[i] <= hi
  }

  lemma {:induction false} SquaresBelowChord(ds: seq<real>, lo: real, hi: real)
    requires Within(ds, lo, hi)
    ensures Spread(ds, 0.0) <= (lo + hi) * Sum(ds) - (|ds| as real) * (lo * hi)
  {
    if ds != [] {
      var d, t := ds[0], ds[1..];
      assert forall i :: 0 <= i < |t| ==> t[i] == ds[i + 1];
      SquaresBelowChord(t, lo, hi);
      ProductNonNegative(d - lo, hi - d);
      assert (d - lo) * (hi - d) == (lo + hi) * d - lo * hi - d * d;
      assert (lo + hi) * (d + Sum(t)) == (lo + hi) * d + (lo + hi) * Sum(t);
      assert (|ds| as real) * (lo * hi) == (|t| as real) * (lo * hi) + lo * hi;
      assert (d - 0.0) * (d - 0.0) == d * d;
    }
  }

  lemma CompleteTheSquare(q: real, S: real, m: real, p: real)
    requires q <= m * S - 10.0 * p
    ensures 10.0 * q - S * S <= 25.0 * (m * m - 4.0 * p)
  {
    var e := S - 5.0 * m;
    ProductNonNegative(e, e);
    assert e * e == S * S - 10.0 * (m * S) + 25.0 * (m * m);
  }

  lemma GapSquared(lo: real, hi: real)
    requires 0.0 <= hi - lo < 30.0
    ensures (lo + hi) * (lo + hi) - 4.0 * (lo * hi) < 900.0
  {
    var g := hi - lo;
    assert (lo + hi) * (lo + hi) - 4.0 * (lo * hi) == g * g;
    ProductNonNegative(g, 30.0 - g);
    assert g * (30.0 - g) == 30.0 * g - g * g;
  }

  // Popoviciu's bound: ten intervals that stay within 30 ms of each other are always flagged.
  lemma SteadyHandIsSuspicious(timestamps: seq<int>, lo: real, hi: real)
    requires |timestamps| >= WINDOW
    requires Within(Intervals(LastN(timestamps, WINDOW)), lo, hi) && hi - lo < 30.0
    ensures IsSuspiciousCadence(timestamps)
  {
    hide Spread, Sum, Variance;
    var w := LastN(timestamps, WINDOW);
    var ds := Intervals(w);
    SquaresBelowChord(ds, lo, hi);
    IntervalsTelescope(w);
    CadenceClosedForm(timestamps);
    assert lo <= ds[0] <= hi;
    CompleteTheSquare(Spread(ds, 0.0), Sum(ds), lo + hi, lo * hi);
    GapSquared(lo, hi);
  }

  lemma {:induction false} SpreadAtLeastOne(ds: seq<real>, mean: real, i: nat)
    requires i < |ds|
    ensures Spread(ds, mean) >= (ds[i] - mean) * (ds[i] - mean)
  {
    var t := ds[1..];
    var d := ds[0] - mean;
    ProductNonNegative(d, d);
    if i == 0 {
      SpreadNonNegative(t, mean);
    } else {
      assert t[i - 1] == ds[i];
      SpreadAtLeastOne(t, mean, i - 1);
    }
  }

  lemma {:induction false} SpreadAtLeastTwo(ds: seq<real>, mean: real, i: nat, j: nat)
    requires i < j < |ds|
    ensures Spread(ds, mean) >= (ds[i] - mean) * (ds[i] - mean) + (ds[j] - mean) * (ds[j] - mean)
  {
    var t := ds[1..];
    var d := ds[0] - mean;
    ProductNonNegative(d, d);
    assert t[j - 1] == ds[j];
    if i == 0 {
      SpreadAtLeastOne(t, mean, j - 1);
    } else {
      assert t[i - 1] == ds[i];
      SpreadAtLeastTwo(t, mean, i - 1, j - 1);
    }
  }

  // A flagged window cannot hold two intervals 68 ms apart: the squared gap is below 4500.
  lemma SuspiciousMeansSteady(timestamps: seq<int>, i: nat, j: nat)
    requires IsSuspiciousCadence(timestamps) && i < j < 10
    ensures var ds := Intervals(LastN(timestamps, WINDOW));
            (ds[i] - ds[j]) * (ds[i] - ds[j]) < 4500.0
  {
    var ds := Intervals(LastN(timestamps, WINDOW));
    var mean := Sum(ds) / 10.0;
    SpreadAtLeastTwo(ds, mean, i, j);
    var a, b := ds[i] - mean, ds[j] - mean;
    ProductNonNegative(a + b, a + b);
    assert (a - b) * (a - b) == 2.0 * (a * a) + 2.0 * (b * b) - (a + b) * (a + b);
  }
}
