// The script's test for three fights within an hour, against the live query `countRecentFights`.
module BackfillWindow {
  import opened Wrappers
  import opened Store
  import opened Settlement
  import opened Durations
  import opened Backfill
  import opened BackfillOrder

  // The script's test: some fight and the one two places newer lie within an hour.
  predicate StrideTest(history: seq<Fight>) {
    exists i :: 2 <= i < |history| && history[i - 2].createdAt - history[i].createdAt <= HOUR_MS
  }

  // How many of the fights are stamped within the hour from `t` on.
  function CountWithin(history: seq<Fight>, t: int): nat {
    if history == [] then 0
    else (if t <= history[0].createdAt <= t + HOUR_MS then 1 else 0) + CountWithin(history[1..], t)
  }

  // Three of the fights, in whatever order they stand, fit in one hour.
  ghost predicate ThreeInAnHour(history: seq<Fight>) {
    exists t: int :: CountWithin(history, t) >= 3
  }

  lemma {:induction false} WithinIsSince(history: seq<Fight>, u: UserId, t: int)
    ensures CountWithin(history, t) == Since(history, u, true, t) + Since(history, u, false, t)
                                       - Since(history, u, true, t + HOUR_MS + 1)
                                       - Since(history, u, false, t + HOUR_MS + 1)
  {
    if history != [] { WithinIsSince(history[1..], u, t); }
  }

  lemma ThreeInAnyOrder(a: seq<Fight>, b: seq<Fight>)
    requires multiset(a) == multiset(b)
    ensures ThreeInAnHour(a) <==> ThreeInAnHour(b)
  {
    hide Since;
    forall t: int ensures CountWithin(a, t) == CountWithin(b, t) {
      WithinIsSince(a, "", t);
      WithinIsSince(b, "", t);
      SinceAnyOrder(a, b, "", true, t);
      SinceAnyOrder(a, b, "", false, t);
      SinceAnyOrder(a, b, "", true, t + HOUR_MS + 1);
      SinceAnyOrder(a, b, "", false, t + HOUR_MS + 1);
    }
  }

  // The live count, on a user's own history from fight `i` back, at time `now`.
  function RecentIn(history: seq<Fight>, now: int): nat {
    if history == [] then 0
    else RecentIn(history[1..], now) + if history[0].createdAt >= now - HOUR_MS then 1 else 0
  }

  lemma {:induction false} RecentInSorted(history: seq<Fight>, now: int, n: nat)
    requires NewestFirst(history)
    ensures RecentIn(history, now) >= n <==> n == 0 || (n <= |history| && history[n - 1].createdAt >= now - HOUR_MS)
    ensures RecentIn(history, now) <= |history|
    decreases |history|
  {
    if history != [] {
      assert NewestFirst(history[1..]);
      RecentInSorted(history[1..], now, if n > 0 then n - 1 else 0);
      assert 1 < n <= |history| ==> history[0].createdAt >= history[n - 1].createdAt;
      RecentInSorted(history[1..], now, 1);
    }
  }

  ghost predicate SomeRecentThree(history: seq<Fight>) {
    exists i :: 0 <= i < |history| && ThreeFrom(history, i)
  }

  predicate ThreeFrom(history: seq<Fight>, i: nat)
    requires i < |history|
  {
    RecentIn(history[i..], history[i].createdAt) >= 3
  }

  // The live count reaches three whenever three fights fit in an hour: by the last committed of them.
  lemma {:induction false} ThreeReachThree(history: seq<Fight>, t: int)
    requires CountWithin(history, t) >= 3
    ensures SomeRecentThree(history)
  {
    var f, rest := history[0], history[1..];
    assert history == [f] + rest;
    LaterEntries(f, rest);
    if t <= f.createdAt <= t + HOUR_MS {
      RecentCountsWithin(history, t, f.createdAt);
    } else {
      ThreeReachThree(rest, t);
    }
  }

  lemma {:induction false} RecentCountsWithin(history: seq<Fight>, t: int, now: int)
    requires now <= t + HOUR_MS
    ensures RecentIn(history, now) >= CountWithin(history, t)
  {
    if history != [] { RecentCountsWithin(history[1..], t, now); }
  }

  lemma {:induction false} WithinOfTail(history: seq<Fight>, i: nat, t: int)
    requires i <= |history|
    ensures CountWithin(history, t) >= CountWithin(history[i..], t)
  {
    if i > 0 {
      assert history[1..][i - 1..] == history[i..];
      WithinOfTail(history[1..], i - 1, t);
    }
  }

  lemma StrideIsThree(history: seq<Fight>, k: int)
    requires NewestFirst(history) && 2 <= k < |history|
    requires history[k - 2].createdAt - history[k].createdAt <= HOUR_MS
    ensures ThreeInAnHour(history)
  {
    var t, tail := history[k].createdAt, history[k - 2..];
    assert tail[0] == history[k - 2] && tail[1] == history[k - 1] && tail[2] == history[k];
    assert history[k - 2].createdAt >= history[k - 1].createdAt >= t;
    WithinOfTail(history, k - 2, t);
    assert CountWithin(tail, t) == 2 + CountWithin(tail[1..][1..], t) && tail[1..][1..][0] == tail[2];
    assert CountWithin(history, t) >= 3;
  }

  // On a newest-first history the stride-2 test finds exactly the users who had three finished fights within some hour,
  // and exactly those for whom some fight and those before it are three within the hour before it.
  lemma StrideTestFindsThree(history: seq<Fight>)
    requires NewestFirst(history)
    ensures StrideTest(history) <==> ThreeInAnHour(history)
    ensures StrideTest(history) <==> SomeRecentThree(history)
  {
    if ThreeInAnHour(history) {
      var t: int :| CountWithin(history, t) >= 3;
      ThreeReachThree(history, t);
    }
    if StrideTest(history) {
      var k :| 2 <= k < |history| && history[k - 2].createdAt - history[k].createdAt <= HOUR_MS;
      StrideIsThree(history, k);
    }
    if SomeRecentThree(history) {
      var i :| 0 <= i < |history| && ThreeFrom(history, i);
      RecentFrom(history, i);
      assert history[i + 2 - 2].createdAt - history[i + 2].createdAt <= HOUR_MS;
    }
  }

  lemma RecentFrom(history: seq<Fight>, i: nat)
    requires NewestFirst(history) && i < |history|
    ensures RecentIn(history[i..], history[i].createdAt) >= 3 <==>
            i + 2 < |history| && history[i].createdAt - history[i + 2].createdAt <= HOUR_MS
  {
    var rest := history[i..];
    assert forall j :: 0 <= j < |rest| ==> rest[j] == history[i + j];
    RecentInSorted(rest, history[i].createdAt, 3);
  }

  // The live query counts the user's finished fights that way.
  lemma {:induction false} RecentIsRecentIn(fights: seq<Fight>, u: UserId, now: int)
    requires FightsOk(fights)
    ensures Recent(fights, u, now) == RecentIn(Finished(fights, u), now)
  {
    if fights != [] {
      var rest, f := fights[..|fights| - 1], fights[|fights| - 1];
      RecentIsRecentIn(rest, u, now);
      assert fights == rest + [f];
      FinishedSnoc(rest, f, u);
      assert ([f] + Finished(rest, u))[1..] == Finished(rest, u);
    }
  }

  // The live query reaches three at the time of the fight in row `k`.
  predicate CountReachesThree(fights: seq<Fight>, u: UserId, k: nat)
    requires k < |fights|
  {
    Involves(fights[k], u) && fights[k].outcome != Cancelled && Recent(fights[..k + 1], u, fights[k].createdAt) >= 3
  }

  ghost predicate EverReachesThree(fights: seq<Fight>, u: UserId) {
    exists k :: 0 <= k < |fights| && CountReachesThree(fights, u, k)
  }

  lemma {:induction false} LiveCountByHistory(fights: seq<Fight>, u: UserId)
    requires FightsOk(fights)
    ensures EverReachesThree(fights, u) <==> SomeRecentThree(Finished(fights, u))
  {
    if fights != [] {
      var n := |fights| - 1;
      var rest, f := fights[..n], fights[n];
      LiveCountByHistory(rest, u);
      assert fights == rest + [f] && fights[..n + 1] == fights;
      FinishedSnoc(rest, f, u);
      RecentIsRecentIn(fights, u, f.createdAt);
      hide Finished, RecentIn, Recent, FightsOk;
      EarlierRows(fights, u);
      if Involves(f, u) && f.outcome != Cancelled { LaterEntries(f, Finished(rest, u)); }
    }
  }

  // Whether the count reached three before the last row, or at it.
  lemma EarlierRows(fights: seq<Fight>, u: UserId)
    requires fights != []
    ensures EverReachesThree(fights, u) <==>
            EverReachesThree(fights[..|fights| - 1], u) || CountReachesThree(fights, u, |fights| - 1)
  {
    hide Recent;
    var n := |fights| - 1;
    var rest := fights[..n];
    forall k | 0 <= k < n ensures CountReachesThree(rest, u, k) <==> CountReachesThree(fights, u, k) {
      assert rest[..k + 1] == fights[..k + 1];
    }
  }

  lemma LaterEntries(f: Fight, history: seq<Fight>)
    ensures SomeRecentThree([f] + history) <==> SomeRecentThree(history) || RecentIn([f] + history, f.createdAt) >= 3
  {
    hide RecentIn;
    var longer := [f] + history;
    assert longer[0..] == longer;
    forall i | 0 <= i < |history| ensures ThreeFrom(history, i) <==> ThreeFrom(longer, i + 1) {
      assert longer[i + 1..] == history[i..];
    }
    if i :| 0 <= i < |longer| && ThreeFrom(longer, i) {
      if i > 0 { assert ThreeFrom(history, i - 1); }
    }
    assert ThreeFrom(longer, 0) <==> RecentIn(longer, f.createdAt) >= 3;
  }

  // Whatever order the query returns ties in, the script's window test finds exactly the users of whom three finished
  // fights are stamped within some hour. For them the live count did reach three at the time of one of their fights;
  // where no fight is stamped before one committed earlier, for nobody else.
  lemma WindowMatchesLiveCount(fights: seq<Fight>, rows: seq<Fight>, u: UserId)
    requires FightsOk(fights) && IsQuery(rows, fights)
    ensures StrideTest(Mine(rows, u)) <==> ThreeInAnHour(Finished(fights, u))
    ensures StrideTest(Mine(rows, u)) ==> EverReachesThree(fights, u)
    ensures NewestFirst(Finished(fights, u)) ==> (StrideTest(Mine(rows, u)) <==> EverReachesThree(fights, u))
  {
    SameFightsOk(rows, fights);
    MineMultiset(rows, fights, u);
    MineIsNewestFirst(rows, u);
    LiveCountByHistory(fights, u);
    hide Finished, Mine, EverReachesThree, SomeRecentThree, FightsOk, StrideTest;
    StrideTestFindsThree(Mine(rows, u));
    ThreeInAnyOrder(Mine(rows, u), Finished(fights, u));
    if ThreeInAnHour(Finished(fights, u)) {
      var t: int :| CountWithin(Finished(fights, u), t) >= 3;
      ThreeReachThree(Finished(fights, u), t);
    }
    if NewestFirst(Finished(fights, u)) { StrideTestFindsThree(Finished(fights, u)); }
  }

  function DuelAt(now: int): Fight { Fight("a", Some("b"), Some("a"), "aura", 1, Ko, false, now) }

  lemma ThreeDuels(x: Fight, z: Fight)
    requires x == DuelAt(x.createdAt) && z == DuelAt(z.createdAt)
    ensures FightsOk([x, x, z]) && Finished([x, x, z], "a") == [z, x, x]
  {
    assert Finished([], "a") == [];
    assert FightOk(x) && FightOk(z) && Involves(x, "a") && Involves(z, "a");
    hide Finished, Mine, FightOk, Involves, DuelAt;
    assert [] + [x] == [x] && [x] + [x] == [x, x] && [x, x] + [z] == [x, x, z];
    FinishedSnoc([], x, "a");
    FinishedSnoc([x], x, "a");
    FinishedSnoc([x, x], z, "a");
  }

  lemma ThirdCountsAll(x: Fight, z: Fight)
    requires x.createdAt >= z.createdAt
    ensures SomeRecentThree([z, x, x])
  {
    assert [z, x, x][1..] == [x, x] && [x, x][1..] == [x] && [x][1..] == [];
    assert [z, x, x][0..] == [z, x, x];
    var now := z.createdAt;
    assert RecentIn([x], now) == 1 && RecentIn([x, x], now) == 2 && RecentIn([z, x, x], now) == 3;
    assert ThreeFrom([z, x, x], 0);
  }

  lemma NoHourHasAll(x: Fight, z: Fight)
    requires x.createdAt > z.createdAt + HOUR_MS
    ensures !ThreeInAnHour([z, x, x])
  {
    assert [z, x, x][1..] == [x, x] && [x, x][1..] == [x] && [x][1..] == [];
    forall t: int ensures CountWithin([z, x, x], t) < 3 {
      assert CountWithin([], t) == 0;
      assert CountWithin([x, x], t) == 2 * CountWithin([x], t);
    }
  }

  // Two fights two hours after the start and, by a clock turned back, a third at the start: the live count finds three
  // at the third, and the script finds no hour with three in it.
  lemma CountOverreaches()
    ensures var fights := [DuelAt(2 * HOUR_MS), DuelAt(2 * HOUR_MS), DuelAt(0)];
            && FightsOk(fights) && EverReachesThree(fights, "a")
            && forall rows :: IsQuery(rows, fights) ==> !StrideTest(Mine(rows, "a"))
  {
    var x, z := DuelAt(2 * HOUR_MS), DuelAt(0);
    var fights := [x, x, z];
    ThreeDuels(x, z);
    ThirdCountsAll(x, z);
    NoHourHasAll(x, z);
    hide *;
    LiveCountByHistory(fights, "a");
    forall rows | IsQuery(rows, fights) ensures !StrideTest(Mine(rows, "a")) {
      WindowMatchesLiveCount(fights, rows, "a");
    }
  }
}
