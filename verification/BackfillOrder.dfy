// The script reads its rows by `created_at`, the live streaks follow the order of the commits: when the two agree.
module BackfillOrder {
  import opened Wrappers
  import opened Store
  import opened Settlement
  import opened Backfill

  // ----- one user's part of the query's rows -----

  lemma MineCons(rows: seq<Fight>, u: UserId)
    requires rows != [] && FightOk(rows[0])
    ensures Mine(rows, u) ==
            (if Involves(rows[0], u) && rows[0].outcome != Cancelled then [rows[0]] else []) + Mine(rows[1..], u)
  {
    var f, rest := rows[0], History(rows[1..], u);
    if Involves(f, u) {
      assert Entries(f, u) == [f];
      assert ([f] + rest)[1..] == rest;
    } else {
      assert Entries(f, u) + rest == rest;
    }
  }

  lemma {:induction false} MineCounts(rows: seq<Fight>, u: UserId, f: Fight)
    requires FightsOk(rows)
    ensures multiset(Mine(rows, u))[f] ==
            if Involves(f, u) && f.outcome != Cancelled then multiset(rows)[f] else 0
  {
    if rows != [] {
      MineCons(rows, u);
      MineCounts(rows[1..], u, f);
      assert rows == [rows[0]] + rows[1..];
      hide Mine;
    }
  }

  lemma {:induction false} ReverseMultiset(fights: seq<Fight>)
    ensures multiset(Reverse(fights)) == multiset(fights)
  {
    if fights != [] {
      ReverseMultiset(fights[1..]);
      assert fights == [fights[0]] + fights[1..];
    }
  }

  lemma SameFightsOk(rows: seq<Fight>, fights: seq<Fight>)
    requires FightsOk(fights) && multiset(rows) == multiset(fights)
    ensures FightsOk(rows)
  {
    forall i | 0 <= i < |rows| ensures FightOk(rows[i]) {
      assert rows[i] in multiset(rows);
    }
  }

  // Whatever order the query returns, a user's part of it has that user's finished fights.
  lemma MineMultiset(rows: seq<Fight>, fights: seq<Fight>, u: UserId)
    requires FightsOk(fights) && multiset(rows) == multiset(fights)
    ensures multiset(Mine(rows, u)) == multiset(Finished(fights, u))
  {
    ReverseMultiset(fights);
    SameFightsOk(rows, fights);
    SameFightsOk(Reverse(fights), fights);
    hide Mine, FightsOk, Involves;
    forall f ensures multiset(Mine(rows, u))[f] == multiset(Finished(fights, u))[f] {
      MineCounts(rows, u, f);
      MineCounts(Reverse(fights), u, f);
    }
  }

  ghost predicate Ordered(rows: seq<Fight>, before: (Fight, Fight) -> bool) {
    forall i, j :: 0 <= i < j < |rows| ==> before(rows[i], rows[j])
  }

  lemma OrderedCons(f: Fight, rest: seq<Fight>, before: (Fight, Fight) -> bool)
    requires Ordered(rest, before) && forall g :: g in rest ==> before(f, g)
    ensures Ordered([f] + rest, before) && Ordered([] + rest, before)
  {
    assert [] + rest == rest;
  }

  lemma {:induction false} MineIsOrdered(rows: seq<Fight>, u: UserId, before: (Fight, Fight) -> bool)
    requires FightsOk(rows) && Ordered(rows, before)
    ensures Ordered(Mine(rows, u), before)
    ensures forall f :: f in Mine(rows, u) ==> f in rows
  {
    if rows != [] {
      MineCons(rows, u);
      MineIsOrdered(rows[1..], u, before);
      hide Mine, FightsOk, Involves;
      var rest := Mine(rows[1..], u);
      assert rows == [rows[0]] + rows[1..];
      forall f | f in rest ensures before(rows[0], f) {
        var j :| 0 <= j < |rows[1..]| && rows[1..][j] == f;
        assert rows[j + 1] == f;
      }
      OrderedCons(rows[0], rest, before);
    }
  }

  lemma MineIsNewestFirst(rows: seq<Fight>, u: UserId)
    requires FightsOk(rows) && NewestFirst(rows)
    ensures NewestFirst(Mine(rows, u))
  {
    var before := (x: Fight, y: Fight) => x.createdAt >= y.createdAt;
    MineIsOrdered(rows, u, before);
    hide Mine, FightsOk;
    assert Ordered(Mine(rows, u), before);
  }

  // ----- fights stamped in the order of their commits -----

  // Newest first, without ties.
  ghost predicate StampedInOrder(history: seq<Fight>) {
    forall i, j :: 0 <= i < j < |history| ==> history[i].createdAt > history[j].createdAt
  }

  lemma SameSet(a: seq<Fight>, b: seq<Fight>)
    requires multiset(a) == multiset(b)
    ensures |a| == |b| && forall f :: f in a <==> f in b
  {
    assert |multiset(a)| == |a| && |multiset(b)| == |b|;
    assert forall f :: f in a <==> f in multiset(a);
    assert forall f :: f in b <==> f in multiset(b);
  }

  lemma Rest(rows: seq<Fight>)
    requires rows != []
    ensures multiset(rows[1..]) == multiset(rows) - multiset{rows[0]}
  {
    assert rows == [rows[0]] + rows[1..];
  }

  lemma {:induction false} OneOrder(history: seq<Fight>, other: seq<Fight>)
    requires StampedInOrder(history) && NewestFirst(other) && multiset(other) == multiset(history)
    ensures other == history
  {
    if history == [] {
      SameSet(history, other);
    } else {
      SameNewest(history, other);
      Rest(history);
      Rest(other);
      assert StampedInOrder(history[1..]) && NewestFirst(other[1..]);
      hide StampedInOrder, NewestFirst;
      OneOrder(history[1..], other[1..]);
      assert history == [history[0]] + history[1..] && other == [other[0]] + other[1..];
    }
  }

  lemma SameNewest(history: seq<Fight>, other: seq<Fight>)
    requires history != [] && StampedInOrder(history) && NewestFirst(other) && multiset(other) == multiset(history)
    ensures other != [] && other[0] == history[0]
  {
    assert history[0] in multiset(other);
    assert other[0] in multiset(history);
    var k :| 0 <= k < |other| && other[k] == history[0];
    assert other[0].createdAt >= other[k].createdAt;
  }

  // If every finished fight of a user was stamped later than the one committed before it, the script sees them in the
  // order of their commits.
  lemma InOrderIsRead(rows: seq<Fight>, fights: seq<Fight>, u: UserId)
    requires FightsOk(fights) && IsQuery(rows, fights) && StampedInOrder(Finished(fights, u))
    ensures Mine(rows, u) == Finished(fights, u)
  {
    SameFightsOk(rows, fights);
    MineMultiset(rows, fights, u);
    MineIsNewestFirst(rows, u);
    OneOrder(Finished(fights, u), Mine(rows, u));
  }

  // ----- how long a streak the script can find -----

  predicate Lasts(f: Fight, u: UserId, won: bool, t: int) { WonBy(f, u) == won && f.createdAt >= t }

  // How many fights with result `won` there are from time `t` on.
  function Since(history: seq<Fight>, u: UserId, won: bool, t: int): nat {
    if history == [] then 0
    else (if Lasts(history[0], u, won, t) then 1 else 0) + Since(history[1..], u, won, t)
  }

  lemma {:induction false} SinceConcat(a: seq<Fight>, b: seq<Fight>, u: UserId, won: bool, t: int)
    ensures Since(a + b, u, won, t) == Since(a, u, won, t) + Since(b, u, won, t)
  {
    if a == [] {
      assert a + b == b;
    } else {
      assert (a + b)[1..] == a[1..] + b;
      SinceConcat(a[1..], b, u, won, t);
    }
  }

  lemma SinceWithout(history: seq<Fight>, i: nat, u: UserId, won: bool, t: int)
    requires i < |history|
    ensures var rest := history[..i] + history[i + 1..];
            && multiset(rest) == multiset(history) - multiset{history[i]}
            && Since(history, u, won, t) == Since(rest, u, won, t) + if Lasts(history[i], u, won, t) then 1 else 0
  {
    hide Lasts;
    var front, f, back := history[..i], history[i], history[i + 1..];
    assert history == front + ([f] + back);
    SinceConcat(front, back, u, won, t);
    SinceConcat(front, [f] + back, u, won, t);
    assert ([f] + back)[1..] == back;
  }

  lemma {:induction false} SinceAnyOrder(a: seq<Fight>, b: seq<Fight>, u: UserId, won: bool, t: int)
    requires multiset(a) == multiset(b)
    ensures Since(a, u, won, t) == Since(b, u, won, t)
  {
    if a == [] {
      SameSet(a, b);
    } else {
      hide Lasts;
      assert a[0] in multiset(b);
      var i :| 0 <= i < |b| && b[i] == a[0];
      SinceWithout(b, i, u, won, t);
      Rest(a);
      SinceAnyOrder(a[1..], b[..i] + b[i + 1..], u, won, t);
    }
  }

  lemma {:induction false} SinceNone(history: seq<Fight>, u: UserId, won: bool, t: int)
    ensures Since(history, u, won, t) == 0 <==> forall f :: f in history ==> !Lasts(f, u, won, t)
  {
    if history != [] {
      SinceNone(history[1..], u, won, t);
      assert history == [history[0]] + history[1..];
    }
  }

  // `t` is the time of the newest fight with result `won`.
  ghost predicate IsLatest(history: seq<Fight>, u: UserId, won: bool, t: int) {
    Since(history, u, won, t) > 0 && Since(history, u, won, t + 1) == 0
  }

  function Latest(history: seq<Fight>, u: UserId, won: bool): (t: Option<int>)
    ensures t.Some? ==> IsLatest(history, u, won, t.value)
    ensures t.None? ==> forall f :: f in history ==> WonBy(f, u) != won
  {
    if history == [] then None
    else
      var later := Latest(history[1..], u, won);
      assert history == [history[0]] + history[1..];
      if WonBy(history[0], u) == won && (later.None? || history[0].createdAt > later.value) then
        LaterThanAll(history, u, won, later);
        Some(history[0].createdAt)
      else later
  }

  lemma LaterThanAll(history: seq<Fight>, u: UserId, won: bool, later: Option<int>)
    requires history != [] && WonBy(history[0], u) == won
    requires later.None? ==> forall f :: f in history[1..] ==> WonBy(f, u) != won
    requires later.Some? ==> Since(history[1..], u, won, later.value + 1) == 0 && later.value < history[0].createdAt
    ensures IsLatest(history, u, won, history[0].createdAt)
  {
    var t := history[0].createdAt;
    SinceNone(history[1..], u, won, t + 1);
    if later.Some? { SinceNone(history[1..], u, won, later.value + 1); }
  }

  lemma {:induction false} RunOfOneResult(history: seq<Fight>, u: UserId, won: bool)
    requires forall f :: f in history ==> WonBy(f, u) == won
    ensures RunLength(history, u, won) == |history|
  {
    if history != [] { RunOfOneResult(history[1..], u, won); }
  }

  // In a newest-first history the leading run has all fights newer than the newest of the other result, and perhaps
  // some that are just as old.
  lemma {:induction false} RunBounds(history: seq<Fight>, u: UserId, won: bool, t: int)
    requires NewestFirst(history) && IsLatest(history, u, !won, t)
    ensures Since(history, u, won, t + 1) <= RunLength(history, u, won) <= Since(history, u, won, t)
  {
    OthersFrom(history, u, won, t);
    if WonBy(history[0], u) == won {
      RunBounds(history[1..], u, won, t);
    } else {
      SinceNone(history, u, won, t + 1);
    }
  }

  lemma OthersFrom(history: seq<Fight>, u: UserId, won: bool, t: int)
    requires NewestFirst(history) && IsLatest(history, u, !won, t)
    ensures history != [] && history[0].createdAt >= t && NewestFirst(history[1..])
    ensures WonBy(history[0], u) != won ==> forall f :: f in history ==> f.createdAt <= t
  {
    SinceNone(history, u, !won, t);
    SinceNone(history, u, !won, t + 1);
    var f :| f in history && Lasts(f, u, !won, t);
    assert !Lasts(history[0], u, !won, t + 1);
  }

  // ----- ties either way -----

  // Newest first, and of fights of one time those with result `won` first.
  predicate Before(x: Fight, y: Fight, u: UserId, won: bool) {
    x.createdAt > y.createdAt || (x.createdAt == y.createdAt && (WonBy(x, u) == won || WonBy(y, u) != won))
  }

  function Favouring(u: UserId, won: bool): (Fight, Fight) -> bool {
    (x, y) => Before(x, y, u, won)
  }

  function Insert(f: Fight, rows: seq<Fight>, u: UserId, won: bool): (r: seq<Fight>)
    ensures multiset(r) == multiset{f} + multiset(rows)
  {
    if rows == [] || Before(f, rows[0], u, won) then [f] + rows
    else
      assert rows == [rows[0]] + rows[1..];
      [rows[0]] + Insert(f, rows[1..], u, won)
  }

  lemma {:induction false} InsertOrders(f: Fight, rows: seq<Fight>, u: UserId, won: bool)
    requires Ordered(rows, Favouring(u, won))
    ensures Ordered(Insert(f, rows, u, won), Favouring(u, won))
  {
    if rows != [] && !Before(f, rows[0], u, won) {
      InsertOrders(f, rows[1..], u, won);
      var r := Insert(f, rows[1..], u, won);
      forall g | g in r ensures Favouring(u, won)(rows[0], g) {
        assert g in multiset(r);
        if g != f {
          assert g in rows[1..];
          var j :| 0 <= j < |rows[1..]| && rows[1..][j] == g;
          assert Favouring(u, won)(rows[0], rows[j + 1]);
        }
      }
      OrderedCons(rows[0], r, Favouring(u, won));
    } else {
      forall g | g in rows ensures Favouring(u, won)(f, g) {
        var j :| 0 <= j < |rows| && rows[j] == g;
        assert j > 0 ==> Favouring(u, won)(rows[0], rows[j]);
      }
      OrderedCons(f, rows, Favouring(u, won));
    }
  }

  // What the query may return where ties favour the result `won`.
  function Sort(fights: seq<Fight>, u: UserId, won: bool): (rows: seq<Fight>)
    ensures multiset(rows) == multiset(fights)
  {
    if fights == [] then []
    else
      assert fights == [fights[0]] + fights[1..];
      Insert(fights[0], Sort(fights[1..], u, won), u, won)
  }

  lemma {:induction false} SortOrders(fights: seq<Fight>, u: UserId, won: bool)
    ensures Ordered(Sort(fights, u, won), Favouring(u, won))
  {
    if fights != [] {
      SortOrders(fights[1..], u, won);
      InsertOrders(fights[0], Sort(fights[1..], u, won), u, won);
    }
  }

  lemma SortIsQuery(fights: seq<Fight>, u: UserId, won: bool)
    ensures IsQuery(Sort(fights, u, won), fights) && Ordered(Sort(fights, u, won), Favouring(u, won))
  {
    var rows := Sort(fights, u, won);
    SortOrders(fights, u, won);
    forall i, j | 0 <= i <= j < |rows| ensures rows[i].createdAt >= rows[j].createdAt {
      if i < j { assert Favouring(u, won)(rows[i], rows[j]); }
    }
  }

  lemma {:induction false} LongestRun(history: seq<Fight>, u: UserId, won: bool, t: int)
    requires NewestFirst(history) && Ordered(history, Favouring(u, won)) && IsLatest(history, u, !won, t)
    ensures RunLength(history, u, won) == Since(history, u, won, t)
  {
    OthersFrom(history, u, won, t);
    if WonBy(history[0], u) == won {
      LongestRun(history[1..], u, won, t);
    } else {
      forall f | f in history ensures !Lasts(f, u, won, t) {
        var j :| 0 <= j < |history| && history[j] == f;
        if j > 0 { assert Favouring(u, won)(history[0], history[j]); }
      }
      SinceNone(history, u, won, t);
    }
  }

  lemma {:induction false} ShortestRun(history: seq<Fight>, u: UserId, won: bool, t: int)
    requires NewestFirst(history) && Ordered(history, Favouring(u, !won)) && IsLatest(history, u, !won, t)
    ensures RunLength(history, u, won) == Since(history, u, won, t + 1)
  {
    OthersFrom(history, u, won, t);
    if WonBy(history[0], u) == won {
      SinceNone(history, u, !won, t);
      var f :| f in history && Lasts(f, u, !won, t);
      var j :| 0 <= j < |history| && history[j] == f;
      assert Favouring(u, !won)(history[0], history[j]);
      ShortestRun(history[1..], u, won, t);
    } else {
      SinceNone(history, u, won, t + 1);
    }
  }

  // ----- when the streaks agree -----

  // Of a user's finished fights, last committed first: after the newest fight of the result that the last commit does
  // not have, by time, there are exactly as many of the other result as the streak counts, and none at its very time.
  predicate StreakIsClear(history: seq<Fight>, u: UserId) {
    if history == [] then true
    else
      var won := WonBy(history[0], u);
      var turn := Latest(history, u, !won);
      turn.Some? ==>
        Since(history, u, won, turn.value) == Since(history, u, won, turn.value + 1) == RunLength(history, u, won)
  }

  // The script finds the live streaks on these rows.
  predicate SameStreaks(rows: seq<Fight>, fights: seq<Fight>, u: UserId) {
    && RunLength(Mine(rows, u), u, true) == WinStreak(fights, u)
    && RunLength(Mine(rows, u), u, false) == LossStreak(fights, u)
  }

  // The other result has no leading run.
  lemma OneRun(history: seq<Fight>, other: seq<Fight>, u: UserId, won: bool)
    requires multiset(history) == multiset(other)
    requires history != [] && WonBy(history[0], u) == won
    ensures RunLength(history, u, won) > 0
    ensures RunLength(other, u, won) == RunLength(history, u, won) ==>
              RunLength(other, u, !won) == RunLength(history, u, !won)
  {
    SameSet(history, other);
  }

  lemma ClearIsEnough(history: seq<Fight>, other: seq<Fight>, u: UserId)
    requires multiset(other) == multiset(history) && NewestFirst(other) && StreakIsClear(history, u)
    ensures RunLength(other, u, true) == RunLength(history, u, true)
    ensures RunLength(other, u, false) == RunLength(history, u, false)
  {
    SameSet(history, other);
    if history != [] {
      var won := WonBy(history[0], u);
      var turn := Latest(history, u, !won);
      OneRun(history, other, u, won);
      if turn.None? {
        RunOfOneResult(history, u, won);
        RunOfOneResult(other, u, won);
      } else {
        SameLatest(history, other, u, won, turn.value);
        RunBounds(other, u, won, turn.value);
      }
    }
  }

  lemma SameLatest(history: seq<Fight>, other: seq<Fight>, u: UserId, won: bool, t: int)
    requires multiset(other) == multiset(history) && IsLatest(history, u, !won, t)
    ensures IsLatest(other, u, !won, t)
    ensures Since(other, u, won, t) == Since(history, u, won, t)
    ensures Since(other, u, won, t + 1) == Since(history, u, won, t + 1)
  {
    SinceAnyOrder(history, other, u, !won, t);
    SinceAnyOrder(history, other, u, !won, t + 1);
    SinceAnyOrder(history, other, u, won, t);
    SinceAnyOrder(history, other, u, won, t + 1);
  }

  // The run of the script on rows whose ties favour one result.
  lemma RunOnSorted(fights: seq<Fight>, u: UserId, won: bool, t: int, favoured: bool)
    requires FightsOk(fights) && IsLatest(Finished(fights, u), u, !won, t)
    ensures RunLength(Mine(Sort(fights, u, favoured), u), u, won) ==
            Since(Finished(fights, u), u, won, if favoured == won then t else t + 1)
  {
    hide Mine, FightsOk, Sort, RunLength;
    var rows, history := Sort(fights, u, favoured), Finished(fights, u);
    SortIsQuery(fights, u, favoured);
    SameFightsOk(rows, fights);
    MineMultiset(rows, fights, u);
    MineIsNewestFirst(rows, u);
    MineIsOrdered(rows, u, Favouring(u, favoured));
    hide Finished;
    SameLatest(history, Mine(rows, u), u, won, t);
    if favoured == won {
      LongestRun(Mine(rows, u), u, won, t);
    } else {
      ShortestRun(Mine(rows, u), u, won, t);
    }
  }

  // The exact condition: the script finds the live streaks, whatever order its query returns ties in, if and only if
  // the user's streak is clear.
  lemma StreaksAgreeExactly(fights: seq<Fight>, u: UserId)
    requires FightsOk(fights)
    ensures (forall rows :: IsQuery(rows, fights) ==> SameStreaks(rows, fights, u)) <==>
            StreakIsClear(Finished(fights, u), u)
  {
    hide Mine, Finished, FightsOk, Sort, StreakIsClear;
    if StreakIsClear(Finished(fights, u), u) {
      forall rows | IsQuery(rows, fights) ensures SameStreaks(rows, fights, u) {
        SameFightsOk(rows, fights);
        MineMultiset(rows, fights, u);
        MineIsNewestFirst(rows, u);
        ClearIsEnough(Finished(fights, u), Mine(rows, u), u);
      }
    }
    if forall rows :: IsQuery(rows, fights) ==> SameStreaks(rows, fights, u) {
      SortIsQuery(fights, u, true);
      SortIsQuery(fights, u, false);
      ClearIsNeeded(fights, u);
    }
  }

  lemma ClearIsNeeded(fights: seq<Fight>, u: UserId)
    requires FightsOk(fights)
    requires SameStreaks(Sort(fights, u, true), fights, u) && SameStreaks(Sort(fights, u, false), fights, u)
    ensures StreakIsClear(Finished(fights, u), u)
  {
    hide Mine, Finished, FightsOk, Sort, RunLength, Since;
    var history := Finished(fights, u);
    if history != [] {
      var won := WonBy(history[0], u);
      var turn := Latest(history, u, !won);
      if turn.Some? {
        RunOnSorted(fights, u, won, turn.value, won);
        RunOnSorted(fights, u, won, turn.value, !won);
      }
    }
  }

  // Fights stamped in the order of their commits leave every streak clear.
  lemma InOrderIsClear(fights: seq<Fight>, u: UserId)
    requires FightsOk(fights) && StampedInOrder(Finished(fights, u))
    ensures StreakIsClear(Finished(fights, u), u)
  {
    forall rows | IsQuery(rows, fights) ensures SameStreaks(rows, fights, u) {
      InOrderIsRead(rows, fights, u);
    }
    StreaksAgreeExactly(fights, u);
  }

  // ----- the script on live counters -----

  // Where the live counters are right, the script changes none of them but unclear streaks.
  method RunOnGoodCounters(db: Database, rows: seq<Fight>)
    requires CountersOk(db.tables) && FightsOk(db.tables.fights) && IsQuery(rows, db.tables.fights)
    modifies db
    ensures db.tables == old(db.tables).(users := db.tables.users)
    ensures db.tables.users.Keys == old(db.tables.users).Keys
    ensures forall u :: u in db.tables.users ==>
              var before, after := old(db.tables.users)[u], db.tables.users[u];
              && after == before.(winStreak := after.winStreak, lossStreak := after.lossStreak)
              && (StreakIsClear(Finished(db.tables.fights, u), u) ==> after == before)
    ensures (forall u :: u in db.tables.users ==> StreakIsClear(Finished(db.tables.fights, u), u)) ==>
              db.tables == old(db.tables)
  {
    ghost var before := db.tables;
    Run(db, rows);
    ghost var users := db.tables.users;
    forall u | u in users
      ensures users[u] == before.users[u].(winStreak := users[u].winStreak, lossStreak := users[u].lossStreak)
      ensures StreakIsClear(Finished(before.fights, u), u) ==> users[u] == before.users[u]
    {
      RecountOfOne(before, rows, u);
    }
    hide StreakIsClear, Finished;
    if forall u :: u in users ==> StreakIsClear(Finished(before.fights, u), u) {
      assert users == before.users;
    }
  }

  lemma RecountOfOne(db: Db, rows: seq<Fight>, u: UserId)
    requires CountersOk(db) && FightsOk(db.fights) && IsQuery(rows, db.fights) && u in db.users
    ensures var before, after := db.users[u], Recounted(db.users[u], db.fights, rows, u);
            && after == before.(winStreak := after.winStreak, lossStreak := after.lossStreak)
            && (after == before <==> SameStreaks(rows, db.fights, u))
            && (StreakIsClear(Finished(db.fights, u), u) ==> after == before)
  {
    hide CountWon, CountLost, Mine, Finished, StreakIsClear, RunLength, FightsOk;
    assert db.users[u] == Accounted(db.users[u], db.fights, u);
    StreaksAgreeExactly(db.fights, u);
  }

  // Where the live counters are right, the script leaves a user's row as it is, whatever rows its query returns, if and
  // only if the user's streak is clear.
  lemma ScriptAgreesExactly(db: Db, u: UserId)
    requires CountersOk(db) && FightsOk(db.fights) && u in db.users
    ensures (forall rows :: IsQuery(rows, db.fights) ==> Recounted(db.users[u], db.fights, rows, u) == db.users[u])
            <==> StreakIsClear(Finished(db.fights, u), u)
  {
    forall rows | IsQuery(rows, db.fights)
      ensures Recounted(db.users[u], db.fights, rows, u) == db.users[u] <==> SameStreaks(rows, db.fights, u)
    {
      RecountOfOne(db, rows, u);
    }
    StreaksAgreeExactly(db.fights, u);
    hide Finished, StreakIsClear, Recounted, SameStreaks;
  }
}
