// scripts/backfill-achievements.ts: counters and streaks recomputed from the fights table alone, and the
// account of the table that the live counters keep.
module Backfill {
  import opened Wrappers
  import opened Store
  import opened Settlement

  // ----- what the script recomputes -----

  // `count(*) FROM fights WHERE winner_id = u`
  function CountWon(fights: seq<Fight>, u: UserId): nat {
    if fights == [] then 0
    else CountWon(fights[..|fights| - 1], u) + if fights[|fights| - 1].winnerId == Some(u) then 1 else 0
  }

  // `... WHERE (player1_id = u OR player2_id = u) AND winner_id IS NOT NULL AND winner_id <> u`
  predicate LostBy(f: Fight, u: UserId) { Involves(f, u) && f.winnerId.Some? && f.winnerId.value != u }

  function CountLost(fights: seq<Fight>, u: UserId): nat {
    if fights == [] then 0
    else CountLost(fights[..|fights| - 1], u) + if LostBy(fights[|fights| - 1], u) then 1 else 0
  }

  // How often a fight is pushed on a user's history.
  function Entries(f: Fight, u: UserId): seq<Fight> {
    (if f.player1Id == u then [f] else []) + (if f.player2Id == Some(u) then [f] else [])
  }

  // A user's history, in the order of `rows`.
  function History(rows: seq<Fight>, u: UserId): seq<Fight> {
    if rows == [] then [] else Entries(rows[0], u) + History(rows[1..], u)
  }

  function NotCancelled(rows: seq<Fight>): seq<Fight> {
    if rows == [] then []
    else (if rows[0].outcome != Cancelled then [rows[0]] else []) + NotCancelled(rows[1..])
  }

  // A user's finished fights, in the order of `rows`.
  function Mine(rows: seq<Fight>, u: UserId): seq<Fight> { NotCancelled(History(rows, u)) }

  predicate WonBy(f: Fight, u: UserId) { f.winnerId == Some(u) }

  // The length of the leading run of fights with result `won`.
  function RunLength(history: seq<Fight>, u: UserId, won: bool): nat {
    if history == [] || WonBy(history[0], u) != won then 0 else 1 + RunLength(history[1..], u, won)
  }

  ghost predicate NewestFirst(history: seq<Fight>) {
    forall i, j :: 0 <= i <= j < |history| ==> history[i].createdAt >= history[j].createdAt
  }

  // What `SELECT ... FROM fights ORDER BY created_at DESC` may return: all rows, those of one time in any order.
  ghost predicate IsQuery(rows: seq<Fight>, fights: seq<Fight>) {
    multiset(rows) == multiset(fights) && NewestFirst(rows)
  }

  // The four columns, recomputed from the table and the query's rows.
  function Recounted(row: User, fights: seq<Fight>, rows: seq<Fight>, u: UserId): User {
    row.(fightsWon := CountWon(fights, u), fightsLost := CountLost(fights, u),
         winStreak := RunLength(Mine(rows, u), u, true), lossStreak := RunLength(Mine(rows, u), u, false))
  }

  // ----- the script's loops -----

  // The newest-first scan that stops at the first change of result.
  method ScanStreak(history: seq<Fight>, u: UserId) returns (streak: Option<bool>, currentStreak: nat)
    ensures (if streak == Some(true) then currentStreak else 0) == RunLength(history, u, true)
    ensures (if streak == Some(false) then currentStreak else 0) == RunLength(history, u, false)
  {
    streak, currentStreak := None, 0;
    var i := 0;
    while i < |history|
      invariant 0 <= i <= |history| && currentStreak == i
      invariant streak.None? <==> i == 0
      invariant streak.Some? ==> RunLength(history, u, streak.value) == i + RunLength(history[i..], u, streak.value)
      invariant streak.Some? ==> WonBy(history[0], u) == streak.value
    {
      var won := history[i].winnerId == Some(u);
      if streak.None? { streak := Some(won); }
      assert history[i..][0] == history[i] && history[i..][1..] == history[i + 1..];
      if won != streak.value { return; }
      currentStreak := currentStreak + 1;
      i := i + 1;
    }
  }

  function Bucket(m: map<UserId, seq<Fight>>, u: UserId): seq<Fight> { if u in m then m[u] else [] }

  // One fight is filed under each of its players.
  method File(before: map<UserId, seq<Fight>>, f: Fight) returns (m: map<UserId, seq<Fight>>)
    ensures forall u :: Bucket(m, u) == Bucket(before, u) + Entries(f, u)
  {
    m := before[f.player1Id := Bucket(before, f.player1Id) + [f]];
    if f.player2Id.Some? {
      m := m[f.player2Id.value := Bucket(m, f.player2Id.value) + [f]];
    }
    assert forall xs: seq<Fight> :: (xs + [f]) + [f] == xs + ([f] + [f]);
  }

  // `fightHistory`
  method FileFights(rows: seq<Fight>) returns (fightHistory: map<UserId, seq<Fight>>)
    ensures forall u :: Bucket(fightHistory, u) == History(rows, u)
  {
    fightHistory := map[];
    for i := 0 to |rows|
      invariant forall u :: Bucket(fightHistory, u) == History(rows[..i], u)
    {
      ghost var before := fightHistory;
      fightHistory := File(fightHistory, rows[i]);
      forall u ensures Bucket(fightHistory, u) == History(rows[..i + 1], u) {
        assert rows[..i + 1] == rows[..i] + [rows[i]];
        HistorySnoc(rows[..i], rows[i], u);
      }
    }
    assert rows[..|rows|] == rows;
  }

  lemma HistorySnoc(rows: seq<Fight>, f: Fight, u: UserId)
    ensures History(rows + [f], u) == History(rows, u) + Entries(f, u)
  {
    HistoryConcat(rows, [f], u);
    assert [f][1..] == [];
    assert History([f], u) == Entries(f, u);
  }

  lemma {:induction false} HistoryConcat(a: seq<Fight>, b: seq<Fight>, u: UserId)
    ensures History(a + b, u) == History(a, u) + History(b, u)
  {
    if a == [] {
      assert a + b == b;
    } else {
      assert (a + b)[1..] == a[1..] + b;
      HistoryConcat(a[1..], b, u);
    }
  }

  method Filter(rows: seq<Fight>) returns (r: seq<Fight>)
    ensures r == NotCancelled(rows)
  {
    r := [];
    for i := 0 to |rows|
      invariant r + NotCancelled(rows[i..]) == NotCancelled(rows)
    {
      assert rows[i..][0] == rows[i] && rows[i..][1..] == rows[i + 1..];
      if rows[i].outcome != Cancelled { r := r + [rows[i]]; }
    }
  }

  // The script's updates of the four columns, over all users.
  method Recount(before: map<UserId, User>, fights: seq<Fight>, rows: seq<Fight>) returns (users: map<UserId, User>)
    requires IsQuery(rows, fights)
    ensures users.Keys == before.Keys
    ensures forall u :: u in before ==> users[u] == Recounted(before[u], fights, rows, u)
  {
    // UPDATE users SET fights_won = (SELECT count(*) ...), fights_lost = (SELECT count(*) ...)
    users := map u | u in before ::
      before[u].(fightsWon := CountWon(fights, u), fightsLost := CountLost(fights, u));
    ghost var counted := users;
    var fightHistory := FileFights(rows);
    var todo := users.Keys;
    while todo != {}
      invariant todo <= users.Keys == before.Keys
      invariant forall u :: u in before ==>
        users[u] == if u in todo then counted[u] else Recounted(before[u], fights, rows, u)
      decreases |todo|
    {
      var u :| u in todo;
      var history := Filter(Bucket(fightHistory, u));
      var streak, currentStreak := ScanStreak(history, u);
      users := users[u := users[u].(winStreak := if streak == Some(true) then currentStreak else 0,
                                    lossStreak := if streak == Some(false) then currentStreak else 0)];
      todo := todo - {u};
    }
  }

  // The script, on the rows that its query returned.
  method Run(db: Database, rows: seq<Fight>)
    requires IsQuery(rows, db.tables.fights)
    modifies db
    ensures db.tables == old(db.tables).(users := db.tables.users)
    ensures db.tables.users.Keys == old(db.tables.users).Keys
    ensures forall u :: u in db.tables.users ==>
              db.tables.users[u] == Recounted(old(db.tables.users)[u], old(db.tables.fights), rows, u)
  {
    var users := Recount(db.tables.users, db.tables.fights, rows);
    db.tables := db.tables.(users := users);
  }

  // ----- the live counters -----

  function Reverse<T>(xs: seq<T>): seq<T> {
    if xs == [] then [] else Reverse(xs[1..]) + [xs[0]]
  }

  // A user's finished fights, the last committed first.
  function Finished(fights: seq<Fight>, u: UserId): seq<Fight> { Mine(Reverse(fights), u) }

  function WinStreak(fights: seq<Fight>, u: UserId): nat { RunLength(Finished(fights, u), u, true) }

  function LossStreak(fights: seq<Fight>, u: UserId): nat { RunLength(Finished(fights, u), u, false) }

  // The four columns as the table accounts for them, in the order of its commits.
  function Accounted(row: User, fights: seq<Fight>, u: UserId): User {
    row.(fightsWon := CountWon(fights, u), fightsLost := CountLost(fights, u),
         winStreak := WinStreak(fights, u), lossStreak := LossStreak(fights, u))
  }

  // Every user's four columns are the table's account of them.
  ghost predicate CountersOk(db: Db) {
    forall u :: u in db.users ==> db.users[u] == Accounted(db.users[u], db.fights, u)
  }

  // A row that a settlement or a cancellation can insert.
  predicate FightOk(f: Fight) {
    && f.player2Id != Some(f.player1Id)
    && (f.winnerId.None? <==> f.outcome == Cancelled)
    && (f.winnerId.Some? ==> f.player2Id.Some? && Involves(f, f.winnerId.value))
  }

  ghost predicate FightsOk(fights: seq<Fight>) {
    forall i :: 0 <= i < |fights| ==> FightOk(fights[i])
  }

  lemma {:induction false} ReverseSnoc<T>(xs: seq<T>, x: T)
    ensures Reverse(xs + [x]) == [x] + Reverse(xs)
  {
    if xs == [] {
      assert xs + [x] == [x] && [x][1..] == [];
    } else {
      assert (xs + [x])[1..] == xs[1..] + [x];
      ReverseSnoc(xs[1..], x);
    }
  }

  // A new fight is the head of its players' histories, and no part of anyone else's.
  lemma FinishedSnoc(fights: seq<Fight>, f: Fight, u: UserId)
    requires FightOk(f)
    ensures Finished(fights + [f], u) ==
            if Involves(f, u) && f.outcome != Cancelled then [f] + Finished(fights, u) else Finished(fights, u)
  {
    ReverseSnoc(fights, f);
    var rest := History(Reverse(fights), u);
    assert ([f] + Reverse(fights))[1..] == Reverse(fights);
    assert Involves(f, u) ==> Entries(f, u) == [f];
    assert !Involves(f, u) ==> Entries(f, u) == [];
    if Involves(f, u) {
      assert History([f] + Reverse(fights), u) == [f] + rest;
      assert ([f] + rest)[1..] == rest;
    } else {
      assert History([f] + Reverse(fights), u) == rest;
    }
  }

  // One more fight moves the account exactly as a settlement moves the live columns.
  lemma RecountSnoc(fights: seq<Fight>, f: Fight, u: UserId)
    requires FightOk(f)
    ensures CountWon(fights + [f], u) == CountWon(fights, u) + if WonBy(f, u) then 1 else 0
    ensures CountLost(fights + [f], u) == CountLost(fights, u) + if LostBy(f, u) then 1 else 0
    ensures WinStreak(fights + [f], u) ==
            if WonBy(f, u) then WinStreak(fights, u) + 1 else if LostBy(f, u) then 0 else WinStreak(fights, u)
    ensures LossStreak(fights + [f], u) ==
            if LostBy(f, u) then LossStreak(fights, u) + 1 else if WonBy(f, u) then 0 else LossStreak(fights, u)
  {
    assert (fights + [f])[..|fights|] == fights;
    FinishedSnoc(fights, f, u);
    var old_ := Finished(fights, u);
    hide Finished;
    assert ([f] + old_)[1..] == old_;
  }

  lemma SettledFight(db: Db, a: SettleArgs)
    requires Settles(db, a) && a.outcome != Cancelled && a.player1Id != a.player2Id
    requires {a.winnerId, a.loserId} == {a.player1Id, a.player2Id}
    ensures var t := Settled(db, a);
            var f := t.fights[|db.fights|];
            && t.fights == db.fights + [f] && FightOk(f) && a.winnerId != a.loserId
            && (forall u :: WonBy(f, u) <==> u == a.winnerId) && (forall u :: LostBy(f, u) <==> u == a.loserId)
  {
    assert a.winnerId in {a.player1Id, a.player2Id} && a.loserId in {a.player1Id, a.player2Id};
    assert a.player1Id in {a.winnerId, a.loserId} && a.player2Id in {a.winnerId, a.loserId};
  }

  lemma SettledKeepsCounters(db: Db, a: SettleArgs)
    requires CountersOk(db) && Settles(db, a) && a.outcome != Cancelled && a.player1Id != a.player2Id
    requires {a.winnerId, a.loserId} == {a.player1Id, a.player2Id}
    ensures FightOk(Settled(db, a).fights[|db.fights|])
    ensures CountersOk(Settled(db, a))
  {
    hide CountWon, CountLost, WinStreak, LossStreak, WonBy, LostBy, FightOk, Stake;
    SettledFight(db, a);
    var t := Settled(db, a);
    var f := t.fights[|db.fights|];
    forall u | u in t.users ensures t.users[u] == Accounted(t.users[u], t.fights, u) {
      RecountSnoc(db.fights, f, u);
      assert db.users[u] == Accounted(db.users[u], db.fights, u);
    }
  }

  lemma CancelledKeepsCounters(db: Db, f: Fight)
    requires CountersOk(db) && FightOk(f) && f.outcome == Cancelled
    ensures CountersOk(db.(fights := db.fights + [f]))
  {
    forall u | u in db.users ensures db.users[u] == Accounted(db.users[u], db.fights + [f], u) {
      RecountSnoc(db.fights, f, u);
      hide CountWon, CountLost, WinStreak, LossStreak;
    }
  }

  // A new user has fought in nothing that is on record.
  lemma {:induction false} NewcomerCounts(fights: seq<Fight>, u: UserId)
    requires FightsOk(fights) && forall i :: 0 <= i < |fights| ==> !Involves(fights[i], u)
    ensures CountWon(fights, u) == CountLost(fights, u) == WinStreak(fights, u) == LossStreak(fights, u) == 0
  {
    if fights != [] {
      var rest, f := fights[..|fights| - 1], fights[|fights| - 1];
      NewcomerCounts(rest, u);
      assert fights == rest + [f];
      RecountSnoc(rest, f, u);
    }
  }
}
