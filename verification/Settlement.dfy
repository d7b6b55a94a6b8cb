// fight-club.repository.ts: stakes, insurance, counters and streaks of a finished fight.
module Settlement {
  import opened Wrappers
  import opened Store
  import opened Durations

  // An insured loser pays, and the winner receives, half the stake rounded down.
  function Stake(stakeAmount: int, insured: bool): int
    requires stakeAmount > 0
  {
    if insured then stakeAmount / 2 else stakeAmount
  }

  datatype SettleArgs = SettleArgs(
    winnerId: UserId, loserId: UserId, stakeType: string, stakeAmount: int, player1Id: UserId, player2Id: UserId,
    outcome: Outcome, now: int)

  // What a settlement needs to commit.
  predicate Settles(db: Db, a: SettleArgs) {
    && a.stakeAmount > 0 && (a.stakeType == "aura" || a.stakeType == "debt")
    && a.winnerId in db.users && a.loserId in db.users && a.player1Id in db.users && a.player2Id in db.users
  }

  function WinnerRow(u: User, stakeType: string, x: int): User {
    u.(fightInsuranceArmed := false,
       aura := if stakeType == "aura" then u.aura + x else u.aura,
       debt := if stakeType == "aura" then u.debt else u.debt - x,
       fightsWon := u.fightsWon + 1, winStreak := u.winStreak + 1, lossStreak := 0)
  }

  function LoserRow(u: User, stakeType: string, x: int): User {
    u.(fightInsuranceArmed := false,
       aura := if stakeType == "aura" then u.aura - x else u.aura,
       debt := if stakeType == "aura" then u.debt else u.debt + x,
       fightsLost := u.fightsLost + 1, lossStreak := u.lossStreak + 1, winStreak := 0)
  }

  // The tables after a settlement between two players: one row each, and the fight.
  function Settled(db: Db, a: SettleArgs): Db
    requires Settles(db, a)
  {
    var insured := db.users[a.loserId].fightInsuranceArmed;
    var x := Stake(a.stakeAmount, insured);
    db.(users := db.users[a.winnerId := WinnerRow(db.users[a.winnerId], a.stakeType, x)]
                         [a.loserId := LoserRow(db.users[a.loserId], a.stakeType, x)],
        fights := db.fights + [Fight(a.player1Id, Some(a.player2Id), Some(a.winnerId), a.stakeType, a.stakeAmount,
                                     a.outcome, insured, a.now)])
  }

  // Stakes only move between users: the sums over all users stay what they were.
  lemma SettledIsZeroSum(db: Db, a: SettleArgs)
    requires Settles(db, a) && a.winnerId != a.loserId
    ensures Total(Auras(Settled(db, a).users)) == Total(Auras(db.users))
    ensures Total(Debts(Settled(db, a).users)) == Total(Debts(db.users))
  {
    hide Total;
    var t := Settled(db, a);
    var w, l := a.winnerId, a.loserId;
    var auras, debts := Auras(db.users), Debts(db.users);
    TotalUpdate(auras, w, t.users[w].aura);
    TotalUpdate(auras[w := t.users[w].aura], l, t.users[l].aura);
    assert Auras(t.users) == auras[w := t.users[w].aura][l := t.users[l].aura];
    TotalUpdate(debts, w, t.users[w].debt);
    TotalUpdate(debts[w := t.users[w].debt], l, t.users[l].debt);
    assert Debts(t.users) == debts[w := t.users[w].debt][l := t.users[l].debt];
  }

  // The players named by a fight row exist.
  predicate Known(db: Db, player1Id: UserId, player2Id: Option<UserId>) {
    player1Id in db.users && (player2Id.Some? ==> player2Id.value in db.users)
  }

  function CancelledFight(player1Id: UserId, player2Id: Option<UserId>, stakeType: string, stakeAmount: int,
                          now: int): Fight {
    Fight(player1Id, player2Id, None, stakeType, stakeAmount, Cancelled, false, now)
  }

  predicate Involves(f: Fight, u: UserId) { f.player1Id == u || f.player2Id == Some(u) }

  // The rows `countRecentFights` counts.
  function Recent(fights: seq<Fight>, u: UserId, now: int): nat {
    if fights == [] then 0
    else
      var f := fights[|fights| - 1];
      Recent(fights[..|fights| - 1], u, now)
      + if f.createdAt >= now - HOUR_MS && Involves(f, u) && f.outcome != Cancelled then 1 else 0
  }

  class FightClubRepository {
    const db: Database

    constructor (db: Database)
      ensures this.db == db
    {
      this.db := db;
    }

    // `settle`: the whole transaction commits or nothing does.
    method Settle(a: SettleArgs) returns (r: Result<()>)
      modifies db
      ensures r.Ok? <==> Settles(old(db.tables), a)
      ensures r.Ok? && a.winnerId != a.loserId ==> db.tables == Settled(old(db.tables), a)
      ensures r.Thrown? ==> db.tables == old(db.tables)
      ensures Total(Auras(db.tables.users)) == Total(Auras(old(db.tables.users)))
      ensures Total(Debts(db.tables.users)) == Total(Debts(old(db.tables.users)))
    {
      if a.stakeAmount <= 0 { return Thrown("Stake amount must be a positive integer"); }
      var users := db.tables.users;
      var insured := a.loserId in users && users[a.loserId].fightInsuranceArmed;
      var paid := Transfer(users, a, if insured then a.stakeAmount / 2 else a.stakeAmount);
      if paid.Thrown? { return Thrown(paid.message); }
      // foreign keys of the inserted row
      if a.player1Id !in users || a.player2Id !in users { return Thrown("foreign key violation"); }
      if a.winnerId != a.loserId {
        SettledIsZeroSum(db.tables, a);
      } else {
        assert Auras(paid.value) == Auras(users) && Debts(paid.value) == Debts(users);
      }
      db.tables := db.tables.(users := paid.value,
                              fights := db.tables.fights
                                + [Fight(a.player1Id, Some(a.player2Id), Some(a.winnerId), a.stakeType,
                                                                  a.stakeAmount, a.outcome, insured, a.now)]);
      return Ok(());
    }

    // The updates of the users table, one after another.
    method Transfer(before: map<UserId, User>, a: SettleArgs, amount: int) returns (r: Result<map<UserId, User>>)
      ensures r.Ok? <==> (a.stakeType == "aura" || a.stakeType == "debt") && a.winnerId in before && a.loserId in before
      ensures r.Ok? && a.winnerId != a.loserId ==>
                r.value == before[a.winnerId := WinnerRow(before[a.winnerId], a.stakeType, amount)]
                                 [a.loserId := LoserRow(before[a.loserId], a.stakeType, amount)]
      ensures r.Ok? && a.winnerId == a.loserId ==>
                r.value.Keys == before.Keys &&
                forall u :: u in before ==> r.value[u].aura == before[u].aura && r.value[u].debt == before[u].debt
    {
      var users := before;
      if a.winnerId in users { users := users[a.winnerId := users[a.winnerId].(fightInsuranceArmed := false)]; }
      if a.loserId in users { users := users[a.loserId := users[a.loserId].(fightInsuranceArmed := false)]; }
      if a.stakeType == "aura" {
        if a.winnerId !in users { return Thrown("Winner not found"); }
        users := users[a.winnerId := users[a.winnerId].(aura := users[a.winnerId].aura + amount)];
        if a.loserId !in users { return Thrown("Loser not found"); }
        users := users[a.loserId := users[a.loserId].(aura := users[a.loserId].aura - amount)];
      } else if a.stakeType == "debt" {
        if a.winnerId !in users { return Thrown("Winner not found"); }
        users := users[a.winnerId := users[a.winnerId].(debt := users[a.winnerId].debt - amount)];
        if a.loserId !in users { return Thrown("Loser not found"); }
        users := users[a.loserId := users[a.loserId].(debt := users[a.loserId].debt + amount)];
      } else {
        return Thrown("Unsupported stake type");
      }
      var counted := CountResult(users, a.winnerId, a.loserId);
      assert a.winnerId != a.loserId ==> counted[a.winnerId] == WinnerRow(before[a.winnerId], a.stakeType, amount);
      assert a.winnerId != a.loserId ==> counted[a.loserId] == LoserRow(before[a.loserId], a.stakeType, amount);
      return Ok(counted);
    }

    // The counters and streaks of the winner, then those of the loser.
    method CountResult(before: map<UserId, User>, winner: UserId, loser: UserId) returns (users: map<UserId, User>)
      requires winner in before && loser in before
      ensures users.Keys == before.Keys
      ensures forall u :: u in before && u != winner && u != loser ==> users[u] == before[u]
      ensures forall u :: u in before ==> users[u].aura == before[u].aura && users[u].debt == before[u].debt
      ensures winner != loser ==>
                var w, l := before[winner], before[loser];
                users[winner] == w.(fightsWon := w.fightsWon + 1, winStreak := w.winStreak + 1, lossStreak := 0) &&
                users[loser] == l.(fightsLost := l.fightsLost + 1, lossStreak := l.lossStreak + 1, winStreak := 0)
    {
      var w := before[winner];
      users := before[winner := w.(fightsWon := w.fightsWon + 1, winStreak := w.winStreak + 1, lossStreak := 0)];
      var l := users[loser];
      users := users[loser := l.(fightsLost := l.fightsLost + 1, lossStreak := l.lossStreak + 1, winStreak := 0)];
    }

    // `recordCancelled`: one row, if its players exist.
    method RecordCancelled(player1Id: UserId, player2Id: Option<UserId>, stakeType: string, stakeAmount: int, now: int)
      returns (r: Result<()>)
      modifies db
      ensures r.Ok? <==> Known(old(db.tables), player1Id, player2Id)
      ensures r.Ok? ==> db.tables == old(db.tables).(fights := old(db.tables.fights)
                                     + [CancelledFight(player1Id, player2Id, stakeType, stakeAmount, now)])
      ensures r.Thrown? ==> db.tables == old(db.tables)
    {
      var users := db.tables.users;
      if player1Id !in users || (player2Id.Some? && player2Id.value !in users) {
        return Thrown("foreign key violation");
      }
      db.tables := db.tables.(fights := db.tables.fights
                              + [Fight(player1Id, player2Id, None, stakeType, stakeAmount, Cancelled, false, now)]);
      return Ok(());
    }

    method CountRecentFights(userId: UserId, now: int) returns (total: nat)
      ensures total == Recent(db.tables.fights, userId, now)
    {
      total := 0;
      var fights := db.tables.fights;
      for i := 0 to |fights|
        invariant total == Recent(fights[..i], userId, now)
      {
        assert fights[..i + 1][..i] == fights[..i];
        var f := fights[i];
        if f.createdAt >= now - HOUR_MS && (f.player1Id == userId || f.player2Id == Some(userId)) &&
          f.outcome != Cancelled {
          total := total + 1;
        }
      }
      assert fights[..|fights|] == fights;
    }
  }
}
