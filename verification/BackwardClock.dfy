// What a clock that turns back can do: two curses active at once, beyond what LedgerRuns.CursesNeverOverlap promises,
// and a streak that the script turns round, beyond the exact condition of LedgerRuns.StreaksMatchTheScript.
module BackwardClock {
  import opened Wrappers
  import opened Store
  import opened Durations
  import opened Catalog
  import opened Ledger
  import opened LedgerSteps
  import LedgerRuns
  import Settlement
  import Backfill
  import BackfillOrder
  import Shop
  import ConsumableItems

  const STAMP := "clown_stamp"

  lemma {:induction false} ReachesSnoc(w: World, es: seq<Event>, t: World, e: Event)
    requires Reaches(w, es, t) && Enabled(t, e)
    ensures Reaches(w, es + [e], Do(t, e))
    decreases |es|
  {
    hide Enabled, Do;
    if es == [] {
      assert [e][1..] == [];
    } else {
      assert (es + [e])[1..] == es[1..] + [e];
      ReachesSnoc(Do(w, es[0]), es[1..], t, e);
    }
  }

  lemma StampIsSold()
    ensures FindShopItem(STAMP) == Some(ShopItem(STAMP, Consumable, 120, ""))
  {
    StampIsFound();
    hide FindShopItem, ShopItems, PermanentShape, PaletteShape;
    FoundShape(STAMP);
    Shop.OnlyConsumables(FindShopItem(STAMP).value);
    OnlyStamp(FindShopItem(STAMP).value);
  }

  lemma StampIsFound()
    ensures FindShopItem(STAMP).Some?
  {
    var stamp := ShopItem(STAMP, Consumable, 120, "");
    assert Consumables()[0] == stamp;
    hide Family, Badges, Consumables, FightClubTheme;
    assert stamp in ShopItems();
    hide ShopItems;
    FindInFinds(ShopItems(), STAMP);
  }

  lemma OnlyStamp(item: ShopItem)
    requires item in Consumables() && item.key == STAMP
    ensures item == ShopItem(STAMP, Consumable, 120, "")
  {
    assert item.key[0] == 'c';
  }

  lemma BuysStamp(w: World, u: UserId, roll: nat, pick: nat)
    requires u in w.db.users && w.db.users[u].aura >= 120 && roll < 100 && pick < |SoapPool(roll)|
    ensures var t := Do(w, Buy(u, STAMP, roll, pick));
            && t.db.users == w.db.users[u := w.db.users[u].(aura := w.db.users[u].aura - 120)]
            && Shop.Held(t.db, u, STAMP) == Shop.Held(w.db, u, STAMP) + 1
            && t.db.effects == w.db.effects && t.db.messages == w.db.messages
  {
    hide FindShopItem, SoapPool;
    StampIsSold();
    assert STAMP[0] != MYSTERY_SOAP_KEY[0];
    BoughtRow(w.db, u, FindShopItem(STAMP).value, SoapPool(roll)[pick], u);
  }

  function CurseDto(v: UserId): ConsumableItems.UseItem { ConsumableItems.UseItem(STAMP, v, "", "") }

  // A stamp that goes through, at clock reading `at`.
  lemma Stamps(w: World, u: UserId, v: UserId, at: int, newId: MessageId)
    requires Shop.Held(w.db, u, STAMP) >= 1 && v in w.db.users && !w.db.users[v].admin && u != v && v != ""
    requires !ConsumableItems.Cursed(w.db, v, STAMP, at)
    ensures var t := UseStep(w, u, CurseDto(v), at, at, newId);
            && t.db.effects == w.db.effects + [Effect(v, STAMP, u, at, at + DAY_MS)]
            && t.db.users == w.db.users && t.db.messages == w.db.messages
            && Shop.Held(t.db, u, STAMP) == Shop.Held(w.db, u, STAMP) - 1
  {
    assert STAMP in ConsumableItems.CURSES;
    assert ConsumableItems.EffectDuration(STAMP) == DAY_MS;
    assert Usable(w, u, CurseDto(v), at);
    hide ConsumableItems.Cursed, ConsumableItems.EffectDuration;
  }

  // Two users, one of them with some stamps, and nothing said or done yet.
  ghost predicate Stocked(t: World, stamps: int, aura: int) {
    && "a" in t.db.users && "b" in t.db.users && !t.db.users["b"].admin && t.db.users["a"].aura == aura
    && Shop.Held(t.db, "a", STAMP) == stamps && t.db.effects == [] && t.db.messages == map[]
  }

  lemma StocksUp(es: seq<Event>, t: World, stamps: int, aura: int)
    requires Reaches(EMPTY_WORLD, es, t) && Stocked(t, stamps, aura) && aura >= 120
    ensures exists fs, u :: Reaches(EMPTY_WORLD, fs, u) && Stocked(u, stamps + 1, aura - 120)
  {
    hide FindShopItem, SoapPool, BuyStep;
    SoapPoolsAreNotEmpty(0);
    var buy := Buy("a", STAMP, 0, 0);
    BuysStamp(t, "a", 0, 0);
    ReachesSnoc(EMPTY_WORLD, es, t, buy);
    hide Reaches;
    assert Stocked(Do(t, buy), stamps + 1, aura - 120);
  }

  // Some stamps left, and these curses cast.
  ghost predicate Cursing(t: World, stamps: int, effects: seq<Effect>) {
    && "b" in t.db.users && !t.db.users["b"].admin && Shop.Held(t.db, "a", STAMP) == stamps
    && t.db.effects == effects && t.db.messages == map[]
  }

  lemma StampsOnce(es: seq<Event>, t: World, stamps: int, effects: seq<Effect>, at: int)
    requires Reaches(EMPTY_WORLD, es, t) && Cursing(t, stamps, effects) && stamps >= 1
    requires forall i :: 0 <= i < |effects| ==> effects[i].expiresAt <= at
    ensures exists fs, u ::
            Reaches(EMPTY_WORLD, fs, u) && Cursing(u, stamps - 1, effects + [Effect("b", STAMP, "a", at, at + DAY_MS)])
  {
    hide FindShopItem, UseStep, Reaches;
    StampIsUsable();
    var stamp := Use("a", CurseDto("b"), at, at, "m");
    Stamps(t, "a", "b", at, "m");
    ReachesSnoc(EMPTY_WORLD, es, t, stamp);
    assert Cursing(Do(t, stamp), stamps - 1, effects + [Effect("b", STAMP, "a", at, at + DAY_MS)]);
  }

  lemma StampIsUsable()
    ensures STAMP in USABLE_ITEM_KEYS
  {}

  lemma StartsStocked()
    ensures exists es, t :: Reaches(EMPTY_WORLD, es, t) && Stocked(t, 0, 1000)
  {
    RegisteredIsReached();
    assert Stocked(Registered(), 0, 1000);
    hide Reaches, Stocked, Registered;
  }

  // Bought twice, stamped at 0 and, a day later, again: a reading of 0 after that finds both stamps active.
  lemma BothStampsActive()
    ensures exists es, t ::
              Reaches(EMPTY_WORLD, es, t) && |t.db.effects| == 2 && t.db.effects[1].appliedAt == DAY_MS &&
              LedgerRuns.BothActive(t.db.effects[0], t.db.effects[1], "b", STAMP, 0)
  {
    hide Reaches, Stocked, Cursing;
    StartsStocked();
    var es0, t0 :| Reaches(EMPTY_WORLD, es0, t0) && Stocked(t0, 0, 1000);
    StocksUp(es0, t0, 0, 1000);
    var es1, t1 :| Reaches(EMPTY_WORLD, es1, t1) && Stocked(t1, 1, 880);
    StocksUp(es1, t1, 1, 880);
    var es2, t2 :| Reaches(EMPTY_WORLD, es2, t2) && Stocked(t2, 2, 760);
    StockedIsCursing(t2, 2, 760);
    StampsOnce(es2, t2, 2, [], 0);
    var first, second := Effect("b", STAMP, "a", 0, DAY_MS), Effect("b", STAMP, "a", DAY_MS, 2 * DAY_MS);
    assert [] + [first] == [first];
    var es3, t3 :| Reaches(EMPTY_WORLD, es3, t3) && Cursing(t3, 1, [first]);
    StampsOnce(es3, t3, 1, [first], DAY_MS);
    assert [first] + [second] == [first, second];
    var es4, t4 :| Reaches(EMPTY_WORLD, es4, t4) && Cursing(t4, 0, [first, second]);
    CursingEffects(t4, 0, [first, second]);
  }

  lemma StockedIsCursing(t: World, stamps: int, aura: int)
    requires Stocked(t, stamps, aura)
    ensures Cursing(t, stamps, [])
  {}

  lemma CursingEffects(t: World, stamps: int, effects: seq<Effect>)
    requires Cursing(t, stamps, effects)
    ensures t.db.effects == effects
  {}

  function Registered(): World {
    EMPTY_WORLD.(db := PutUser(PutUser(EMPTY_DB, "a", NewUser(false)), "b", NewUser(false)))
  }

  lemma RegisteredIsReached()
    ensures Reaches(EMPTY_WORLD, [Register("a", false), Register("b", false)], Registered())
  {
    var a, b := Register("a", false), Register("b", false);
    assert Reaches(EMPTY_WORLD, [], EMPTY_WORLD);
    assert [] + [a] == [a] && [a] + [b] == [a, b];
    ReachesSnoc(EMPTY_WORLD, [], EMPTY_WORLD, a);
    ReachesSnoc(EMPTY_WORLD, [a], Do(EMPTY_WORLD, a), b);
  }

  // ----- the script on fights stamped against their order -----

  function Knockout(x: UserId, y: UserId, winner: UserId, now: int): Settlement.SettleArgs {
    Settlement.SettleArgs(winner, if winner == x then y else x, "aura", 1, x, y, Ko, now)
  }

  function KnockoutRow(x: UserId, y: UserId, winner: UserId, now: int): Fight {
    Fight(x, Some(y), Some(winner), "aura", 1, Ko, false, now)
  }

  // Two unarmed users, these streaks of the first and these fights.
  ghost predicate Fought(t: World, x: UserId, y: UserId, wins: nat, losses: nat, fights: seq<Fight>) {
    && x != y && x in t.db.users && y in t.db.users && t.db.fights == fights
    && !t.db.users[x].fightInsuranceArmed && !t.db.users[y].fightInsuranceArmed
    && t.db.users[x].winStreak == wins && t.db.users[x].lossStreak == losses
  }

  lemma FairKnockout(x: UserId, y: UserId, winner: UserId, now: int)
    requires x != y && winner in {x, y}
    ensures FairSettle(Knockout(x, y, winner, now))
  {}

  lemma KnocksOut(t: World, x: UserId, y: UserId, wins: nat, losses: nat, fights: seq<Fight>, winner: UserId, now: int)
    requires Fought(t, x, y, wins, losses, fights) && (winner == x || winner == y)
    ensures Enabled(t, Settle(Knockout(x, y, winner, now)))
    ensures Fought(SettleStep(t, Knockout(x, y, winner, now)), x, y, if winner == x then wins + 1 else 0,
                   if winner == x then 0 else losses + 1, fights + [KnockoutRow(x, y, winner, now)])
  {
    FairKnockout(x, y, winner, now);
    hide FairSettle;
  }

  // Of a win at 100 and a loss at 50 the query returns the win first.
  lemma WinIsNewest(x: UserId, y: UserId, rows: seq<Fight>)
    requires x != y && Backfill.IsQuery(rows, [KnockoutRow(x, y, x, 100), KnockoutRow(x, y, y, 50)])
    ensures Backfill.RunLength(Backfill.Mine(rows, x), x, true) == 1
    ensures Backfill.RunLength(Backfill.Mine(rows, x), x, false) == 0
  {
    var win, loss := KnockoutRow(x, y, x, 100), KnockoutRow(x, y, y, 50);
    assert BackfillOrder.StampedInOrder([win, loss]);
    BackfillOrder.OneOrder([win, loss], rows);
    WinHeads(x, win, loss);
  }

  lemma WinHeads(x: UserId, win: Fight, loss: Fight)
    requires Backfill.FightOk(win) && win.outcome != Cancelled && Settlement.Involves(win, x) && Backfill.WonBy(win, x)
    requires Backfill.FightOk(loss) && loss.outcome != Cancelled && Settlement.Involves(loss, x)
    requires !Backfill.WonBy(loss, x)
    ensures Backfill.RunLength(Backfill.Mine([win, loss], x), x, true) == 1
    ensures Backfill.RunLength(Backfill.Mine([win, loss], x), x, false) == 0
  {
    assert [win, loss][1..] == [loss] && [loss][1..] == [];
    assert Backfill.Mine([], x) == [];
    hide Backfill.Mine, Backfill.FightOk, Settlement.Involves, Backfill.WonBy;
    BackfillOrder.MineCons([win, loss], x);
    BackfillOrder.MineCons([loss], x);
    assert Backfill.Mine([win, loss], x) == [win, loss];
  }

  // The live row of "a" ends on a loss, and the script makes it end on a win.
  ghost predicate TurnedRound(t: World) {
    && "a" in t.db.users && t.db.users["a"].winStreak == 0 && t.db.users["a"].lossStreak == 1
    && forall rows :: Backfill.IsQuery(rows, t.db.fights) ==>
         var row := Backfill.Recounted(t.db.users["a"], t.db.fights, rows, "a");
         row.winStreak == 1 && row.lossStreak == 0
  }

  // A win at reading 100 and then a loss at reading 50.
  lemma ScriptTurnsStreakRound()
    ensures exists es, t :: Reaches(EMPTY_WORLD, es, t) && TurnedRound(t)
  {
    hide Reaches, Fought, Knockout, KnockoutRow, TurnedRound;
    NobodyFought();
    var es, t :| Reaches(EMPTY_WORLD, es, t) && Fought(t, "a", "b", 0, 0, []);
    var win, loss := KnockoutRow("a", "b", "a", 100), KnockoutRow("a", "b", "b", 50);
    KnocksOutOnce(es, t, 0, 0, [], "a", 100);
    assert [] + [win] == [win] && [win] + [loss] == [win, loss];
    var es1, t1 :| Reaches(EMPTY_WORLD, es1, t1) && Fought(t1, "a", "b", 1, 0, [win]);
    KnocksOutOnce(es1, t1, 1, 0, [win], "b", 50);
    var es2, t2 :| Reaches(EMPTY_WORLD, es2, t2) && Fought(t2, "a", "b", 0, 1, [win, loss]);
    IsTurnedRound(t2);
  }

  lemma NobodyFought()
    ensures exists es, t :: Reaches(EMPTY_WORLD, es, t) && Fought(t, "a", "b", 0, 0, [])
  {
    RegisteredIsReached();
    assert Fought(Registered(), "a", "b", 0, 0, []);
    hide Reaches, Fought, Registered;
  }

  lemma KnocksOutOnce(es: seq<Event>, t: World, wins: nat, losses: nat, fights: seq<Fight>, winner: UserId, now: int)
    requires Reaches(EMPTY_WORLD, es, t) && Fought(t, "a", "b", wins, losses, fights) && winner in {"a", "b"}
    ensures exists fs, u :: Reaches(EMPTY_WORLD, fs, u) &&
                            Fought(u, "a", "b", if winner == "a" then wins + 1 else 0,
                                   if winner == "a" then 0 else losses + 1,
                                   fights + [KnockoutRow("a", "b", winner, now)])
  {
    hide Reaches, Fought, Knockout, KnockoutRow, SettleStep;
    KnocksOut(t, "a", "b", wins, losses, fights, winner, now);
    ReachesSnoc(EMPTY_WORLD, es, t, Settle(Knockout("a", "b", winner, now)));
  }

  lemma IsTurnedRound(t: World)
    requires Fought(t, "a", "b", 0, 1, [KnockoutRow("a", "b", "a", 100), KnockoutRow("a", "b", "b", 50)])
    ensures TurnedRound(t)
  {
    hide Backfill.IsQuery, Backfill.RunLength, Backfill.Mine, Backfill.CountWon, Backfill.CountLost;
    forall rows | Backfill.IsQuery(rows, t.db.fights)
      ensures var row := Backfill.Recounted(t.db.users["a"], t.db.fights, rows, "a");
              row.winStreak == 1 && row.lossStreak == 0
    {
      WinIsNewest("a", "b", rows);
    }
  }
}
