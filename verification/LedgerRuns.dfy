// Whole runs of the economy: conservation laws and invariants across its services.
module LedgerRuns {
  import opened Strings
  import opened Wrappers
  import opened Store
  import opened Catalog
  import opened Ledger
  import opened LedgerInvariant
  import opened LedgerSteps
  import Settlement
  import Backfill
  import BackfillOrder
  import Durations
  import Stimulus
  import Shop
  import ConsumableItems
  import Boosts
  import FightClub
  import FightClubInvariant
  import FightClubRuns

  lemma NothingHeld(u: UserId, key: string)
    ensures ItemOk(EMPTY_WORLD, u, key)
  {
    hide FindShopItem;
    assert EMPTY_WORLD.log == [] && EMPTY_WORLD.db == EMPTY_DB;
  }

  lemma NothingOwed(u: UserId)
    ensures MoneyAt(EMPTY_WORLD, u)
  {
    assert EMPTY_WORLD.log == [] && EMPTY_WORLD.db == EMPTY_DB;
  }

  lemma EmptyKeeps()
    ensures Inv(EMPTY_WORLD)
  {
    assert EMPTY_WORLD.log == [] && EMPTY_WORLD.db == EMPTY_DB;
    hide ItemOk, MoneyAt;
    forall u, key ensures ItemOk(EMPTY_WORLD, u, key) { NothingHeld(u, key); }
    forall u ensures MoneyAt(EMPTY_WORLD, u) { NothingOwed(u); }
  }

  lemma {:induction false} RunKeepsFrom(w: World, es: seq<Event>, t: World)
    requires Inv(w) && Reaches(w, es, t)
    ensures Inv(t)
    decreases |es|
  {
    hide Inv, Enabled, Do;
    if es != [] {
      StepKeeps(w, es[0]);
      RunKeepsFrom(Do(w, es[0]), es[1..], t);
    }
  }

  lemma RunKeeps(es: seq<Event>, t: World)
    requires Reaches(EMPTY_WORLD, es, t)
    ensures Inv(t)
  {
    hide Inv, Reaches;
    EmptyKeeps();
    RunKeepsFrom(EMPTY_WORLD, es, t);
  }

  // ----- inventory -----

  // A usable item bought is still held or has been used, exactly once.
  lemma UsablesAreConserved(es: seq<Event>, t: World, u: UserId, key: string)
    requires Reaches(EMPTY_WORLD, es, t) && key in USABLE_ITEM_KEYS
    ensures Purchases(t.db.purchases, u, key) == Shop.Held(t.db, u, key) + Uses(t.log, u, key)
    ensures Shop.Owns(t.db, u, key) <==> Shop.Held(t.db, u, key) >= 1
    ensures Shop.Held(t.db, u, key) >= 0
  {
    hide Reaches, Purchases, Uses, Grants, AllGrants, Dupes, FindShopItem;
    RunKeeps(es, t);
    KeyFacts(key);
    assert ItemOk(t, u, key);
  }

  // A permanent item is held at most once, by a purchase or by a soap and never both, and is never used up.
  lemma PermanentsAreKept(es: seq<Event>, t: World, u: UserId, key: string)
    requires Reaches(EMPTY_WORLD, es, t) && Shop.Permanently(key)
    ensures Shop.Held(t.db, u, key) == Purchases(t.db.purchases, u, key) + Grants(t.log, u, key)
    ensures 0 <= Shop.Held(t.db, u, key) <= 1
    ensures Uses(t.log, u, key) == 0
  {
    hide Reaches, Purchases, Uses, Grants, AllGrants, Dupes, FindShopItem;
    RunKeeps(es, t);
    KeyFacts(key);
    assert ItemOk(t, u, key);
  }

  // Every soap bought is opened at once: it is never held, and each was a grant or a dupe.
  lemma SoapIsOpenedAtOnce(es: seq<Event>, t: World, u: UserId)
    requires Reaches(EMPTY_WORLD, es, t)
    ensures !Shop.Owns(t.db, u, MYSTERY_SOAP_KEY)
    ensures Purchases(t.db.purchases, u, MYSTERY_SOAP_KEY) == AllGrants(t.log, u) + Dupes(t.log, u)
  {
    hide Reaches, Purchases, Uses, Grants, AllGrants, Dupes, FindShopItem;
    RunKeeps(es, t);
    KeyFacts(MYSTERY_SOAP_KEY);
    assert ItemOk(t, u, MYSTERY_SOAP_KEY);
    assert MYSTERY_SOAP_KEY !in USABLE_ITEM_KEYS by { SoapIsNotUsable(); }
  }

  lemma SoapIsNotUsable()
    ensures MYSTERY_SOAP_KEY !in USABLE_ITEM_KEYS
  {
    if MYSTERY_SOAP_KEY in USABLE_ITEM_KEYS { KeyFacts(MYSTERY_SOAP_KEY); }
  }

  // Inventory rows belong to users, name items of the catalog and hold at least one.
  lemma RowsHoldSomething(es: seq<Event>, t: World, u: UserId, key: string)
    requires Reaches(EMPTY_WORLD, es, t) && (u, key) in t.db.inventory
    ensures t.db.inventory[(u, key)] >= 1 && u in t.db.users && FindShopItem(key).Some?
  {
    hide Reaches, Uses, Grants, AllGrants, Dupes, Purchases, FindShopItem;
    RunKeeps(es, t);
    assert ItemOk(t, u, key);
  }

  // ----- aura and debt -----

  // Where a user's aura came from, to the last unit.
  lemma AuraIsAccountedFor(es: seq<Event>, t: World, u: UserId)
    requires Reaches(EMPTY_WORLD, es, t) && u in t.db.users
    ensures t.db.users[u].aura
         == 1000 + t.db.users[u].auraFarmCount + NetStakes(t.db.fights, u, "aura") + Stimulus.Paid(Days(t.log, u))
            + AuraAdjusted(t.log, u) - (Spent(t.db.purchases, u) - 90 * Dupes(t.log, u))
  {
    hide Reaches, Days, AuraAdjusted, Dupes, Spent, NetStakes;
    RunKeeps(es, t);
    assert MoneyAt(t, u);
  }

  lemma DebtIsAccountedFor(es: seq<Event>, t: World, u: UserId)
    requires Reaches(EMPTY_WORLD, es, t) && u in t.db.users
    ensures t.db.users[u].debt
         == DebtAdjusted(t.log, u) - NetStakes(t.db.fights, u, "debt") - t.db.users[u].debtPaidCount
            - 100 * Uses(t.log, u, "debt_forgiveness")
  {
    hide Reaches, DebtAdjusted, Uses, NetStakes;
    RunKeeps(es, t);
    assert MoneyAt(t, u);
  }

  // ----- stakes over all users -----

  ghost function AllStakes(users: set<UserId>, fights: seq<Fight>, currency: string): map<UserId, int> {
    map u | u in users :: NetStakes(fights, u, currency)
  }

  lemma {:induction false} TotalOfNothing(m: map<UserId, int>)
    requires forall u :: u in m ==> m[u] == 0
    ensures Total(m) == 0
    decreases |m|
  {
    if m != map[] {
      var k :| k in m && Total(m) == m[k] + Total(m - {k});
      TotalOfNothing(m - {k});
    }
  }

  predicate PlayedBy(f: Fight, users: set<UserId>) {
    Backfill.FightOk(f) && f.player1Id in users && (f.player2Id.Some? ==> f.player2Id.value in users)
  }

  // The two sides of a decided fight.
  lemma StakesOppose(f: Fight, users: set<UserId>) returns (w: UserId, l: UserId)
    requires PlayedBy(f, users) && f.winnerId.Some?
    ensures w in users && l in users && w != l
    ensures forall u :: Stakes(f, u) == if u == w then Moved(f) else if u == l then -Moved(f) else 0
  {
    w := f.winnerId.value;
    l := if f.player1Id == w then f.player2Id.value else f.player1Id;
  }

  lemma OneFightCancels(users: set<UserId>, rest: seq<Fight>, f: Fight, currency: string)
    requires PlayedBy(f, users)
    ensures Total(AllStakes(users, rest + [f], currency)) == Total(AllStakes(users, rest, currency))
  {
    var before, after := AllStakes(users, rest, currency), AllStakes(users, rest + [f], currency);
    hide NetStakes, Total;
    forall u | u in users ensures after[u] == before[u] + if f.stakeType == currency then Stakes(f, u) else 0 {
      FightSnoc(rest, f, u);
    }
    if f.stakeType == currency && f.winnerId.Some? {
      var w, l := StakesOppose(f, users);
      hide Stakes, Moved, PlayedBy;
      TotalUpdate(before, w, after[w]);
      TotalUpdate(before[w := after[w]], l, after[l]);
      assert after == before[w := after[w]][l := after[l]];
    } else {
      assert after == before;
    }
  }

  lemma {:induction false} StakesCancel(users: set<UserId>, fights: seq<Fight>, currency: string)
    requires forall i :: 0 <= i < |fights| ==> PlayedBy(fights[i], users)
    ensures Total(AllStakes(users, fights, currency)) == 0
  {
    hide PlayedBy, NetStakes, Total;
    if fights == [] {
      NobodyPlayed(users, currency);
    } else {
      var rest := fights[..|fights| - 1];
      StakesCancel(users, rest, currency);
      OneFightCancels(users, rest, fights[|rest|], currency);
      assert fights == rest + [fights[|rest|]];
    }
  }

  lemma NobodyPlayed(users: set<UserId>, currency: string)
    ensures Total(AllStakes(users, [], currency)) == 0
  {
    TotalOfNothing(AllStakes(users, [], currency));
  }

  // After any run, what some users won in a currency is what others lost: over all users the stakes cancel.
  lemma FightsMakeNoMoney(es: seq<Event>, t: World, currency: string)
    requires Reaches(EMPTY_WORLD, es, t)
    ensures Total(AllStakes(t.db.users.Keys, t.db.fights, currency)) == 0
  {
    RunKeeps(es, t);
    hide Reaches, NetStakes, ItemsOk, MoneyOk, EquipOk, CursesOk, RoomsOk, Backfill.FightOk, Backfill.CountersOk;
    forall i | 0 <= i < |t.db.fights| ensures PlayedBy(t.db.fights[i], t.db.users.Keys) {
      assert PlayersExist(t.db, t.db.fights[i]) && Backfill.FightOk(t.db.fights[i]);
    }
    StakesCancel(t.db.users.Keys, t.db.fights, currency);
  }

  // No buying on credit: whatever a purchase does, it leaves its buyer with at least nothing; nobody else pays.
  lemma NoBuyingOnCredit(w: World, u: UserId, key: string, prize: string, v: UserId)
    requires v in w.db.users
    ensures v in BuyStep(w, u, key, prize).db.users
    ensures var before, after := w.db.users[v], BuyStep(w, u, key, prize).db.users[v];
            && (v != u ==> after == before)
            && (after.aura != before.aura ==> after.aura >= 0)
            && (Shop.Sells(w.db, u, key) <==> BuyStep(w, u, key, prize).db.purchases != w.db.purchases)
            && (v == u && Shop.Sells(w.db, u, key) ==> after.aura >= 0)
            && (!Shop.Sells(w.db, u, key) ==> BuyStep(w, u, key, prize) == w)
  {
    hide FindShopItem;
    if Shop.Sells(w.db, u, key) {
      BoughtRow(w.db, u, FindShopItem(key).value, prize, v);
      hide Shop.Bought;
      assert |BuyStep(w, u, key, prize).db.purchases| == |w.db.purchases| + 1;
    } else {
      BuyRefused(w, u, key, prize);
    }
  }

  // ----- insurance -----

  // Each policy used covers exactly one finished fight, or is still to be.
  lemma InsuranceIsAccountedFor(es: seq<Event>, t: World, u: UserId)
    requires Reaches(EMPTY_WORLD, es, t) && u in t.db.users
    ensures Uses(t.log, u, "fight_insurance") ==
            ArmedFights(t.log, u) + if t.db.users[u].fightInsuranceArmed then 1 else 0
    ensures InsuredLosses(t.db.fights, u) <= Uses(t.log, u, "fight_insurance")
    ensures Uses(t.log, u, "fight_insurance") <= Purchases(t.db.purchases, u, "fight_insurance")
  {
    hide Reaches, Uses, Count, InsuredLosses, Purchases;
    UsablesAreConserved(es, t, u, "fight_insurance");
    RunKeeps(es, t);
    assert MoneyAt(t, u);
  }

  // ----- streaks -----

  // After any run the script's counts are the live ones; and it leaves a user's streaks as they are, whatever rows its
  // query returns, exactly if the streak is clear. It is wherever the user's finished fights are stamped in the order
  // of their commits.
  lemma StreaksMatchTheScript(es: seq<Event>, t: World, u: UserId)
    requires Reaches(EMPTY_WORLD, es, t) && u in t.db.users
    ensures t.db.users[u].fightsWon == Backfill.CountWon(t.db.fights, u)
    ensures t.db.users[u].fightsLost == Backfill.CountLost(t.db.fights, u)
    ensures (forall rows :: Backfill.IsQuery(rows, t.db.fights) ==>
               Backfill.Recounted(t.db.users[u], t.db.fights, rows, u) == t.db.users[u])
            <==> BackfillOrder.StreakIsClear(Backfill.Finished(t.db.fights, u), u)
    ensures BackfillOrder.StampedInOrder(Backfill.Finished(t.db.fights, u)) ==>
              BackfillOrder.StreakIsClear(Backfill.Finished(t.db.fights, u), u)
  {
    hide Reaches, Backfill.CountWon, Backfill.CountLost, Backfill.WinStreak, Backfill.LossStreak, Backfill.Finished,
      Backfill.Recounted, BackfillOrder.StreakIsClear;
    RunKeeps(es, t);
    assert t.db.users[u] == Backfill.Accounted(t.db.users[u], t.db.fights, u);
    BackfillOrder.ScriptAgreesExactly(t.db, u);
    if BackfillOrder.StampedInOrder(Backfill.Finished(t.db.fights, u)) { BackfillOrder.InOrderIsClear(t.db.fights, u); }
  }

  // ----- stimulus -----

  // Grants fall on strictly later and later days, and the stored streak is the length of the run that
  // ends with the last.
  lemma StimulusDaysIncrease(es: seq<Event>, t: World, u: UserId)
    requires Reaches(EMPTY_WORLD, es, t) && u in t.db.users
    ensures Stimulus.Increasing(Days(t.log, u))
    ensures t.db.users[u].stimulusStreak == Stimulus.TrailingRun(Days(t.log, u))
    ensures t.db.users[u].lastStimulusAt.Some? <==> Days(t.log, u) != []
  {
    hide Reaches, Days;
    RunKeeps(es, t);
    assert MoneyAt(t, u);
  }

  // ----- equipment -----

  // What a user wears fits its slot, is free or owned, and sits in that slot only.
  lemma WornIsOwned(es: seq<Event>, t: World, u: UserId, slot: Slot, other: Slot)
    requires Reaches(EMPTY_WORLD, es, t) && (u, slot) in t.db.equipped
    ensures SlotAccepts(slot, t.db.equipped[(u, slot)])
    ensures t.db.equipped[(u, slot)] in FREE_ITEM_KEYS || Shop.Held(t.db, u, t.db.equipped[(u, slot)]) == 1
    ensures other != slot && (u, other) in t.db.equipped ==> t.db.equipped[(u, other)] != t.db.equipped[(u, slot)]
  {
    hide Reaches, SlotAccepts, FindShopItem, Uses, Grants, AllGrants, Dupes, Purchases;
    RunKeeps(es, t);
    var key := t.db.equipped[(u, slot)];
    assert WornOk(t.db, u, slot, key);
    assert ItemOk(t, u, key);
    SlotShape(slot, key);
    FoundShape(key);
    if other != slot && (u, other) in t.db.equipped && t.db.equipped[(u, other)] == key {
      assert WornOk(t.db, u, other, key);
      OneSlotPerItem(slot, other, key);
    }
  }

  // A worn accent or name colour always resolves to a colour of the palette.
  lemma ColoursResolve(es: seq<Event>, t: World, u: UserId, vineBoom: bool)
    requires Reaches(EMPTY_WORLD, es, t)
    ensures var seen := Shop.ToPublicCosmetics(Shop.EquippedOf(t.db, u), vineBoom);
            && seen.accent in PALETTE
            && (Shop.Worn(t.db, u, Accent).Some? ==> Shop.Worn(t.db, u, Accent).value == "accent_" + seen.accent)
            && (Shop.Worn(t.db, u, NameColor).Some? <==> seen.nameColor.Some?)
            && (seen.nameColor.Some? ==>
                  seen.nameColor.value in PALETTE &&
                    Shop.Worn(t.db, u, NameColor).value == "namecolor_" + seen.nameColor.value)
  {
    hide Reaches, FindShopItem, Uses, Grants, AllGrants, Dupes, Purchases, ShopItems;
    RunKeeps(es, t);
    assert PALETTE[0] == "hot_pink";
    WornResolves(t, u, Accent, "accent_");
    WornResolves(t, u, NameColor, "namecolor_");
  }

  lemma WornResolves(t: World, u: UserId, slot: Slot, prefix: string)
    requires Inv(t) && ((slot == Accent && prefix == "accent_") || (slot == NameColor && prefix == "namecolor_"))
    ensures var worn := Shop.Worn(t.db, u, slot);
            worn.Some? ==> PaletteHex(worn, prefix).Some? && PaletteHex(worn, prefix).value in PALETTE
                           && worn.value == prefix + PaletteHex(worn, prefix).value
  {
    hide FindShopItem, ShopItems, Uses, Grants, AllGrants, Dupes, Purchases, PermanentShape, PALETTE, PaletteShape,
         MoneyOk, FightsOk, CursesOk, RoomsOk;
    var worn := Shop.Worn(t.db, u, slot);
    if worn.Some? {
      var key := worn.value;
      assert WornOk(t.db, u, slot, key);
      assert ItemOk(t, u, key);
      hide Inv;
      FoundShape(key);
      WornKeyResolves(t, u, slot, prefix, key);
    }
  }

  lemma WornKeyResolves(t: World, u: UserId, slot: Slot, prefix: string, key: string)
    requires (slot == Accent && prefix == "accent_") || (slot == NameColor && prefix == "namecolor_")
    requires SlotAccepts(slot, key) && (key in FREE_ITEM_KEYS || PaletteShape(key))
    ensures PaletteHex(Some(key), prefix) == Some(key[|prefix|..]) && key[|prefix|..] in PALETTE
    ensures key == prefix + key[|prefix|..]
  {
    hide PALETTE;
    FreeResolves();
    assert key == prefix + key[|prefix|..];
  }

  lemma FreeResolves()
    ensures forall key :: key in FREE_ITEM_KEYS ==>
            StartsWith(key, "accent_") && key[7..] in PALETTE && !StartsWith(key, "namecolor_")
  {
    var free := "accent_hot_pink";
    assert free[7..] == PALETTE[0] && free[0] == 'a' && free == "accent_" + PALETTE[0];
  }

  // ----- curses and boosts -----

  // Two curses of one kind on one target: the earlier has run out when the later is let through, so their times are
  // disjoint. Against the code's own test of activity, from a clock reading on at most one is active exactly if that
  // reading is not before the first of the two expiries; from the later check on it always is.
  lemma CursesNeverOverlap(es: seq<Event>, t: World, i: nat, j: nat, target: UserId, kind: string, since: int)
    requires Reaches(EMPTY_WORLD, es, t) && i < j < |t.db.effects|
    requires t.db.effects[i].targetId == t.db.effects[j].targetId == target
    requires t.db.effects[i].kind == t.db.effects[j].kind == kind
    ensures t.db.effects[i].expiresAt <= t.db.effects[j].appliedAt
    ensures (forall now :: now >= since ==> !BothActive(t.db.effects[i], t.db.effects[j], target, kind, now)) <==>
            since >= Earlier(t.db.effects[i].expiresAt, t.db.effects[j].expiresAt)
  {
    hide Reaches;
    RunKeeps(es, t);
    assert Apart(t.db.effects[i], t.db.effects[j]);
    hide Inv;
    assert BothActive(t.db.effects[i], t.db.effects[j], target, kind, since) <==>
           since < Earlier(t.db.effects[i].expiresAt, t.db.effects[j].expiresAt);
  }

  ghost predicate BothActive(earlier: Effect, later: Effect, target: UserId, kind: string, now: int) {
    ConsumableItems.CurseActive(earlier, target, kind, now) && ConsumableItems.CurseActive(later, target, kind, now)
  }

  function Earlier(a: int, b: int): int { if a < b then a else b }

  // However boosts and taxes interleave with everything else, a room's end times are those of its own boosts, and while
  // the clock does not run backwards n boosts light it for n hours, and n taxes for n days.
  lemma BoostTimeIsConserved(es: seq<Event>, t: World, id: RoomId)
    requires Reaches(EMPTY_WORLD, es, t) && id in t.db.rooms
    ensures var times := BoostTimes(t.log, id, "room_boost");
            && t.db.rooms[id].boostedUntil == Boosts.Until(times, Durations.HOUR_MS)
            && (Boosts.Nondecreasing(times) && (times != [] ==> times[0] >= 0) ==>
                  |Boosts.Lit(times, Durations.HOUR_MS)| == |times| * Durations.HOUR_MS)
    ensures var times := BoostTimes(t.log, id, "aura_tax");
            && t.db.rooms[id].sponsoredUntil == Boosts.Until(times, Durations.DAY_MS)
            && (Boosts.Nondecreasing(times) && (times != [] ==> times[0] >= 0) ==>
                  |Boosts.Lit(times, Durations.DAY_MS)| == |times| * Durations.DAY_MS)
  {
    hide Reaches, BoostTimes, Boosts.Until, Boosts.Lit;
    RunKeeps(es, t);
    assert RoomOk(t, id);
    var boosts, taxes := BoostTimes(t.log, id, "room_boost"), BoostTimes(t.log, id, "aura_tax");
    if Boosts.Nondecreasing(boosts) && (boosts != [] ==> boosts[0] >= 0) {
      Boosts.BoostsAddUp(boosts, Durations.HOUR_MS);
    }
    if Boosts.Nondecreasing(taxes) && (taxes != [] ==> taxes[0] >= 0) { Boosts.BoostsAddUp(taxes, Durations.DAY_MS); }
  }

  // ----- the fight club's calls are events of the ledger -----

  function OutcomeOf(ending: FightClub.Ending): Outcome { if ending.Ko? then Ko else RageQuit }

  function EventOf(c: FightClub.Call, now: int): Event {
    match c
    case Settle(_, winner, loser, stakeType, stakeAmount, p1, p2, ending) =>
      Event.Settle(Settlement.SettleArgs(winner, loser, stakeType, stakeAmount, p1, p2, OutcomeOf(ending), now))
    case RecordCancelled(_, creator, challenger, stakeType, stakeAmount) =>
      Cancel(creator, challenger, stakeType, stakeAmount, now)
  }

  // Whatever the fight club does, each repository call it makes is one the ledger allows, at any time; a settlement
  // fails only for users who do not exist.
  lemma FightClubCallsAreFair(es: seq<FightClub.Event>, s: FightClub.State, c: FightClub.Call, w: World, now: int)
    requires FightClubRuns.Reaches(FightClub.EMPTY, es, s) && c in s.calls
    ensures Enabled(w, EventOf(c, now))
    ensures c.Settle? && c.player1Id in w.db.users && c.player2Id in w.db.users ==>
            Settlement.Settles(w.db, EventOf(c, now).args)
  {
    FightClubRuns.RunKeeps(es, s);
    assert FightClubInvariant.CallOk(s, c);
    hide FightClubInvariant.Inv, FightClubRuns.Reaches, Enabled;
    CallIsFair(s, c, w, now);
  }

  lemma CallIsFair(s: FightClub.State, c: FightClub.Call, w: World, now: int)
    requires FightClubInvariant.CallOk(s, c)
    ensures Enabled(w, EventOf(c, now))
    ensures c.Settle? && c.player1Id in w.db.users && c.player2Id in w.db.users ==>
            Settlement.Settles(w.db, EventOf(c, now).args)
  {}
}
