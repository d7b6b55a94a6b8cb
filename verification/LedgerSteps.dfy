// Every economic event keeps every part of the ledger's invariant.
module LedgerSteps {
  import opened Wrappers
  import opened Store
  import opened Catalog
  import opened Ledger
  import opened LedgerInvariant
  import Settlement
  import Backfill
  import Stimulus
  import Shop
  import Users
  import ConsumableItems
  import Boosts

  // ----- one more entry, purchase or fight -----

  lemma CountSnoc(log: seq<Entry>, e: Entry, x: Entry)
    ensures Count(log + [e], x) == Count(log, x) + if e == x then 1 else 0
  {}

  lemma LogSnoc(log: seq<Entry>, e: Entry, u: UserId)
    ensures AllGrants(log + [e], u) == AllGrants(log, u) + if e.SoapGrant? && e.userId == u then 1 else 0
    ensures Days(log + [e], u) == Days(log, u) + if e.Claimed? && e.userId == u then [e.day] else []
    ensures AuraAdjusted(log + [e], u) == AuraAdjusted(log, u) + if e.Adjusted? && e.userId == u then e.auraDelta else 0
    ensures DebtAdjusted(log + [e], u) == DebtAdjusted(log, u) + if e.Adjusted? && e.userId == u then e.debtDelta else 0
  {
    assert (log + [e])[..|log|] == log;
  }

  lemma BoostSnoc(log: seq<Entry>, e: Entry, roomId: RoomId, kind: string)
    ensures BoostTimes(log + [e], roomId, kind)
         == BoostTimes(log, roomId, kind) + if e.Boosted? && e.roomId == roomId && e.kind == kind then [e.at] else []
  {
    assert (log + [e])[..|log|] == log;
  }

  lemma PurchaseSnoc(ps: seq<Purchase>, p: Purchase, u: UserId, key: string)
    ensures Purchases(ps + [p], u, key) == Purchases(ps, u, key) + if p.userId == u && p.itemKey == key then 1 else 0
    ensures Spent(ps + [p], u) == Spent(ps, u) + if p.userId == u then p.price else 0
  {
    assert (ps + [p])[..|ps|] == ps;
  }

  lemma FightSnoc(fights: seq<Fight>, f: Fight, u: UserId)
    ensures forall currency :: NetStakes(fights + [f], u, currency)
                            == NetStakes(fights, u, currency) + if f.stakeType == currency then Stakes(f, u) else 0
    ensures InsuredLosses(fights + [f], u)
         == InsuredLosses(fights, u)
            + if f.insured && f.winnerId.Some? && f.winnerId != Some(u) && Settlement.Involves(f, u) then 1 else 0
  {
    assert (fights + [f])[..|fights|] == fights;
  }

  // ----- inventory -----

  lemma KeyFacts(key: string)
    ensures key in USABLE_ITEM_KEYS ==> !Shop.Permanently(key) && key != MYSTERY_SOAP_KEY
    ensures !Shop.Permanently(MYSTERY_SOAP_KEY)
  {
    hide FindShopItem, PermanentShape, PaletteShape, ShopItems;
    if key in USABLE_ITEM_KEYS { UsableShape(key); UsableIsNoSoap(key); }
    UsableShape(MYSTERY_SOAP_KEY);
    FoundShape(key);
    FoundShape(MYSTERY_SOAP_KEY);
  }

  lemma UsableIsNoSoap(key: string)
    requires key in USABLE_ITEM_KEYS
    ensures key != MYSTERY_SOAP_KEY
  {
    assert key[0] != 'm';
  }

  // Nothing an item's balance depends on changes.
  lemma ItemFrame(w: World, t: World, u: UserId, key: string)
    requires ItemOk(w, u, key)
    requires t.db.inventory == w.db.inventory && t.db.purchases == w.db.purchases && w.db.users.Keys <= t.db.users.Keys
    requires Uses(t.log, u, key) == Uses(w.log, u, key) && Grants(t.log, u, key) == Grants(w.log, u, key)
    requires AllGrants(t.log, u) == AllGrants(w.log, u) && Dupes(t.log, u) == Dupes(w.log, u)
    ensures ItemOk(t, u, key)
  {
    hide FindShopItem, Uses, Grants, AllGrants, Dupes, Purchases;
  }

  // The inventory after one more of `key`.
  predicate OneMore(before: Db, after: Db, u: UserId, key: string) {
    after.inventory == before.inventory[(u, key) := Shop.Held(before, u, key) + 1]
  }

  lemma BoughtItems(t: Db, u: UserId, item: ShopItem, prize: string)
    requires u in t.users
    ensures var after := Shop.Bought(t, u, item, prize);
            if item.key != MYSTERY_SOAP_KEY then OneMore(t, after, u, item.key)
            else if Shop.Dupe(t, u, prize) then after.inventory == t.inventory
            else OneMore(t, after, u, prize)
  {
    hide FindShopItem;
  }

  lemma BuyKeepsItem(w: World, u: UserId, key: string, prize: string, v: UserId, k: string)
    requires ItemOk(w, v, k) && Shop.Sells(w.db, u, key) && Shop.Permanently(prize)
    ensures ItemOk(BuyStep(w, u, key, prize), v, k)
  {
    hide FindShopItem, ItemOk, Shop.Bought, Shop.Dupe, Shop.Permanently, OneMore;
    var t := BuyStep(w, u, key, prize);
    var item := FindShopItem(key).value;
    Shop.FoundItem(key);
    var p := Purchase(u, key, item.price);
    BoughtItems(w.db, u, item, prize);
    BoughtRow(w.db, u, item, prize, u);
    if key != MYSTERY_SOAP_KEY {
      assert t.log == w.log;
      PlainKeepsItem(w, t, u, item, p, v, k);
    } else {
      SoapKeepsItem(w, t, u, p, prize, v, k);
    }
  }

  lemma PlainKeepsItem(w: World, t: World, u: UserId, item: ShopItem, p: Purchase, v: UserId, k: string)
    requires ItemOk(w, v, k) && FindShopItem(p.itemKey) == Some(item) && p.userId == u
    requires p.itemKey == item.key != MYSTERY_SOAP_KEY
    requires item.kind == Permanent ==> !Shop.Owns(w.db, u, item.key)
    requires t.db.purchases == w.db.purchases + [p] && w.db.users.Keys <= t.db.users.Keys && u in w.db.users
    requires OneMore(w.db, t.db, u, item.key) && t.log == w.log
    ensures ItemOk(t, v, k)
  {
    hide FindShopItem, Count, AllGrants, Purchases;
    PurchaseSnoc(w.db.purchases, p, v, k);
    KeyFacts(k);
  }

  lemma SoapKeepsItem(w: World, t: World, u: UserId, p: Purchase, prize: string, v: UserId, k: string)
    requires ItemOk(w, v, k) && Shop.Permanently(prize) && p.userId == u && p.itemKey == MYSTERY_SOAP_KEY
    requires t.db.purchases == w.db.purchases + [p] && w.db.users.Keys <= t.db.users.Keys && u in w.db.users
    requires if Shop.Dupe(w.db, u, prize) then t.db.inventory == w.db.inventory && t.log == w.log + [SoapDupe(u)]
             else OneMore(w.db, t.db, u, prize) && t.log == w.log + [SoapGrant(u, prize)]
    ensures ItemOk(t, v, k)
  {
    hide FindShopItem, Count, AllGrants, Purchases;
    var e := if Shop.Dupe(w.db, u, prize) then SoapDupe(u) else SoapGrant(u, prize);
    LogSnoc(w.log, e, v);
    CountSnoc(w.log, e, Used(v, k));
    CountSnoc(w.log, e, SoapGrant(v, k));
    CountSnoc(w.log, e, SoapDupe(v));
    PurchaseSnoc(w.db.purchases, p, v, k);
    KeyFacts(k);
    KeyFacts(prize);
  }

  lemma RoomEffectFrame(t: Db, u: UserId, dto: ConsumableItems.UseItem, now: int, newId: MessageId)
    ensures var after := ConsumableItems.BoostEffect(t, u, dto, now, newId);
            after == t.(rooms := after.rooms, messages := after.messages)
    ensures var after := ConsumableItems.SpotlightEffect(t, u, dto, now, newId);
            after == t.(rooms := after.rooms, messages := after.messages)
  {
    hide ConsumableItems.BoostedRoom;
  }

  // A use touches nothing else than users, effects, rooms and messages, and registers nobody.
  lemma AffectedFrame(t: Db, u: UserId, dto: ConsumableItems.UseItem, check: int, now: int, newId: MessageId)
    ensures var after := ConsumableItems.Affected(t, u, dto, check, now, newId);
            && after.inventory == t.inventory && after.purchases == t.purchases && after.fights == t.fights
            && after.equipped == t.equipped && after.unlocked == t.unlocked && after.users.Keys == t.users.Keys
  {
    RoomEffectFrame(t, u, dto, now, newId);
    hide ConsumableItems.BoostEffect, ConsumableItems.SpotlightEffect, ConsumableItems.RowEffect,
         ConsumableItems.EffectDuration;
    if u in t.users {
      assert t.users[u := ConsumableItems.RowEffect(t.users[u], dto.itemKey)].Keys == t.users.Keys + {u};
    }
  }

  // What a use leaves alone, and what it does to the inventory.
  lemma UseHasEffect(w: World, u: UserId, dto: ConsumableItems.UseItem, check: int, now: int, newId: MessageId)
    requires Usable(w, u, dto, check)
    ensures Shop.Held(w.db, u, dto.itemKey) >= 1
    ensures var t := UseStep(w, u, dto, check, now, newId);
            && t.db.inventory == ConsumableItems.Consumed(w.db, u, dto.itemKey).inventory
            && t.db.purchases == w.db.purchases && t.db.fights == w.db.fights && t.db.equipped == w.db.equipped
            && t.db.users.Keys == w.db.users.Keys && t.everOpened == w.everOpened
            && t.log == w.log + UseLog(u, dto, now)
  {
    assert Shop.Held(w.db, u, dto.itemKey) >= 1;
    hide ConsumableItems.Affected, UseLog, ConsumableItems.UseRefusal;
    AffectedFrame(ConsumableItems.Consumed(w.db, u, dto.itemKey), u, dto, check, now, newId);
  }

  lemma ConsumedHeld(t: Db, u: UserId, key: string, v: UserId, k: string)
    requires Shop.Held(t, u, key) >= 1
    ensures var after := ConsumableItems.Consumed(t, u, key);
            && Shop.Held(after, v, k) == Shop.Held(t, v, k) - (if v == u && k == key then 1 else 0)
            && (Shop.Owns(after, v, k) <==> Shop.Owns(t, v, k) && (v == u && k == key ==> Shop.Held(t, u, key) > 1))
  {}

  lemma BoostedIsNoItem(log: seq<Entry>, e: Entry, u: UserId, key: string)
    requires e.Boosted?
    ensures Uses(log + [e], u, key) == Uses(log, u, key) && Grants(log + [e], u, key) == Grants(log, u, key)
    ensures Dupes(log + [e], u) == Dupes(log, u) && AllGrants(log + [e], u) == AllGrants(log, u)
    ensures Days(log + [e], u) == Days(log, u) && AuraAdjusted(log + [e], u) == AuraAdjusted(log, u)
    ensures DebtAdjusted(log + [e], u) == DebtAdjusted(log, u)
    ensures Count(log + [e], ArmedFight(u, true)) == Count(log, ArmedFight(u, true))
    ensures ArmedFights(log + [e], u) == ArmedFights(log, u)
  {
    LogSnoc(log, e, u);
    hide Days, AuraAdjusted, DebtAdjusted, AllGrants;
  }

  lemma UseCounts(log: seq<Entry>, u: UserId, dto: ConsumableItems.UseItem, now: int, v: UserId, k: string)
    ensures var after := log + UseLog(u, dto, now);
            && Uses(after, v, k) == Uses(log, v, k) + (if v == u && k == dto.itemKey then 1 else 0)
            && Grants(after, v, k) == Grants(log, v, k) && Dupes(after, v) == Dupes(log, v) &&
               AllGrants(after, v) == AllGrants(log, v)
            && Days(after, v) == Days(log, v)
            && AuraAdjusted(after, v) == AuraAdjusted(log, v) && DebtAdjusted(after, v) == DebtAdjusted(log, v)
            && Count(after, ArmedFight(v, true)) == Count(log, ArmedFight(v, true)) &&
               ArmedFights(after, v) == ArmedFights(log, v)
  {
    hide Days, AuraAdjusted, DebtAdjusted, AllGrants;
    var used := Used(u, dto.itemKey);
    LogSnoc(log, used, v);
    CountSnoc(log, used, SoapGrant(v, k));
    CountSnoc(log, used, SoapDupe(v));
    CountSnoc(log, used, ArmedFight(v, true));
    CountSnoc(log, used, ArmedFight(v, false));
    CountSnoc(log, used, Used(v, k));
    var middle := log + [used];
    if dto.itemKey in ConsumableItems.BOOSTS {
      var e := Boosted(u, dto.roomId, dto.itemKey, now);
      BoostedIsNoItem(middle, e, v, k);
      assert log + UseLog(u, dto, now) == middle + [e];
    } else {
      assert log + UseLog(u, dto, now) == middle;
    }
    hide Count;
  }

  lemma UseKeepsItem(w: World, u: UserId, dto: ConsumableItems.UseItem, check: int, now: int, newId: MessageId,
                     v: UserId, k: string)
    requires ItemOk(w, v, k) && dto.itemKey in USABLE_ITEM_KEYS
    ensures ItemOk(UseStep(w, u, dto, check, now, newId), v, k)
  {
    hide FindShopItem, Count, AllGrants, Purchases, UseLog, ConsumableItems.UseRefusal, ConsumableItems.Affected;
    var t := UseStep(w, u, dto, check, now, newId);
    if Usable(w, u, dto, check) {
      UseHasEffect(w, u, dto, check, now, newId);
      UseCounts(w.log, u, dto, now, v, k);
      ConsumedHeld(w.db, u, dto.itemKey, v, k);
      KeyFacts(k);
      hide UseStep, ConsumableItems.Consumed, Shop.Permanently;
      assert Shop.Held(t.db, v, k) == Shop.Held(ConsumableItems.Consumed(w.db, u, dto.itemKey), v, k);
    }
  }

  // Entries that are about neither items nor soap.
  predicate NoItem(e: Entry) { !e.Used? && !e.SoapGrant? && !e.SoapDupe? }

  lemma NoItemSnoc(log: seq<Entry>, e: Entry, u: UserId, key: string)
    requires NoItem(e)
    ensures Uses(log + [e], u, key) == Uses(log, u, key) && Grants(log + [e], u, key) == Grants(log, u, key)
    ensures Dupes(log + [e], u) == Dupes(log, u) && AllGrants(log + [e], u) == AllGrants(log, u)
  {
    LogSnoc(log, e, u);
  }

  lemma ArmedLogIsNoItem(log: seq<Entry>, t: Db, u: UserId, lost: bool, v: UserId, k: string)
    ensures var after := log + ArmedLog(t, u, lost);
            && Uses(after, v, k) == Uses(log, v, k) && Grants(after, v, k) == Grants(log, v, k)
            && Dupes(after, v) == Dupes(log, v) && AllGrants(after, v) == AllGrants(log, v)
  {
    hide Uses, Grants, Dupes, AllGrants;
    if u in t.users && t.users[u].fightInsuranceArmed {
      NoItemSnoc(log, ArmedFight(u, lost), v, k);
    } else {
      assert log + [] == log;
    }
  }

  lemma SettleKeepsItem(w: World, a: Settlement.SettleArgs, v: UserId, k: string)
    requires ItemOk(w, v, k)
    ensures ItemOk(SettleStep(w, a), v, k)
  {
    var t := SettleStep(w, a);
    hide Uses, Grants, Dupes, AllGrants, FindShopItem, ArmedLog, ItemOk, Settlement.WinnerRow, Settlement.LoserRow;
    if Settlement.Settles(w.db, a) {
      ArmedLogIsNoItem(w.log, w.db, a.winnerId, false, v, k);
      ArmedLogIsNoItem(w.log + ArmedLog(w.db, a.winnerId, false), w.db, a.loserId, true, v, k);
      ItemFrame(w, t, v, k);
    }
  }

  lemma RowKeepsItem(w: World, u: UserId, row: User, entries: seq<Entry>, v: UserId, k: string)
    requires ItemOk(w, v, k) && (entries == [] || (|entries| == 1 && NoItem(entries[0])))
    ensures ItemOk(RowStep(w, u, row, entries), v, k)
  {
    hide Uses, Grants, Dupes, AllGrants, FindShopItem, ItemOk, NoItem;
    if u in w.db.users {
      if entries == [] { assert w.log + entries == w.log; }
      else { assert entries == [entries[0]]; NoItemSnoc(w.log, entries[0], v, k); }
      ItemFrame(w, RowStep(w, u, row, entries), v, k);
    }
  }

  lemma StepKeepsItems(w: World, e: Event, v: UserId, k: string)
    requires ItemsOk(w) && Enabled(w, e)
    ensures ItemOk(Do(w, e), v, k)
  {
    hide Uses, Grants, Dupes, AllGrants, FindShopItem, ItemOk, SoapPool, BuyStep, UseStep, SettleStep, RowStep,
         Settlement.Settles, Shop.EquipRefusal, Stimulus.Due, Stimulus.Claimed;
    assert ItemOk(w, v, k);
    match e
    case Buy(u, key, roll, pick) =>
      var prize := SoapPool(roll)[pick];
      SoapGrantsPermanents(roll, prize);
      if Shop.Sells(w.db, u, key) { BuyKeepsItem(w, u, key, prize, v, k); } else { BuyRefused(w, u, key, prize); }
    case Use(u, dto, check, now, newId) => UseKeepsItem(w, u, dto, check, now, newId, v, k);
    case Settle(args) => SettleKeepsItem(w, args, v, k);
    case Claim(u, now) =>
      RowKeepsItem(w, u, Stimulus.Claimed(Row(w.db, u), now), [Claimed(u, Stimulus.UtcDay(now))], v, k);
      ClaimIsRowStep(w, u, now);
    case Farm(u) => RowKeepsItem(w, u, Users.Farmed(Row(w.db, u)), [], v, k);
    case PayDebt(u) => RowKeepsItem(w, u, Users.PaidOff(Row(w.db, u)), [], v, k);
    case Adjust(u, auraDelta, debtDelta) =>
      RowKeepsItem(w, u, Users.Corrected(Row(w.db, u), auraDelta, debtDelta), [Adjusted(u, auraDelta, debtDelta)], v,
                   k);
    case _ => ItemFrame(w, Do(w, e), v, k);
  }

  lemma BuyRefused(w: World, u: UserId, key: string, prize: string)
    requires !Shop.Sells(w.db, u, key)
    ensures BuyStep(w, u, key, prize) == w
  {}

  lemma ClaimIsRowStep(w: World, u: UserId, now: int)
    ensures ClaimStep(w, u, now)
         == if u in w.db.users && Stimulus.Due(w.db.users[u], now)
            then RowStep(w, u, Stimulus.Claimed(Row(w.db, u), now), [Claimed(u, Stimulus.UtcDay(now))]) else w
  {
    hide Stimulus.Due, Stimulus.Claimed;
  }

  // ----- aura, debt, insurance, stimulus -----

  // The part of the log that money depends on.
  predicate SameMoneyLog(a: seq<Entry>, b: seq<Entry>, u: UserId) {
    && Dupes(a, u) == Dupes(b, u) && Days(a, u) == Days(b, u)
    && AuraAdjusted(a, u) == AuraAdjusted(b, u) && DebtAdjusted(a, u) == DebtAdjusted(b, u)
    && Uses(a, u, "debt_forgiveness") == Uses(b, u, "debt_forgiveness") &&
       Uses(a, u, "fight_insurance") == Uses(b, u, "fight_insurance")
    && ArmedFights(a, u) == ArmedFights(b, u) && Count(a, ArmedFight(u, true)) == Count(b, ArmedFight(u, true))
  }

  predicate SameMoneyRow(a: User, b: User) {
    && a.aura == b.aura && a.debt == b.debt && a.fightInsuranceArmed == b.fightInsuranceArmed
    && a.auraFarmCount == b.auraFarmCount && a.debtPaidCount == b.debtPaidCount
    && a.stimulusStreak == b.stimulusStreak && a.lastStimulusAt == b.lastStimulusAt
  }

  lemma MoneyFrame(w: World, t: World, u: UserId)
    requires MoneyAt(w, u) && SameMoneyLog(w.log, t.log, u) && SameMoneyRow(Row(w.db, u), Row(t.db, u))
    requires t.db.fights == w.db.fights && t.db.purchases == w.db.purchases
    ensures MoneyAt(t, u)
  {
    hide Dupes, Days, AuraAdjusted, DebtAdjusted, Uses, ArmedFights, Count, Spent, NetStakes, InsuredLosses;
  }

  lemma SoapSnoc(log: seq<Entry>, e: Entry, u: UserId)
    requires e.SoapGrant? || e.SoapDupe?
    ensures Dupes(log + [e], u) == Dupes(log, u) + if e == SoapDupe(u) then 1 else 0
    ensures Days(log + [e], u) == Days(log, u)
    ensures AuraAdjusted(log + [e], u) == AuraAdjusted(log, u) && DebtAdjusted(log + [e], u) == DebtAdjusted(log, u)
    ensures forall k :: Uses(log + [e], u, k) == Uses(log, u, k)
    ensures ArmedFights(log + [e], u) == ArmedFights(log, u)
    ensures Count(log + [e], ArmedFight(u, true)) == Count(log, ArmedFight(u, true))
  {
    LogSnoc(log, e, u);
    hide Days, AuraAdjusted, DebtAdjusted;
  }

  lemma BoughtRow(t: Db, u: UserId, item: ShopItem, prize: string, v: UserId)
    requires u in t.users
    ensures var after := Shop.Bought(t, u, item, prize);
            var refund := if item.key == MYSTERY_SOAP_KEY && Shop.Dupe(t, u, prize) then item.price / 2 else 0;
            && Row(after, v) == (if v == u then Row(t, u).(aura := Row(t, u).aura - item.price + refund) else Row(t, v))
            && after.fights == t.fights && after.equipped == t.equipped && after.users.Keys == t.users.Keys
            && after.effects == t.effects && after.rooms == t.rooms
            && after.purchases == t.purchases + [Purchase(u, item.key, item.price)]
  {
    hide FindShopItem;
  }

  // Spending and refunds, and nothing else that money depends on.
  lemma SpendingKeepsMoney(w: World, t: World, u: UserId, price: nat, dupes: nat)
    requires MoneyAt(w, u) && Row(t.db, u) == Row(w.db, u).(aura := Row(w.db, u).aura - price + 90 * dupes)
    requires t.db.fights == w.db.fights && Spent(t.db.purchases, u) == Spent(w.db.purchases, u) + price
    requires Dupes(t.log, u) == Dupes(w.log, u) + dupes && Days(t.log, u) == Days(w.log, u)
    requires AuraAdjusted(t.log, u) == AuraAdjusted(w.log, u) && DebtAdjusted(t.log, u) == DebtAdjusted(w.log, u)
    requires forall k :: Uses(t.log, u, k) == Uses(w.log, u, k)
    requires ArmedFights(t.log, u) == ArmedFights(w.log, u)
    requires Count(t.log, ArmedFight(u, true)) == Count(w.log, ArmedFight(u, true))
    ensures MoneyAt(t, u)
  {
    hide Dupes, Days, AuraAdjusted, DebtAdjusted, Uses, ArmedFights, Count, Spent, NetStakes, InsuredLosses,
         Stimulus.Paid, Stimulus.TrailingRun, Stimulus.Increasing;
  }

  lemma BuyKeepsMoney(w: World, u: UserId, key: string, prize: string, v: UserId)
    requires MoneyAt(w, v) && Shop.Sells(w.db, u, key)
    ensures MoneyAt(BuyStep(w, u, key, prize), v)
  {
    hide FindShopItem, Dupes, Days, AuraAdjusted, DebtAdjusted, Uses, ArmedFights, Count, Spent, MoneyAt, Shop.Bought;
    var t := BuyStep(w, u, key, prize);
    var item := FindShopItem(key).value;
    Shop.FoundItem(key);
    BoughtRow(w.db, u, item, prize, v);
    PurchaseSnoc(w.db.purchases, Purchase(u, item.key, item.price), v, key);
    var dupe := Shop.Dupe(w.db, u, prize);
    hide Shop.Dupe;
    if key == MYSTERY_SOAP_KEY {
      Shop.SoapCosts();
      var e := if dupe then SoapDupe(u) else SoapGrant(u, prize);
      assert t.log == w.log + [e];
      SoapSnoc(w.log, e, v);
      SpendingKeepsMoney(w, t, v, if v == u then item.price else 0, if v == u && dupe then 1 else 0);
    } else {
      assert t.log == w.log;
      SpendingKeepsMoney(w, t, v, if v == u then item.price else 0, 0);
    }
  }

  // The row of a user after a use.
  lemma UsedRow(w: World, u: UserId, dto: ConsumableItems.UseItem, check: int, now: int, newId: MessageId, v: UserId)
    requires Usable(w, u, dto, check) && dto.itemKey in USABLE_ITEM_KEYS && ItemOk(w, u, dto.itemKey)
    ensures var row := Row(w.db, v);
            Row(UseStep(w, u, dto, check, now, newId).db, v)
            == if v != u then row
               else if dto.itemKey == "fight_insurance" then row.(fightInsuranceArmed := true)
               else if dto.itemKey == "debt_forgiveness" then row.(debt := row.debt - 100)
               else row
    ensures dto.itemKey == "fight_insurance" ==> !Row(w.db, u).fightInsuranceArmed
  {
    hide FindShopItem, Uses, Grants, Dupes, AllGrants, UseLog, ConsumableItems.EffectDuration;
    assert Shop.Owns(w.db, u, dto.itemKey);
    var c := ConsumableItems.Consumed(w.db, u, dto.itemKey);
    assert c.users == w.db.users;
    RoomEffectFrame(c, u, dto, now, newId);
    hide ConsumableItems.Consumed, ConsumableItems.BoostEffect, ConsumableItems.SpotlightEffect;
  }

  lemma UseKeepsMoney(w: World, u: UserId, dto: ConsumableItems.UseItem, check: int, now: int, newId: MessageId,
                      v: UserId)
    requires MoneyAt(w, v) && dto.itemKey in USABLE_ITEM_KEYS && Usable(w, u, dto, check) && ItemOk(w, u, dto.itemKey)
    ensures MoneyAt(UseStep(w, u, dto, check, now, newId), v)
  {
    hide Dupes, Days, AuraAdjusted, DebtAdjusted, Uses, ArmedFights, Count, Spent, NetStakes, InsuredLosses, UseLog,
         Stimulus.Paid, Stimulus.TrailingRun, Stimulus.Increasing, ItemOk, ConsumableItems.UseRefusal,
         ConsumableItems.Affected;
    UseHasEffect(w, u, dto, check, now, newId);
    UsedRow(w, u, dto, check, now, newId, v);
    UseCounts(w.log, u, dto, now, v, "debt_forgiveness");
    UseCounts(w.log, u, dto, now, v, "fight_insurance");
    hide UseStep, Usable, ConsumableItems.Consumed;
  }

  // What a settlement does to one user's row.
  lemma SettledRow(t: Db, a: Settlement.SettleArgs, v: UserId)
    requires Settlement.Settles(t, a) && a.winnerId != a.loserId
    ensures var x := Settlement.Stake(a.stakeAmount, t.users[a.loserId].fightInsuranceArmed);
            var after := Settlement.Settled(t, a);
            && Row(after, v) == (if v == a.winnerId then Settlement.WinnerRow(Row(t, v), a.stakeType, x)
                                 else if v == a.loserId then Settlement.LoserRow(Row(t, v), a.stakeType, x)
                                 else Row(t, v))
            && after.users.Keys == t.users.Keys
  {
    hide Settlement.WinnerRow, Settlement.LoserRow;
    assert Settlement.Settled(t, a).users.Keys == t.users.Keys + {a.winnerId, a.loserId};
  }

  lemma FairNames(a: Settlement.SettleArgs)
    requires FairSettle(a)
    ensures a.winnerId != a.loserId
    ensures (a.winnerId == a.player1Id && a.loserId == a.player2Id) ||
            (a.winnerId == a.player2Id && a.loserId == a.player1Id)
  {
    assert a.player1Id in {a.winnerId, a.loserId} && a.player2Id in {a.winnerId, a.loserId};
  }

  // What the settled fight adds to one user's sums.
  lemma SettledStakes(w: World, a: Settlement.SettleArgs, v: UserId)
    requires FairSettle(a) && Settlement.Settles(w.db, a)
    ensures var insured := w.db.users[a.loserId].fightInsuranceArmed;
            var x := Settlement.Stake(a.stakeAmount, insured);
            var won := if v == a.winnerId then x else if v == a.loserId then -x else 0;
            var after := Settlement.Settled(w.db, a).fights;
            && NetStakes(after, v, "aura") == NetStakes(w.db.fights, v, "aura")
               + (if a.stakeType == "aura" then won else 0)
            && NetStakes(after, v, "debt") == NetStakes(w.db.fights, v, "debt")
               + (if a.stakeType == "debt" then won else 0)
            && InsuredLosses(after, v) == InsuredLosses(w.db.fights, v) + (if insured && v == a.loserId then 1 else 0)
  {
    FairNames(a);
    var after := Settlement.Settled(w.db, a).fights;
    var f := after[|w.db.fights|];
    hide NetStakes, InsuredLosses;
    assert after == w.db.fights + [f];
    FightSnoc(w.db.fights, f, v);
  }

  lemma ArmedLogCounts(log: seq<Entry>, t: Db, u: UserId, lost: bool, v: UserId)
    ensures var after := log + ArmedLog(t, u, lost);
            var one := if v == u && u in t.users && t.users[u].fightInsuranceArmed then 1 else 0;
            && Dupes(after, v) == Dupes(log, v) && Days(after, v) == Days(log, v)
            && AuraAdjusted(after, v) == AuraAdjusted(log, v) && DebtAdjusted(after, v) == DebtAdjusted(log, v)
            && (forall k :: Uses(after, v, k) == Uses(log, v, k))
            && ArmedFights(after, v) == ArmedFights(log, v) + one
            && Count(after, ArmedFight(v, true)) == Count(log, ArmedFight(v, true)) + (if lost then one else 0)
  {
    hide Days, AuraAdjusted, DebtAdjusted;
    if u in t.users && t.users[u].fightInsuranceArmed {
      LogSnoc(log, ArmedFight(u, lost), v);
    } else {
      assert log + [] == log;
    }
  }

  lemma SettleKeepsMoney(w: World, a: Settlement.SettleArgs, v: UserId)
    requires MoneyAt(w, v) && FairSettle(a)
    ensures MoneyAt(SettleStep(w, a), v)
  {
    hide Dupes, Days, AuraAdjusted, DebtAdjusted, Uses, ArmedFights, Count, Spent, NetStakes, InsuredLosses, ArmedLog,
         Stimulus.Paid, Stimulus.TrailingRun, Stimulus.Increasing, Settlement.Stake;
    var t := SettleStep(w, a);
    if Settlement.Settles(w.db, a) {
      FairNames(a);
      SettledRow(w.db, a, v);
      SettledStakes(w, a, v);
      ArmedLogCounts(w.log, w.db, a.winnerId, false, v);
      ArmedLogCounts(w.log + ArmedLog(w.db, a.winnerId, false), w.db, a.loserId, true, v);
      assert t.db.purchases == w.db.purchases;
      hide FairSettle, Settlement.Settled;
    }
  }

  lemma CancelKeepsMoney(w: World, creatorId: UserId, challengerId: Option<UserId>, stakeType: string,
                         stakeAmount: int, now: int, v: UserId)
    requires MoneyAt(w, v)
    ensures MoneyAt(CancelStep(w, creatorId, challengerId, stakeType, stakeAmount, now), v)
  {
    FightSnoc(w.db.fights, Settlement.CancelledFight(creatorId, challengerId, stakeType, stakeAmount, now), v);
    hide Dupes, Days, AuraAdjusted, DebtAdjusted, Uses, ArmedFights, Count, Spent, NetStakes, InsuredLosses,
         Stimulus.Paid, Stimulus.TrailingRun, Stimulus.Increasing;
  }

  // Entries of other kinds leave the counts of items and armed fights alone.
  lemma OtherSnoc(log: seq<Entry>, e: Entry, u: UserId)
    requires e.Claimed? || e.Adjusted?
    ensures Dupes(log + [e], u) == Dupes(log, u)
    ensures forall k :: Uses(log + [e], u, k) == Uses(log, u, k)
    ensures ArmedFights(log + [e], u) == ArmedFights(log, u)
    ensures Count(log + [e], ArmedFight(u, true)) == Count(log, ArmedFight(u, true))
  {}

  lemma ClaimKeepsMoney(w: World, u: UserId, now: int, v: UserId)
    requires MoneyAt(w, v)
    ensures MoneyAt(ClaimStep(w, u, now), v)
  {
    hide Days, AuraAdjusted, DebtAdjusted, Spent, NetStakes, InsuredLosses, Stimulus.Paid, Dupes, Uses, ArmedFights,
         Count, Stimulus.TrailingRun, Stimulus.Increasing, Stimulus.NextStreak, Stimulus.Due, Stimulus.StimulusAmount;
    if u in w.db.users && Stimulus.Due(w.db.users[u], now) {
      var e := Claimed(u, Stimulus.UtcDay(now));
      LogSnoc(w.log, e, v);
      OtherSnoc(w.log, e, v);
      if v == u { Stimulus.ClaimExtendsStreak(w.db.users[u], Days(w.log, u), now); }
      assert Days(w.log + [e], v) == if v == u then Days(w.log, v) + [e.day] else Days(w.log, v);
      hide Stimulus.UtcDay;
    }
  }

  lemma CorrectionKeepsMoney(w: World, t: World, u: UserId, auraDelta: int, debtDelta: int)
    requires MoneyAt(w, u) && Row(t.db, u) == Users.Corrected(Row(w.db, u), auraDelta, debtDelta)
    requires t.db.fights == w.db.fights && t.db.purchases == w.db.purchases
    requires Dupes(t.log, u) == Dupes(w.log, u) && Days(t.log, u) == Days(w.log, u)
    requires AuraAdjusted(t.log, u) == AuraAdjusted(w.log, u) + auraDelta
    requires DebtAdjusted(t.log, u) == DebtAdjusted(w.log, u) + debtDelta
    requires forall k :: Uses(t.log, u, k) == Uses(w.log, u, k)
    requires ArmedFights(t.log, u) == ArmedFights(w.log, u)
    requires Count(t.log, ArmedFight(u, true)) == Count(w.log, ArmedFight(u, true))
    ensures MoneyAt(t, u)
  {
    hide Dupes, Days, AuraAdjusted, DebtAdjusted, Uses, ArmedFights, Count, Spent, NetStakes, InsuredLosses,
         Stimulus.Paid, Stimulus.TrailingRun, Stimulus.Increasing;
  }

  lemma AdjustKeepsMoney(w: World, u: UserId, auraDelta: int, debtDelta: int, v: UserId)
    requires MoneyAt(w, v)
    ensures MoneyAt(RowStep(w, u, Users.Corrected(Row(w.db, u), auraDelta, debtDelta),
                            [Adjusted(u, auraDelta, debtDelta)]), v)
  {
    hide MoneyAt, Dupes, Days, AuraAdjusted, DebtAdjusted, Uses, ArmedFights, Count;
    var e := Adjusted(u, auraDelta, debtDelta);
    var t := RowStep(w, u, Users.Corrected(Row(w.db, u), auraDelta, debtDelta), [e]);
    if u in w.db.users {
      LogSnoc(w.log, e, v);
      OtherSnoc(w.log, e, v);
      assert Days(w.log, v) + [] == Days(w.log, v);
      CorrectionKeepsMoney(w, t, v, if v == u then auraDelta else 0, if v == u then debtDelta else 0);
    }
  }

  lemma CountedKeepsMoney(w: World, u: UserId, v: UserId)
    requires MoneyAt(w, v)
    ensures MoneyAt(RowStep(w, u, Users.Farmed(Row(w.db, u)), []), v)
    ensures MoneyAt(RowStep(w, u, Users.PaidOff(Row(w.db, u)), []), v)
  {
    hide Dupes, Days, AuraAdjusted, DebtAdjusted, Uses, ArmedFights, Count, Spent, NetStakes, InsuredLosses,
         Stimulus.Paid, Stimulus.TrailingRun, Stimulus.Increasing;
    assert w.log + [] == w.log;
  }

  lemma StepKeepsMoney(w: World, e: Event, v: UserId)
    requires MoneyOk(w) && ItemsOk(w) && Enabled(w, e)
    ensures MoneyAt(Do(w, e), v)
  {
    hide MoneyAt, ItemOk, FindShopItem, SoapPool, BuyStep, UseStep, SettleStep, RowStep, ClaimStep, CancelStep,
         SameMoneyLog, Shop.EquipRefusal;
    assert MoneyAt(w, v);
    match e
    case Buy(u, key, roll, pick) =>
      if Shop.Sells(w.db, u, key) { BuyKeepsMoney(w, u, key, SoapPool(roll)[pick], v); }
      else { BuyRefused(w, u, key, SoapPool(roll)[pick]); }
    case Use(u, dto, check, now, newId) =>
      assert ItemOk(w, u, dto.itemKey);
      if Usable(w, u, dto, check) {
        UseKeepsMoney(w, u, dto, check, now, newId, v);
      } else {
        UseRefused(w, u, dto, check, now, newId);
      }
    case Settle(args) => SettleKeepsMoney(w, args, v);
    case Cancel(creatorId, challengerId, stakeType, stakeAmount, now) =>
      CancelKeepsMoney(w, creatorId, challengerId, stakeType, stakeAmount, now, v);
    case Claim(u, now) => ClaimKeepsMoney(w, u, now, v);
    case Farm(u) => CountedKeepsMoney(w, u, v);
    case PayDebt(u) => CountedKeepsMoney(w, u, v);
    case Adjust(u, auraDelta, debtDelta) => AdjustKeepsMoney(w, u, auraDelta, debtDelta, v);
    case _ =>
      SameLogIsSame(w.log, v);
      MoneyFrame(w, Do(w, e), v);
  }

  lemma SameLogIsSame(log: seq<Entry>, u: UserId)
    ensures SameMoneyLog(log, log, u)
  {}

  lemma UseRefused(w: World, u: UserId, dto: ConsumableItems.UseItem, check: int, now: int, newId: MessageId)
    requires !Usable(w, u, dto, check)
    ensures UseStep(w, u, dto, check, now, newId) == w
  {}

  // ----- fights -----

  lemma PlayersStay(w: World, t: World)
    requires FightsOk(w) && t.db.fights == w.db.fights && w.db.users.Keys <= t.db.users.Keys
    ensures forall i :: 0 <= i < |t.db.fights| ==> PlayersExist(t.db, t.db.fights[i])
  {
    forall i | 0 <= i < |t.db.fights| ensures PlayersExist(t.db, t.db.fights[i]) {
      assert PlayersExist(w.db, w.db.fights[i]);
    }
  }

  predicate SameCounters(a: User, b: User) {
    a.fightsWon == b.fightsWon && a.fightsLost == b.fightsLost && a.winStreak == b.winStreak &&
      a.lossStreak == b.lossStreak
  }

  lemma FightsFrame(w: World, t: World)
    requires FightsOk(w) && t.db.fights == w.db.fights && t.db.users.Keys == w.db.users.Keys
    requires forall u :: u in w.db.users ==> SameCounters(t.db.users[u], w.db.users[u])
    ensures FightsOk(t)
  {
    hide Backfill.CountWon, Backfill.CountLost, Backfill.WinStreak, Backfill.LossStreak, Backfill.FightOk;
    PlayersStay(w, t);
    hide PlayersExist;
    forall u | u in t.db.users ensures t.db.users[u] == Backfill.Accounted(t.db.users[u], t.db.fights, u) {
      assert w.db.users[u] == Backfill.Accounted(w.db.users[u], w.db.fights, u);
      assert SameCounters(t.db.users[u], w.db.users[u]);
    }
  }

  lemma RegisterKeepsFights(w: World, u: UserId, admin: bool)
    requires FightsOk(w) && u !in w.db.users
    ensures FightsOk(w.(db := PutUser(w.db, u, NewUser(admin))))
  {
    var t := w.(db := PutUser(w.db, u, NewUser(admin)));
    PlayersStay(w, t);
    forall i | 0 <= i < |w.db.fights| ensures !Settlement.Involves(w.db.fights[i], u) {
      assert PlayersExist(w.db, w.db.fights[i]);
    }
    Backfill.NewcomerCounts(w.db.fights, u);
    forall v | v in t.db.users ensures t.db.users[v] == Backfill.Accounted(t.db.users[v], t.db.fights, v) {
      if v != u { assert w.db.users[v] == Backfill.Accounted(w.db.users[v], w.db.fights, v); }
    }
  }

  lemma SettleKeepsFights(w: World, a: Settlement.SettleArgs)
    requires FightsOk(w) && FairSettle(a)
    ensures FightsOk(SettleStep(w, a))
  {
    if Settlement.Settles(w.db, a) {
      Backfill.SettledKeepsCounters(w.db, a);
      var t := Settlement.Settled(w.db, a);
      assert t.users.Keys == w.db.users.Keys + {a.winnerId, a.loserId};
      hide Backfill.CountersOk, Backfill.FightOk, Settlement.WinnerRow, Settlement.LoserRow;
      forall i | 0 <= i < |t.fights| ensures PlayersExist(t, t.fights[i]) && Backfill.FightOk(t.fights[i]) {
        if i < |w.db.fights| { assert PlayersExist(w.db, w.db.fights[i]) && Backfill.FightOk(w.db.fights[i]); }
      }
    }
  }

  lemma CancelKeepsFights(w: World, creatorId: UserId, challengerId: Option<UserId>, stakeType: string,
                          stakeAmount: int, now: int)
    requires FightsOk(w) && challengerId != Some(creatorId)
    ensures FightsOk(CancelStep(w, creatorId, challengerId, stakeType, stakeAmount, now))
  {
    var t := CancelStep(w, creatorId, challengerId, stakeType, stakeAmount, now);
    if Settlement.Known(w.db, creatorId, challengerId) {
      Backfill.CancelledKeepsCounters(w.db,
                                      Settlement.CancelledFight(creatorId, challengerId, stakeType, stakeAmount, now));
      hide Backfill.CountersOk;
      forall i | 0 <= i < |t.db.fights| ensures PlayersExist(t.db, t.db.fights[i]) && Backfill.FightOk(t.db.fights[i]) {
        if i < |w.db.fights| { assert PlayersExist(w.db, w.db.fights[i]) && Backfill.FightOk(w.db.fights[i]); }
      }
    }
  }

  lemma UseKeepsFights(w: World, u: UserId, dto: ConsumableItems.UseItem, check: int, now: int, newId: MessageId)
    requires FightsOk(w) && ItemOk(w, u, dto.itemKey) && dto.itemKey in USABLE_ITEM_KEYS
    ensures FightsOk(UseStep(w, u, dto, check, now, newId))
  {
    if Usable(w, u, dto, check) {
      UseHasEffect(w, u, dto, check, now, newId);
      var t := UseStep(w, u, dto, check, now, newId);
      forall v | v in w.db.users ensures SameCounters(t.db.users[v], w.db.users[v]) {
        UsedRow(w, u, dto, check, now, newId, v);
        hide UseStep, Usable, ItemOk;
      }
      hide UseStep, Usable, ItemOk, FightsOk, SameCounters;
      FightsFrame(w, t);
    } else {
      UseRefused(w, u, dto, check, now, newId);
    }
  }

  lemma BuyKeepsFights(w: World, u: UserId, key: string, prize: string)
    requires FightsOk(w)
    ensures FightsOk(BuyStep(w, u, key, prize))
  {
    hide FindShopItem, FightsOk;
    if Shop.Sells(w.db, u, key) {
      var t := BuyStep(w, u, key, prize);
      forall v | v in w.db.users ensures SameCounters(t.db.users[v], w.db.users[v]) {
        BoughtRow(w.db, u, FindShopItem(key).value, prize, v);
        hide Shop.Bought;
      }
      BoughtRow(w.db, u, FindShopItem(key).value, prize, u);
      FightsFrame(w, t);
    }
  }

  lemma RowKeepsFights(w: World, u: UserId, row: User, entries: seq<Entry>)
    requires FightsOk(w) && SameCounters(row, Row(w.db, u))
    ensures FightsOk(RowStep(w, u, row, entries))
  {
    hide FightsOk;
    if u in w.db.users {
      assert w.db.users[u := row].Keys == w.db.users.Keys;
      FightsFrame(w, RowStep(w, u, row, entries));
    }
  }

  lemma StepKeepsFights(w: World, e: Event)
    requires FightsOk(w) && ItemsOk(w) && Enabled(w, e)
    ensures FightsOk(Do(w, e))
  {
    hide FightsOk, ItemOk, FindShopItem, SoapPool, BuyStep, UseStep, SettleStep, RowStep, CancelStep,
         Shop.EquipRefusal, Stimulus.Due, Stimulus.Claimed;
    match e
    case Register(u, admin) => RegisterKeepsFights(w, u, admin);
    case Buy(u, key, roll, pick) => BuyKeepsFights(w, u, key, SoapPool(roll)[pick]);
    case Use(u, dto, check, now, newId) =>
      assert ItemOk(w, u, dto.itemKey);
      UseKeepsFights(w, u, dto, check, now, newId);
    case Settle(args) => SettleKeepsFights(w, args);
    case Cancel(creatorId, challengerId, stakeType, stakeAmount, now) =>
      CancelKeepsFights(w, creatorId, challengerId, stakeType, stakeAmount, now);
    case Claim(u, now) =>
      ClaimIsRowStep(w, u, now);
      ClaimedCounters(Row(w.db, u), now);
      RowKeepsFights(w, u, Stimulus.Claimed(Row(w.db, u), now), [Claimed(u, Stimulus.UtcDay(now))]);
    case Farm(u) => RowKeepsFights(w, u, Users.Farmed(Row(w.db, u)), []);
    case PayDebt(u) => RowKeepsFights(w, u, Users.PaidOff(Row(w.db, u)), []);
    case Adjust(u, auraDelta, debtDelta) =>
      RowKeepsFights(w, u, Users.Corrected(Row(w.db, u), auraDelta, debtDelta), [Adjusted(u, auraDelta, debtDelta)]);
    case _ => FightsFrame(w, Do(w, e));
  }

  lemma ClaimedCounters(row: User, now: int)
    ensures SameCounters(Stimulus.Claimed(row, now), row)
  {}

  // ----- equipment -----

  lemma EquipFrame(w: World, t: World)
    requires EquipOk(w) && t.db.equipped == w.db.equipped
    requires forall u, key :: PermanentShape(key) && Shop.Owns(w.db, u, key) ==> Shop.Owns(t.db, u, key)
    ensures EquipOk(t)
  {
    forall u, slot | (u, slot) in t.db.equipped ensures WornOk(t.db, u, slot, t.db.equipped[(u, slot)]) {
      assert WornOk(w.db, u, slot, w.db.equipped[(u, slot)]);
      SlotShape(slot, w.db.equipped[(u, slot)]);
    }
  }

  lemma BuyKeepsEquip(w: World, u: UserId, key: string, prize: string)
    requires EquipOk(w)
    ensures EquipOk(BuyStep(w, u, key, prize))
  {
    hide FindShopItem, EquipOk, PermanentShape;
    if Shop.Sells(w.db, u, key) { EquipFrame(w, BuyStep(w, u, key, prize)); }
  }

  // What is used up fits no slot.
  lemma UseKeepsEquip(w: World, u: UserId, dto: ConsumableItems.UseItem, check: int, now: int, newId: MessageId)
    requires EquipOk(w) && dto.itemKey in USABLE_ITEM_KEYS
    ensures EquipOk(UseStep(w, u, dto, check, now, newId))
  {
    hide EquipOk, PermanentShape, ConsumableItems.Affected, ConsumableItems.UseRefusal;
    if Usable(w, u, dto, check) {
      UseHasEffect(w, u, dto, check, now, newId);
      UsableShape(dto.itemKey);
      EquipFrame(w, UseStep(w, u, dto, check, now, newId));
    } else {
      UseRefused(w, u, dto, check, now, newId);
    }
  }

  lemma WearKeepsEquip(w: World, u: UserId, slot: Slot, itemKey: Option<string>)
    requires EquipOk(w)
    ensures EquipOk(EquipStep(w, u, slot, itemKey))
  {
    hide FindShopItem, SlotAccepts;
    var t := EquipStep(w, u, slot, itemKey);
    forall v, s | (v, s) in t.db.equipped ensures WornOk(t.db, v, s, t.db.equipped[(v, s)]) {
      if (v, s) in w.db.equipped { assert WornOk(w.db, v, s, w.db.equipped[(v, s)]); }
    }
  }

  lemma StepKeepsEquip(w: World, e: Event)
    requires EquipOk(w) && Enabled(w, e)
    ensures EquipOk(Do(w, e))
  {
    hide EquipOk, FindShopItem, SoapPool, BuyStep, UseStep, EquipStep, PermanentShape, Settlement.Settles, Stimulus.Due,
         Stimulus.Claimed;
    match e
    case Buy(u, key, roll, pick) => BuyKeepsEquip(w, u, key, SoapPool(roll)[pick]);
    case Use(u, dto, check, now, newId) => UseKeepsEquip(w, u, dto, check, now, newId);
    case Equip(u, slot, itemKey) => WearKeepsEquip(w, u, slot, itemKey);
    case _ => EquipFrame(w, Do(w, e));
  }

  // ----- curses -----

  lemma UseKeepsCurses(w: World, u: UserId, dto: ConsumableItems.UseItem, check: int, now: int, newId: MessageId)
    requires CursesOk(w)
    ensures CursesOk(UseStep(w, u, dto, check, now, newId))
  {
    hide UseLog;
    if Usable(w, u, dto, check) {
      assert Shop.Owns(w.db, u, dto.itemKey);
      var t := UseStep(w, u, dto, check, now, newId);
      UsedEffects(w, u, dto, check, now, newId);
      if dto.itemKey in ConsumableItems.CURSES {
        assert !ConsumableItems.Cursed(w.db, dto.targetUserId, dto.itemKey, check);
        hide UseStep, Usable, ConsumableItems.EffectDuration;
        var n := |w.db.effects|;
        forall i, j | 0 <= i < j < |t.db.effects| ensures Apart(t.db.effects[i], t.db.effects[j]) {
          if j < n {
            assert Apart(w.db.effects[i], w.db.effects[j]);
          } else {
            assert !ConsumableItems.CurseActive(w.db.effects[i], dto.targetUserId, dto.itemKey, check);
          }
        }
      }
    }
  }

  lemma UsedEffects(w: World, u: UserId, dto: ConsumableItems.UseItem, check: int, now: int, newId: MessageId)
    requires Usable(w, u, dto, check) && Shop.Owns(w.db, u, dto.itemKey)
    ensures UseStep(w, u, dto, check, now, newId).db.effects
         == if dto.itemKey in ConsumableItems.CURSES
            then w.db.effects + [Effect(dto.targetUserId, dto.itemKey, u, check,
                                        now + ConsumableItems.EffectDuration(dto.itemKey))]
            else w.db.effects
  {
    hide UseLog, ConsumableItems.EffectDuration, ConsumableItems.UseRefusal, ConsumableItems.RowEffect;
    var c := ConsumableItems.Consumed(w.db, u, dto.itemKey);
    RoomEffectFrame(c, u, dto, now, newId);
    hide ConsumableItems.BoostEffect, ConsumableItems.SpotlightEffect;
  }

  lemma StepKeepsCurses(w: World, e: Event)
    requires CursesOk(w) && Enabled(w, e)
    ensures CursesOk(Do(w, e))
  {
    hide FindShopItem, SoapPool, UseStep, Settlement.Settles, Stimulus.Due, Stimulus.Claimed, Shop.EquipRefusal;
    match e
    case Use(u, dto, check, now, newId) => UseKeepsCurses(w, u, dto, check, now, newId);
    case _ =>
      hide Apart;
      assert Do(w, e).db.effects == w.db.effects;
  }

  // ----- rooms -----

  // Nothing is logged for a room but boosts.
  lemma NoBoosts(log: seq<Entry>, entries: seq<Entry>, id: RoomId, kind: string)
    requires |entries| <= 2 && forall i :: 0 <= i < |entries| ==> !entries[i].Boosted?
    ensures BoostTimes(log + entries, id, kind) == BoostTimes(log, id, kind)
  {
    if |entries| == 1 {
      assert entries == [entries[0]];
      BoostSnoc(log, entries[0], id, kind);
    } else if |entries| == 2 {
      assert log + entries == (log + [entries[0]]) + [entries[1]];
      BoostSnoc(log, entries[0], id, kind);
      BoostSnoc(log + [entries[0]], entries[1], id, kind);
    } else {
      assert log + entries == log;
    }
  }

  lemma RoomsFrame(w: World, t: World)
    requires RoomsOk(w) && t.everOpened >= w.everOpened
    requires forall id, kind :: BoostTimes(t.log, id, kind) == BoostTimes(w.log, id, kind)
    requires forall id :: id in t.db.rooms ==> id in t.everOpened
    requires forall id :: id in t.db.rooms && id in w.db.rooms ==>
               t.db.rooms[id].boostedUntil == w.db.rooms[id].boostedUntil &&
                 t.db.rooms[id].sponsoredUntil == w.db.rooms[id].sponsoredUntil
    requires forall id :: id in t.db.rooms && id !in w.db.rooms ==>
               id !in w.everOpened && t.db.rooms[id].boostedUntil.None? && t.db.rooms[id].sponsoredUntil.None?
    ensures RoomsOk(t)
  {
    hide Boosts.Until, BoostTimes;
    forall id | id in t.db.rooms ensures RoomOk(t, id) {
      if id in w.db.rooms {
        assert RoomOk(w, id);
      } else {
        NeverBoosted();
      }
    }
  }

  lemma NeverBoosted()
    ensures Boosts.Until([], ConsumableItems.ROOM_BOOST_MS) == None
    ensures Boosts.Until([], ConsumableItems.AURA_TAX_MS) == None
  {}

  predicate SameEnds(a: Room, b: Room) { a.boostedUntil == b.boostedUntil && a.sponsoredUntil == b.sponsoredUntil }

  // The rooms after a use, and the boosts on record.
  lemma UsedRooms(w: World, u: UserId, dto: ConsumableItems.UseItem, check: int, now: int, newId: MessageId)
    requires Usable(w, u, dto, check) && Shop.Owns(w.db, u, dto.itemKey)
    ensures var t := UseStep(w, u, dto, check, now, newId);
            && t.everOpened == w.everOpened && t.db.rooms.Keys == w.db.rooms.Keys
            && (dto.itemKey in ConsumableItems.BOOSTS ==>
                  && dto.roomId in w.db.rooms
                  && t.db.rooms == w.db.rooms[dto.roomId :=
                                              ConsumableItems.BoostedRoom(w.db.rooms[dto.roomId], u, dto.itemKey, now)])
            && (dto.itemKey !in ConsumableItems.BOOSTS ==>
                  forall id :: id in t.db.rooms ==> SameEnds(t.db.rooms[id], w.db.rooms[id]))
  {
    hide UseLog, ConsumableItems.BoostedRoom, ConsumableItems.EffectDuration;
    var t := UseStep(w, u, dto, check, now, newId);
    if dto.itemKey in ConsumableItems.CURSES {
    } else if dto.itemKey in ConsumableItems.BOOSTS {
      assert t.db.rooms.Keys == w.db.rooms.Keys + {dto.roomId};
    } else if dto.itemKey == "spotlight" {
      assert t.db.rooms.Keys == w.db.rooms.Keys + {w.db.messages[dto.messageId].roomId};
    }
  }

  lemma UseBoostTimes(log: seq<Entry>, u: UserId, dto: ConsumableItems.UseItem, now: int, id: RoomId, kind: string)
    ensures BoostTimes(log + UseLog(u, dto, now), id, kind)
         == if dto.itemKey in ConsumableItems.BOOSTS && id == dto.roomId && kind == dto.itemKey
            then BoostTimes(log, id, kind) + [now]
            else BoostTimes(log, id, kind)
  {
    var used := Used(u, dto.itemKey);
    BoostSnoc(log, used, id, kind);
    var middle := log + [used];
    if dto.itemKey in ConsumableItems.BOOSTS {
      var e := Boosted(u, dto.roomId, dto.itemKey, now);
      BoostSnoc(middle, e, id, kind);
      assert log + UseLog(u, dto, now) == middle + [e];
    } else {
      assert log + UseLog(u, dto, now) == middle;
    }
    hide BoostTimes;
  }

  lemma BoostKeepsRoom(w: World, t: World, u: UserId, dto: ConsumableItems.UseItem, now: int)
    requires dto.roomId in w.db.rooms && RoomOk(w, dto.roomId) && dto.itemKey in ConsumableItems.BOOSTS
    requires t.log == w.log + UseLog(u, dto, now) && dto.roomId in t.db.rooms
    requires t.db.rooms[dto.roomId] == ConsumableItems.BoostedRoom(w.db.rooms[dto.roomId], u, dto.itemKey, now)
    ensures RoomOk(t, dto.roomId)
  {
    hide Boosts.Until, BoostTimes, UseLog, ConsumableItems.Extended;
    UseBoostTimes(w.log, u, dto, now, dto.roomId, "room_boost");
    UseBoostTimes(w.log, u, dto, now, dto.roomId, "aura_tax");
    if dto.itemKey == "aura_tax" {
      Boosts.UntilSnoc(BoostTimes(w.log, dto.roomId, "aura_tax"), now, ConsumableItems.AURA_TAX_MS);
    } else {
      Boosts.UntilSnoc(BoostTimes(w.log, dto.roomId, "room_boost"), now, ConsumableItems.ROOM_BOOST_MS);
    }
  }

  lemma UseKeepsRooms(w: World, u: UserId, dto: ConsumableItems.UseItem, check: int, now: int, newId: MessageId)
    requires RoomsOk(w)
    ensures RoomsOk(UseStep(w, u, dto, check, now, newId))
  {
    hide RoomsOk, UseLog;
    if Usable(w, u, dto, check) {
      assert Shop.Owns(w.db, u, dto.itemKey);
      UsedRooms(w, u, dto, check, now, newId);
      var t := UseStep(w, u, dto, check, now, newId);
      assert t.log == w.log + UseLog(u, dto, now);
      hide UseStep, Usable;
      LoggedUseKeepsRooms(w, t, u, dto, now);
    } else {
      UseRefused(w, u, dto, check, now, newId);
    }
  }

  lemma LoggedUseKeepsRooms(w: World, t: World, u: UserId, dto: ConsumableItems.UseItem, now: int)
    requires RoomsOk(w) && t.log == w.log + UseLog(u, dto, now) && t.everOpened == w.everOpened
    requires t.db.rooms.Keys == w.db.rooms.Keys
    requires dto.itemKey in ConsumableItems.BOOSTS ==>
               dto.roomId in w.db.rooms &&
               t.db.rooms == w.db.rooms[dto.roomId :=
                                        ConsumableItems.BoostedRoom(w.db.rooms[dto.roomId], u, dto.itemKey, now)]
    requires dto.itemKey !in ConsumableItems.BOOSTS ==>
               forall id :: id in t.db.rooms ==> SameEnds(t.db.rooms[id], w.db.rooms[id])
    ensures RoomsOk(t)
  {
    hide UseLog, Boosts.Until, BoostTimes, ConsumableItems.BoostedRoom;
    forall id, kind | id !in t.everOpened ensures BoostTimes(t.log, id, kind) == [] {
      UseBoostTimes(w.log, u, dto, now, id, kind);
    }
    forall id | id in t.db.rooms ensures RoomOk(t, id) {
      assert RoomOk(w, id);
      UseBoostTimes(w.log, u, dto, now, id, "room_boost");
      UseBoostTimes(w.log, u, dto, now, id, "aura_tax");
      if dto.itemKey in ConsumableItems.BOOSTS && id == dto.roomId { BoostKeepsRoom(w, t, u, dto, now); }
    }
  }

  // Events that neither open nor boost rooms.
  lemma OtherKeepsRooms(w: World, t: World, entries: seq<Entry>)
    requires RoomsOk(w) && t.log == w.log + entries && t.everOpened == w.everOpened && t.db.rooms == w.db.rooms
    requires |entries| <= 2 && forall i :: 0 <= i < |entries| ==> !entries[i].Boosted?
    ensures RoomsOk(t)
  {
    hide BoostTimes, RoomOk;
    forall id, kind ensures BoostTimes(t.log, id, kind) == BoostTimes(w.log, id, kind) {
      NoBoosts(w.log, entries, id, kind);
    }
    RoomsFrame(w, t);
  }

  lemma BuyKeepsRooms(w: World, u: UserId, key: string, prize: string)
    requires RoomsOk(w)
    ensures RoomsOk(BuyStep(w, u, key, prize))
  {
    hide FindShopItem, RoomsOk;
    if Shop.Sells(w.db, u, key) { OtherKeepsRooms(w, BuyStep(w, u, key, prize), BuyLog(w.db, u, key, prize)); }
  }

  lemma SettleKeepsRooms(w: World, a: Settlement.SettleArgs)
    requires RoomsOk(w)
    ensures RoomsOk(SettleStep(w, a))
  {
    hide RoomsOk;
    if Settlement.Settles(w.db, a) {
      var entries := ArmedLog(w.db, a.winnerId, false) + ArmedLog(w.db, a.loserId, true);
      var t := SettleStep(w, a);
      assert t.log == w.log + entries;
      OtherKeepsRooms(w, t, entries);
    }
  }

  lemma RowKeepsRooms(w: World, u: UserId, row: User, entries: seq<Entry>)
    requires RoomsOk(w) && |entries| <= 1 && forall i :: 0 <= i < |entries| ==> !entries[i].Boosted?
    ensures RoomsOk(RowStep(w, u, row, entries))
  {
    hide RoomsOk;
    if u in w.db.users { OtherKeepsRooms(w, RowStep(w, u, row, entries), entries); }
  }

  lemma StepKeepsRooms(w: World, e: Event)
    requires RoomsOk(w) && Enabled(w, e)
    ensures RoomsOk(Do(w, e))
  {
    hide RoomOk, FindShopItem, SoapPool, BuyStep, UseStep, SettleStep, RowStep, CancelStep, BoostTimes, Stimulus.Due,
         Stimulus.Claimed, Shop.EquipRefusal;
    match e
    case Buy(u, key, roll, pick) => BuyKeepsRooms(w, u, key, SoapPool(roll)[pick]);
    case Use(u, dto, check, now, newId) => UseKeepsRooms(w, u, dto, check, now, newId);
    case Settle(args) => SettleKeepsRooms(w, args);
    case Cancel(creatorId, challengerId, stakeType, stakeAmount, now) =>
      CancelKeepsRooms(w, creatorId, challengerId, stakeType, stakeAmount, now);
    case Claim(u, now) =>
      ClaimIsRowStep(w, u, now);
      RowKeepsRooms(w, u, Stimulus.Claimed(Row(w.db, u), now), [Claimed(u, Stimulus.UtcDay(now))]);
    case Farm(u) => RowKeepsRooms(w, u, Users.Farmed(Row(w.db, u)), []);
    case PayDebt(u) => RowKeepsRooms(w, u, Users.PaidOff(Row(w.db, u)), []);
    case Adjust(u, auraDelta, debtDelta) =>
      RowKeepsRooms(w, u, Users.Corrected(Row(w.db, u), auraDelta, debtDelta), [Adjusted(u, auraDelta, debtDelta)]);
    case _ => RoomsFrame(w, Do(w, e));
  }

  lemma CancelKeepsRooms(w: World, creatorId: UserId, challengerId: Option<UserId>, stakeType: string,
                         stakeAmount: int, now: int)
    requires RoomsOk(w)
    ensures RoomsOk(CancelStep(w, creatorId, challengerId, stakeType, stakeAmount, now))
  {
    RoomsFrame(w, CancelStep(w, creatorId, challengerId, stakeType, stakeAmount, now));
  }

  // ----- the step -----

  lemma StepKeeps(w: World, e: Event)
    requires Inv(w) && Enabled(w, e)
    ensures Inv(Do(w, e))
  {
    hide ItemOk, MoneyAt, FightsOk, EquipOk, CursesOk, RoomsOk, Do;
    forall u, key ensures ItemOk(Do(w, e), u, key) { StepKeepsItems(w, e, u, key); }
    forall u ensures MoneyAt(Do(w, e), u) { StepKeepsMoney(w, e, u); }
    StepKeepsFights(w, e);
    StepKeepsEquip(w, e);
    StepKeepsCurses(w, e);
    StepKeepsRooms(w, e);
  }
}
