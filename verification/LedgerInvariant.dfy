// What holds of the economy after every run: each number in the tables against the log.
module LedgerInvariant {
  import opened Wrappers
  import opened Store
  import opened Catalog
  import opened Ledger
  import Settlement
  import Backfill
  import Stimulus
  import Shop
  import ConsumableItems
  import Boosts

  // ----- inventory -----

  // Bought and granted is held, used or, for the soap, opened.
  predicate Balanced(w: World, u: UserId, key: string) {
    Shop.Held(w.db, u, key) + Uses(w.log, u, key)
      + (if key == MYSTERY_SOAP_KEY then AllGrants(w.log, u) + Dupes(w.log, u) else 0)
    == Purchases(w.db.purchases, u, key) + Grants(w.log, u, key)
  }

  predicate ItemOk(w: World, u: UserId, key: string) {
    && Balanced(w, u, key)
    && (Shop.Owns(w.db, u, key) ==>
          Shop.Held(w.db, u, key) >= 1 && u in w.db.users && FindShopItem(key).Some? && key != MYSTERY_SOAP_KEY)
    && (Shop.Permanently(key) ==> Shop.Held(w.db, u, key) <= 1)
    && (Uses(w.log, u, key) > 0 ==> key in USABLE_ITEM_KEYS)
    && (Grants(w.log, u, key) > 0 ==> Shop.Permanently(key))
  }

  // ----- aura, debt, insurance, stimulus -----

  predicate AuraOk(w: World, u: UserId) {
    var row := Row(w.db, u);
    row.aura == 1000 + row.auraFarmCount + NetStakes(w.db.fights, u, "aura") - Spent(w.db.purchases, u)
      + 90 * Dupes(w.log, u)
                + Stimulus.Paid(Days(w.log, u)) + AuraAdjusted(w.log, u)
  }

  predicate DebtOk(w: World, u: UserId) {
    var row := Row(w.db, u);
    row.debt == DebtAdjusted(w.log, u) - NetStakes(w.db.fights, u, "debt") - row.debtPaidCount
                - 100 * Uses(w.log, u, "debt_forgiveness")
  }

  predicate InsuranceOk(w: World, u: UserId) {
    && Uses(w.log, u, "fight_insurance") == ArmedFights(w.log, u) + (if Row(w.db, u).fightInsuranceArmed then 1 else 0)
    && InsuredLosses(w.db.fights, u) == Count(w.log, ArmedFight(u, true))
  }

  predicate StimulusOk(w: World, u: UserId) {
    Stimulus.StimulusOk(Row(w.db, u), Days(w.log, u))
  }

  // ----- fights -----

  predicate PlayersExist(t: Db, f: Fight) { Settlement.Known(t, f.player1Id, f.player2Id) }

  ghost predicate FightsOk(w: World) {
    && Backfill.CountersOk(w.db) && Backfill.FightsOk(w.db.fights)
    && forall i :: 0 <= i < |w.db.fights| ==> PlayersExist(w.db, w.db.fights[i])
  }

  // ----- equipment -----

  predicate WornOk(t: Db, u: UserId, slot: Slot, key: string) {
    SlotAccepts(slot, key) && (key in FREE_ITEM_KEYS || Shop.Owns(t, u, key))
  }

  ghost predicate EquipOk(w: World) {
    forall u, slot :: (u, slot) in w.db.equipped ==> WornOk(w.db, u, slot, w.db.equipped[(u, slot)])
  }

  // ----- effects and rooms -----

  // An earlier curse of the kind on the target has run out when a later one is let through.
  predicate Apart(earlier: Effect, later: Effect) {
    earlier.targetId == later.targetId && earlier.kind == later.kind ==> earlier.expiresAt <= later.appliedAt
  }

  ghost predicate CursesOk(w: World) {
    forall i, j :: 0 <= i < j < |w.db.effects| ==> Apart(w.db.effects[i], w.db.effects[j])
  }

  predicate RoomOk(w: World, id: RoomId)
    requires id in w.db.rooms
  {
    && w.db.rooms[id].boostedUntil == Boosts.Until(BoostTimes(w.log, id, "room_boost"), ConsumableItems.ROOM_BOOST_MS)
    && w.db.rooms[id].sponsoredUntil == Boosts.Until(BoostTimes(w.log, id, "aura_tax"), ConsumableItems.AURA_TAX_MS)
  }

  ghost predicate RoomsOk(w: World) {
    && (forall id :: id in w.db.rooms ==> id in w.everOpened && RoomOk(w, id))
    && (forall id, kind :: id !in w.everOpened ==> BoostTimes(w.log, id, kind) == [])
  }

  ghost predicate ItemsOk(w: World) { forall u, key :: ItemOk(w, u, key) }

  predicate MoneyAt(w: World, u: UserId) { AuraOk(w, u) && DebtOk(w, u) && InsuranceOk(w, u) && StimulusOk(w, u) }

  ghost predicate MoneyOk(w: World) { forall u :: MoneyAt(w, u) }

  ghost predicate Inv(w: World) {
    ItemsOk(w) && MoneyOk(w) && FightsOk(w) && EquipOk(w) && CursesOk(w) && RoomsOk(w)
  }
}
