// When an item may be used and what its use does, said of the tables alone; and who has boosted and sponsored rooms.
module LedgerUses {
  import opened Wrappers
  import opened Store
  import opened Catalog
  import opened Ledger
  import opened LedgerInvariant
  import opened LedgerSteps
  import opened ConsumableItems
  import LedgerRuns
  import Settlement
  import Shop
  import Stimulus
  import Users

  predicate Live(t: Db, roomId: RoomId) { roomId in t.rooms && t.rooms[roomId].active }

  // No curse of the kind on the target is still to expire.
  ghost predicate Uncursed(t: Db, target: UserId, kind: string, check: int) {
    forall i :: 0 <= i < |t.effects| && t.effects[i].targetId == target && t.effects[i].kind == kind ==>
                  t.effects[i].expiresAt <= check
  }

  // The condition of each kind of item.
  ghost predicate Fitting(t: Db, u: UserId, dto: UseItem, check: int) {
    && (dto.itemKey == "clown_stamp" || dto.itemKey == "rename_curse" ==>
          && dto.targetUserId != "" && dto.targetUserId != u && dto.targetUserId in t.users
          && !t.users[dto.targetUserId].admin && Uncursed(t, dto.targetUserId, dto.itemKey, check))
    && (dto.itemKey == "aura_tax" || dto.itemKey == "room_boost" ==>
          dto.roomId != "" && Live(t, dto.roomId) && t.rooms[dto.roomId].creatorId == u)
    && (dto.itemKey == "spotlight" ==>
          && dto.messageId != "" && dto.messageId in t.messages
          && var m := t.messages[dto.messageId]; m.authorId == u && !m.isDeleted && Live(t, m.roomId))
    && (dto.itemKey == "fight_insurance" ==> u in t.users ==> !t.users[u].fightInsuranceArmed)
  }

  ghost predicate MayUse(t: Db, u: UserId, dto: UseItem, check: int) {
    && (u, dto.itemKey) in t.inventory && t.inventory[(u, dto.itemKey)] >= 1
    && Fitting(t, u, dto, check)
  }

  function Taken(inventory: map<ItemId, int>, item: ItemId): map<ItemId, int>
    requires item in inventory
  {
    if inventory[item] == 1 then inventory - {item} else inventory[item := inventory[item] - 1]
  }

  // The end time moves on from now or from itself, whichever is later.
  function MovedOn(until: Option<int>, now: int, ms: int): Option<int> {
    Some(ms + if until.Some? && until.value > now then until.value else if until.None? && 0 > now then 0 else now)
  }

  function Taxed(room: Room, u: UserId, now: int): Room {
    room.(sponsoredById := Some(u), sponsoredUntil := MovedOn(room.sponsoredUntil, now, 86_400_000))
  }

  function Lifted(room: Room, now: int): Room { room.(boostedUntil := MovedOn(room.boostedUntil, now, 3_600_000)) }

  // What the effect of each kind is, besides the item less.
  ghost predicate Works(t: Db, r: Db, u: UserId, dto: UseItem, check: int, now: int, newId: MessageId) {
    if dto.itemKey == "clown_stamp" || dto.itemKey == "rename_curse" then
      && r.users == t.users && r.rooms == t.rooms && r.messages == t.messages
      && r.effects == t.effects + [Effect(dto.targetUserId, dto.itemKey, u, check,
                                          now + if dto.itemKey == "clown_stamp" then 86_400_000 else 3_600_000)]
    else if dto.itemKey == "aura_tax" || dto.itemKey == "room_boost" then
      && dto.roomId in t.rooms && r.users == t.users && r.effects == t.effects
      && r.messages == t.messages[newId := Message(dto.roomId, u, false)]
      && r.rooms == t.rooms[dto.roomId := if dto.itemKey == "aura_tax" then Taxed(t.rooms[dto.roomId], u, now)
                                          else Lifted(t.rooms[dto.roomId], now)]
    else if dto.itemKey == "spotlight" then
      && dto.messageId in t.messages && r.users == t.users && r.effects == t.effects
      && var roomId := t.messages[dto.messageId].roomId;
         && roomId in t.rooms && r.messages == t.messages[newId := Message(roomId, u, false)]
         && r.rooms == t.rooms[roomId := t.rooms[roomId].(spotlight := Some((dto.messageId, now + 600_000)))]
    else
      && r.effects == t.effects && r.rooms == t.rooms && r.messages == t.messages
      && (u !in t.users ==> r.users == t.users)
      && (u in t.users ==>
            r.users == t.users[u := if dto.itemKey == "fight_insurance" then t.users[u].(fightInsuranceArmed := true)
                                    else t.users[u].(debt := t.users[u].debt - 100)])
  }

  // ----- the answer to a use -----

  lemma RefusesUnfitting(t: Db, u: UserId, dto: UseItem, check: int)
    requires dto.itemKey in USABLE_ITEM_KEYS
    ensures UseRefusal(t, u, dto, check).None? <==> MayUse(t, u, dto, check)
  {
    CursedIs(t, dto.targetUserId, dto.itemKey, check);
    hide Cursed, Uncursed;
  }

  lemma CursedIs(t: Db, target: UserId, kind: string, check: int)
    ensures Cursed(t, target, kind, check) <==> !Uncursed(t, target, kind, check)
  {
    if !Uncursed(t, target, kind, check) {
      var i :| 0 <= i < |t.effects| && t.effects[i].targetId == target && t.effects[i].kind == kind &&
               t.effects[i].expiresAt > check;
      assert CurseActive(t.effects[i], target, kind, check);
    }
  }

  predicate SameRest(t: Db, r: Db) {
    r.equipped == t.equipped && r.unlocked == t.unlocked && r.purchases == t.purchases && r.fights == t.fights
  }

  lemma BoostWorks(t: Db, u: UserId, dto: UseItem, check: int, now: int, newId: MessageId)
    requires dto.itemKey in BOOSTS && Fitting(t, u, dto, check)
    ensures var r := Affected(t, u, dto, check, now, newId);
            Works(t, r, u, dto, check, now, newId) && SameRest(t, r) && r.inventory == t.inventory
  {
    hide Uncursed;
    var room := t.rooms[dto.roomId];
    assert BoostedRoom(room, u, dto.itemKey, now) ==
           if dto.itemKey == "aura_tax" then Taxed(room, u, now) else Lifted(room, now);
    hide BoostedRoom, Taxed, Lifted;
  }

  lemma OtherWorks(t: Db, u: UserId, dto: UseItem, check: int, now: int, newId: MessageId)
    requires dto.itemKey in USABLE_ITEM_KEYS && dto.itemKey !in BOOSTS && Fitting(t, u, dto, check)
    ensures var r := Affected(t, u, dto, check, now, newId);
            Works(t, r, u, dto, check, now, newId) && SameRest(t, r) && r.inventory == t.inventory
  {
    hide Uncursed, Taxed, Lifted, BoostEffect;
  }

  lemma AffectedWorks(t: Db, u: UserId, dto: UseItem, check: int, now: int, newId: MessageId)
    requires dto.itemKey in USABLE_ITEM_KEYS && Fitting(t, u, dto, check)
    ensures var r := Affected(t, u, dto, check, now, newId);
            Works(t, r, u, dto, check, now, newId) && SameRest(t, r) && r.inventory == t.inventory
  {
    hide Works, Affected, Fitting, SameRest;
    if dto.itemKey in BOOSTS {
      BoostWorks(t, u, dto, check, now, newId);
    } else {
      OtherWorks(t, u, dto, check, now, newId);
    }
  }

  // What a use that goes through makes of the tables.
  ghost predicate CarriesOut(t: Db, r: Db, u: UserId, dto: UseItem, check: int, now: int, newId: MessageId)
    requires (u, dto.itemKey) in t.inventory
  {
    && Works(t, r, u, dto, check, now, newId)
    && r.inventory == Taken(t.inventory, (u, dto.itemKey)) && SameRest(t, r)
  }

  lemma UsedWorks(t: Db, u: UserId, dto: UseItem, check: int, now: int, newId: MessageId)
    requires dto.itemKey in USABLE_ITEM_KEYS && MayUse(t, u, dto, check)
    ensures CarriesOut(t, ConsumableItems.Used(t, u, dto, check, now, newId), u, dto, check, now, newId)
  {
    var c := Consumed(t, u, dto.itemKey);
    assert c.users == t.users && c.rooms == t.rooms && c.messages == t.messages && c.effects == t.effects;
    assert Fitting(c, u, dto, check) by { hide *; FittingStays(t, c, u, dto, check); }
    AffectedWorks(c, u, dto, check, now, newId);
    hide Affected, Fitting;
  }

  lemma FittingStays(t: Db, c: Db, u: UserId, dto: UseItem, check: int)
    requires Fitting(t, u, dto, check)
    requires c.users == t.users && c.rooms == t.rooms && c.messages == t.messages && c.effects == t.effects
    ensures Fitting(c, u, dto, check)
  {}

  // A use is carried out exactly if the user holds the item and the condition of its kind holds: it takes one item and
  // does what its kind does; otherwise nothing changes.
  lemma UseAnswers(w: World, u: UserId, dto: UseItem, check: int, now: int, newId: MessageId)
    requires Enabled(w, Use(u, dto, check, now, newId))
    ensures var t := Do(w, Use(u, dto, check, now, newId));
            && (MayUse(w.db, u, dto, check) ==>
                  CarriesOut(w.db, t.db, u, dto, check, now, newId) && t.log != w.log && t.everOpened == w.everOpened)
            && (!MayUse(w.db, u, dto, check) ==> t == w)
  {
    RefusesUnfitting(w.db, u, dto, check);
    if MayUse(w.db, u, dto, check) {
      UsedWorks(w.db, u, dto, check, now, newId);
      hide ConsumableItems.UseRefusal, ConsumableItems.Used, CarriesOut, Fitting;
      assert |UseLog(u, dto, now)| > 0;
    }
  }

  // Which condition failed first.
  lemma UseRefusals(t: Db, u: UserId, dto: UseItem, check: int)
    requires dto.itemKey in USABLE_ITEM_KEYS
    ensures var code, target := UseRefusal(t, u, dto, check), dto.targetUserId;
            (dto.itemKey == "clown_stamp" || dto.itemKey == "rename_curse") ==>
              && (code == Some("TARGET_REQUIRED") <==> target == "")
              && (code == Some("SELF_TARGET") <==> target != "" && target == u)
              && (code == Some("no such chud.") <==> target != "" && target != u && target !in t.users)
              && (code == Some("ADMIN_TARGET") <==>
                  target != "" && target != u && target in t.users && t.users[target].admin)
              && (code == Some("ALREADY_CURSED") <==>
                  && target != "" && target != u && target in t.users && !t.users[target].admin
                  && !Uncursed(t, target, dto.itemKey, check))
    ensures var code, id := UseRefusal(t, u, dto, check), dto.roomId;
            (dto.itemKey == "aura_tax" || dto.itemKey == "room_boost") ==>
              && (code == Some("ROOM_REQUIRED") <==> id == "")
              && (code == Some("no such room. it got cooked.") <==> id != "" && id !in t.rooms)
              && (code == Some("NOT_YOUR_ROOM") <==> id != "" && id in t.rooms && t.rooms[id].creatorId != u)
              && (code == Some("ROOM_NOT_LIVE") <==>
                  id != "" && id in t.rooms && t.rooms[id].creatorId == u && !t.rooms[id].active)
    ensures var code, id := UseRefusal(t, u, dto, check), dto.messageId;
            dto.itemKey == "spotlight" ==>
              && (code == Some("MESSAGE_REQUIRED") <==> id == "")
              && (code == Some("no such message. it got cooked.") <==> id != "" && id !in t.messages)
              && (code == Some("NOT_YOUR_MESSAGE") <==> id != "" && id in t.messages && t.messages[id].authorId != u)
              && (code == Some("MESSAGE_DELETED") <==>
                  id != "" && id in t.messages && t.messages[id].authorId == u && t.messages[id].isDeleted)
              && (code == Some("ROOM_NOT_LIVE") <==>
                  && id != "" && id in t.messages && t.messages[id].authorId == u && !t.messages[id].isDeleted
                  && !Live(t, t.messages[id].roomId))
    ensures UseRefusal(t, u, dto, check) == Some("NOT_OWNED") <==>
            Fitting(t, u, dto, check) && !MayUse(t, u, dto, check)
    ensures UseRefusal(t, u, dto, check) == Some("ALREADY_ARMED") <==>
            dto.itemKey == "fight_insurance" && u in t.users && t.users[u].fightInsuranceArmed
  {
    CursedIs(t, dto.targetUserId, dto.itemKey, check);
    hide Cursed, Uncursed;
  }

  // ----- patrons -----

  // Only its creator has sponsored or boosted a room.
  ghost predicate PatronsOk(w: World) {
    && (forall id :: id in w.db.rooms ==> id in w.everOpened && SponsorOk(w.db.rooms[id]))
    && (forall e :: e in w.log && e.Boosted? ==> BoosterOk(w, e))
  }

  predicate SponsorOk(room: Room) { room.sponsoredById.Some? ==> room.sponsoredById.value == room.creatorId }

  predicate BoosterOk(w: World, e: Entry)
    requires e.Boosted?
  {
    e.roomId in w.everOpened && (e.roomId in w.db.rooms ==> e.userId == w.db.rooms[e.roomId].creatorId)
  }

  // Rooms and boosts as before; some rooms may be gone.
  ghost predicate NoPatronage(w: World, t: World) {
    && t.everOpened == w.everOpened
    && (forall id :: id in t.db.rooms ==>
          && id in w.db.rooms && t.db.rooms[id].creatorId == w.db.rooms[id].creatorId
          && t.db.rooms[id].sponsoredById == w.db.rooms[id].sponsoredById)
    && (forall e :: e in t.log && e.Boosted? ==> e in w.log)
  }

  lemma NoPatronageKeeps(w: World, t: World)
    requires PatronsOk(w) && NoPatronage(w, t)
    ensures PatronsOk(t)
  {}

  lemma UseKeepsPatrons(w: World, u: UserId, dto: UseItem, check: int, now: int, newId: MessageId)
    requires PatronsOk(w) && Enabled(w, Use(u, dto, check, now, newId))
    ensures PatronsOk(Do(w, Use(u, dto, check, now, newId)))
  {
    UseAnswers(w, u, dto, check, now, newId);
    var t := Do(w, Use(u, dto, check, now, newId));
    if MayUse(w.db, u, dto, check) {
      RefusesUnfitting(w.db, u, dto, check);
      assert t.log == w.log + UseLog(u, dto, now);
      hide Do, Enabled, ConsumableItems.UseRefusal;
      CarriedKeepsPatrons(w, t, u, dto, check, now, newId);
    }
  }

  lemma CarriedKeepsPatrons(w: World, t: World, u: UserId, dto: UseItem, check: int, now: int, newId: MessageId)
    requires PatronsOk(w) && MayUse(w.db, u, dto, check) && CarriesOut(w.db, t.db, u, dto, check, now, newId)
    requires t.log == w.log + UseLog(u, dto, now) && t.everOpened == w.everOpened
    ensures PatronsOk(t)
  {
    hide Uncursed, MovedOn, Taken;
    forall e | e in t.log && e.Boosted? ensures BoosterOk(t, e) {
      if e in w.log { assert BoosterOk(w, e); }
    }
  }

  lemma {:induction false} NoBoostsIn(log: seq<Entry>, entries: seq<Entry>)
    requires forall e :: e in entries ==> !e.Boosted?
    ensures forall e :: e in log + entries && e.Boosted? ==> e in log
  {}

  lemma StepKeepsPatrons(w: World, e: Event)
    requires PatronsOk(w) && Enabled(w, e)
    ensures PatronsOk(Do(w, e))
  {
    var t := Do(w, e);
    if e.Use? {
      UseKeepsPatrons(w, e.userId, e.dto, e.check, e.now, e.newId);
    } else if e.OpenRoom? {
      OpeningKeepsPatrons(w, e.roomId, e.creatorId);
    } else {
      OthersPatronise(w, e);
      hide Do, Enabled, PatronsOk, NoPatronage;
      NoPatronageKeeps(w, t);
    }
  }

  lemma OpeningKeepsPatrons(w: World, roomId: RoomId, creatorId: UserId)
    requires PatronsOk(w) && roomId !in w.everOpened
    ensures PatronsOk(Do(w, OpenRoom(roomId, creatorId)))
  {}

  lemma BuyPatronises(w: World, u: UserId, key: string, prize: string)
    ensures NoPatronage(w, BuyStep(w, u, key, prize))
  {
    hide FindShopItem;
    if Shop.Sells(w.db, u, key) {
      NoBoostsIn(w.log, BuyLog(w.db, u, key, prize));
    }
  }

  lemma SettlePatronises(w: World, a: Settlement.SettleArgs)
    ensures NoPatronage(w, SettleStep(w, a))
  {
    if Settlement.Settles(w.db, a) {
      var entries := ArmedLog(w.db, a.winnerId, false) + ArmedLog(w.db, a.loserId, true);
      NoBoostsIn(w.log, entries);
      assert SettleStep(w, a).log == w.log + entries;
    }
  }

  lemma RowPatronises(w: World, u: UserId, row: User, entries: seq<Entry>)
    requires forall e :: e in entries ==> !e.Boosted?
    ensures NoPatronage(w, RowStep(w, u, row, entries))
  {
    NoBoostsIn(w.log, entries);
  }

  lemma OthersPatronise(w: World, e: Event)
    requires Enabled(w, e) && !e.Use? && !e.OpenRoom? && forall id :: id in w.db.rooms ==> id in w.everOpened
    ensures NoPatronage(w, Do(w, e))
  {
    hide FindShopItem, SoapPool, BuyStep, UseStep, SettleStep, RowStep, Stimulus.Due, Stimulus.Claimed,
         Shop.EquipRefusal;
    match e
    case Buy(u, key, roll, pick) => BuyPatronises(w, u, key, SoapPool(roll)[pick]);
    case Settle(args) => SettlePatronises(w, args);
    case Claim(u, now) =>
      ClaimIsRowStep(w, u, now);
      RowPatronises(w, u, Stimulus.Claimed(Row(w.db, u), now), [Claimed(u, Stimulus.UtcDay(now))]);
    case Farm(u) => RowPatronises(w, u, Users.Farmed(Row(w.db, u)), []);
    case PayDebt(u) => RowPatronises(w, u, Users.PaidOff(Row(w.db, u)), []);
    case Adjust(u, auraDelta, debtDelta) =>
      RowPatronises(w, u, Users.Corrected(Row(w.db, u), auraDelta, debtDelta), [Adjusted(u, auraDelta, debtDelta)]);
    case _ =>
  }

  lemma {:induction false} PatronsFrom(w: World, es: seq<Event>, t: World)
    requires PatronsOk(w) && Reaches(w, es, t)
    ensures PatronsOk(t)
    decreases |es|
  {
    hide PatronsOk, Enabled, Do;
    if es != [] {
      StepKeepsPatrons(w, es[0]);
      PatronsFrom(Do(w, es[0]), es[1..], t);
    }
  }

  // After any run, whoever sponsors a room, and whoever has ever boosted or taxed it, is its creator.
  lemma PatronsAreCreators(es: seq<Event>, t: World, id: RoomId)
    requires Reaches(EMPTY_WORLD, es, t) && id in t.db.rooms
    ensures t.db.rooms[id].sponsoredById.Some? ==> t.db.rooms[id].sponsoredById.value == t.db.rooms[id].creatorId
    ensures forall e :: e in t.log && e.Boosted? && e.roomId == id ==> e.userId == t.db.rooms[id].creatorId
  {
    assert PatronsOk(EMPTY_WORLD);
    hide Reaches;
    PatronsFrom(EMPTY_WORLD, es, t);
    assert SponsorOk(t.db.rooms[id]);
    forall e | e in t.log && e.Boosted? && e.roomId == id ensures e.userId == t.db.rooms[id].creatorId {
      assert BoosterOk(t, e);
    }
  }
}
