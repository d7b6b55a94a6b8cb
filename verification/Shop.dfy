// shop.service.ts, equipment.ts and cosmetics.service.ts: buying, mystery soap, and wearing what one owns.
module Shop {
  import opened Wrappers
  import opened Store
  import opened Catalog

  datatype PurchaseResult = PurchaseResult(aura: int, granted: Option<string>, refunded: Option<int>)

  predicate Owns(t: Db, u: UserId, key: string) { (u, key) in t.inventory }

  function Held(t: Db, u: UserId, key: string): int { if Owns(t, u, key) then t.inventory[(u, key)] else 0 }

  // One more of an item.
  function Given(t: Db, u: UserId, key: string): Db {
    t.(inventory := t.inventory[(u, key) := Held(t, u, key) + 1])
  }

  predicate Permanently(key: string) {
    FindShopItem(key).Some? && FindShopItem(key).value.kind == Permanent
  }

  // Why a purchase is refused, in the order of the checks.
  function Refusal(t: Db, u: UserId, item: ShopItem): Option<string> {
    if item.requirement != "" && (u, item.requirement) !in t.unlocked then Some("LOCKED")
    else if item.kind == Permanent && Owns(t, u, item.key) then Some("ALREADY_OWNED")
    else if u !in t.users || t.users[u].aura < item.price then Some("BROKE")
    else None
  }

  predicate Sells(t: Db, u: UserId, key: string) {
    FindShopItem(key).Some? && Refusal(t, u, FindShopItem(key).value).None?
  }

  predicate Dupe(t: Db, u: UserId, prize: string) { Permanently(prize) && Owns(t, u, prize) }

  function AddAura(t: Db, u: UserId, amount: int): Db
    requires u in t.users
  {
    PutUser(t, u, t.users[u].(aura := t.users[u].aura + amount))
  }

  // The tables after a purchase; `prize` is what a mystery soap would turn out to be.
  function Bought(t: Db, u: UserId, item: ShopItem, prize: string): Db
    requires u in t.users
  {
    var paid := AddAura(t, u, 0 - item.price).(purchases := t.purchases + [Purchase(u, item.key, item.price)]);
    if item.key != MYSTERY_SOAP_KEY then Given(paid, u, item.key)
    else if Dupe(t, u, prize) then AddAura(paid, u, item.price / 2)
    else Given(paid, u, prize)
  }

  // Why an item cannot be put on, in the order of the checks.
  function EquipRefusal(t: Db, u: UserId, slot: Slot, key: string): Option<string> {
    if !SlotAccepts(slot, key) then Some("WRONG_SLOT")
    else if key !in FREE_ITEM_KEYS && FindShopItem(key).None? then Some("UNKNOWN_ITEM")
    else if key !in FREE_ITEM_KEYS && !Owns(t, u, key) then Some("NOT_OWNED")
    else if u !in t.users then Some("foreign key violation")
    else None
  }

  class ShopService {
    const db: Database

    constructor (db: Database)
      ensures this.db == db
    {
      this.db := db;
    }

    method Equip(userId: UserId, slot: Slot, itemKey: Option<string>) returns (r: Result<EquippedState>)
      modifies db
      ensures itemKey.None? ==>
              r.Ok? && db.tables == old(db.tables).(equipped := old(db.tables.equipped) - {(userId, slot)})
      ensures itemKey.Some? ==>
                match EquipRefusal(old(db.tables), userId, slot, itemKey.value)
                case Some(code) => r == Thrown(code) && db.tables == old(db.tables)
                case None =>
                  && r.Ok?
                  && db.tables == old(db.tables).(equipped := old(db.tables.equipped)[(userId, slot) := itemKey.value])
      ensures r.Ok? ==> r.value == EquippedOf(db.tables, userId)
    {
      var tx := db.tables;
      if itemKey.None? {
        tx := tx.(equipped := tx.equipped - {(userId, slot)});
      } else {
        var key := itemKey.value;
        if !SlotAccepts(slot, key) { return Thrown("WRONG_SLOT"); }
        if key !in FREE_ITEM_KEYS {
          if FindShopItem(key).None? { return Thrown("UNKNOWN_ITEM"); }
          if !Owns(tx, userId, key) { return Thrown("NOT_OWNED"); }
        }
        if userId !in tx.users { return Thrown("foreign key violation"); }
        tx := tx.(equipped := tx.equipped[(userId, slot) := key]);
      }
      db.tables := tx;
      return Ok(EquippedOf(tx, userId));
    }

    // `roll` and `pick` are the two random numbers of a mystery soap.
    method Purchase(userId: UserId, itemKey: string, roll: nat, pick: nat) returns (r: Result<PurchaseResult>)
      requires roll < 100 && pick < |SoapPool(roll)|
      modifies db
      ensures FindShopItem(itemKey).None? ==> r == Thrown("UNKNOWN_ITEM")
      ensures FindShopItem(itemKey).Some? ==>
                match Refusal(old(db.tables), userId, FindShopItem(itemKey).value)
                case Some(code) => r == Thrown(code)
                case None =>
                  && r.Ok? && db.tables == Bought(old(db.tables), userId, FindShopItem(itemKey).value,
                                                  SoapPool(roll)[pick])
                  && r.value.aura == db.tables.users[userId].aura
                  && r.value.granted == (if itemKey == MYSTERY_SOAP_KEY then Some(SoapPool(roll)[pick]) else None)
                  && r.value.refunded == (if itemKey == MYSTERY_SOAP_KEY &&
                                             Dupe(old(db.tables), userId, SoapPool(roll)[pick])
                                          then Some(FindShopItem(itemKey).value.price / 2) else None)
      ensures r.Thrown? ==> db.tables == old(db.tables)
    {
      hide ShopItems, FindIn, SoapPool;
      var found := FindShopItem(itemKey);
      if found.None? { return Thrown("UNKNOWN_ITEM"); }
      FoundItem(itemKey);
      var item := found.value;
      var tx := db.tables;
      if item.requirement != "" && (userId, item.requirement) !in tx.unlocked { return Thrown("LOCKED"); }
      if item.kind == Permanent && Owns(tx, userId, item.key) { return Thrown("ALREADY_OWNED"); }
      if userId !in tx.users || tx.users[userId].aura < item.price { return Thrown("BROKE"); }
      tx := PutUser(tx, userId, tx.users[userId].(aura := tx.users[userId].aura - item.price));
      if item.key == MYSTERY_SOAP_KEY {
        var prize := RollMysterySoap(roll, pick);
        var after, result := OpenMysterySoap(tx, userId, item, prize);
        db.tables := after;
        return Ok(result);
      }
      tx := Grant(tx, userId, item.key);
      tx := tx.(purchases := tx.purchases + [Store.Purchase(userId, item.key, item.price)]);
      db.tables := tx;
      return Ok(PurchaseResult(tx.users[userId].aura, None, None));
    }

    static method Grant(t: Db, userId: UserId, itemKey: string) returns (r: Db)
      ensures r == Given(t, userId, itemKey)
    {
      if (userId, itemKey) in t.inventory {
        r := t.(inventory := t.inventory[(userId, itemKey) := t.inventory[(userId, itemKey)] + 1]);
      } else {
        r := t.(inventory := t.inventory[(userId, itemKey) := 1]);
      }
    }

    static method RollMysterySoap(roll: nat, pick: nat) returns (prize: string)
      requires roll < 100 && pick < |SoapPool(roll)|
      ensures prize == SoapPool(roll)[pick]
    {
      var pool := SoapPool(roll);
      return pool[pick];
    }

    static method OpenMysterySoap(charged: Db, userId: UserId, soap: ShopItem, prize: string)
        returns (t: Db, result: PurchaseResult)
      requires userId in charged.users
      ensures var recorded := charged.(purchases := charged.purchases + [Store.Purchase(userId, soap.key, soap.price)]);
              t == if Dupe(charged, userId, prize) then AddAura(recorded, userId, soap.price / 2)
                   else Given(recorded, userId, prize)
      ensures result.aura == t.users[userId].aura && result.granted == Some(prize)
      ensures result.refunded == if Dupe(charged, userId, prize) then Some(soap.price / 2) else None
    {
      hide FindShopItem;
      t := charged.(purchases := charged.purchases + [Store.Purchase(userId, soap.key, soap.price)]);
      var grantedItem := FindShopItem(prize);
      if grantedItem.Some? && grantedItem.value.kind == Permanent && (userId, prize) in t.inventory {
        t := PutUser(t, userId, t.users[userId].(aura := t.users[userId].aura + soap.price / 2));
        result := PurchaseResult(t.users[userId].aura, Some(prize), Some(soap.price / 2));
      } else {
        t := Grant(t, userId, prize);
        result := PurchaseResult(charged.users[userId].aura, Some(prize), None);
      }
    }
  }

  lemma FoundItem(key: string)
    ensures FindShopItem(key).Some? ==> FindShopItem(key).value.key == key
  {
    hide ShopItems;
    FindInFinds(ShopItems(), key);
  }

  // The soap is sold for 180, so a dupe refunds 90.
  lemma SoapCosts()
    ensures FindShopItem(MYSTERY_SOAP_KEY).Some? ==> FindShopItem(MYSTERY_SOAP_KEY).value.price == 180
  {
    hide FindShopItem, ShopItems, PermanentShape, PaletteShape;
    FoundShape(MYSTERY_SOAP_KEY);
    var found := FindShopItem(MYSTERY_SOAP_KEY);
    if found.Some? {
      OnlyConsumables(found.value);
      ConsumablePrices(found.value);
    }
  }

  lemma ConsumablePrices(item: ShopItem)
    requires item in Consumables() && item.key == MYSTERY_SOAP_KEY
    ensures item.price == 180
  {
    assert item.key[0] == 'm';
  }

  lemma OnlyConsumables(item: ShopItem)
    requires item in ShopItems() && item.kind == Consumable
    ensures item in Consumables()
  {
    hide Family, Consumables;
    if item !in Consumables() {
      if item in Family("accent_", PALETTE[1..], Permanent, 400) {
        FamilyKeys("accent_", PALETTE[1..], Permanent, 400, item);
      } else if item in Family("bg_", BACKGROUND_NAMES, Permanent, 600) {
        FamilyKeys("bg_", BACKGROUND_NAMES, Permanent, 600, item);
      } else if item in Family("title_", TITLE_NAMES, Permanent, 300) {
        FamilyKeys("title_", TITLE_NAMES, Permanent, 300, item);
      } else if item in Family("namecolor_", PALETTE, Permanent, 300) {
        FamilyKeys("namecolor_", PALETTE, Permanent, 300, item);
      } else if item in Family("nameicon_", ICON_NAMES, Permanent, 250) {
        FamilyKeys("nameicon_", ICON_NAMES, Permanent, 250, item);
      } else if item in Family("quote_", QUOTE_NAMES, Permanent, 200) {
        FamilyKeys("quote_", QUOTE_NAMES, Permanent, 200, item);
      } else if item in Family("theme_", THEME_NAMES, Permanent, 800) {
        FamilyKeys("theme_", THEME_NAMES, Permanent, 800, item);
      }
    }
  }

  // ----- what others see -----

  datatype EquippedState = EquippedState(
    accent: Option<string>, background: Option<string>, title: Option<string>, nameColor: Option<string>,
    nameIcon: Option<string>, quoteStyle: Option<string>, verified: bool)

  function Worn(t: Db, u: UserId, slot: Slot): Option<string> {
    if (u, slot) in t.equipped then Some(t.equipped[(u, slot)]) else None
  }

  // `equippedFromRows`, over a user's rows.
  function EquippedOf(t: Db, u: UserId): EquippedState {
    EquippedState(Worn(t, u, Accent), Worn(t, u, Background), Worn(t, u, Title), Worn(t, u, NameColor),
                  Worn(t, u, NameIcon), Worn(t, u, QuoteStyle), Worn(t, u, Verified).Some?)
  }

  datatype PublicCosmetics = PublicCosmetics(
    accent: string, background: Option<string>, title: Option<string>, nameColor: Option<string>,
    nameIcon: Option<string>, quoteStyle: Option<string>, verified: bool, vineBoom: bool)

  function ToPublicCosmetics(e: EquippedState, ownsVineBoom: bool): PublicCosmetics {
    var accent := PaletteHex(e.accent, "accent_");
    PublicCosmetics(if accent.Some? then accent.value else "hot_pink", e.background, e.title,
                    PaletteHex(e.nameColor, "namecolor_"), e.nameIcon, e.quoteStyle, e.verified, ownsVineBoom)
  }
}
