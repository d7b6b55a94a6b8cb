// When a purchase goes through and what it does, and what may be worn, said of the tables and the catalog alone.
module ShopAnswers {
  import opened Strings
  import opened Wrappers
  import opened Store
  import opened Catalog
  import opened Ledger
  import opened LedgerSteps
  import Shop

  // The user may buy the item: it is unlocked, no second copy of something permanent, and paid for.
  predicate MayBuy(t: Db, u: UserId, item: ShopItem) {
    && (item.requirement == "" || (u, item.requirement) in t.unlocked)
    && (item.kind == Permanent ==> (u, item.key) !in t.inventory)
    && u in t.users && t.users[u].aura >= item.price
  }

  function OneMore(t: Db, u: UserId, key: string): map<ItemId, int> {
    t.inventory[(u, key) := if (u, key) in t.inventory then t.inventory[(u, key)] + 1 else 1]
  }

  // The item is paid for and recorded; the soap turns into a prize, or into half its price if the prize is owned.
  ghost predicate Buys(w: World, t: World, u: UserId, item: ShopItem, prize: string)
    requires u in w.db.users
  {
    var soap := item.key == "mystery_soap";
    var dupe := soap && (u, prize) in w.db.inventory;
    && t.everOpened == w.everOpened
    && t.log == w.log + (if !soap then [] else if dupe then [SoapDupe(u)] else [SoapGrant(u, prize)])
    && t.db == w.db.(
         users := w.db.users[u := w.db.users[u].(aura := w.db.users[u].aura - item.price
                                                         + if dupe then item.price / 2 else 0)],
         purchases := w.db.purchases + [Purchase(u, item.key, item.price)],
         inventory := if dupe then w.db.inventory else OneMore(w.db, u, if soap then prize else item.key))
  }

  lemma SellsExactly(t: Db, u: UserId, key: string, item: ShopItem)
    requires FindShopItem(key) == Some(item)
    ensures item.key == key && (Shop.Sells(t, u, key) <==> MayBuy(t, u, item))
  {
    Shop.FoundItem(key);
    hide FindShopItem;
  }

  lemma PrizeIsPermanent(roll: nat, pick: nat)
    requires pick < |SoapPool(roll)|
    ensures Shop.Permanently(SoapPool(roll)[pick])
  {
    var prize := SoapPool(roll)[pick];
    assert prize in SoapPool(roll);
    hide SoapPool, FindShopItem;
    SoapGrantsPermanents(roll, prize);
  }

  // A purchase goes through exactly if the catalog has the item and the user may buy it.
  lemma BuyAnswers(w: World, u: UserId, key: string, roll: nat, pick: nat)
    requires Enabled(w, Buy(u, key, roll, pick))
    ensures var t, found := Do(w, Buy(u, key, roll, pick)), FindShopItem(key);
            if found.Some? && MayBuy(w.db, u, found.value)
            then found.value.key == key && Buys(w, t, u, found.value, SoapPool(roll)[pick])
            else t == w
  {
    PrizeIsPermanent(roll, pick);
    var found, prize := FindShopItem(key), SoapPool(roll)[pick];
    if found.Some? { SellsExactly(w.db, u, key, found.value); }
    hide FindShopItem, SoapPool, MayBuy, Buys, Shop.Permanently, BuyStep;
    if found.Some? && MayBuy(w.db, u, found.value) {
      PayerExists(w.db, u, found.value);
      StepBuys(w, u, key, prize, found.value);
    } else {
      assert !Shop.Sells(w.db, u, key) by { hide *; SellsFound(w.db, u, key); }
      BuyRefused(w, u, key, prize);
    }
  }

  lemma SellsFound(t: Db, u: UserId, key: string)
    ensures Shop.Sells(t, u, key) ==> FindShopItem(key).Some?
  {}

  lemma StepBuys(w: World, u: UserId, key: string, prize: string, item: ShopItem)
    requires FindShopItem(key) == Some(item) && item.key == key && Shop.Sells(w.db, u, key) && u in w.db.users
    requires Shop.Permanently(prize)
    ensures Buys(w, BuyStep(w, u, key, prize), u, item, prize)
  {
    hide FindShopItem, Shop.Sells, Shop.Permanently, Shop.Bought, BuyLog;
    BoughtIs(w.db, u, item, prize);
    LogIs(w.db, u, key, prize);
  }

  lemma LogIs(t: Db, u: UserId, key: string, prize: string)
    requires Shop.Permanently(prize)
    ensures BuyLog(t, u, key, prize) ==
            if key != "mystery_soap" then []
            else if (u, prize) in t.inventory then [SoapDupe(u)] else [SoapGrant(u, prize)]
  {
    hide Shop.Permanently;
  }

  lemma BoughtIs(t: Db, u: UserId, item: ShopItem, prize: string)
    requires u in t.users && Shop.Permanently(prize)
    ensures var soap := item.key == "mystery_soap";
            var dupe := soap && (u, prize) in t.inventory;
            Shop.Bought(t, u, item, prize) ==
            t.(users := t.users[u := t.users[u].(aura := t.users[u].aura - item.price
                                                         + if dupe then item.price / 2 else 0)],
               purchases := t.purchases + [Purchase(u, item.key, item.price)],
               inventory := if dupe then t.inventory else OneMore(t, u, if soap then prize else item.key))
  {
    hide Shop.Permanently;
  }

  lemma PayerExists(t: Db, u: UserId, item: ShopItem)
    requires MayBuy(t, u, item)
    ensures u in t.users
  {}

  // Which condition failed first.
  lemma BuyRefusals(t: Db, u: UserId, item: ShopItem)
    ensures var code := Shop.Refusal(t, u, item);
            && (code == Some("LOCKED") <==> item.requirement != "" && (u, item.requirement) !in t.unlocked)
            && (code == Some("ALREADY_OWNED") <==>
                && (item.requirement == "" || (u, item.requirement) in t.unlocked)
                && item.kind == Permanent && (u, item.key) in t.inventory)
            && (code == Some("BROKE") <==>
                && (item.requirement == "" || (u, item.requirement) in t.unlocked)
                && (item.kind == Permanent ==> (u, item.key) !in t.inventory)
                && (u !in t.users || t.users[u].aura < item.price))
  {}

  // ----- the soap's prizes -----

  predicate Sold(key: string) { exists item :: item in ShopItems() && item.key == key }

  // Seventy rolls of a hundred give a quote or a title, twenty-five a background, icon or colour, five the badge.
  lemma PrizesByRoll(roll: nat, key: string)
    requires roll < 100
    ensures key in SoapPool(roll) <==>
            if roll < 70 then Sold(key) && (StartsWith(key, "quote_") || StartsWith(key, "title_"))
            else if roll < 95 then
              Sold(key) && (StartsWith(key, "bg_") || StartsWith(key, "nameicon_") || StartsWith(key, "accent_")
                            || StartsWith(key, "namecolor_"))
            else key == "verified_chud"
  {
    hide ShopItems, KeysStartingWith;
    var items := ShopItems();
    PoolKeys(items, COMMON, key);
    PoolKeys(items, RARE, key);
    CommonAndRare(key);
    hide InPool;
    if Sold(key) {
      var item :| item in ShopItems() && item.key == key;
      var i :| 0 <= i < |items| && items[i] == item;
    }
  }

  lemma CommonAndRare(key: string)
    ensures InPool(key, COMMON) <==> StartsWith(key, "quote_") || StartsWith(key, "title_")
    ensures InPool(key, RARE) <==> StartsWith(key, "bg_") || StartsWith(key, "nameicon_") || StartsWith(key, "accent_")
                                   || StartsWith(key, "namecolor_")
  {
    assert COMMON[0] == "quote_" && COMMON[1] == "title_";
    assert RARE[0] == "bg_" && RARE[1] == "nameicon_" && RARE[2] == "accent_" && RARE[3] == "namecolor_";
  }

  // ----- equipment -----

  function PrefixOf(slot: Slot): string
    requires !slot.Verified?
  {
    match slot
    case Accent => "accent_"
    case Background => "bg_"
    case Title => "title_"
    case NameColor => "namecolor_"
    case NameIcon => "nameicon_"
    case QuoteStyle => "quote_"
  }

  predicate Fits(slot: Slot, key: string) {
    if slot.Verified? then key == "verified_chud" else StartsWith(key, PrefixOf(slot))
  }

  lemma FitsExactly(slot: Slot, key: string)
    ensures SlotAccepts(slot, key) <==> Fits(slot, key)
  {}

  // What the user may put into the slot: a key of the slot's kind, free or both sold and owned.
  predicate MayWear(t: Db, u: UserId, slot: Slot, key: string) {
    && Fits(slot, key)
    && (key == "accent_hot_pink" || (Sold(key) && (u, key) in t.inventory))
    && u in t.users
  }

  lemma SoldIsFound(key: string)
    ensures FindShopItem(key).Some? <==> Sold(key)
  {
    hide ShopItems;
    FindInFinds(ShopItems(), key);
    if Sold(key) {
      var item :| item in ShopItems() && item.key == key;
      var i :| 0 <= i < |ShopItems()| && ShopItems()[i] == item;
    }
  }

  lemma FreeIsFree(key: string)
    ensures key in FREE_ITEM_KEYS <==> key == "accent_hot_pink"
  {}

  lemma WearsExactly(t: Db, u: UserId, slot: Slot, key: string)
    ensures Shop.EquipRefusal(t, u, slot, key).None? <==> MayWear(t, u, slot, key)
  {
    SoldIsFound(key);
    FitsExactly(slot, key);
    FreeIsFree(key);
    hide FindShopItem, Sold, SlotAccepts, Fits, FREE_ITEM_KEYS;
  }

  // A slot is cleared always, filled exactly with what the user may wear; nothing else changes.
  lemma EquipAnswers(w: World, u: UserId, slot: Slot, itemKey: Option<string>)
    ensures var t := Do(w, Equip(u, slot, itemKey));
            && (itemKey.None? ==> t == w.(db := w.db.(equipped := w.db.equipped - {(u, slot)})))
            && (itemKey.Some? ==>
                  t == if MayWear(w.db, u, slot, itemKey.value)
                       then w.(db := w.db.(equipped := w.db.equipped[(u, slot) := itemKey.value])) else w)
  {
    if itemKey.Some? {
      WearsExactly(w.db, u, slot, itemKey.value);
      hide MayWear, Shop.EquipRefusal;
    }
  }

  // What others see of a slot is what is worn in it.
  lemma ShownAsWorn(t: Db, u: UserId, vineBoom: bool)
    ensures var seen := Shop.ToPublicCosmetics(Shop.EquippedOf(t, u), vineBoom);
            && (seen.background.Some? <==> (u, Background) in t.equipped)
            && (seen.background.Some? ==> seen.background.value == t.equipped[(u, Background)])
            && (seen.title.Some? <==> (u, Title) in t.equipped)
            && (seen.title.Some? ==> seen.title.value == t.equipped[(u, Title)])
            && (seen.nameIcon.Some? <==> (u, NameIcon) in t.equipped)
            && (seen.nameIcon.Some? ==> seen.nameIcon.value == t.equipped[(u, NameIcon)])
            && (seen.quoteStyle.Some? <==> (u, QuoteStyle) in t.equipped)
            && (seen.quoteStyle.Some? ==> seen.quoteStyle.value == t.equipped[(u, QuoteStyle)])
            && (seen.verified <==> (u, Verified) in t.equipped) && seen.vineBoom == vineBoom
  {}
}
