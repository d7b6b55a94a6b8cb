// The shop catalog, the soap pools and the equipment slots.
module Catalog {
  import opened Strings
  import opened Wrappers

  datatype Kind = Permanent | Consumable

  // `requirement` is "" for items anyone may buy.
  datatype ShopItem = ShopItem(key: string, kind: Kind, price: nat, requirement: string)

  // Items that share a prefix and a price, in catalog order.
  function Family(prefix: string, names: seq<string>, kind: Kind, price: nat): seq<ShopItem> {
    if names == [] then []
    else [ShopItem(prefix + names[0], kind, price, "")] + Family(prefix, names[1..], kind, price)
  }

  const PALETTE := ["hot_pink", "magenta", "acid_pink", "deep_violet", "cold_red", "rose"]
  const BACKGROUND_NAMES := ["scanlines", "starfield", "matrix_pink", "static", "grid"]
  const TITLE_NAMES := ["certified_yapper", "basement_dweller", "debt_collector", "touched_grass_once", "aura_merchant"]
  const ICON_NAMES := ["skull", "soap", "crown", "clown"]
  const QUOTE_NAMES := ["neon", "greentext", "redacted"]
  const THEME_NAMES := ["vaporwave", "corpo", "crime_scene", "win98", "graveyard"]

  function Badges(): seq<ShopItem> {
    [ShopItem("verified_chud", Permanent, 1500, ""), ShopItem("hit_counter", Permanent, 200, ""),
     ShopItem("vine_boom", Permanent, 350, "")]
  }

  function Consumables(): seq<ShopItem> {
    [ShopItem("clown_stamp", Consumable, 120, ""), ShopItem("rename_curse", Consumable, 150, ""),
     ShopItem("aura_tax", Consumable, 500, ""), ShopItem("spotlight", Consumable, 200, ""),
     ShopItem("room_boost", Consumable, 400, ""), ShopItem("fight_insurance", Consumable, 250, ""),
     ShopItem("debt_forgiveness", Consumable, 300, ""), ShopItem("mystery_soap", Consumable, 180, "")]
  }

  function FightClubTheme(): ShopItem { ShopItem("theme_fight_club", Permanent, 1200, "found_the_basement") }

  function ShopItems(): seq<ShopItem> {
    Family("accent_", PALETTE[1..], Permanent, 400)
    + Family("bg_", BACKGROUND_NAMES, Permanent, 600)
    + Family("title_", TITLE_NAMES, Permanent, 300)
    + Badges()
    + Family("namecolor_", PALETTE, Permanent, 300)
    + Family("nameicon_", ICON_NAMES, Permanent, 250)
    + Family("quote_", QUOTE_NAMES, Permanent, 200)
    + Consumables()
    + Family("theme_", THEME_NAMES, Permanent, 800) + [FightClubTheme()]
  }

  const USABLE_ITEM_KEYS := {"clown_stamp", "rename_curse", "aura_tax", "spotlight", "room_boost", "fight_insurance",
                             "debt_forgiveness"}
  const MYSTERY_SOAP_KEY := "mystery_soap"

  // `SHOP_ITEMS.find((item) => item.key === key)`
  function FindIn(items: seq<ShopItem>, key: string): Option<ShopItem> {
    if items == [] then None else if items[0].key == key then Some(items[0]) else FindIn(items[1..], key)
  }

  function FindShopItem(key: string): Option<ShopItem> { FindIn(ShopItems(), key) }

  lemma {:induction false} FindInFinds(items: seq<ShopItem>, key: string)
    ensures FindIn(items, key).Some? ==> FindIn(items, key).value in items && FindIn(items, key).value.key == key
    ensures FindIn(items, key).None? <==> forall i :: 0 <= i < |items| ==> items[i].key != key
  {
    if items != [] {
      FindInFinds(items[1..], key);
      assert items == [items[0]] + items[1..];
    }
  }

  lemma {:induction false} FamilyKeys(prefix: string, names: seq<string>, kind: Kind, price: nat, item: ShopItem)
    requires item in Family(prefix, names, kind, price)
    ensures item.kind == kind && item.price == price && item.requirement == ""
    ensures StartsWith(item.key, prefix) && item.key[|prefix|..] in names
  {
    if item == ShopItem(prefix + names[0], kind, price, "") {
      assert item.key[|prefix|..] == names[0];
    } else {
      FamilyKeys(prefix, names[1..], kind, price, item);
    }
  }

  // The prefixes of the permanent families.
  const PREFIXES := {"accent_", "bg_", "title_", "namecolor_", "nameicon_", "quote_", "theme_"}

  predicate PermanentShape(key: string) {
    StartsWith(key, "accent_") || StartsWith(key, "bg_") || StartsWith(key, "title_") ||
      StartsWith(key, "namecolor_") ||
    StartsWith(key, "nameicon_") || StartsWith(key, "quote_") || StartsWith(key, "theme_") ||
    key == "verified_chud" || key == "hit_counter" || key == "vine_boom"
  }

  predicate PaletteShape(key: string) {
    && (StartsWith(key, "accent_") ==> key[7..] in PALETTE)
    && (StartsWith(key, "namecolor_") ==> key[10..] in PALETTE)
  }

  predicate Shaped(item: ShopItem) {
    && (item.kind == Permanent ==> PermanentShape(item.key))
    && (item.kind == Consumable ==> item.key in USABLE_ITEM_KEYS || item.key == MYSTERY_SOAP_KEY)
    && PaletteShape(item.key)
  }

  lemma FamilyShape(prefix: string, names: seq<string>, price: nat, item: ShopItem)
    requires item in Family(prefix, names, Permanent, price) && prefix in PREFIXES
    requires prefix == "accent_" || prefix == "namecolor_" ==> forall n :: n in names ==> n in PALETTE
    ensures Shaped(item)
  {
    FamilyKeys(prefix, names, Permanent, price, item);
    hide Family;
    assert PermanentShape(item.key);
    assert item.key[0] == prefix[0] && item.key[1] == prefix[1] && item.key[2] == prefix[2];
    if |item.key| > 4 && |prefix| > 4 { assert item.key[4] == prefix[4]; }
  }

  lemma BadgeShape(item: ShopItem)
    requires item in Badges() || item in Consumables() || item == FightClubTheme()
    ensures Shaped(item)
  {
    if item == FightClubTheme() {
      assert StartsWith(item.key, "theme_");
      assert item.key[0] == 't';
    } else if item in Badges() {
      assert item.key[0] in {'v', 'h'};
    } else {
      assert item.key[0] in {'c', 'r', 'a', 's', 'f', 'd', 'm'};
      assert item.key[0] == 'a' ==> item.key[1] == 'u';
    }
  }

  // The catalog sells each permanent item under a permanent-looking key, and each consumable under one of eight.
  lemma ItemShape(item: ShopItem)
    requires item in ShopItems()
    ensures Shaped(item)
  {
    hide Family, Badges, Consumables, FightClubTheme, Shaped;
    if item in Badges() || item in Consumables() || item == FightClubTheme() { BadgeShape(item); }
    else if item in Family("accent_", PALETTE[1..], Permanent, 400) { FamilyShape("accent_", PALETTE[1..], 400, item); }
    else if item in Family("bg_", BACKGROUND_NAMES, Permanent, 600) { FamilyShape("bg_", BACKGROUND_NAMES, 600, item); }
    else if item in Family("title_", TITLE_NAMES, Permanent, 300) { FamilyShape("title_", TITLE_NAMES, 300, item); }
    else if item in Family("namecolor_", PALETTE, Permanent, 300) { FamilyShape("namecolor_", PALETTE, 300, item); }
    else if item in Family("nameicon_", ICON_NAMES, Permanent, 250) { FamilyShape("nameicon_", ICON_NAMES, 250, item); }
    else if item in Family("quote_", QUOTE_NAMES, Permanent, 200) { FamilyShape("quote_", QUOTE_NAMES, 200, item); }
    else { FamilyShape("theme_", THEME_NAMES, 800, item); }
  }

  // No usable item, and not the soap, looks like a permanent one.
  lemma UsableShape(key: string)
    requires key in USABLE_ITEM_KEYS || key == MYSTERY_SOAP_KEY
    ensures !PermanentShape(key)
  {
    assert key[0] in {'c', 'r', 'a', 's', 'f', 'd', 'm'};
    assert key[0] == 'a' ==> key[1] == 'u';
  }

  // What `find` says about kinds: usable items are consumables, and no key of a permanent shape is one.
  lemma FoundShape(key: string)
    ensures var found := FindShopItem(key);
            found.Some? ==> found.value in ShopItems() && found.value.key == key && PaletteShape(key) &&
                            (found.value.kind == Permanent <==> PermanentShape(key)) &&
                            (found.value.kind == Consumable <==> key in USABLE_ITEM_KEYS || key == MYSTERY_SOAP_KEY)
  {
    FindInFinds(ShopItems(), key);
    hide ShopItems, PermanentShape, PaletteShape;
    var found := FindShopItem(key);
    if found.Some? {
      ItemShape(found.value);
      if key in USABLE_ITEM_KEYS || key == MYSTERY_SOAP_KEY { UsableShape(key); }
    }
  }

  // ----- mystery soap -----

  predicate InPool(key: string, prefixes: seq<string>) {
    exists i :: 0 <= i < |prefixes| && StartsWith(key, prefixes[i])
  }

  // `keysStartingWith`: filter, then map to keys.
  function KeysStartingWith(items: seq<ShopItem>, prefixes: seq<string>): seq<string> {
    if items == [] then []
    else (if InPool(items[0].key, prefixes) then [items[0].key] else []) + KeysStartingWith(items[1..], prefixes)
  }

  const COMMON := ["quote_", "title_"]
  const RARE := ["bg_", "nameicon_", "accent_", "namecolor_"]

  // The pool of a roll from 0 to 99: common below 70, rare below 95, else legendary.
  function SoapPool(roll: nat): seq<string> {
    if roll < 70 then KeysStartingWith(ShopItems(), COMMON)
    else if roll < 95 then KeysStartingWith(ShopItems(), RARE)
    else ["verified_chud"]
  }

  lemma {:induction false} PoolKeys(items: seq<ShopItem>, prefixes: seq<string>, key: string)
    ensures key in KeysStartingWith(items, prefixes) <==> exists i ::
            0 <= i < |items| && items[i].key == key && InPool(key, prefixes)
  {
    if items != [] {
      PoolKeys(items[1..], prefixes, key);
      hide InPool;
      assert forall i :: 1 <= i < |items| ==> items[i] == items[1..][i - 1];
      if i :| 0 <= i < |items| && items[i].key == key && InPool(key, prefixes) {
        if i > 0 { assert items[1..][i - 1].key == key; }
      }
    }
  }

  lemma PoolShape(items: seq<ShopItem>, prefixes: seq<string>, key: string)
    requires key in KeysStartingWith(items, prefixes) && forall p :: p in prefixes ==> p in PREFIXES
    ensures PermanentShape(key) && FindIn(items, key).Some?
  {
    PoolKeys(items, prefixes, key);
    FindInFinds(items, key);
    var i :| 0 <= i < |prefixes| && StartsWith(key, prefixes[i]);
    assert prefixes[i] in PREFIXES;
  }

  // Whatever the soap grants is a permanent item of the catalog.
  lemma SoapGrantsPermanents(roll: nat, key: string)
    requires key in SoapPool(roll)
    ensures FindShopItem(key).Some? && FindShopItem(key).value.kind == Permanent
  {
    hide ShopItems;
    if roll < 95 {
      PoolShape(ShopItems(), if roll < 70 then COMMON else RARE, key);
    } else {
      BadgeIsSold();
    }
    hide PermanentShape, FindIn, KeysStartingWith;
    FoundShape(key);
  }

  lemma BadgeIsSold()
    ensures FindShopItem("verified_chud").Some? && PermanentShape("verified_chud")
  {
    var badge := ShopItem("verified_chud", Permanent, 1500, "");
    assert Badges()[0] == badge;
    hide Family, Badges, Consumables, FightClubTheme;
    assert badge in ShopItems();
    hide ShopItems;
    FindInFinds(ShopItems(), "verified_chud");
  }

  // No roll can meet an empty pool.
  lemma SoapPoolsAreNotEmpty(roll: nat)
    ensures SoapPool(roll) != []
  {
    hide ShopItems, KeysStartingWith;
    if roll < 70 {
      QuoteIsSold();
      PoolHas("quote_neon", COMMON, 0);
    } else if roll < 95 {
      BackgroundIsSold();
      PoolHas("bg_scanlines", RARE, 0);
    }
  }

  lemma PoolHas(key: string, prefixes: seq<string>, p: nat)
    requires p < |prefixes| && StartsWith(key, prefixes[p])
    requires exists item :: item in ShopItems() && item.key == key
    ensures KeysStartingWith(ShopItems(), prefixes) != []
  {
    hide ShopItems;
    var item :| item in ShopItems() && item.key == key;
    var i :| 0 <= i < |ShopItems()| && ShopItems()[i] == item;
    PoolKeys(ShopItems(), prefixes, key);
  }

  lemma QuoteIsSold()
    ensures exists item :: item in ShopItems() && item.key == "quote_neon"
  {
    var item := Family("quote_", QUOTE_NAMES, Permanent, 200)[0];
    assert item.key == "quote_neon";
    hide Family, Badges, Consumables, FightClubTheme;
    assert item in ShopItems();
  }

  lemma BackgroundIsSold()
    ensures exists item :: item in ShopItems() && item.key == "bg_scanlines"
  {
    var item := Family("bg_", BACKGROUND_NAMES, Permanent, 600)[0];
    assert item.key == "bg_scanlines";
    hide Family, Badges, Consumables, FightClubTheme;
    assert item in ShopItems();
  }

  // ----- equipment slots -----

  datatype Slot = Accent | Background | Title | NameColor | NameIcon | QuoteStyle | Verified

  const FREE_ITEM_KEYS := {"accent_hot_pink"}

  predicate SlotAccepts(slot: Slot, key: string) {
    match slot
    case Accent => StartsWith(key, "accent_")
    case Background => StartsWith(key, "bg_")
    case Title => StartsWith(key, "title_")
    case NameColor => StartsWith(key, "namecolor_")
    case NameIcon => StartsWith(key, "nameicon_")
    case QuoteStyle => StartsWith(key, "quote_")
    case Verified => key == "verified_chud"
  }

  lemma SlotShape(slot: Slot, key: string)
    requires SlotAccepts(slot, key)
    ensures PermanentShape(key)
  {}

  // An item fits at most one slot, and nothing that fits a slot can be used up.
  lemma OneSlotPerItem(a: Slot, b: Slot, key: string)
    requires SlotAccepts(a, key) && SlotAccepts(b, key)
    ensures a == b && key !in USABLE_ITEM_KEYS && key != MYSTERY_SOAP_KEY
  {
    assert key[0] in {'a', 'b', 't', 'n', 'q', 'v'};
    assert a.NameColor? || b.NameColor? ==> key[4] == 'c';
    assert a.NameIcon? || b.NameIcon? ==> key[4] == 'i';
    SlotShape(a, key);
    if key in USABLE_ITEM_KEYS || key == MYSTERY_SOAP_KEY {
      UsableShape(key);
    }
  }

  // `paletteHex`, with the palette's key standing for its colour.
  function PaletteHex(key: Option<string>, prefix: string): Option<string> {
    if key.None? || !StartsWith(key.value, prefix) then None
    else if key.value[|prefix|..] in PALETTE then Some(key.value[|prefix|..]) else None
  }
}
