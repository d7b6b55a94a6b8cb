// consumables.service.ts: using an item up, and what the use does.
module ConsumableItems {
  import opened Wrappers
  import opened Store
  import opened Durations
  import opened Catalog
  import opened Shop

  const AURA_TAX_MS := DAY_MS
  const ROOM_BOOST_MS := HOUR_MS
  const SPOTLIGHT_MS := 10 * MINUTE_MS
  const DEBT_FORGIVENESS_AMOUNT := 100

  const CURSES := {"clown_stamp", "rename_curse"}
  const BOOSTS := {"aura_tax", "room_boost"}

  function EffectDuration(kind: string): int { if kind == "clown_stamp" then DAY_MS else HOUR_MS }

  // The optional fields of a request; an empty string counts as missing.
  datatype UseItem = UseItem(itemKey: string, targetUserId: string, roomId: string, messageId: string)

  datatype Notice = Notice(roomId: RoomId, kind: string, messageId: MessageId)

  // ----- the inventory decrement -----

  // The row goes with its last item.
  function Consumed(t: Db, u: UserId, key: string): Db
    requires Owns(t, u, key)
  {
    if Held(t, u, key) == 1 then t.(inventory := t.inventory - {(u, key)})
    else t.(inventory := t.inventory[(u, key) := Held(t, u, key) - 1])
  }

  // ----- profile effects -----

  ghost predicate CurseActive(e: Effect, target: UserId, kind: string, now: int) {
    e.targetId == target && e.kind == kind && e.expiresAt > now
  }

  ghost predicate Cursed(t: Db, target: UserId, kind: string, now: int) {
    exists i :: 0 <= i < |t.effects| && CurseActive(t.effects[i], target, kind, now)
  }

  ghost function CurseRefusal(t: Db, actor: UserId, kind: string, target: string, check: int): Option<string> {
    if target == "" then Some("TARGET_REQUIRED")
    else if target == actor then Some("SELF_TARGET")
    else if target !in t.users then Some("no such chud.")
    else if t.users[target].admin then Some("ADMIN_TARGET")
    else if Cursed(t, target, kind, check) then Some("ALREADY_CURSED")
    else None
  }

  // ----- rooms -----

  // Stacks on the end time while that is still to come.
  function Extended(until: Option<int>, now: int, ms: int): int {
    var current := if until.Some? then until.value else 0;
    (if now < current then current else now) + ms
  }

  function BoostRefusal(t: Db, actor: UserId, roomId: string): Option<string> {
    if roomId == "" then Some("ROOM_REQUIRED")
    else if roomId !in t.rooms then Some("no such room. it got cooked.")
    else if t.rooms[roomId].creatorId != actor then Some("NOT_YOUR_ROOM")
    else if !t.rooms[roomId].active then Some("ROOM_NOT_LIVE")
    else None
  }

  function BoostedRoom(room: Room, actor: UserId, kind: string, now: int): Room {
    if kind == "aura_tax"
    then room.(sponsoredById := Some(actor), sponsoredUntil := Some(Extended(room.sponsoredUntil, now, AURA_TAX_MS)))
    else room.(boostedUntil := Some(Extended(room.boostedUntil, now, ROOM_BOOST_MS)))
  }

  function SpotlightRefusal(t: Db, actor: UserId, messageId: string): Option<string> {
    if messageId == "" then Some("MESSAGE_REQUIRED")
    else if messageId !in t.messages then Some("no such message. it got cooked.")
    else if t.messages[messageId].authorId != actor then Some("NOT_YOUR_MESSAGE")
    else if t.messages[messageId].isDeleted then Some("MESSAGE_DELETED")
    else if t.messages[messageId].roomId !in t.rooms || !t.rooms[t.messages[messageId].roomId].active
    then Some("ROOM_NOT_LIVE")
    else None
  }

  // A room-facing use posts a system line in the actor's name.
  function Posted(t: Db, id: MessageId, roomId: RoomId, actor: UserId): Db {
    t.(messages := t.messages[id := Message(roomId, actor, false)])
  }

  // ----- one use -----

  // Why a use is refused; `check` is the clock reading of the curse check.
  ghost function UseRefusal(t: Db, u: UserId, dto: UseItem, check: int): Option<string> {
    var refusal :=
      if dto.itemKey in CURSES then CurseRefusal(t, u, dto.itemKey, dto.targetUserId, check)
      else if dto.itemKey in BOOSTS then BoostRefusal(t, u, dto.roomId)
      else if dto.itemKey == "spotlight" then SpotlightRefusal(t, u, dto.messageId)
      else if dto.itemKey == "fight_insurance" && u in t.users && t.users[u].fightInsuranceArmed
      then Some("ALREADY_ARMED")
      else None;
    if refusal.Some? then refusal
    else if Held(t, u, dto.itemKey) < 1 then Some("NOT_OWNED")
    else None
  }

  function BoostEffect(t: Db, u: UserId, dto: UseItem, now: int, newId: MessageId): Db {
    if dto.roomId !in t.rooms then t
    else Posted(t.(rooms := t.rooms[dto.roomId := BoostedRoom(t.rooms[dto.roomId], u, dto.itemKey, now)]), newId,
                dto.roomId, u)
  }

  function SpotlightEffect(t: Db, u: UserId, dto: UseItem, now: int, newId: MessageId): Db {
    if dto.messageId !in t.messages || t.messages[dto.messageId].roomId !in t.rooms then t
    else
      var roomId := t.messages[dto.messageId].roomId;
      var lit := t.rooms[roomId].(spotlight := Some((dto.messageId, now + SPOTLIGHT_MS)));
      Posted(t.(rooms := t.rooms[roomId := lit]), newId, roomId, u)
  }

  function RowEffect(row: User, key: string): User {
    if key == "fight_insurance" then row.(fightInsuranceArmed := true)
    else row.(debt := row.debt - DEBT_FORGIVENESS_AMOUNT)
  }

  // What a granted use does besides the decrement; `now` is the clock reading of the effect.
  function Affected(t: Db, u: UserId, dto: UseItem, check: int, now: int, newId: MessageId): Db {
    if dto.itemKey in CURSES then
      t.(effects := t.effects + [Effect(dto.targetUserId, dto.itemKey, u, check, now + EffectDuration(dto.itemKey))])
    else if dto.itemKey in BOOSTS then BoostEffect(t, u, dto, now, newId)
    else if dto.itemKey == "spotlight" then SpotlightEffect(t, u, dto, now, newId)
    else if u !in t.users then t
    else PutUser(t, u, RowEffect(t.users[u], dto.itemKey))
  }

  function Used(t: Db, u: UserId, dto: UseItem, check: int, now: int, newId: MessageId): Db
    requires Owns(t, u, dto.itemKey)
  {
    Affected(Consumed(t, u, dto.itemKey), u, dto, check, now, newId)
  }

  class ConsumablesService {
    const db: Database

    constructor (db: Database)
      ensures this.db == db
    {
      this.db := db;
    }

    // The item keys are those the request's validation lets through.
    method Use(userId: UserId, dto: UseItem, check: int, now: int, newId: MessageId) returns (r: Result<Option<Notice>>)
      requires dto.itemKey in USABLE_ITEM_KEYS
      modifies db
      ensures match UseRefusal(old(db.tables), userId, dto, check)
              case Some(code) => r == Thrown(code)
              case None => r.Ok? && db.tables == Used(old(db.tables), userId, dto, check, now, newId)
      ensures r.Thrown? ==> db.tables == old(db.tables)
      ensures r.Ok? ==>
                r.value == if dto.itemKey == "aura_tax" || dto.itemKey == "room_boost"
                           then Some(Notice(dto.roomId, dto.itemKey, newId))
                           else if dto.itemKey == "spotlight" && dto.messageId in old(db.tables.messages)
                           then Some(Notice(old(db.tables.messages)[dto.messageId].roomId, "spotlight", newId))
                           else None
    {
      var tx, notice := db.tables, None;
      match dto.itemKey {
      case "clown_stamp" | "rename_curse" =>
        var done := ApplyProfileEffect(tx, userId, dto.itemKey, dto.targetUserId, check, now);
        if done.Thrown? { return Thrown(done.message); }
        tx := done.value;
      case "aura_tax" | "room_boost" =>
        var done := BoostRoom(tx, userId, dto.itemKey, dto.roomId, now, newId);
        if done.Thrown? { return Thrown(done.message); }
        tx, notice := done.value, Some(Notice(dto.roomId, dto.itemKey, newId));
      case "spotlight" =>
        var done := SpotlightMessage(tx, userId, dto.messageId, now, newId);
        if done.Thrown? { return Thrown(done.message); }
        tx, notice := done.value, Some(Notice(tx.messages[dto.messageId].roomId, "spotlight", newId));
      case "fight_insurance" =>
        var done := ArmInsurance(tx, userId);
        if done.Thrown? { return Thrown(done.message); }
        tx := done.value;
      case _ =>
        var done := Consume(tx, userId, dto.itemKey);
        if done.Thrown? { return Thrown(done.message); }
        tx := done.value;
        if userId in tx.users {
          tx := PutUser(tx, userId, tx.users[userId].(debt := tx.users[userId].debt - DEBT_FORGIVENESS_AMOUNT));
        }
      }
      db.tables := tx;
      return Ok(notice);
    }

    static method ApplyProfileEffect(t: Db, actor: UserId, kind: string, target: string, check: int, now: int)
        returns (r: Result<Db>)
      requires kind in CURSES
      ensures var dto := UseItem(kind, target, "", "");
              match UseRefusal(t, actor, dto, check)
              case Some(code) => r == Thrown(code)
              case None => r == Ok(Used(t, actor, dto, check, now, ""))
      ensures r.Ok? ==>
                var n := |t.effects|;
                && |r.value.effects| == n + 1 && r.value.effects[..n] == t.effects &&
                   r.value.effects[n].targetId == target != actor
                && r.value.effects[n].expiresAt == now + if kind == "clown_stamp" then DAY_MS else HOUR_MS
    {
      if target == "" { return Thrown("TARGET_REQUIRED"); }
      if target == actor { return Thrown("SELF_TARGET"); }
      if target !in t.users { return Thrown("no such chud."); }
      if t.users[target].admin { return Thrown("ADMIN_TARGET"); }
      var active := ActiveEffect(t, target, kind, check);
      if active { return Thrown("ALREADY_CURSED"); }
      var consumed := Consume(t, actor, kind);
      if consumed.Thrown? { return consumed; }
      var tx := consumed.value;
      return Ok(tx.(effects := tx.effects + [Effect(target, kind, actor, check, now + EffectDuration(kind))]));
    }

    static method ActiveEffect(t: Db, target: UserId, kind: string, now: int) returns (active: bool)
      ensures active <==> Cursed(t, target, kind, now)
    {
      active := false;
      for i := 0 to |t.effects|
        invariant active <==> exists j :: 0 <= j < i && CurseActive(t.effects[j], target, kind, now)
      {
        var e := t.effects[i];
        if e.targetId == target && e.kind == kind && e.expiresAt > now { active := true; }
      }
    }

    static method BoostRoom(t: Db, actor: UserId, kind: string, roomId: string, now: int, newId: MessageId)
        returns (r: Result<Db>)
      requires kind in BOOSTS
      ensures var dto := UseItem(kind, "", roomId, "");
              match UseRefusal(t, actor, dto, now)
              case Some(code) => r == Thrown(code)
              case None => r == Ok(Used(t, actor, dto, now, now, newId))
    {
      if roomId == "" { return Thrown("ROOM_REQUIRED"); }
      if roomId !in t.rooms { return Thrown("no such room. it got cooked."); }
      var room := t.rooms[roomId];
      if room.creatorId != actor { return Thrown("NOT_YOUR_ROOM"); }
      if !room.active { return Thrown("ROOM_NOT_LIVE"); }
      var consumed := Consume(t, actor, kind);
      if consumed.Thrown? { return consumed; }
      var tx := consumed.value;
      if kind == "aura_tax" {
        var until := if room.sponsoredUntil.Some? then room.sponsoredUntil.value else 0;
        var from := if now < until then until else now;
        tx := tx.(rooms := tx.rooms[roomId :=
                                    room.(sponsoredById := Some(actor), sponsoredUntil := Some(from + AURA_TAX_MS))]);
      } else {
        var until := if room.boostedUntil.Some? then room.boostedUntil.value else 0;
        var from := if now < until then until else now;
        tx := tx.(rooms := tx.rooms[roomId := room.(boostedUntil := Some(from + ROOM_BOOST_MS))]);
      }
      return Ok(Posted(tx, newId, roomId, actor));
    }

    static method SpotlightMessage(t: Db, actor: UserId, messageId: string, now: int, newId: MessageId)
        returns (r: Result<Db>)
      ensures var dto := UseItem("spotlight", "", "", messageId);
              match UseRefusal(t, actor, dto, now)
              case Some(code) => r == Thrown(code)
              case None => messageId in t.messages && r == Ok(Used(t, actor, dto, now, now, newId))
      ensures r.Ok? ==>
                var roomId := t.messages[messageId].roomId;
                roomId in r.value.rooms && r.value.rooms[roomId].spotlight == Some((messageId, now + 600_000))
    {
      if messageId == "" { return Thrown("MESSAGE_REQUIRED"); }
      if messageId !in t.messages { return Thrown("no such message. it got cooked."); }
      var message := t.messages[messageId];
      if message.authorId != actor { return Thrown("NOT_YOUR_MESSAGE"); }
      if message.isDeleted { return Thrown("MESSAGE_DELETED"); }
      if message.roomId !in t.rooms || !t.rooms[message.roomId].active { return Thrown("ROOM_NOT_LIVE"); }
      var consumed := Consume(t, actor, "spotlight");
      if consumed.Thrown? { return consumed; }
      var tx := consumed.value;
      var lit := tx.rooms[message.roomId].(spotlight := Some((messageId, now + SPOTLIGHT_MS)));
      tx := tx.(rooms := tx.rooms[message.roomId := lit]);
      return Ok(Posted(tx, newId, message.roomId, actor));
    }

    static method ArmInsurance(t: Db, userId: UserId) returns (r: Result<Db>)
      ensures var dto := UseItem("fight_insurance", "", "", "");
              match UseRefusal(t, userId, dto, 0)
              case Some(code) => r == Thrown(code)
              case None => r == Ok(Used(t, userId, dto, 0, 0, ""))
    {
      if userId in t.users && t.users[userId].fightInsuranceArmed { return Thrown("ALREADY_ARMED"); }
      var consumed := Consume(t, userId, "fight_insurance");
      if consumed.Thrown? { return consumed; }
      var tx := consumed.value;
      if userId in tx.users { tx := PutUser(tx, userId, tx.users[userId].(fightInsuranceArmed := true)); }
      return Ok(tx);
    }

    // The decrement needs at least one; the delete follows when none is left.
    static method Consume(t: Db, userId: UserId, itemKey: string) returns (r: Result<Db>)
      ensures r == if Held(t, userId, itemKey) >= 1 then Ok(Consumed(t, userId, itemKey)) else Thrown("NOT_OWNED")
    {
      if (userId, itemKey) !in t.inventory || t.inventory[(userId, itemKey)] < 1 { return Thrown("NOT_OWNED"); }
      var quantity := t.inventory[(userId, itemKey)] - 1;
      var tx := t.(inventory := t.inventory[(userId, itemKey) := quantity]);
      if quantity == 0 {
        tx := tx.(inventory := tx.inventory - {(userId, itemKey)});
        assert tx.inventory == t.inventory - {(userId, itemKey)};
      }
      return Ok(tx);
    }
  }
}
