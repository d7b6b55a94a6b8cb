// The economy as one transition system: each event is one database transaction of some service, and
// the log keeps what the tables forget.
module Ledger {
  import opened Wrappers
  import opened Store
  import opened Catalog
  import Settlement
  import Stimulus
  import Users
  import Shop
  import ConsumableItems

  datatype Entry =
    | Used(userId: UserId, key: string)
    | SoapGrant(userId: UserId, key: string)
    | SoapDupe(userId: UserId)
    | ArmedFight(userId: UserId, lost: bool)
    | Claimed(userId: UserId, day: int)
    | Adjusted(userId: UserId, auraDelta: int, debtDelta: int)
    | Boosted(userId: UserId, roomId: RoomId, kind: string, at: int)

  // `everOpened` holds every room id ever handed out.
  datatype World = World(db: Db, log: seq<Entry>, everOpened: set<RoomId>)

  const EMPTY_WORLD := World(EMPTY_DB, [], {})

  datatype Event =
    | Register(userId: UserId, admin: bool)
    | Buy(userId: UserId, key: string, roll: nat, pick: nat)
    | Use(userId: UserId, dto: ConsumableItems.UseItem, check: int, now: int, newId: MessageId)
    | Equip(userId: UserId, slot: Slot, itemKey: Option<string>)
    | Settle(args: Settlement.SettleArgs)
    | Cancel(creatorId: UserId, challengerId: Option<UserId>, stakeType: string, stakeAmount: int, now: int)
    | Claim(userId: UserId, now: int)
    | Farm(userId: UserId)
    | PayDebt(userId: UserId)
    | Adjust(userId: UserId, auraDelta: int, debtDelta: int)
    | Unlock(userId: UserId, key: string)
    | OpenRoom(roomId: RoomId, creatorId: UserId)
    | SetLive(roomId: RoomId, live: bool)
    | DropRoom(roomId: RoomId)
    | Post(newId: MessageId, roomId: RoomId, authorId: UserId)
    | SoftDelete(messageId: MessageId)

  // A settlement names the two distinct players of a finished fight.
  predicate FairSettle(a: Settlement.SettleArgs) {
    a.player1Id != a.player2Id && {a.winnerId, a.loserId} == {a.player1Id, a.player2Id} && a.outcome != Cancelled
  }

  // The environment: fresh ids are fresh, dice are in range, requests are validated, and a settlement is
  // one that the fight club makes.
  predicate Enabled(w: World, e: Event) {
    match e
    case Register(userId, _) => userId !in w.db.users
    case Buy(_, _, roll, pick) => roll < 100 && pick < |SoapPool(roll)|
    case Use(_, dto, _, _, newId) => dto.itemKey in USABLE_ITEM_KEYS && newId !in w.db.messages
    case Settle(args) => FairSettle(args)
    case Cancel(creatorId, challengerId, _, _, _) => challengerId != Some(creatorId)
    case Post(newId, _, _) => newId !in w.db.messages
    case OpenRoom(roomId, _) => roomId !in w.everOpened
    case _ => true
  }

  function BuyLog(t: Db, u: UserId, key: string, prize: string): seq<Entry> {
    if key != MYSTERY_SOAP_KEY then []
    else if Shop.Dupe(t, u, prize) then [SoapDupe(u)]
    else [SoapGrant(u, prize)]
  }

  function BuyStep(w: World, u: UserId, key: string, prize: string): World {
    if !Shop.Sells(w.db, u, key) then w
    else w.(db := Shop.Bought(w.db, u, FindShopItem(key).value, prize), log := w.log + BuyLog(w.db, u, key, prize))
  }

  function UseLog(u: UserId, dto: ConsumableItems.UseItem, now: int): seq<Entry> {
    [Used(u, dto.itemKey)]
    + if dto.itemKey in ConsumableItems.BOOSTS then [Boosted(u, dto.roomId, dto.itemKey, now)] else []
  }

  ghost predicate Usable(w: World, u: UserId, dto: ConsumableItems.UseItem, check: int) {
    ConsumableItems.UseRefusal(w.db, u, dto, check).None?
  }

  ghost function UseStep(w: World, u: UserId, dto: ConsumableItems.UseItem, check: int, now: int,
                         newId: MessageId): World {
    if !Usable(w, u, dto, check) then w
    else w.(db := ConsumableItems.Used(w.db, u, dto, check, now, newId), log := w.log + UseLog(u, dto, now))
  }

  function EquipStep(w: World, u: UserId, slot: Slot, itemKey: Option<string>): World {
    if itemKey.None? then w.(db := w.db.(equipped := w.db.equipped - {(u, slot)}))
    else if Shop.EquipRefusal(w.db, u, slot, itemKey.value).Some? then w
    else w.(db := w.db.(equipped := w.db.equipped[(u, slot) := itemKey.value]))
  }

  function ArmedLog(t: Db, u: UserId, lost: bool): seq<Entry> {
    if u in t.users && t.users[u].fightInsuranceArmed then [ArmedFight(u, lost)] else []
  }

  function SettleStep(w: World, a: Settlement.SettleArgs): World {
    if !Settlement.Settles(w.db, a) then w
    else w.(db := Settlement.Settled(w.db, a),
            log := w.log + ArmedLog(w.db, a.winnerId, false) + ArmedLog(w.db, a.loserId, true))
  }

  function CancelStep(w: World, creatorId: UserId, challengerId: Option<UserId>, stakeType: string, stakeAmount: int,
                      now: int): World {
    if !Settlement.Known(w.db, creatorId, challengerId) then w
    else w.(db := w.db.(fights := w.db.fights
                                  + [Settlement.CancelledFight(creatorId, challengerId, stakeType, stakeAmount, now)]))
  }

  function ClaimStep(w: World, u: UserId, now: int): World {
    if u !in w.db.users || !Stimulus.Due(w.db.users[u], now) then w
    else w.(db := PutUser(w.db, u, Stimulus.Claimed(w.db.users[u], now)),
            log := w.log + [Claimed(u, Stimulus.UtcDay(now))])
  }

  function RowStep(w: World, u: UserId, row: User, entries: seq<Entry>): World {
    if u !in w.db.users then w else w.(db := PutUser(w.db, u, row), log := w.log + entries)
  }

  // A user's row; someone unregistered counts as a newcomer.
  function Row(t: Db, u: UserId): User { if u in t.users then t.users[u] else NewUser(false) }

  function RoomStep(w: World, roomId: RoomId, room: Room): World {
    w.(db := w.db.(rooms := w.db.rooms[roomId := room]), everOpened := w.everOpened + {roomId})
  }

  ghost function Do(w: World, e: Event): World
    requires Enabled(w, e)
  {
    match e
    case Register(u, admin) => w.(db := PutUser(w.db, u, NewUser(admin)))
    case Buy(u, key, roll, pick) => BuyStep(w, u, key, SoapPool(roll)[pick])
    case Use(u, dto, check, now, newId) => UseStep(w, u, dto, check, now, newId)
    case Equip(u, slot, itemKey) => EquipStep(w, u, slot, itemKey)
    case Settle(args) => SettleStep(w, args)
    case Cancel(creatorId, challengerId, stakeType, stakeAmount, now) =>
      CancelStep(w, creatorId, challengerId, stakeType, stakeAmount, now)
    case Claim(u, now) => ClaimStep(w, u, now)
    case Farm(u) => RowStep(w, u, Users.Farmed(Row(w.db, u)), [])
    case PayDebt(u) => RowStep(w, u, Users.PaidOff(Row(w.db, u)), [])
    case Adjust(u, auraDelta, debtDelta) =>
      RowStep(w, u, Users.Corrected(Row(w.db, u), auraDelta, debtDelta), [Adjusted(u, auraDelta, debtDelta)])
    case Unlock(u, key) => w.(db := w.db.(unlocked := w.db.unlocked + {(u, key)}))
    case OpenRoom(roomId, creatorId) => RoomStep(w, roomId, Room(creatorId, false, None, None, None, None))
    case SetLive(roomId, live) =>
      if roomId !in w.db.rooms then w else RoomStep(w, roomId, w.db.rooms[roomId].(active := live))
    case DropRoom(roomId) =>
      var kept := map m | m in w.db.messages && w.db.messages[m].roomId != roomId :: w.db.messages[m];
      w.(db := w.db.(rooms := w.db.rooms - {roomId}, messages := kept))
    case Post(newId, roomId, authorId) => w.(db := ConsumableItems.Posted(w.db, newId, roomId, authorId))
    case SoftDelete(messageId) =>
      if messageId !in w.db.messages then w
      else w.(db := w.db.(messages := w.db.messages[messageId := w.db.messages[messageId].(isDeleted := true)]))
  }

  ghost predicate Reaches(w: World, es: seq<Event>, t: World)
    decreases |es|
  {
    if es == [] then t == w
    else Enabled(w, es[0]) && Reaches(Do(w, es[0]), es[1..], t)
  }

  // ----- what the tables and the log say -----

  // Purchases of one item by one user, and the prices recorded for all of a user's purchases.
  function Purchases(ps: seq<Purchase>, u: UserId, key: string): nat {
    if ps == [] then 0
    else
      var p := ps[|ps| - 1];
      Purchases(ps[..|ps| - 1], u, key) + if p.userId == u && p.itemKey == key then 1 else 0
  }

  function Spent(ps: seq<Purchase>, u: UserId): nat {
    if ps == [] then 0
    else Spent(ps[..|ps| - 1], u) + if ps[|ps| - 1].userId == u then ps[|ps| - 1].price else 0
  }

  // What a fight moved, half rounded down when the loser was insured.
  function Moved(f: Fight): int { if f.insured then f.stakeAmount / 2 else f.stakeAmount }

  function Stakes(f: Fight, u: UserId): int {
    if f.winnerId.None? then 0
    else if f.winnerId == Some(u) then Moved(f)
    else if Settlement.Involves(f, u) then -Moved(f)
    else 0
  }

  // Stakes won minus stakes lost, in one currency.
  function NetStakes(fights: seq<Fight>, u: UserId, stakeType: string): int {
    if fights == [] then 0
    else
      var f := fights[|fights| - 1];
      NetStakes(fights[..|fights| - 1], u, stakeType) + if f.stakeType == stakeType then Stakes(f, u) else 0
  }

  function InsuredLosses(fights: seq<Fight>, u: UserId): nat {
    if fights == [] then 0
    else
      var f := fights[|fights| - 1];
      InsuredLosses(fights[..|fights| - 1], u)
      + if f.insured && f.winnerId.Some? && f.winnerId != Some(u) && Settlement.Involves(f, u) then 1 else 0
  }

  function Count(log: seq<Entry>, e: Entry): nat { multiset(log)[e] }

  function Uses(log: seq<Entry>, u: UserId, key: string): nat { Count(log, Used(u, key)) }

  function Grants(log: seq<Entry>, u: UserId, key: string): nat { Count(log, SoapGrant(u, key)) }

  function Dupes(log: seq<Entry>, u: UserId): nat { Count(log, SoapDupe(u)) }

  function AllGrants(log: seq<Entry>, u: UserId): nat {
    if log == [] then 0
    else
      var e := log[|log| - 1];
      AllGrants(log[..|log| - 1], u) + if e.SoapGrant? && e.userId == u then 1 else 0
  }

  function Days(log: seq<Entry>, u: UserId): seq<int> {
    if log == [] then []
    else
      var e := log[|log| - 1];
      Days(log[..|log| - 1], u) + if e.Claimed? && e.userId == u then [e.day] else []
  }

  function AuraAdjusted(log: seq<Entry>, u: UserId): int {
    if log == [] then 0
    else
      var e := log[|log| - 1];
      AuraAdjusted(log[..|log| - 1], u) + if e.Adjusted? && e.userId == u then e.auraDelta else 0
  }

  function DebtAdjusted(log: seq<Entry>, u: UserId): int {
    if log == [] then 0
    else
      var e := log[|log| - 1];
      DebtAdjusted(log[..|log| - 1], u) + if e.Adjusted? && e.userId == u then e.debtDelta else 0
  }

  function BoostTimes(log: seq<Entry>, roomId: RoomId, kind: string): seq<int> {
    if log == [] then []
    else
      var e := log[|log| - 1];
      BoostTimes(log[..|log| - 1], roomId, kind)
      + if e.Boosted? && e.roomId == roomId && e.kind == kind then [e.at] else []
  }

  // Finished fights entered while armed.
  function ArmedFights(log: seq<Entry>, u: UserId): nat {
    Count(log, ArmedFight(u, true)) + Count(log, ArmedFight(u, false))
  }
}
