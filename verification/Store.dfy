// The tables the economy lives in. A service reads a snapshot, changes it in local steps and commits
// it whole, as each `db.transaction` does; a thrown error commits nothing.
module Store {
  import opened Wrappers
  import opened Catalog

  type UserId = string
  type RoomId = string
  type MessageId = string
  type ItemId = (UserId, string)

  datatype User = User(
    aura: int, debt: int, admin: bool, fightInsuranceArmed: bool,
    fightsWon: nat, fightsLost: nat, winStreak: nat, lossStreak: nat,
    auraFarmCount: nat, debtPaidCount: nat, stimulusStreak: nat, lastStimulusAt: Option<int>)

  // A row as registration inserts it.
  function NewUser(admin: bool): User {
    User(1000, 0, admin, false, 0, 0, 0, 0, 0, 0, 0, None)
  }

  datatype Outcome = Ko | RageQuit | Cancelled

  datatype Fight = Fight(
    player1Id: UserId, player2Id: Option<UserId>, winnerId: Option<UserId>, stakeType: string, stakeAmount: int,
    outcome: Outcome, insured: bool, createdAt: int)

  datatype Purchase = Purchase(userId: UserId, itemKey: string, price: nat)

  // `appliedAt` is the clock reading of the check that let the effect through.
  datatype Effect = Effect(targetId: UserId, kind: string, appliedById: UserId, appliedAt: int, expiresAt: int)

  datatype Room = Room(
    creatorId: UserId, active: bool, sponsoredById: Option<UserId>, sponsoredUntil: Option<int>,
    boostedUntil: Option<int>, spotlight: Option<(MessageId, int)>)

  datatype Message = Message(roomId: RoomId, authorId: UserId, isDeleted: bool)

  datatype Db = Db(
    users: map<UserId, User>,
    inventory: map<ItemId, int>,
    equipped: map<(UserId, Slot), string>,
    unlocked: set<ItemId>,          // user_achievements
    purchases: seq<Purchase>,
    fights: seq<Fight>,
    effects: seq<Effect>,
    rooms: map<RoomId, Room>,
    messages: map<MessageId, Message>)

  const EMPTY_DB := Db(map[], map[], map[], {}, [], [], [], map[], map[])

  function PutUser(db: Db, id: UserId, row: User): Db { db.(users := db.users[id := row]) }

  class Database {
    var tables: Db

    constructor ()
      ensures tables == EMPTY_DB
    {
      tables := EMPTY_DB;
    }
  }

  // ----- totals over users -----

  ghost function Total(m: map<UserId, int>): int {
    if m == map[] then 0
    else
      var k :| k in m;
      m[k] + Total(m - {k})
  }

  lemma {:induction false} TotalRemove(m: map<UserId, int>, k: UserId)
    requires k in m
    ensures Total(m) == m[k] + Total(m - {k})
    decreases |m|
  {
    var j :| j in m && Total(m) == m[j] + Total(m - {j});
    if j != k {
      TotalRemove(m - {j}, k);
      TotalRemove(m - {k}, j);
      assert m - {j} - {k} == m - {k} - {j};
    }
  }

  lemma TotalUpdate(m: map<UserId, int>, k: UserId, v: int)
    requires k in m
    ensures Total(m[k := v]) == Total(m) + v - m[k]
  {
    TotalRemove(m, k);
    TotalRemove(m[k := v], k);
    assert m[k := v] - {k} == m - {k};
  }

  function Auras(users: map<UserId, User>): map<UserId, int> { map u | u in users :: users[u].aura }

  function Debts(users: map<UserId, User>): map<UserId, int> { map u | u in users :: users[u].debt }
}
