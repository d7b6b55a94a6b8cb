// users.repository.ts and admin.repository.ts: the steps that move a user's aura and debt outside shop and fights.
module Users {
  import opened Wrappers
  import opened Store

  function Farmed(row: User): User { row.(aura := row.aura + 1, auraFarmCount := row.auraFarmCount + 1) }

  // One unit of debt is paid off, if there is any.
  function PaidOff(row: User): User {
    if row.debt > 0 then row.(debt := row.debt - 1, debtPaidCount := row.debtPaidCount + 1) else row
  }

  // An admin's correction.
  function Corrected(row: User, auraDelta: int, debtDelta: int): User {
    row.(aura := row.aura + auraDelta, debt := row.debt + debtDelta)
  }

  datatype PayDebtResult = PayDebtResult(debt: int, paid: bool, debtPaidCount: nat)

  class UsersRepository {
    const db: Database

    constructor (db: Database)
      ensures this.db == db
    {
      this.db := db;
    }

    method IncrementAura(userId: UserId) returns (aura: Option<int>)
      modifies db
      ensures aura.Some? <==> userId in old(db.tables.users)
      ensures aura.Some? ==> db.tables == PutUser(old(db.tables), userId, Farmed(old(db.tables.users)[userId]))
      ensures aura.Some? ==> aura.value == old(db.tables.users)[userId].aura + 1
      ensures aura.None? ==> db.tables == old(db.tables)
    {
      if userId !in db.tables.users { return None; }
      var row := db.tables.users[userId];
      db.tables := PutUser(db.tables, userId, row.(aura := row.aura + 1, auraFarmCount := row.auraFarmCount + 1));
      return Some(row.aura + 1);
    }

    // The conditional update, or else the row as it stands.
    method PayDebt(userId: UserId) returns (r: Option<PayDebtResult>)
      modifies db
      ensures r.Some? <==> userId in old(db.tables.users)
      ensures r.Some? ==>
              db.tables == old(db.tables).(users :=
                                           old(db.tables.users)[userId := PaidOff(old(db.tables.users)[userId])])
      ensures r.Some? ==> (r.value.paid <==> old(db.tables.users)[userId].debt > 0)
      ensures r.Some? ==>
              r.value.debt == db.tables.users[userId].debt &&
              r.value.debtPaidCount == db.tables.users[userId].debtPaidCount
      ensures r.None? ==> db.tables == old(db.tables)
    {
      if userId !in db.tables.users { return None; }
      var row := db.tables.users[userId];
      if row.debt > 0 {
        row := row.(debt := row.debt - 1, debtPaidCount := row.debtPaidCount + 1);
        db.tables := PutUser(db.tables, userId, row);
        return Some(PayDebtResult(row.debt, true, row.debtPaidCount));
      }
      assert db.tables.users[userId := row] == db.tables.users;
      return Some(PayDebtResult(row.debt, false, row.debtPaidCount));
    }

    // `updateModifiers`, its aura and debt parts.
    method UpdateModifiers(userId: UserId, auraDelta: Option<int>, debtDelta: Option<int>) returns (found: bool)
      modifies db
      ensures found <==> userId in old(db.tables.users)
      ensures found ==>
                var row := old(db.tables.users)[userId];
                db.tables == PutUser(old(db.tables), userId,
                                     Corrected(row, if auraDelta.Some? then auraDelta.value else 0,
                                               if debtDelta.Some? then debtDelta.value else 0))
      ensures !found ==> db.tables == old(db.tables)
    {
      if userId !in db.tables.users { return false; }
      var row := db.tables.users[userId];
      if auraDelta.Some? { row := row.(aura := row.aura + auraDelta.value); }
      if debtDelta.Some? { row := row.(debt := row.debt + debtDelta.value); }
      db.tables := PutUser(db.tables, userId, row);
      return true;
    }
  }
}
