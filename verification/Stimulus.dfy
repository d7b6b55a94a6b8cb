// stimulus.service.ts and utc-time.ts: one grant per UTC day, growing with the streak.
module Stimulus {
  import opened Wrappers
  import opened Store
  import opened Durations

  const BASE_AMOUNT := 10
  const STEP_AMOUNT := 5
  const MAX_AMOUNT := 50

  // The UTC calendar day of an instant, counted from 1 January 1970; floor, also before it.
  function UtcDay(t: int): int { t / DAY_MS }

  function UtcDayStart(t: int): int { UtcDay(t) * DAY_MS }

  function AddUtcDays(t: int, days: int): int { t + days * DAY_MS }

  function StimulusAmount(streak: int): int {
    var grown := BASE_AMOUNT + STEP_AMOUNT * (streak - 1);
    if grown < MAX_AMOUNT then grown else MAX_AMOUNT
  }

  datatype StimulusResult = StimulusResult(granted: bool, amount: int, streak: nat, nextAt: int, streakReset: bool)

  // The guard of the update, and the row it writes.
  predicate Due(row: User, now: int) {
    row.lastStimulusAt.None? || row.lastStimulusAt.value < UtcDayStart(now)
  }

  function NextStreak(row: User, now: int): nat {
    if row.lastStimulusAt.Some? && row.lastStimulusAt.value >= AddUtcDays(UtcDayStart(now), -1)
    then row.stimulusStreak + 1 else 1
  }

  function Claimed(row: User, now: int): User {
    var next := NextStreak(row, now);
    var grown := BASE_AMOUNT + STEP_AMOUNT * (next - 1);
    row.(stimulusStreak := next, aura := row.aura + (if grown < MAX_AMOUNT then grown else MAX_AMOUNT),
         lastStimulusAt := Some(now))
  }

  class StimulusService {
    const db: Database

    constructor (db: Database)
      ensures this.db == db
    {
      this.db := db;
    }

    method Claim(userId: UserId, now: int) returns (r: Result<StimulusResult>)
      modifies db
      ensures r.Ok? <==> userId in old(db.tables.users)
      ensures r.Ok? ==>
                var row := old(db.tables.users)[userId];
                && r.value.granted == Due(row, now)
                && r.value.nextAt == AddUtcDays(UtcDayStart(now), 1)
                && (Due(row, now) ==>
                      && db.tables == PutUser(old(db.tables), userId, Claimed(row, now))
                      && r.value.streak == Claimed(row, now).stimulusStreak
                      && r.value.amount == Claimed(row, now).aura - row.aura
                      && r.value.streakReset == (Claimed(row, now).stimulusStreak == 1 && row.stimulusStreak > 0))
                && (!Due(row, now) ==>
                    r.value.amount == 0 && r.value.streak == row.stimulusStreak && !r.value.streakReset)
      ensures r.Thrown? || !r.value.granted ==> db.tables == old(db.tables)
    {
      var todayStart := UtcDayStart(now);
      var yesterdayStart := AddUtcDays(todayStart, -1);
      var nextAt := AddUtcDays(todayStart, 1);
      if userId !in db.tables.users { return Thrown("no such chud."); }
      var previous := db.tables.users[userId];
      var last := previous.lastStimulusAt;
      if !(last.None? || last.value < todayStart) {
        return Ok(StimulusResult(false, 0, previous.stimulusStreak, nextAt, false));
      }
      var next := if last.Some? && last.value >= yesterdayStart then previous.stimulusStreak + 1 else 1;
      var grown := BASE_AMOUNT + STEP_AMOUNT * (next - 1);
      var claimed := previous.(stimulusStreak := next,
                               aura := previous.aura + (if grown < MAX_AMOUNT then grown else MAX_AMOUNT),
                               lastStimulusAt := Some(now));
      db.tables := PutUser(db.tables, userId, claimed);
      return Ok(StimulusResult(true, StimulusAmount(claimed.stimulusStreak), claimed.stimulusStreak, nextAt,
                               claimed.stimulusStreak == 1 && previous.stimulusStreak > 0));
    }
  }

  // ----- streaks over any sequence of claims -----

  // The length of the run of consecutive days at the end of `days`.
  function TrailingRun(days: seq<int>): nat {
    if days == [] then 0
    else if |days| >= 2 && days[|days| - 1] == days[|days| - 2] + 1 then TrailingRun(days[..|days| - 1]) + 1
    else 1
  }

  // What the grants of `days` pay in all.
  function Paid(days: seq<int>): int {
    if days == [] then 0 else Paid(days[..|days| - 1]) + StimulusAmount(TrailingRun(days))
  }

  predicate Increasing(days: seq<int>) {
    forall i, j :: 0 <= i < j < |days| ==> days[i] < days[j]
  }

  // A row against the days on which it was granted the stimulus.
  predicate StimulusOk(row: User, days: seq<int>) {
    && Increasing(days) && row.stimulusStreak == TrailingRun(days)
    && (row.lastStimulusAt.None? <==> days == [])
    && (days != [] ==> UtcDay(row.lastStimulusAt.value) == days[|days| - 1])
  }

  // An instant lies before a midnight exactly when its day is an earlier one.
  lemma BeforeMidnight(t: int, day: int)
    ensures t < day * DAY_MS <==> UtcDay(t) < day
  {}

  lemma ClaimByDay(row: User, now: int)
    ensures Due(row, now) <==> row.lastStimulusAt.None? || UtcDay(row.lastStimulusAt.value) < UtcDay(now)
    ensures NextStreak(row, now) ==
            if row.lastStimulusAt.Some? && UtcDay(row.lastStimulusAt.value) >= UtcDay(now) - 1
            then row.stimulusStreak + 1 else 1
  {
    if row.lastStimulusAt.Some? {
      BeforeMidnight(row.lastStimulusAt.value, UtcDay(now));
      BeforeMidnight(row.lastStimulusAt.value, UtcDay(now) - 1);
      assert AddUtcDays(UtcDayStart(now), -1) == (UtcDay(now) - 1) * DAY_MS;
    }
  }

  lemma IncreasingSnoc(days: seq<int>, day: int)
    requires Increasing(days) && (days != [] ==> day > days[|days| - 1])
    ensures Increasing(days + [day])
  {
    var longer := days + [day];
    forall i, j | 0 <= i < j < |longer| ensures longer[i] < longer[j] {
      if j == |days| { assert longer[i] == days[i] <= days[|days| - 1]; }
    }
  }

  lemma RunSnoc(days: seq<int>, day: int)
    requires Increasing(days) && (days != [] ==> day > days[|days| - 1])
    ensures Increasing(days + [day])
    ensures TrailingRun(days + [day]) == if days != [] && day == days[|days| - 1] + 1 then TrailingRun(days) + 1 else 1
    ensures Paid(days + [day]) == Paid(days) + StimulusAmount(TrailingRun(days + [day]))
    ensures days != [] ==> TrailingRun(days) > 0
  {
    IncreasingSnoc(days, day);
    hide Increasing, StimulusAmount;
    var longer := days + [day];
    assert longer[..|longer| - 1] == days;
    assert days != [] ==> longer[|longer| - 2] == days[|days| - 1];
  }

  // Whatever the claim times, even running backwards: a grant falls on a later day than all before, the streak counts
  // the consecutive days that end with it, and a reset is reported exactly when a day was missed after
  // an earlier grant.
  lemma ClaimExtendsStreak(row: User, days: seq<int>, now: int)
    requires StimulusOk(row, days)
    ensures Due(row, now) <==> days == [] || UtcDay(now) > days[|days| - 1]
    ensures Due(row, now) ==> StimulusOk(Claimed(row, now), days + [UtcDay(now)])
    ensures Due(row, now) ==> Claimed(row, now).aura - row.aura == Paid(days + [UtcDay(now)]) - Paid(days)
    ensures Due(row, now) ==>
              (Claimed(row, now).stimulusStreak == 1 && row.stimulusStreak > 0 <==>
               days != [] && UtcDay(now) > days[|days| - 1] + 1)
  {
    ClaimByDay(row, now);
    if Due(row, now) {
      RunSnoc(days, UtcDay(now));
    } else {
      assert days != [] ==> TrailingRun(days) > 0;
    }
    hide UtcDay, Due, NextStreak, TrailingRun, Paid, Increasing, StimulusAmount;
    assert Due(row, now) ==> NextStreak(row, now) == TrailingRun(days + [UtcDay(now)]);
    assert Due(row, now) ==> Claimed(row, now).aura - row.aura == StimulusOf(row, now);
  }

  function StimulusOf(row: User, now: int): int { StimulusAmount(NextStreak(row, now)) }

  // The run is maximal: it is a block of consecutive days, and the day before it was not granted.
  lemma {:induction false} TrailingRunIsMaximal(days: seq<int>)
    requires days != [] && Increasing(days)
    ensures var n := TrailingRun(days);
            && 1 <= n <= |days|
            && (forall i :: |days| - n <= i < |days| ==> days[i] == days[|days| - 1] - (|days| - 1 - i))
            && (n < |days| ==> days[|days| - n - 1] < days[|days| - n] - 1)
  {
    if |days| >= 2 && days[|days| - 1] == days[|days| - 2] + 1 {
      var rest := days[..|days| - 1];
      TrailingRunIsMaximal(rest);
    }
  }

  function AmountsUpTo(n: nat): int { if n == 0 then 0 else AmountsUpTo(n - 1) + StimulusAmount(n) }

  // An n-day streak pays 10n + 5n(n-1)/2 up to nine days and 50 a day after that.
  lemma {:induction false} StreakPays(n: nat)
    ensures 2 * AmountsUpTo(n) == if n <= 9 then 20 * n + 5 * n * (n - 1) else 540 + 100 * (n - 9)
  {
    if n > 0 {
      StreakPays(n - 1);
      if n <= 9 { assert 5 * n * (n - 1) == 5 * (n - 1) * (n - 2) + 10 * (n - 1); }
    }
  }

  // What was paid is what was paid before the current streak, and the streak's own sum.
  lemma {:induction false} PaidSplitsAtStreak(days: seq<int>)
    ensures TrailingRun(days) <= |days|
    ensures Paid(days) == Paid(days[..|days| - TrailingRun(days)]) + AmountsUpTo(TrailingRun(days))
  {
    if days != [] {
      var rest := days[..|days| - 1];
      PaidSplitsAtStreak(rest);
      var n := TrailingRun(days);
      if n > 1 {
        assert rest[..|rest| - TrailingRun(rest)] == days[..|days| - n];
      } else {
        assert AmountsUpTo(1) == StimulusAmount(1) + AmountsUpTo(0);
      }
    }
  }
}
