// One duel, told by its log alone. The log is the independent account: damage, combos, times and
// prompts are recomputed from it, and `Describes` says the live match agrees with that account.
module FightClubDuel {
  import opened Wrappers
  import opened FightPrompt
  import opened FightClub

  // ----- reading a log -----

  function DropLast<T>(xs: seq<T>): seq<T>
    requires xs != []
  {
    xs[..|xs| - 1]
  }

  function Last<T>(xs: seq<T>): T
    requires xs != []
  {
    xs[|xs| - 1]
  }

  // The times of the hits one player landed.
  function Times(log: seq<Swing>, by1: bool): seq<int> {
    if log == [] then []
    else
      var rest := Times(DropLast(log), by1);
      match Last(log)
      case Landed(b, _, at, _) => if b == by1 then rest + [at] else rest
      case Missed(_, _) => rest
  }

  function Dealt(log: seq<Swing>, by1: bool): nat {
    if log == [] then 0
    else
      var rest := Dealt(DropLast(log), by1);
      match Last(log)
      case Landed(b, _, _, damage) => if b == by1 then rest + damage else rest
      case Missed(_, _) => rest
  }

  function Crits(log: seq<Swing>, by1: bool): nat {
    if log == [] then 0
    else Crits(DropLast(log), by1) + if Last(log).Landed? && Last(log).by1 == by1 && Last(log).damage == 5 then 1 else 0
  }

  // Hits in a row since this player's last crit, own miss, or hit taken.
  function Streak(log: seq<Swing>, by1: bool): nat {
    if log == [] then 0
    else
      match Last(log)
      case Landed(b, _, _, damage) => if b != by1 || damage == 5 then 0 else Streak(DropLast(log), by1) + 1
      case Missed(b, _) => if b == by1 then 0 else Streak(DropLast(log), by1)
  }

  function LastHit(log: seq<Swing>, by1: bool): int {
    var ts := Times(log, by1);
    if ts == [] then 0 else Last(ts)
  }

  // When the current prompt was sent: at the last landed hit, else at the start.
  function PromptSent(d: Duel): int
    decreases |d.swings|
  {
    if d.swings == [] then d.startedAt
    else if Last(d.swings).Landed? then Last(d.swings).at
    else PromptSent(Duel(d.startedAt, DropLast(d.swings)))
  }

  function StunEnd(log: seq<Swing>, by1: bool): int {
    if log == [] then 0
    else
      match Last(log)
      case Missed(b, at) => if b == by1 then at + 1000 else StunEnd(DropLast(log), by1)
      case Landed(_, _, _, _) => StunEnd(DropLast(log), by1)
  }

  predicate UsedPrompt(log: seq<Swing>, promptId: string) {
    exists i :: 0 <= i < |log| && log[i].Landed? && log[i].prompt.promptId == promptId
  }

  // The key of the last landed hit, "" before the first.
  function LastKey(log: seq<Swing>): Key {
    if log == [] then ""
    else if Last(log).Landed? then Last(log).prompt.key
    else LastKey(DropLast(log))
  }

  // ----- the rules of a duel -----

  predicate Legal(d: Duel, w: Swing) {
    match w
    case Missed(by1, at) =>
      at >= StunEnd(d.swings, by1) && at - LastHit(d.swings, by1) >= 150
    case Landed(by1, prompt, at, damage) =>
      && at >= StunEnd(d.swings, by1) && at - LastHit(d.swings, by1) >= 150
      && prompt.sentAt == PromptSent(d) && at - prompt.sentAt >= 120
      && damage == (if Streak(d.swings, by1) == 2 then 5 else 1)
      && !UsedPrompt(d.swings, prompt.promptId)
      && prompt.key != LastKey(d.swings)
  }

  predicate Fair(d: Duel)
    decreases |d.swings|
  {
    d.swings == [] ||
    var before := Duel(d.startedAt, DropLast(d.swings));
    Fair(before) && Legal(before, Last(d.swings))
  }

  function Extend(d: Duel, w: Swing): Duel { d.(swings := d.swings + [w]) }

  lemma FairExtends(d: Duel, w: Swing)
    requires Fair(d) && Legal(d, w)
    ensures Fair(Extend(d, w))
  {
    var d' := Extend(d, w);
    assert DropLast(d'.swings) == d.swings;
    assert Duel(d'.startedAt, DropLast(d'.swings)) == d;
  }

  // ----- what the rules imply for whole duels -----

  // Nobody has a combo of three, and never both players have one.
  lemma {:induction false} OneComboAtATime(d: Duel)
    requires Fair(d)
    ensures Streak(d.swings, true) <= 2 && Streak(d.swings, false) <= 2
    ensures Streak(d.swings, true) == 0 || Streak(d.swings, false) == 0
    decreases |d.swings|
  {
    if d.swings != [] {
      OneComboAtATime(Duel(d.startedAt, DropLast(d.swings)));
    }
  }

  lemma {:induction false} TimesSplit(log: seq<Swing>)
    ensures |Times(log, true)| + |Times(log, false)| <= |log|
    ensures forall by1, i :: 0 <= i < |log| && log[i].Landed? && log[i].by1 == by1 ==> log[i].at in Times(log, by1)
  {
    if log != [] {
      TimesSplit(DropLast(log));
      forall by1, i | 0 <= i < |log| && log[i].Landed? && log[i].by1 == by1 ensures log[i].at in Times(log, by1) {
        if i < |log| - 1 { assert DropLast(log)[i] == log[i]; }
      }
    }
  }

  // A hit is one damage, a crit five, and crits cost three hits each.
  lemma {:induction false} DamageAccount(d: Duel, by1: bool)
    requires Fair(d)
    ensures Dealt(d.swings, by1) == |Times(d.swings, by1)| + 4 * Crits(d.swings, by1)
    ensures 3 * Crits(d.swings, by1) + Streak(d.swings, by1) <= |Times(d.swings, by1)|
    decreases |d.swings|
  {
    if d.swings != [] {
      DamageAccount(Duel(d.startedAt, DropLast(d.swings)), by1);
    }
  }

  // Thirty damage takes at least fourteen landed hits.
  lemma ThirtyDamageTakesFourteenHits(d: Duel, by1: bool)
    requires Fair(d) && Dealt(d.swings, by1) >= 30
    ensures |Times(d.swings, by1)| >= 14
  {
    DamageAccount(d, by1);
  }

  // While nobody has taken 30 damage, at most 58 hits have landed.
  lemma FewHitsWhileBothStand(d: Duel)
    requires Fair(d) && Dealt(d.swings, true) <= 29 && Dealt(d.swings, false) <= 29
    ensures |Times(d.swings, true)| + |Times(d.swings, false)| <= 58
  {
    DamageAccount(d, true);
    DamageAccount(d, false);
  }

  // Every landed hit is at least 120 ms after the start and after every earlier landed hit,
  // whatever the clock did in between.
  lemma {:induction false} LandingsAreSpaced(d: Duel, j: nat)
    requires Fair(d) && j < |d.swings| && d.swings[j].Landed?
    ensures d.swings[j].at >= d.startedAt + 120
    ensures forall i :: 0 <= i < j && d.swings[i].Landed? ==> d.swings[j].at >= d.swings[i].at + 120
    ensures PromptSent(d) >= d.swings[j].at
    decreases |d.swings|
  {
    var before := Duel(d.startedAt, DropLast(d.swings));
    if j < |d.swings| - 1 {
      LandingsAreSpaced(before, j);
    } else {
      PromptNotBeforeStart(before);
      forall i | 0 <= i < j && d.swings[i].Landed? ensures d.swings[j].at >= d.swings[i].at + 120 {
        assert before.swings[i] == d.swings[i];
        LandingsAreSpaced(before, i);
      }
    }
  }

  lemma {:induction false} PromptNotBeforeStart(d: Duel)
    requires Fair(d)
    ensures PromptSent(d) >= d.startedAt
    decreases |d.swings|
  {
    if d.swings != [] {
      PromptNotBeforeStart(Duel(d.startedAt, DropLast(d.swings)));
    }
  }

  // One player's landed hits are at least 150 ms apart, and the first is at least 120 ms after the start.
  lemma {:induction false} OwnHitsAreSpaced(d: Duel, by1: bool)
    requires Fair(d)
    ensures var ts := Times(d.swings, by1);
            (ts != [] ==> ts[0] >= d.startedAt + 120) &&
            forall i, j :: 0 <= i < j < |ts| ==> ts[j] >= ts[i] + 150 * (j - i)
    decreases |d.swings|
  {
    if d.swings != [] {
      var before := Duel(d.startedAt, DropLast(d.swings));
      OwnHitsAreSpaced(before, by1);
      PromptNotBeforeStart(before);
    }
  }

  // A swing of a player who missed at t comes at t + 1000 or later, and never within the 150 ms of a landed hit.
  lemma {:induction false} StunIsServed(d: Duel, i: nat, j: nat)
    requires Fair(d) && i < j < |d.swings| && d.swings[i].by1 == d.swings[j].by1
    ensures d.swings[i].Missed? ==> d.swings[j].at >= d.swings[i].at + 1000
    ensures d.swings[i].Landed? ==> d.swings[j].at >= d.swings[i].at + 150
    decreases |d.swings|
  {
    var before := Duel(d.startedAt, DropLast(d.swings));
    assert before.swings[i] == d.swings[i];
    if j < |d.swings| - 1 {
      assert before.swings[j] == d.swings[j];
      StunIsServed(before, i, j);
    } else {
      LaterThan(before, i);
    }
  }

  lemma {:induction false} LaterThan(d: Duel, i: nat)
    requires Fair(d) && i < |d.swings|
    ensures d.swings[i].Missed? ==> StunEnd(d.swings, d.swings[i].by1) >= d.swings[i].at + 1000
    ensures d.swings[i].Landed? ==> LastHit(d.swings, d.swings[i].by1) >= d.swings[i].at
    decreases |d.swings|
  {
    var before := Duel(d.startedAt, DropLast(d.swings));
    if i < |d.swings| - 1 {
      assert before.swings[i] == d.swings[i];
      LaterThan(before, i);
    }
  }

  // A prompt lands at most one hit, across both players, and two hits in a row never share a key.
  lemma {:induction false} PromptsLandOnce(d: Duel, i: nat, j: nat)
    requires Fair(d) && i < j < |d.swings| && d.swings[i].Landed? && d.swings[j].Landed?
    ensures d.swings[i].prompt.promptId != d.swings[j].prompt.promptId
    ensures (forall k :: i < k < j ==> !d.swings[k].Landed?) ==> d.swings[i].prompt.key != d.swings[j].prompt.key
    decreases |d.swings|
  {
    var before := Duel(d.startedAt, DropLast(d.swings));
    assert forall k :: 0 <= k < |before.swings| ==> before.swings[k] == d.swings[k];
    if j < |d.swings| - 1 {
      PromptsLandOnce(before, i, j);
    } else if forall k :: i < k < j ==> !d.swings[k].Landed? {
      LastKeyIs(before.swings, i);
    }
  }

  lemma {:induction false} LastKeyIs(log: seq<Swing>, i: nat)
    requires i < |log| && log[i].Landed? && forall k :: i < k < |log| ==> !log[k].Landed?
    ensures LastKey(log) == log[i].prompt.key
  {
    if i < |log| - 1 {
      LastKeyIs(DropLast(log), i);
    }
  }

  // ----- knockouts -----

  // What the log of a knocked-out match says: the winner's last hit ended it.
  ghost predicate KnockedOut(d: Duel, by1: bool) {
    && Fair(d) && d.swings != [] && Last(d.swings).Landed? && Last(d.swings).by1 == by1
    && Dealt(d.swings, by1) >= 30
    && Dealt(DropLast(d.swings), true) <= 29 && Dealt(DropLast(d.swings), false) <= 29
  }

  // A knockout needs 14 hits by the winner, takes at least 2070 ms, and comes within 59 landed hits.
  lemma KnockoutBounds(d: Duel, by1: bool)
    requires KnockedOut(d, by1)
    ensures |Times(d.swings, by1)| >= 14
    ensures Last(d.swings).at >= d.startedAt + 2070
    ensures |Times(d.swings, true)| + |Times(d.swings, false)| <= 59
  {
    ThirtyDamageTakesFourteenHits(d, by1);
    OwnHitsAreSpaced(d, by1);
    var ts := Times(d.swings, by1);
    assert Last(ts) == Last(d.swings).at;
    assert ts[|ts| - 1] >= ts[0] + 150 * (|ts| - 1);
    FewHitsWhileBothStand(Duel(d.startedAt, DropLast(d.swings)));
  }

  // ----- the bounds are sharp -----

  function Name(n: nat): (s: string)
    ensures |s| == n
  {
    if n == 0 then "" else Name(n - 1) + "x"
  }

  function TurnKey(n: nat): Key { if n % 2 == 0 then "A" else "B" }

  const START := 1000

  // The fastest duel the rules allow: player 1 lands every prompt as soon as the cooldown is over.
  function Fastest(n: nat): (d: Duel)
    ensures |d.swings| == n
  {
    if n == 0 then Duel(START, []) else Extend(Fastest(n - 1), NthHit(n))
  }

  function NthHit(n: nat): Swing
    requires n > 0
  {
    Landed(true, Prompt(Name(n), TurnKey(n), if n == 1 then START else START + 120 + 150 * (n - 2)),
           START + 120 + 150 * (n - 1), if n % 3 == 0 then 5 else 1)
  }

  lemma {:induction false} FastestShape(n: nat)
    ensures var d := Fastest(n);
            && d.startedAt == START && PromptSent(d) == (if n == 0 then START else START + 120 + 150 * (n - 1))
            && LastKey(d.swings) == (if n == 0 then "" else TurnKey(n)) && StunEnd(d.swings, true) == 0
            && (forall i :: 0 <= i < n ==> d.swings[i].Landed? && |d.swings[i].prompt.promptId| <= n)
  {
    if n > 0 {
      FastestShape(n - 1);
      assert DropLast(Fastest(n).swings) == Fastest(n - 1).swings;
    }
  }

  lemma AfterOwnHit(log: seq<Swing>, w: Swing)
    requires w.Landed? && w.by1
    ensures Times(log + [w], true) == Times(log, true) + [w.at] && Times(log + [w], false) == Times(log, false)
    ensures Streak(log + [w], true) == if w.damage == 5 then 0 else Streak(log, true) + 1
    ensures Dealt(log + [w], true) == Dealt(log, true) + w.damage && Dealt(log + [w], false) == Dealt(log, false)
  {
    assert DropLast(log + [w]) == log;
  }

  lemma {:induction false} FastestTimes(n: nat)
    ensures var log := Fastest(n).swings;
            && Streak(log, true) == n % 3 && |Times(log, true)| == n && Times(log, false) == []
            && LastHit(log, true) == (if n == 0 then 0 else START + 120 + 150 * (n - 1))
            && Dealt(log, true) == n + 4 * (n / 3) && Dealt(log, false) == 0
  {
    if n > 0 {
      hide Streak, Times, Dealt;
      FastestTimes(n - 1);
      var log, w := Fastest(n - 1).swings, NthHit(n);
      AfterOwnHit(log, w);
      assert Fastest(n).swings == log + [w];
      assert w.at == START + 120 + 150 * (n - 1) && w.damage == if n % 3 == 0 then 5 else 1;
      assert n / 3 == (n - 1) / 3 + if n % 3 == 0 then 1 else 0;
      hide Fastest, NthHit;
    }
  }

  lemma {:induction false} FastestIsFair(n: nat)
    ensures Fair(Fastest(n))
  {
    if n > 0 {
      FastestIsFair(n - 1);
      FastestShape(n - 1);
      FastestTimes(n - 1);
      NthHitIsLegal(Fastest(n - 1), n);
      FairExtends(Fastest(n - 1), NthHit(n));
      hide Fair;
    }
  }

  lemma NthHitIsLegal(d: Duel, n: nat)
    requires n > 0 && PromptSent(d) == (if n == 1 then START else START + 120 + 150 * (n - 2))
    requires LastKey(d.swings) == (if n == 1 then "" else TurnKey(n - 1)) && StunEnd(d.swings, true) == 0
    requires forall i :: 0 <= i < |d.swings| ==> d.swings[i].Landed? && |d.swings[i].prompt.promptId| < n
    requires Streak(d.swings, true) == (n - 1) % 3
    requires LastHit(d.swings, true) == (if n == 1 then 0 else START + 120 + 150 * (n - 2))
    ensures Legal(d, NthHit(n))
  {
    hide Streak, LastHit, PromptSent, LastKey, StunEnd, UsedPrompt, Name, TurnKey;
    NewName(d.swings, n);
    KeysTakeTurns(n);
    CritsTakeTurns(n);
  }

  lemma NewName(log: seq<Swing>, n: nat)
    requires forall i :: 0 <= i < |log| ==> log[i].Landed? && |log[i].prompt.promptId| < n
    ensures !UsedPrompt(log, Name(n))
  {
    hide Name;
  }

  lemma KeysTakeTurns(n: nat)
    requires n > 0
    ensures TurnKey(n) != "" && (n > 1 ==> TurnKey(n) != TurnKey(n - 1))
  {}

  lemma CritsTakeTurns(n: nat)
    requires n > 0
    ensures (n - 1) % 3 == 2 <==> n % 3 == 0
  {}

  // The longest duel the rules allow: the players take turns, so nobody ever gets a crit.
  function Longest(n: nat): (d: Duel)
    ensures |d.swings| == n
  {
    if n == 0 then Duel(START, []) else Extend(Longest(n - 1), TurnHit(n))
  }

  function TurnHit(n: nat): Swing
    requires n > 0
  {
    Landed(n % 2 == 1, Prompt(Name(n), TurnKey(n), START + 120 * (n - 1)), START + 120 * n, 1)
  }

  lemma {:induction false} LongestShape(n: nat)
    ensures var d := Longest(n);
            && d.startedAt == START && PromptSent(d) == START + 120 * n
            && LastKey(d.swings) == (if n == 0 then "" else TurnKey(n))
            && StunEnd(d.swings, true) == 0 && StunEnd(d.swings, false) == 0
            && (forall i :: 0 <= i < n ==> d.swings[i].Landed? && |d.swings[i].prompt.promptId| <= n)
  {
    if n > 0 {
      LongestShape(n - 1);
      assert DropLast(Longest(n).swings) == Longest(n - 1).swings;
    }
  }

  lemma AfterHit(log: seq<Swing>, w: Swing)
    requires w.Landed? && w.damage == 1
    ensures Times(log + [w], w.by1) == Times(log, w.by1) + [w.at] && Times(log + [w], !w.by1) == Times(log, !w.by1)
    ensures Streak(log + [w], w.by1) == Streak(log, w.by1) + 1 && Streak(log + [w], !w.by1) == 0
    ensures Dealt(log + [w], w.by1) == Dealt(log, w.by1) + 1 && Dealt(log + [w], !w.by1) == Dealt(log, !w.by1)
  {
    assert DropLast(log + [w]) == log;
  }

  lemma TurnOver(n: nat)
    requires n > 0
    ensures (n - 1) % 2 == 0 <==> n % 2 == 1
    ensures (n + 1) / 2 == n / 2 + (if n % 2 == 1 then 1 else 0) && n / 2 == (n - 1) / 2 + (if n % 2 == 1 then 0 else 1)
  {}

  lemma LongestGrows(n: nat)
    requires n > 0
    ensures var w := TurnHit(n);
            && Longest(n).swings == Longest(n - 1).swings + [w]
            && w.Landed? && w.by1 == (n % 2 == 1) && w.at == START + 120 * n && w.damage == 1
  {
    hide Longest;
    assert Longest(n) == Extend(Longest(n - 1), TurnHit(n)) by { LongestIs(n); }
  }

  lemma LongestIs(n: nat)
    requires n > 0
    ensures Longest(n) == Extend(Longest(n - 1), TurnHit(n))
  {
    hide TurnHit;
  }

  // `by1` is about to hit.
  lemma {:induction false} LongestTimes(n: nat)
    ensures var log, by1 := Longest(n).swings, n % 2 == 0;
            && Streak(log, by1) == 0
            && |Times(log, true)| == Dealt(log, true) == (n + 1) / 2 &&
               |Times(log, false)| == Dealt(log, false) == n / 2
            && LastHit(log, by1) == (if n < 2 then 0 else START + 120 * (n - 1))
            && LastHit(log, !by1) == (if n == 0 then 0 else START + 120 * n)
  {
    if n > 0 {
      hide Streak, Times, Dealt, Longest, TurnHit;
      LongestTimes(n - 1);
      LongestGrows(n);
      AfterHit(Longest(n - 1).swings, TurnHit(n));
      TurnOver(n);
    } else {
      assert Longest(0).swings == [];
    }
  }

  lemma TurnHitIsLegal(d: Duel, n: nat)
    requires n > 0 && PromptSent(d) == START + 120 * (n - 1)
    requires LastKey(d.swings) == (if n == 1 then "" else TurnKey(n - 1)) && StunEnd(d.swings, n % 2 == 1) == 0
    requires forall i :: 0 <= i < |d.swings| ==> d.swings[i].Landed? && |d.swings[i].prompt.promptId| < n
    requires Streak(d.swings, n % 2 == 1) == 0
    requires LastHit(d.swings, n % 2 == 1) == (if n <= 2 then 0 else START + 120 * (n - 2))
    ensures Legal(d, TurnHit(n))
  {
    hide Streak, LastHit, PromptSent, LastKey, StunEnd, UsedPrompt, Name, TurnKey;
    NewName(d.swings, n);
    KeysTakeTurns(n);
  }

  lemma {:induction false} LongestIsFair(n: nat)
    ensures Fair(Longest(n))
  {
    hide Legal, Streak, LastHit, PromptSent, LastKey, StunEnd, Times, Dealt, TurnHit;
    if n > 0 {
      var d := Longest(n - 1);
      assert Longest(n) == Extend(d, TurnHit(n));
      hide Fair, Longest, Extend;
      LongestIsFair(n - 1);
      LongestShape(n - 1);
      LongestTimes(n - 1);
      TurnOver(n);
      TurnHitIsLegal(d, n);
      FairExtends(d, TurnHit(n));
    }
  }

  lemma FastestSnoc(n: nat)
    requires n > 0
    ensures DropLast(Fastest(n).swings) == Fastest(n - 1).swings && Last(Fastest(n).swings) == NthHit(n)
    ensures DropLast(Longest(n).swings) == Longest(n - 1).swings && Last(Longest(n).swings) == TurnHit(n)
  {
    hide NthHit, TurnHit;
  }

  lemma FastestKnocksOut(n: nat)
    requires n == 14
    ensures var d := Fastest(n);
            KnockedOut(d, true) && |Times(d.swings, true)| == 14 && Last(d.swings).at == d.startedAt + 2070
  {
    hide Fair, Times, Dealt, Streak, StunEnd, PromptSent, LastKey, Fastest, LastHit;
    FastestIsFair(n);
    FastestTimes(n);
    FastestTimes(n - 1);
    FastestShape(n);
    FastestSnoc(n);
  }

  lemma LongestKnocksOut(n: nat)
    requires n == 59
    ensures var d := Longest(n);
            KnockedOut(d, true) && |Times(d.swings, true)| + |Times(d.swings, false)| == 59
  {
    hide Fair, Times, Dealt, Streak, StunEnd, PromptSent, LastKey, Longest, LastHit;
    LongestIsFair(n);
    LongestTimes(n);
    LongestTimes(n - 1);
    FastestSnoc(n);
  }

  // Every bound of KnockoutBounds is met: fourteen hits, the last 2070 ms after the start; and 59 hits.
  lemma KnockoutBoundsAreSharp()
    ensures exists d :: KnockedOut(d, true) && |Times(d.swings, true)| == 14 && Last(d.swings).at == d.startedAt + 2070
    ensures exists d :: KnockedOut(d, true) && |Times(d.swings, true)| + |Times(d.swings, false)| == 59
  {
    hide KnockedOut, Times, Fastest, Longest;
    FastestKnocksOut(14);
    LongestKnocksOut(59);
  }

  // ----- the live match against its log -----

  ghost predicate DescribesPlayer(p: Player, d: Duel, by1: bool) {
    && p.hp == Max(0, 30 - Dealt(d.swings, !by1))
    && p.combo == Streak(d.swings, by1)
    && p.hitTimestamps == LastN(Times(d.swings, by1), 11)
    && p.lastHitAt == LastHit(d.swings, by1)
    && p.stunnedUntil == StunEnd(d.swings, by1)
  }

  predicate IsLetter(key: Key) { |key| == 1 && 'A' <= key[0] <= 'Z' }

  ghost predicate Describes(m: Match, d: Duel) {
    && Fair(d)
    && DescribesPlayer(m.player1, d, true) && DescribesPlayer(m.player2, d, false)
    && m.prompt.sentAt == PromptSent(d)
    && !UsedPrompt(d.swings, m.prompt.promptId)
    && m.prompt.key != LastKey(d.swings) && IsLetter(m.prompt.key)
  }

  lemma PushKeepsTheLastEleven(ts: seq<int>, t: int)
    ensures Push(LastN(ts, 11), t) == LastN(ts + [t], 11)
  {}

  lemma StartDescribes(m: Match, now: int, promptId: string, roll: nat)
    requires roll < 26
    requires m.player1.hp == m.player2.hp == 30 && m.player1.combo == m.player2.combo == 0
    requires m.player1.hitTimestamps == m.player2.hitTimestamps == []
    requires m.player1.lastHitAt == m.player2.lastHitAt == 0
    requires m.player1.stunnedUntil == m.player2.stunnedUntil == 0
    ensures Describes(m.(prompt := CreatePrompt(now, "", promptId, roll), status := Fighting), Duel(now, []))
  {}

  lemma AfterMiss(d: Duel, first: bool, at: int)
    ensures var e := Extend(d, Missed(first, at));
            && Times(e.swings, true) == Times(d.swings, true) && Times(e.swings, false) == Times(d.swings, false)
            && Dealt(e.swings, true) == Dealt(d.swings, true) && Dealt(e.swings, false) == Dealt(d.swings, false)
            && Streak(e.swings, first) == 0 && Streak(e.swings, !first) == Streak(d.swings, !first)
            && StunEnd(e.swings, first) == at + 1000 && StunEnd(e.swings, !first) == StunEnd(d.swings, !first)
            && PromptSent(e) == PromptSent(d) && LastKey(e.swings) == LastKey(d.swings)
            && forall id :: UsedPrompt(e.swings, id) <==> UsedPrompt(d.swings, id)
  {
    var w := Missed(first, at);
    var log := d.swings + [w];
    assert DropLast(log) == d.swings;
    assert Duel(d.startedAt, d.swings) == d;
    forall id ensures UsedPrompt(log, id) <==> UsedPrompt(d.swings, id) {
      assert forall i :: 0 <= i < |log| ==> log[i] == if i < |d.swings| then d.swings[i] else w;
    }
  }

  lemma MissDescribes(m: Match, d: Duel, first: bool, now: int)
    requires Describes(m, d)
    requires now >= Seat(m, first).stunnedUntil && now - Seat(m, first).lastHitAt >= HIT_COOLDOWN_MS
    ensures Describes(MissHit(m, first, now), Extend(d, Missed(first, now)))
  {
    AfterMiss(d, first, now);
    FairExtends(d, Missed(first, now));
    hide Times, Dealt, Streak, StunEnd, PromptSent, LastKey, UsedPrompt, Fair;
  }

  lemma LandDescribesPlayers(m: Match, d: Duel, first: bool, now: int, next: Prompt, w: Swing)
    requires Describes(m, d)
    requires w == Landed(first, m.prompt, now, Damage(Seat(m, first)))
    ensures var m' := LandHit(m, first, now, next);
            DescribesPlayer(m'.player1, Extend(d, w), true) && DescribesPlayer(m'.player2, Extend(d, w), false)
  {
    OneComboAtATime(d);
    assert DropLast(d.swings + [w]) == d.swings;
    PushKeepsTheLastEleven(Times(d.swings, first), now);
    hide Fair, Push, PromptSent, LastKey, UsedPrompt, LastN;
  }

  lemma LandDescribesPrompt(d: Duel, w: Swing, next: Prompt)
    requires w.Landed? && !UsedPrompt(d.swings, next.promptId) && next.promptId != w.prompt.promptId
    ensures !UsedPrompt(Extend(d, w).swings, next.promptId)
  {
    var log := d.swings + [w];
    assert forall i :: 0 <= i < |log| ==> log[i] == if i < |d.swings| then d.swings[i] else w;
  }

  lemma LandDescribes(m: Match, d: Duel, first: bool, now: int, next: Prompt)
    requires Describes(m, d)
    requires now >= Seat(m, first).stunnedUntil && now - Seat(m, first).lastHitAt >= HIT_COOLDOWN_MS
    requires now - m.prompt.sentAt >= MIN_REACTION_MS
    requires next.sentAt == now && IsLetter(next.key) && next.key != m.prompt.key
    requires !UsedPrompt(d.swings, next.promptId) && next.promptId != m.prompt.promptId
    ensures Describes(LandHit(m, first, now, next), Extend(d, Landed(first, m.prompt, now, Damage(Seat(m, first)))))
  {
    var w := Landed(first, m.prompt, now, Damage(Seat(m, first)));
    LandDescribesPlayers(m, d, first, now, next, w);
    LandDescribesPrompt(d, w, next);
    OneComboAtATime(d);
    FairExtends(d, w);
  }

  // The sum of both hp is a strictly decreasing measure of landed hits.
  lemma LandedHitsDrainHp(m: Match, d: Duel, first: bool, now: int, next: Prompt)
    requires Describes(m, d) && m.player1.hp > 0 && m.player2.hp > 0
    ensures var m' := LandHit(m, first, now, next);
            0 <= m'.player1.hp + m'.player2.hp < m.player1.hp + m.player2.hp
  {}

  // A landed hit that takes the last hp is a knockout in the sense of the log.
  lemma KnockoutIsKnockedOut(m: Match, d: Duel, first: bool, now: int, next: Prompt)
    requires Describes(m, d) && m.player1.hp >= 1 && m.player2.hp >= 1
    requires var d' := Extend(d, Landed(first, m.prompt, now, Damage(Seat(m, first))));
             Describes(LandHit(m, first, now, next), d')
    requires Seat(LandHit(m, first, now, next), !first).hp == 0
    ensures KnockedOut(Extend(d, Landed(first, m.prompt, now, Damage(Seat(m, first)))), first)
  {
    var w := Landed(first, m.prompt, now, Damage(Seat(m, first)));
    assert DropLast(d.swings + [w]) == d.swings;
  }
}
