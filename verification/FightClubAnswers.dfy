// What every event of the fight club answers, said of the fields of the state and of the log alone.
module FightClubAnswers {
  import opened Wrappers
  import opened FightPrompt
  import opened FightClub
  import opened FightClubDuel
  import opened FightClubInvariant
  import opened FightClubSteps
  import opened FightClubRuns

  function Side(m: Match, first: bool): Player { if first then m.player1 else m.player2 }

  predicate Fights(s: State, id: MatchId) { id in s.matches && s.matches[id].status == Fighting }

  predicate SitsOn(m: Match, first: bool, u: UserId, socketId: SocketId) {
    Side(m, first).id == u && Side(m, first).socketId == socketId
  }

  // ----- a key is hit -----

  // The user may answer the prompt that is up, on this socket and at this time.
  predicate MaySwing(s: State, u: UserId, socketId: SocketId, dto: HitDto, now: int, first: bool) {
    && Fights(s, dto.matchId)
    && var m := s.matches[dto.matchId];
       && SitsOn(m, first, u, socketId)
       && now >= Side(m, first).stunnedUntil && now - Side(m, first).lastHitAt >= 150
       && dto.promptId == m.prompt.promptId
  }

  // The letter itself, in upper or lower case, or one of the two others whose capital it is.
  predicate Types(k: char, key: Key) {
    |key| == 1 &&
    (k == key[0] || k as int == key[0] as int + 32 || (k == '\U{0131}' && key == "I") ||
     (k == '\U{017F}' && key == "S"))
  }

  predicate Answers(m: Match, dto: HitDto, now: int) { now - m.prompt.sentAt >= 120 && Types(dto.k, m.prompt.key) }

  function Blow(m: Match, d: Duel, first: bool, now: int): Swing {
    Landed(first, m.prompt, now, if Streak(d.swings, first) == 2 then 5 else 1)
  }

  predicate Gains(s: State, t: State, id: MatchId, w: Swing) {
    id in s.duels && t.duels == s.duels[id := Duel(s.duels[id].startedAt, s.duels[id].swings + [w])]
  }

  lemma UpperIsTyped(k: char, key: Key)
    requires IsLetter(key)
    ensures [ToUpper(k)] == key <==> Types(k, key)
  {
    assert [ToUpper(k)][0] == ToUpper(k);
    if ToUpper(k) == key[0] { assert [ToUpper(k)] == key; }
  }

  // The player who may swing is the one that the handler looks at.
  lemma Screened(s: State, u: UserId, socketId: SocketId, dto: HitDto, now: int)
    requires Inv(s)
    ensures Screen(s, u, socketId, dto, now).None? <==>
            MaySwing(s, u, socketId, dto, now, true) || MaySwing(s, u, socketId, dto, now, false)
    ensures Fights(s, dto.matchId) ==>
              var m := s.matches[dto.matchId];
              && dto.matchId in s.duels && m.matchId == dto.matchId && MatchOk(m) && Describes(m, s.duels[dto.matchId])
              && (TooFastOrWrong(m, dto, now) <==> !Answers(m, dto, now))
              && (MaySwing(s, u, socketId, dto, now, true) ==> m.player1.id == u)
              && (MaySwing(s, u, socketId, dto, now, false) ==> m.player1.id != u && m.player2.id == u)
  {
    hide TimersOk, SettlesOk, CallsOk, VerdictsOk, StartsOk, CadenceOk, Fair, UsedPrompt;
    assert Shape(s);
    if Fights(s, dto.matchId) {
      var m := s.matches[dto.matchId];
      assert MatchOk(m) && DuelOk(s, m);
      hide DescribesPlayer, MatchesOk, DuelsOk;
      UpperIsTyped(dto.k, m.prompt.key);
      hide ToUpper, Types;
    }
  }

  // All else stays as it is: everything but this match, its log, the calls, the frames, the ids and the warnings.
  ghost predicate OnlyFight(s: State, t: State, id: MatchId) {
    && id in s.matches && id in t.matches && t.matches == s.matches[id := t.matches[id]]
    && t.order == s.order && t.timers == s.timers && t.armed == s.armed && t.tick == s.tick + 1
    && t.created == s.created && t.closed == s.closed && t.lastJoin == s.lastJoin
    && t.verdicts == s.verdicts && t.emitted == s.emitted
  }

  predicate SamePlayer(p: Player, q: Player) {
    p.id == q.id && p.username == q.username && p.socketId == q.socketId && p.joinedMatch == q.joinedMatch
  }

  predicate SameTable(m: Match, n: Match) {
    && n.matchId == m.matchId && n.title == m.title && n.stakeType == m.stakeType && n.stakeAmount == m.stakeAmount
    && SamePlayer(m.player1, n.player1) && SamePlayer(m.player2, n.player2)
  }

  // A landed hit: the match is the one its longer log tells, with a new prompt; the thirtieth damage ends it, with one
  // call that names the player who hit as winner.
  ghost predicate Lands(s: State, t: State, id: MatchId, first: bool, now: int, newId: string) {
    && OnlyFight(s, t, id) && id in s.duels
    && var m, n, w := s.matches[id], t.matches[id], Blow(s.matches[id], s.duels[id], first, now);
       var winner, loser := Side(m, first).id, Side(m, !first).id;
       && Gains(s, t, id, w) && SameTable(m, n) && Describes(n, t.duels[id])
       && n.prompt.promptId == newId && n.prompt.sentAt == now && n.prompt.key != m.prompt.key
       && t.minted == s.minted + {newId}
       && if Dealt(t.duels[id].swings, first) < 30
          then n.status == Fighting && t.calls == s.calls && t.frames == s.frames && t.next == s.next
          else
            && n.status == FightOver
            && t.calls == s.calls + [Settle(id, winner, loser, m.stakeType, m.stakeAmount, m.player1.id, m.player2.id,
                                            Ko)]
            && t.frames == s.frames[s.next := AwaitSettle(id, winner, loser, Ko)] && t.next == s.next + 1
  }

  // What the room is told of it.
  function News(n: Match, d: Duel, first: bool, w: Swing): FightUpdate
    requires w.Landed?
  {
    FightUpdate(n.matchId,
                map[n.player1.id := Max(0, 30 - Dealt(d.swings, false)),
                    n.player2.id := Max(0, 30 - Dealt(d.swings, true))],
                map[n.player1.id := Streak(d.swings, true), n.player2.id := Streak(d.swings, false)],
                n.prompt.promptId, n.prompt.key, w.damage == 5, w.damage, Side(n, first).id)
  }

  ghost predicate Misses(s: State, t: State, id: MatchId, first: bool, now: int) {
    && OnlyFight(s, t, id) && id in s.duels
    && Gains(s, t, id, Missed(first, now)) && SameTable(s.matches[id], t.matches[id])
    && Describes(t.matches[id], t.duels[id])
    && t.matches[id].prompt == s.matches[id].prompt && t.matches[id].status == Fighting
    && t.calls == s.calls && t.frames == s.frames && t.next == s.next && t.minted == s.minted
    && t.cadence == s.cadence && t.warned == s.warned
  }

  lemma LandHitKeepsTable(m: Match, first: bool, now: int, next: Prompt)
    ensures var n := LandHit(m, first, now, next);
            SameTable(m, n) && n.prompt == next && n.status == m.status && SameTable(m, n.(status := FightOver))
  {}

  lemma LandResult(s: State, m: Match, first: bool, now: int, newId: string, roll: nat)
    requires m.matchId in s.duels && roll < 25
    ensures var n := LandHit(m, first, now, CreatePrompt(now, m.prompt.key, newId, roll));
            var update := ToUpdate(n, Side(m, first).combo + 1 == 3, Damage(Side(m, first)), Side(m, first).id);
            LandStep(s, m, first, now, newId, roll).1 ==
            if Side(n, !first).hp == 0 then KnockOut(update, Side(m, first).id, Side(m, !first).id) else Hit(update)
  {
    hide LandHit, CreatePrompt, Landing, BeginSettle, ToUpdate, Damage;
  }

  lemma BlowDescribes(m: Match, d: Duel, first: bool, now: int, next: Prompt)
    requires Describes(m, d) && next.sentAt == now && IsLetter(next.key) && next.key != m.prompt.key
    requires now >= Side(m, first).stunnedUntil && now - Side(m, first).lastHitAt >= 150 && now - m.prompt.sentAt >= 120
    requires !UsedPrompt(d.swings, next.promptId) && next.promptId != m.prompt.promptId
    ensures var n, e := LandHit(m, first, now, next), Extend(d, Blow(m, d, first, now));
            && Damage(Side(m, first)) == Blow(m, d, first, now).damage
            && (Side(m, first).combo + 1 == 3 <==> Blow(m, d, first, now).damage == 5)
            && Describes(n, e) && Describes(n.(status := FightOver), e)
            && (Side(n, !first).hp == 0 <==> Dealt(e.swings, first) >= 30)
  {
    OneComboAtATime(d);
    LandDescribes(m, d, first, now, next);
    hide Fair, Times, Dealt, Streak, StunEnd, LastHit, PromptSent, LastKey, UsedPrompt, LandHit;
  }

  lemma TellsLog(n: Match, e: Duel, first: bool, w: Swing)
    requires Describes(n, e) && w.Landed?
    ensures ToUpdate(n, w.damage == 5, w.damage, Side(n, first).id) == News(n, e, first, w)
  {
    hide Fair, Times, Dealt, Streak, StunEnd, LastHit, PromptSent, LastKey, UsedPrompt;
  }

  // What a landed hit is answered.
  ghost predicate Told(r: HitResult, m: Match, n: Match, d: Duel, first: bool, w: Swing)
    requires w.Landed?
  {
    r == if Dealt(Extend(d, w).swings, first) >= 30
         then KnockOut(News(n, Extend(d, w), first, w), Side(m, first).id, Side(m, !first).id)
         else Hit(News(n, Extend(d, w), first, w))
  }

  lemma LandIsTold(s: State, m: Match, d: Duel, first: bool, now: int, newId: string, roll: nat)
    requires m.matchId in s.duels && Describes(m, d) && roll < 25
    requires now >= Side(m, first).stunnedUntil && now - Side(m, first).lastHitAt >= 150 && now - m.prompt.sentAt >= 120
    requires !UsedPrompt(d.swings, newId) && newId != m.prompt.promptId
    ensures var n := LandHit(m, first, now, CreatePrompt(now, m.prompt.key, newId, roll));
            Told(LandStep(s, m, first, now, newId, roll).1, m, n, d, first, Blow(m, d, first, now))
  {
    var next := CreatePrompt(now, m.prompt.key, newId, roll);
    var n, w := LandHit(m, first, now, next), Blow(m, d, first, now);
    BlowDescribes(m, d, first, now, next);
    LandHitKeepsTable(m, first, now, next);
    LandResult(s, m, first, now, newId, roll);
    TellsLog(n, Extend(d, w), first, w);
    hide LandHit, LandStep, ToUpdate, News, Describes, Damage, UsedPrompt, Extend;
  }

  lemma StandingLands(s: State, t: State, m: Match, n: Match, first: bool, now: int, newId: string)
    requires m.matchId in s.matches && m == s.matches[m.matchId] && m.matchId in s.duels
    requires SwingEffect(s, t, n) && SameTable(m, n) && t.minted == s.minted + {newId}
    requires n.prompt.promptId == newId && n.prompt.sentAt == now && n.prompt.key != m.prompt.key
    requires var e := Extend(s.duels[m.matchId], Blow(m, s.duels[m.matchId], first, now));
             t.duels[m.matchId] == e && Describes(n, e) && Dealt(e.swings, first) < 30
    ensures Lands(s, t, m.matchId, first, now, newId)
  {
    hide Describes, Dealt, Flags, SameSeats, Streak;
  }

  lemma OverLands(s: State, t: State, m: Match, n: Match, first: bool, now: int, newId: string)
    requires m.matchId in s.matches && m == s.matches[m.matchId] && m.matchId in s.duels
    requires OverEffect(s, t, n, Side(m, first).id, Side(m, !first).id, Ko) && SameTable(m, n)
    requires t.minted == s.minted + {newId}
    requires n.prompt.promptId == newId && n.prompt.sentAt == now && n.prompt.key != m.prompt.key
    requires var e := Extend(s.duels[m.matchId], Blow(m, s.duels[m.matchId], first, now));
             t.duels[m.matchId] == e && Describes(n, e) && Dealt(e.swings, first) >= 30
    ensures Lands(s, t, m.matchId, first, now, newId)
  {
    hide Describes, Dealt, Flags, SameSeats, Streak;
  }

  lemma LandLands(s: State, m: Match, first: bool, now: int, newId: string, roll: nat)
    requires m.matchId in s.matches && m == s.matches[m.matchId] && m.status == Fighting && m.matchId in s.duels
    requires Describes(m, s.duels[m.matchId]) && MatchOk(m) && newId !in s.minted && roll < 25
    requires now >= Side(m, first).stunnedUntil && now - Side(m, first).lastHitAt >= 150 && now - m.prompt.sentAt >= 120
    requires !UsedPrompt(s.duels[m.matchId].swings, newId) && newId != m.prompt.promptId
    ensures Lands(s, Tick(LandStep(s, m, first, now, newId, roll).0), m.matchId, first, now, newId)
  {
    var next := CreatePrompt(now, m.prompt.key, newId, roll);
    var n := LandHit(m, first, now, next);
    BlowDescribes(m, s.duels[m.matchId], first, now, next);
    LandHitKeepsTable(m, first, now, next);
    LandHasEffect(s, m, first, now, newId, roll);
    var t := Tick(LandStep(s, m, first, now, newId, roll).0);
    hide LandStep, LandHit, CreatePrompt, Describes, Damage, Dealt, MatchOk, UsedPrompt, SwingEffect, OverEffect,
         Lands, Tick, SameTable, Streak;
    if Side(n, !first).hp != 0 {
      StandingLands(s, t, m, n, first, now, newId);
    } else {
      OverLands(s, t, m, n.(status := FightOver), first, now, newId);
    }
  }

  lemma MissMisses(s: State, m: Match, first: bool, now: int)
    requires m.matchId in s.matches && m == s.matches[m.matchId] && m.status == Fighting && m.matchId in s.duels
    requires Describes(m, s.duels[m.matchId])
    requires now >= Side(m, first).stunnedUntil && now - Side(m, first).lastHitAt >= 150
    ensures Misses(s, Tick(Log(PutMatch(s, MissHit(m, first, now)), m.matchId, Missed(first, now))), m.matchId, first,
                   now)
  {
    MissDescribes(m, s.duels[m.matchId], first, now);
    hide Describes;
  }

  lemma GainsOnce(s: State, t: State, id: MatchId, w: Swing)
    requires Gains(s, t, id, w)
    ensures t.duels != s.duels && forall v :: Gains(s, t, id, v) ==> v == w
  {
    assert t.duels[id].swings[|s.duels[id].swings|] == w;
    forall v | Gains(s, t, id, v) ensures v == w {
      assert t.duels[id].swings[|s.duels[id].swings|] == v;
    }
  }

  // New ids are new to the fight.
  lemma FreshPrompt(s: State, id: MatchId, newId: string)
    requires Inv(s) && Fights(s, id) && newId !in s.minted
    ensures id in s.duels && !UsedPrompt(s.duels[id].swings, newId) && newId != s.matches[id].prompt.promptId
  {
    hide TimersOk, SettlesOk, CallsOk, VerdictsOk, StartsOk, CadenceOk, Describes;
    assert DuelOk(s, s.matches[id]) && s.matches[id].matchId == id;
    assert PromptsMinted(s, s.duels[id]);
  }

  lemma LandAnswers(s: State, m: Match, first: bool, now: int, newId: string, roll: nat)
    requires m.matchId in s.matches && m == s.matches[m.matchId] && m.status == Fighting && m.matchId in s.duels
    requires Describes(m, s.duels[m.matchId]) && MatchOk(m) && newId !in s.minted && roll < 25
    requires now >= Side(m, first).stunnedUntil && now - Side(m, first).lastHitAt >= 150 && now - m.prompt.sentAt >= 120
    requires !UsedPrompt(s.duels[m.matchId].swings, newId) && newId != m.prompt.promptId
    ensures var t, r := Tick(LandStep(s, m, first, now, newId, roll).0), LandStep(s, m, first, now, newId, roll).1;
            && Lands(s, t, m.matchId, first, now, newId)
            && Told(r, m, t.matches[m.matchId], s.duels[m.matchId], first, Blow(m, s.duels[m.matchId], first, now))
  {
    var n := LandHit(m, first, now, CreatePrompt(now, m.prompt.key, newId, roll));
    var t := Tick(LandStep(s, m, first, now, newId, roll).0);
    LandLands(s, m, first, now, newId, roll);
    LandIsTold(s, m, s.duels[m.matchId], first, now, newId, roll);
    LandHasEffect(s, m, first, now, newId, roll);
    hide LandStep, LandHit, CreatePrompt, Describes, MatchOk, UsedPrompt, Tick, Flags, SameSeats, Streak, Dealt,
         SameTable;
    assert t.matches[m.matchId] == n || t.matches[m.matchId] == n.(status := FightOver);
  }

  // What the handler makes of a key press that it does not refuse.
  lemma HitStepIs(s: State, u: UserId, socketId: SocketId, dto: HitDto, now: int, newId: string, roll: nat, first: bool)
    requires Inv(s) && Shape(s) && newId !in s.minted && roll < 25 && MaySwing(s, u, socketId, dto, now, first)
    ensures var m := s.matches[dto.matchId];
            && m.matchId == dto.matchId && m.matchId in s.duels && MatchOk(m) && Describes(m, s.duels[m.matchId])
            && HitStep(s, u, socketId, dto, now, newId, roll) ==
               if Answers(m, dto, now) then LandStep(s, m, first, now, newId, roll)
               else (Log(PutMatch(s, MissHit(m, first, now)), m.matchId, Missed(first, now)), Miss(1000))
  {
    Screened(s, u, socketId, dto, now);
    hide Inv, Screen, Describes, MatchOk, LandStep, MissHit, Log, TooFastOrWrong, Answers, PutMatch, Shape;
  }

  // A key press on time and with the right letter lands.
  lemma HitLands(s: State, u: UserId, socketId: SocketId, dto: HitDto, now: int, newId: string, roll: nat, first: bool)
    requires Inv(s) && Shape(s) && newId !in s.minted && roll < 25
    requires MaySwing(s, u, socketId, dto, now, first) && Answers(s.matches[dto.matchId], dto, now)
    ensures var t, r := Tick(HitStep(s, u, socketId, dto, now, newId, roll).0),
                        HitStep(s, u, socketId, dto, now, newId, roll).1;
            && Lands(s, t, dto.matchId, first, now, newId)
            && Told(r, s.matches[dto.matchId], t.matches[dto.matchId], s.duels[dto.matchId], first,
                    Blow(s.matches[dto.matchId], s.duels[dto.matchId], first, now))
  {
    HitStepIs(s, u, socketId, dto, now, newId, roll, first);
    FreshPrompt(s, dto.matchId, newId);
    hide Inv, HitStep, Describes, MatchOk, LandStep, Lands, Told, News, UsedPrompt, Shape, Log, PutMatch, MissHit;
    LandAnswers(s, s.matches[dto.matchId], first, now, newId, roll);
  }

  // Too early or with the wrong letter, it misses and stuns for a second.
  lemma HitMisses(s: State, u: UserId, socketId: SocketId, dto: HitDto, now: int, newId: string, roll: nat, first: bool)
    requires Inv(s) && Shape(s) && newId !in s.minted && roll < 25
    requires MaySwing(s, u, socketId, dto, now, first) && !Answers(s.matches[dto.matchId], dto, now)
    ensures Misses(s, Tick(HitStep(s, u, socketId, dto, now, newId, roll).0), dto.matchId, first, now)
    ensures HitStep(s, u, socketId, dto, now, newId, roll).1 == Miss(1000)
  {
    HitStepIs(s, u, socketId, dto, now, newId, roll, first);
    hide Inv, HitStep, Describes, MatchOk, LandStep, Misses, Shape, Log, PutMatch, MissHit;
    MissMisses(s, s.matches[dto.matchId], first, now);
  }

  // Otherwise nothing happens.
  lemma HitIsRefused(s: State, u: UserId, socketId: SocketId, dto: HitDto, now: int, newId: string, roll: nat)
    requires Inv(s) && Shape(s) && newId !in s.minted && roll < 25
    requires !MaySwing(s, u, socketId, dto, now, true) && !MaySwing(s, u, socketId, dto, now, false)
    ensures Tick(HitStep(s, u, socketId, dto, now, newId, roll).0) == s.(tick := s.tick + 1)
    ensures HitStep(s, u, socketId, dto, now, newId, roll).1.Rejected?
  {
    Screened(s, u, socketId, dto, now);
    hide Inv, Screen, Describes, MatchOk, LandStep, Shape;
  }

  // The log of the fight gains one swing, of this kind and by this side.
  ghost predicate Swings(s: State, t: State, id: MatchId, landed: bool, first: bool) {
    exists w :: Gains(s, t, id, w) && w.Landed? == landed && w.by1 == first
  }

  lemma HitSwings(s: State, u: UserId, socketId: SocketId, dto: HitDto, now: int, newId: string, roll: nat, first: bool)
    requires Inv(s) && Shape(s) && newId !in s.minted && roll < 25
    requires MaySwing(s, u, socketId, dto, now, first)
    ensures var t := Tick(HitStep(s, u, socketId, dto, now, newId, roll).0);
            forall landed, side :: Swings(s, t, dto.matchId, landed, side) <==>
                                   landed == Answers(s.matches[dto.matchId], dto, now) && side == first
  {
    var t, id := Tick(HitStep(s, u, socketId, dto, now, newId, roll).0), dto.matchId;
    if Answers(s.matches[id], dto, now) {
      HitLands(s, u, socketId, dto, now, newId, roll, first);
      hide Inv, HitStep, Describes, Told, Answers, MaySwing, SameTable;
      GainsOnce(s, t, id, Blow(s.matches[id], s.duels[id], first, now));
    } else {
      HitMisses(s, u, socketId, dto, now, newId, roll, first);
      hide Inv, HitStep, Describes, Told, Answers, MaySwing, SameTable;
      GainsOnce(s, t, id, Missed(first, now));
    }
    hide Misses, Lands, Gains;
  }

  // In every reachable state and for every key press: the log gains a landed hit of one side exactly if the sender
  // sits on that side of a fight, on that very socket, is past stun and cooldown, and answers the prompt that is up,
  // with its letter and no sooner than 120 ms; it gains a miss exactly if only the time or the letter is wrong;
  // otherwise nothing changes at all.
  lemma HitAnswers(es: seq<Event>, s: State, u: UserId, socketId: SocketId, dto: HitDto, now: int, newId: string,
                   roll: nat, first: bool)
    requires Reaches(EMPTY, es, s) && Enabled(s, HitKey(u, socketId, dto, now, newId, roll))
    ensures Shape(s)
    ensures var t, id := Step(s, HitKey(u, socketId, dto, now, newId, roll)), dto.matchId;
            && (Swings(s, t, id, true, first) <==>
                MaySwing(s, u, socketId, dto, now, first) && Answers(s.matches[id], dto, now))
            && (Swings(s, t, id, false, first) <==>
                MaySwing(s, u, socketId, dto, now, first) && !Answers(s.matches[id], dto, now))
            && (!MaySwing(s, u, socketId, dto, now, true) && !MaySwing(s, u, socketId, dto, now, false) ==>
                  t == s.(tick := s.tick + 1))
  {
    RunKeeps(es, s);
    hide Reaches;
    ShapeOf(s);
    hide Inv;
    var id := dto.matchId;
    if MaySwing(s, u, socketId, dto, now, first) {
      hide Step, Swings, MaySwing, Answers;
      HitSwings(s, u, socketId, dto, now, newId, roll, first);
    } else if MaySwing(s, u, socketId, dto, now, !first) {
      hide Step, Swings, MaySwing, Answers;
      HitSwings(s, u, socketId, dto, now, newId, roll, !first);
    } else {
      hide Step, MaySwing, Answers;
      HitIsRefused(s, u, socketId, dto, now, newId, roll);
      NoSwing(s, id, first);
    }
  }

  lemma ShapeOf(s: State)
    requires Inv(s)
    ensures Shape(s)
  {}

  lemma NoSwing(s: State, id: MatchId, first: bool)
    ensures var t := s.(tick := s.tick + 1); !Swings(s, t, id, true, first) && !Swings(s, t, id, false, first)
  {
    var t := s.(tick := s.tick + 1);
    forall w ensures !Gains(s, t, id, w) {
      if Gains(s, t, id, w) { GainsOnce(s, t, id, w); }
    }
  }

  lemma RefusedIsScreened(s: State, u: UserId, socketId: SocketId, dto: HitDto, now: int, newId: string, roll: nat)
    requires Inv(s) && Shape(s) && newId !in s.minted && roll < 25
    ensures var r, reason := HitStep(s, u, socketId, dto, now, newId, roll).1, Screen(s, u, socketId, dto, now);
            (r.Rejected? <==> reason.Some?) && (r.Rejected? ==> r.reason == reason.value)
  {
    hide Inv, Shape, TooFastOrWrong, CreatePrompt, LandHit, Landing, BeginSettle, ToUpdate;
  }

  // A refusal names the first of the six conditions that fails.
  lemma HitReasons(s: State, u: UserId, socketId: SocketId, dto: HitDto, now: int, newId: string, roll: nat,
                   first: bool)
    requires Inv(s) && Shape(s) && newId !in s.minted && roll < 25
    ensures var r := HitStep(s, u, socketId, dto, now, newId, roll).1;
            && (r == Rejected(NoMatch) <==> !Fights(s, dto.matchId))
            && (Fights(s, dto.matchId) ==>
                  var m := s.matches[dto.matchId];
                  && (r == Rejected(NotPlayer) <==> u != m.player1.id && u != m.player2.id)
                  && (Side(m, first).id == u ==>
                        var p := Side(m, first);
                        && (r == Rejected(ForeignSocket) <==> socketId != p.socketId)
                        && (r == Rejected(Stunned) <==> socketId == p.socketId && now < p.stunnedUntil)
                        && (r == Rejected(Cooldown) <==>
                            socketId == p.socketId && now >= p.stunnedUntil && now < p.lastHitAt + 150)
                        && (r == Rejected(StalePrompt) <==>
                            && socketId == p.socketId && now >= p.stunnedUntil && now >= p.lastHitAt + 150
                            && dto.promptId != m.prompt.promptId)))
  {
    Screened(s, u, socketId, dto, now);
    RefusedIsScreened(s, u, socketId, dto, now, newId, roll);
    hide Inv, Describes, HitStep, Shape, TooFastOrWrong, Answers;
  }

  lemma SwingsInFight(s: State, u: UserId, socketId: SocketId, dto: HitDto, now: int, first: bool)
    requires MaySwing(s, u, socketId, dto, now, first)
    ensures Fights(s, dto.matchId)
  {}
}
