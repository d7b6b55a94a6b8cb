// When a player is warned about a cadence: exactly when some stretch of landed hits deserves it.
module FightClubWarnings {
  import opened Wrappers
  import opened FightPrompt
  import opened FightClub
  import opened FightClubDuel
  import opened FightClubInvariant
  import opened FightClubSteps
  import opened FightClubRuns

  predicate CalledAs(c: Call, id: MatchId, u: UserId, by1: bool) {
    c.Settle? && c.matchId == id && u == if by1 then c.player1Id else c.player2Id
  }

  // Who fought in the first or the second seat: told by the match, and by its settlement once it is gone.
  ghost predicate SeatedIn(s: State, id: MatchId, u: UserId, by1: bool) {
    (id in s.matches && Seat(s.matches[id], by1).id == u) || exists c :: c in s.calls && CalledAs(c, id, u, by1)
  }

  // Some landed hit made the last eleven of one player suspicious.
  predicate Suspected(log: seq<Swing>, by1: bool) {
    exists n :: 0 <= n <= |Times(log, by1)| && IsSuspiciousCadence(Times(log, by1)[..n])
  }

  ghost predicate WarnedRightly(s: State, id: MatchId, u: UserId, by1: bool)
    requires id in s.duels
  {
    SeatedIn(s, id, u, by1) ==> ((u, id) in s.warned <==> Suspected(s.duels[id].swings, by1))
  }

  ghost predicate WarnOk(s: State) {
    && (forall k :: k in s.warned ==> k.1 in s.duels)
    && (forall k :: k in s.cadence ==> k in s.warned)
    && (forall id, u, by1 :: id in s.duels ==> WarnedRightly(s, id, u, by1))
  }

  // ----- steps that warn nobody and log nothing -----

  predicate SameIds(a: Match, b: Match) { a.player1.id == b.player1.id && a.player2.id == b.player2.id }

  predicate NamesMatch(s: State, c: Call) {
    c.Settle? && c.matchId in s.duels ==>
      c in s.calls || (c.matchId in s.matches && c.player1Id == s.matches[c.matchId].player1.id
                                              && c.player2Id == s.matches[c.matchId].player2.id)
  }

  ghost predicate Plain(s: State, t: State) {
    && t.duels == s.duels && t.warned == s.warned && t.cadence <= s.cadence
    && (forall id :: id in s.duels && id in t.matches ==> id in s.matches && SameIds(t.matches[id], s.matches[id]))
    && (forall c :: c in t.calls ==> NamesMatch(s, c))
  }

  lemma PlainSeats(s: State, t: State, id: MatchId, u: UserId, by1: bool)
    requires Plain(s, t) && id in s.duels && SeatedIn(t, id, u, by1)
    ensures SeatedIn(s, id, u, by1)
  {
    if c :| c in t.calls && CalledAs(c, id, u, by1) { assert NamesMatch(s, c); }
  }

  lemma PlainKeeps(s: State, t: State)
    requires WarnOk(s) && Plain(s, t)
    ensures WarnOk(t)
  {
    hide SeatedIn, Suspected;
    forall id, u, by1 | id in t.duels ensures WarnedRightly(t, id, u, by1) {
      assert WarnedRightly(s, id, u, by1);
      if SeatedIn(t, id, u, by1) { PlainSeats(s, t, id, u, by1); }
    }
  }

  lemma PlainThenPlain(s: State, t: State, u: State)
    requires Plain(s, t) && Plain(t, u)
    ensures Plain(s, u)
  {
    forall c | c in u.calls ensures NamesMatch(s, c) {
      assert NamesMatch(t, c);
      if c in t.calls { assert NamesMatch(s, c); }
    }
  }

  // ----- landed and missed swings -----

  lemma LastElevenDecides(ts: seq<int>)
    ensures IsSuspiciousCadence(LastN(ts, 11)) <==> IsSuspiciousCadence(ts)
  {
    assert LastN(LastN(ts, 11), 11) == LastN(ts, 11);
    hide Variance;
  }

  lemma TimesSnoc(log: seq<Swing>, w: Swing, by1: bool)
    ensures Times(log + [w], by1) == if w.Landed? && w.by1 == by1 then Times(log, by1) + [w.at] else Times(log, by1)
  {
    assert DropLast(log + [w]) == log;
  }

  lemma SuspectedSnoc(log: seq<Swing>, w: Swing, by1: bool)
    ensures Suspected(log + [w], by1) <==>
            Suspected(log, by1) || (w.Landed? && w.by1 == by1 && IsSuspiciousCadence(Times(log, by1) + [w.at]))
  {
    hide IsSuspiciousCadence;
    TimesSnoc(log, w, by1);
    hide Times;
    var before, after := Times(log, by1), Times(log + [w], by1);
    assert forall n :: 0 <= n <= |before| ==> before[..n] == after[..n];
    assert after[..|after|] == after;
  }

  // What a swing does to logs and warnings, apart from the match itself.
  ghost predicate Swung(s: State, t: State, m: Match, w: Swing, u: UserId) {
    && m.matchId in s.matches && s.matches[m.matchId] == m && m.matchId in s.duels
    && t.duels == s.duels[m.matchId := s.duels[m.matchId].(swings := s.duels[m.matchId].swings + [w])]
    && u == Seat(m, w.by1).id && Seat(m, !w.by1).id != u
    && (forall id :: id in s.duels && id in t.matches ==> id in s.matches && SameIds(t.matches[id], s.matches[id]))
    && (forall c :: c in t.calls ==> NamesMatch(s, c))
    && (var due := w.Landed? && IsSuspiciousCadence(Times(s.duels[m.matchId].swings, w.by1) + [w.at]) &&
        (u, m.matchId) !in s.cadence;
        && t.warned == (if due then s.warned + [(u, m.matchId)] else s.warned)
        && t.cadence == (if due then s.cadence + {(u, m.matchId)} else s.cadence))
  }

  lemma SwungSeats(s: State, t: State, m: Match, w: Swing, u: UserId, id: MatchId, v: UserId, by1: bool)
    requires Swung(s, t, m, w, u) && id in s.duels && SeatedIn(t, id, v, by1)
    ensures SeatedIn(s, id, v, by1)
  {
    hide IsSuspiciousCadence, Times;
    if c :| c in t.calls && CalledAs(c, id, v, by1) { assert NamesMatch(s, c); }
  }

  // A match in progress has no settlement yet that could name anyone else.
  lemma FightingSeats(s: State, m: Match, v: UserId, by1: bool)
    requires CallsOk(s) && m.matchId in s.matches && s.matches[m.matchId] == m && m.status == Fighting
    requires SeatedIn(s, m.matchId, v, by1)
    ensures v == Seat(m, by1).id
  {
    hide CallsOk;
    if c :| c in s.calls && CalledAs(c, m.matchId, v, by1) { CalledMeansDecided(s, c); }
  }

  lemma CalledMeansDecided(s: State, c: Call)
    requires CallsOk(s) && c in s.calls
    ensures !Undecided(s, c.matchId)
  {}

  lemma SwungKeepsOne(s: State, t: State, m: Match, w: Swing, u: UserId, id: MatchId, v: UserId, by1: bool)
    requires WarnOk(s) && CallsOk(s) && Swung(s, t, m, w, u) && m.status == Fighting && id in t.duels
    ensures WarnedRightly(t, id, v, by1)
  {
    hide IsSuspiciousCadence, Times, CallsOk;
    if SeatedIn(t, id, v, by1) {
      SwungSeats(s, t, m, w, u, id, v, by1);
      assert WarnedRightly(s, id, v, by1);
      if id == m.matchId {
        FightingSeats(s, m, v, by1);
        SuspectedSnoc(s.duels[id].swings, w, by1);
      }
      hide SeatedIn, Suspected, NamesMatch;
      assert (u, m.matchId) in s.cadence ==> (u, m.matchId) in s.warned;
    }
  }

  lemma SwungKeeps(s: State, t: State, m: Match, w: Swing, u: UserId)
    requires WarnOk(s) && CallsOk(s) && Swung(s, t, m, w, u) && m.status == Fighting
    ensures WarnOk(t)
  {
    forall id, v, by1 | id in t.duels ensures WarnedRightly(t, id, v, by1) { SwungKeepsOne(s, t, m, w, u, id, v, by1); }
    hide WarnedRightly, IsSuspiciousCadence, Times, NamesMatch;
  }

  // ----- hits -----

  lemma PushDecides(s: State, m: Match, first: bool, now: int, next: Prompt)
    requires m.matchId in s.duels && Describes(m, s.duels[m.matchId])
    ensures IsSuspiciousCadence(Seat(LandHit(m, first, now, next), first).hitTimestamps) <==>
            IsSuspiciousCadence(Times(s.duels[m.matchId].swings, first) + [now])
  {
    var ts := Times(s.duels[m.matchId].swings, first);
    PushKeepsTheLastEleven(ts, now);
    LastElevenDecides(ts + [now]);
    hide IsSuspiciousCadence, Times, Fair, Dealt, Streak, StunEnd, LastHit;
  }

  lemma LandingFields(s: State, m: Match, m': Match, first: bool, now: int, nextId: string)
    requires m.matchId in s.duels
    ensures var t := Landing(s, m, m', first, now, nextId);
            var due := (Seat(m, first).id, m.matchId) !in s.cadence &&
              IsSuspiciousCadence(Seat(m', first).hitTimestamps);
            && t.matches == s.matches[m'.matchId := m'] && t.calls == s.calls
            && t.duels == s.duels[m.matchId := s.duels[m.matchId].(swings := s.duels[m.matchId].swings
                                               + [Landed(first, m.prompt, now, Damage(Seat(m, first)))])]
            && t.warned == (if due then s.warned + [(Seat(m, first).id, m.matchId)] else s.warned)
            && t.cadence == (if due then s.cadence + {(Seat(m, first).id, m.matchId)} else s.cadence)
  {
    hide IsSuspiciousCadence;
  }

  lemma BeginSettleFields(s: State, m: Match, winner: UserId, loser: UserId, ending: Ending)
    ensures var t := BeginSettle(s, m, winner, loser, ending);
            && t.matches == s.matches[m.matchId := m.(status := FightOver)]
            && t.duels == s.duels && t.warned == s.warned && t.cadence == s.cadence
            && t.calls == s.calls + [Settle(m.matchId, winner, loser, m.stakeType, m.stakeAmount, m.player1.id,
                                            m.player2.id, ending)]
  {}

  lemma LandHitIds(m: Match, first: bool, now: int, next: Prompt)
    ensures SameIds(LandHit(m, first, now, next), m) && LandHit(m, first, now, next).matchId == m.matchId
  {}

  ghost predicate CallsForMatch(s: State, t: State, m: Match) {
    forall c :: c in t.calls ==>
      c in s.calls || (c.Settle? && c.matchId == m.matchId && c.player1Id == m.player1.id &&
                       c.player2Id == m.player2.id)
  }

  lemma SwungFromFields(s: State, t: State, m: Match, x: Match, w: Swing, u: UserId)
    requires m.matchId in s.matches && s.matches[m.matchId] == m && m.matchId in s.duels
    requires t.matches == s.matches[m.matchId := x] && SameIds(x, m) && CallsForMatch(s, t, m)
    requires t.duels == s.duels[m.matchId := s.duels[m.matchId].(swings := s.duels[m.matchId].swings + [w])]
    requires u == Seat(m, w.by1).id && Seat(m, !w.by1).id != u
    requires var due := (u, m.matchId) !in s.cadence && w.Landed? &&
             IsSuspiciousCadence(Times(s.duels[m.matchId].swings, w.by1) + [w.at]);
             && t.warned == (if due then s.warned + [(u, m.matchId)] else s.warned)
             && t.cadence == (if due then s.cadence + {(u, m.matchId)} else s.cadence)
    ensures Swung(s, t, m, w, u)
  {
    hide IsSuspiciousCadence, Times;
  }

  // Everything a landed hit does that warnings depend on.
  ghost predicate LandedAs(s: State, t: State, m: Match, x: Match, w: Swing, suspicious: bool)
    requires m.matchId in s.duels
  {
    var key := (Seat(m, w.by1).id, m.matchId);
    var due := key !in s.cadence && suspicious;
    && t.matches == s.matches[m.matchId := x] && SameIds(x, m) && CallsForMatch(s, t, m)
    && t.duels == s.duels[m.matchId := s.duels[m.matchId].(swings := s.duels[m.matchId].swings + [w])]
    && t.warned == (if due then s.warned + [key] else s.warned)
    && t.cadence == (if due then s.cadence + {key} else s.cadence)
  }

  lemma LandingIsLandedAs(s: State, m: Match, m': Match, first: bool, now: int, nextId: string)
    requires m.matchId in s.duels && m'.matchId == m.matchId && SameIds(m', m)
    ensures LandedAs(s, Landing(s, m, m', first, now, nextId), m, m',
                     Landed(first, m.prompt, now, Damage(Seat(m, first))),
                     IsSuspiciousCadence(Seat(m', first).hitTimestamps))
  {
    hide IsSuspiciousCadence, Damage, Landing;
    LandingFields(s, m, m', first, now, nextId);
  }

  lemma SettlingIsLandedAs(s: State, t: State, m: Match, m': Match, w: Swing, suspicious: bool, winner: UserId,
                           loser: UserId)
    requires m.matchId in s.duels && m'.matchId == m.matchId && LandedAs(s, t, m, m', w, suspicious)
    ensures LandedAs(s, BeginSettle(t, m', winner, loser, Ko), m, m'.(status := FightOver), w, suspicious)
  {
    BeginSettleFields(t, m', winner, loser, Ko);
    hide BeginSettle;
  }

  lemma LandedAsIsSwung(s: State, t: State, m: Match, x: Match, w: Swing)
    requires m.matchId in s.matches && m == s.matches[m.matchId] && m.matchId in s.duels
    requires m.player1.id != m.player2.id && w.Landed?
    requires LandedAs(s, t, m, x, w, IsSuspiciousCadence(Times(s.duels[m.matchId].swings, w.by1) + [w.at]))
    ensures Swung(s, t, m, w, Seat(m, w.by1).id)
  {
    hide IsSuspiciousCadence, Times;
    SwungFromFields(s, t, m, x, w, Seat(m, w.by1).id);
  }

  lemma LandIsSwung(s: State, m: Match, first: bool, now: int, nextId: string, roll: nat)
    requires m.matchId in s.matches && m == s.matches[m.matchId] && m.matchId in s.duels
    requires Describes(m, s.duels[m.matchId])
    requires m.player1.id != m.player2.id && roll < 25
    ensures Swung(s, LandStep(s, m, first, now, nextId, roll).0, m,
                  Landed(first, m.prompt, now, Damage(Seat(m, first))), Seat(m, first).id)
  {
    hide IsSuspiciousCadence, Times, Describes, CreatePrompt, Damage, LandHit, Landing, BeginSettle, Swung, LandedAs,
         SameIds;
    var next := CreatePrompt(now, m.prompt.key, nextId, roll);
    var m' := LandHit(m, first, now, next);
    var w := Landed(first, m.prompt, now, Damage(Seat(m, first)));
    PushDecides(s, m, first, now, next);
    LandHitIds(m, first, now, next);
    LandingIsLandedAs(s, m, m', first, now, nextId);
    var t := Landing(s, m, m', first, now, nextId);
    var suspicious := IsSuspiciousCadence(Seat(m', first).hitTimestamps);
    if Seat(m', !first).hp == 0 {
      SettlingIsLandedAs(s, t, m, m', w, suspicious, Seat(m, first).id, Seat(m, !first).id);
      LandedAsIsSwung(s, BeginSettle(t, m', Seat(m, first).id, Seat(m, !first).id, Ko), m, m'.(status := FightOver), w);
    } else {
      LandedAsIsSwung(s, t, m, m', w);
    }
  }

  lemma HitKeepsWarnings(s: State, userId: UserId, socketId: SocketId, dto: HitDto, now: int, nextId: string, roll: nat)
    requires Inv(s) && WarnOk(s) && Enabled(s, HitKey(userId, socketId, dto, now, nextId, roll))
    ensures WarnOk(Step(s, HitKey(userId, socketId, dto, now, nextId, roll)))
  {
    hide WarnOk, TimersOk, SettlesOk, CallsOk, VerdictsOk, StartsOk, CadenceOk, Describes, LandStep;
    var r := HitStep(s, userId, socketId, dto, now, nextId, roll).0;
    if Screen(s, userId, socketId, dto, now).None? {
      var m := s.matches[dto.matchId];
      var first := m.player1.id == userId;
      assert MatchOk(m) && m.matchId == dto.matchId && DuelOk(s, m);
      if TooFastOrWrong(m, dto, now) {
        MissIsSwung(s, m, first, now);
        SwungKeeps(s, r, m, Missed(first, now), Seat(m, first).id);
      } else {
        LandIsSwung(s, m, first, now, nextId, roll);
        SwungKeeps(s, r, m, Landed(first, m.prompt, now, Damage(Seat(m, first))), Seat(m, first).id);
      }
    }
    TickKeepsWarnings(r);
  }

  lemma MissIsSwung(s: State, m: Match, first: bool, now: int)
    requires m.matchId in s.matches && m == s.matches[m.matchId] && m.matchId in s.duels && m.player1.id != m.player2.id
    ensures Swung(s, Log(PutMatch(s, MissHit(m, first, now)), m.matchId, Missed(first, now)), m, Missed(first, now),
                  Seat(m, first).id)
  {
    hide IsSuspiciousCadence, Times;
  }

  lemma TickKeepsWarnings(s: State)
    requires WarnOk(s)
    ensures WarnOk(Tick(s))
  {
    PlainKeeps(s, Tick(s));
  }

  // ----- the other steps -----

  lemma FreshDuelKeeps(s: State, t: State, m: Match, now: int)
    requires WarnOk(s) && m.matchId !in s.duels && t.duels == s.duels[m.matchId := Duel(now, [])]
    requires t.warned == s.warned && t.cadence == s.cadence && t.calls == s.calls
    requires t.matches == s.matches[m.matchId := m]
    ensures WarnOk(t)
  {
    NobodySuspected();
    hide Suspected;
    forall i, u, by1 | i in t.duels ensures WarnedRightly(t, i, u, by1) {
      if i != m.matchId { assert WarnedRightly(s, i, u, by1); }
    }
  }

  lemma StartKeepsWarnings(s: State, frame: nat, now: int, promptId: string, roll: nat)
    requires Inv(s) && WarnOk(s) && Enabled(s, RoomJoined(frame, now, promptId, roll))
    ensures WarnOk(Step(s, RoomJoined(frame, now, promptId, roll)))
  {
    hide WarnOk, TimersOk, SettlesOk, CallsOk, VerdictsOk, StartsOk, CadenceOk, CreatePrompt;
    var t := StartStep(s, frame, now, promptId, roll);
    var id := s.frames[frame].matchId;
    if id in s.matches && Ready(s.matches[id]) {
      assert DuelOk(s, s.matches[id]) && s.matches[id].matchId == id;
      hide MatchesOk, DuelsOk, DuelOk;
      FreshDuelKeeps(s, t, t.matches[id], now);
    } else {
      PlainKeeps(s, t);
    }
    TickKeepsWarnings(t);
  }

  lemma NobodySuspected()
    ensures !Suspected([], true) && !Suspected([], false)
  {}

  lemma CreateKeepsWarnings(s: State, user: User, socketId: SocketId, dto: CreateDto, id: MatchId)
    requires Inv(s) && WarnOk(s) && Enabled(s, Create(user, socketId, dto, id))
    ensures WarnOk(Step(s, Create(user, socketId, dto, id)))
  {
    hide TimersOk, SettlesOk, CallsOk, VerdictsOk, StartsOk, CadenceOk, DuelsOk, WarnOk;
    PlainKeeps(s, Step(s, Create(user, socketId, dto, id)));
  }

  // Who may still take a seat is not in a fight.
  lemma JoinIsPlain(s: State, user: User, socketId: SocketId, id: MatchId)
    requires id in s.matches && s.matches[id].matchId == id && (Open(s.matches[id]) ==> id !in s.duels)
    ensures Plain(s, JoinStep(s, user, socketId, id))
  {
    hide ToFightState, Rejoin, CreatePlayer, ClearGrace;
    var m := s.matches[id];
    ClearGraceFields(s, m, user, socketId);
    RejoinIds(m, user, socketId);
    hide JoinedMatch;
  }

  lemma ClearGraceFields(s: State, m: Match, user: User, socketId: SocketId)
    ensures var u := PutMatch(s, JoinedMatch(m, user, socketId));
            var t := ClearGrace(u, (user.userId, m.matchId));
            t == u.(armed := t.armed, timers := t.timers)
  {
    hide JoinedMatch;
  }

  lemma RejoinIds(m: Match, user: User, socketId: SocketId)
    ensures JoinedMatch(m, user, socketId).matchId == m.matchId
    ensures Plays(m, user.userId) ==> SameIds(JoinedMatch(m, user, socketId), m)
  {}

  lemma JoinKeepsWarnings(s: State, user: User, socketId: SocketId, id: MatchId)
    requires Inv(s) && WarnOk(s)
    ensures WarnOk(Tick(JoinStep(s, user, socketId, id)))
  {
    hide TimersOk, SettlesOk, CallsOk, VerdictsOk, StartsOk, CadenceOk, WarnOk, Plain;
    if JoinSucceeds(s, user, id) {
      assert s.matches[id].matchId == id && DuelOk(s, s.matches[id]);
      hide DuelsOk, FreshPlayer, Describes, PromptsMinted, JoinStep;
      JoinIsPlain(s, user, socketId, id);
      PlainKeeps(s, JoinStep(s, user, socketId, id));
    }
    TickKeepsWarnings(JoinStep(s, user, socketId, id));
  }

  lemma LeaveIsPlain(s: State, m: Match, userId: UserId, socketId: SocketId)
    requires Shape(s) && m.matchId in s.matches && s.matches[m.matchId] == m && Plays(m, userId)
    ensures Plain(s, Leave(s, m, userId, socketId)) && Shape(Leave(s, m, userId, socketId))
  {}

  lemma RageQuitIsPlain(s: State, m: Match, userId: UserId)
    requires m.matchId in s.matches && s.matches[m.matchId] == m
    ensures Plain(s, RageQuitStep(s, m, userId))
  {}

  lemma {:induction false} SweepIsPlain(s: State, ids: seq<MatchId>, userId: UserId, socketId: SocketId)
    requires Shape(s) && forall id :: id in ids ==> id in s.matches
    ensures Plain(s, Sweep(s, ids, userId, socketId))
    decreases ids
  {
    if ids != [] {
      var m := s.matches[ids[0]];
      if !Plays(m, userId) || SeatOf(m, userId).socketId != socketId {
        SweepIsPlain(s, ids[1..], userId, socketId);
      } else if m.status == Lobby {
        var t := Leave(s, m, userId, socketId);
        LeaveIsPlain(s, m, userId, socketId);
        assert t.matches.Keys == s.matches.Keys;
        hide Plain, Leave;
        SweepIsPlain(t, ids[1..], userId, socketId);
        PlainThenPlain(s, t, Sweep(t, ids[1..], userId, socketId));
      } else if m.status == Fighting {
        RageQuitIsPlain(s, m, userId);
      } else {
        SweepIsPlain(s, ids[1..], userId, socketId);
      }
    }
  }

  lemma DisconnectKeepsWarnings(s: State, userId: UserId, socketId: SocketId)
    requires Shape(s) && WarnOk(s)
    ensures WarnOk(Tick(DisconnectStep(s, userId, socketId)))
  {
    hide WarnOk;
    var u := s.(closed := s.closed + {socketId});
    PlainKeeps(s, u);
    hide Plain;
    SweepIsPlain(u, s.order, userId, socketId);
    PlainKeeps(u, DisconnectStep(s, userId, socketId));
    TickKeepsWarnings(DisconnectStep(s, userId, socketId));
  }

  lemma FireIsPlain(s: State, handle: nat)
    requires handle in s.armed
    ensures Plain(s, FireStep(s, handle))
  {}

  lemma FetchIsPlain(s: State, frame: nat, sockets: nat)
    requires frame in s.frames && s.frames[frame].AwaitSockets?
    ensures Plain(s, FetchStep(s, frame, sockets))
  {}

  lemma SettleReturnIsPlain(s: State, frame: nat, ok: bool)
    requires frame in s.frames && s.frames[frame].AwaitSettle?
    ensures Plain(s, SettleReturnStep(s, frame, ok))
  {}

  lemma AwardsReturnIsPlain(s: State, frame: nat)
    requires frame in s.frames && s.frames[frame].AwaitAwards?
    ensures Plain(s, AwardsReturnStep(s, frame))
  {}

  lemma QuietKeepsWarnings(s: State, e: Event)
    requires Shape(s) && WarnOk(s) && Enabled(s, e)
    requires (e.TimerFires? || e.SocketsFetched? || e.SettleReturns? || e.AwardsReturn?)
    ensures WarnOk(Step(s, e))
  {
    hide WarnOk, Plain, FireStep, FetchStep, SettleReturnStep, AwardsReturnStep, Shape;
    match e {
      case TimerFires(handle) => FireIsPlain(s, handle);
      case SocketsFetched(frame, sockets) => FetchIsPlain(s, frame, sockets);
      case SettleReturns(frame, ok) => SettleReturnIsPlain(s, frame, ok);
      case AwardsReturn(frame) => AwardsReturnIsPlain(s, frame);
    }
    PlainKeeps(s, Do(s, e));
    TickKeepsWarnings(Do(s, e));
  }

  lemma StepKeepsWarnings(s: State, e: Event)
    requires Inv(s) && WarnOk(s) && Enabled(s, e)
    ensures WarnOk(Step(s, e))
  {
    hide WarnOk, DisconnectStep, JoinStep;
    match e
    case Create(user, socketId, dto, newId) => CreateKeepsWarnings(s, user, socketId, dto, newId);
    case Join(user, socketId, matchId) => JoinKeepsWarnings(s, user, socketId, matchId);
    case RoomJoined(frame, now, newId, roll) => StartKeepsWarnings(s, frame, now, newId, roll);
    case HitKey(userId, socketId, hit, now, newId, roll) =>
      HitKeepsWarnings(s, userId, socketId, hit, now, newId, roll);
    case Disconnect(userId, socketId) => DisconnectKeepsWarnings(s, userId, socketId);
    case _ => QuietKeepsWarnings(s, e);
  }

  lemma {:induction false} RunKeepsWarnings(s: State, es: seq<Event>, t: State)
    requires Inv(s) && WarnOk(s) && Reaches(s, es, t)
    ensures WarnOk(t)
    decreases es
  {
    hide WarnOk, Inv, Step, Enabled;
    if es != [] {
      StepKeeps(s, es[0]);
      StepKeepsWarnings(s, es[0]);
      RunKeepsWarnings(Step(s, es[0]), es[1..], t);
    }
  }

  // In any run a player of a fight has been warned in it exactly if some landed hit of that player made the last eleven
  // suspicious, and then once.
  lemma WarnedExactly(es: seq<Event>, t: State, id: MatchId, u: UserId, by1: bool)
    requires Reaches(EMPTY, es, t) && id in t.duels && SeatedIn(t, id, u, by1)
    ensures (u, id) in t.warned <==> Suspected(t.duels[id].swings, by1)
    ensures forall i, j :: 0 <= i < |t.warned| && 0 <= j < |t.warned| && t.warned[i] == t.warned[j] ==> i == j
  {
    EmptyKeeps();
    assert WarnOk(EMPTY);
    RunKeepsWarnings(EMPTY, es, t);
    assert WarnedRightly(t, id, u, by1);
    hide WarnOk, Inv, Reaches;
    forall i, j | 0 <= i < j < |t.warned| ensures t.warned[i] != t.warned[j] { WarnedOnce(es, t, i, j); }
  }

  // Every fight that was ever started has two different players, so WarnedExactly speaks of each of its two logs.
  lemma EveryFightHasPlayers(es: seq<Event>, t: State, id: MatchId)
    requires Reaches(EMPTY, es, t) && id in t.duels
    ensures exists u, v :: u != v && SeatedIn(t, id, u, true) && SeatedIn(t, id, v, false)
  {
    hide Reaches;
    RunKeeps(es, t);
    if id in t.matches {
      assert MatchOk(t.matches[id]);
      assert SeatedIn(t, id, t.matches[id].player1.id, true) && SeatedIn(t, id, t.matches[id].player2.id, false);
    } else {
      SomeCallFor(t.calls, id);
      var c :| c in t.calls && c.matchId == id;
      assert CallOk(t, c);
      hide Inv;
      assert CalledAs(c, id, c.player1Id, true) && CalledAs(c, id, c.player2Id, false);
      assert SeatedIn(t, id, c.player1Id, true) && SeatedIn(t, id, c.player2Id, false);
    }
  }
}
