// fight-club.service.ts as the class it is: the maps are fields that the methods update in place.
// Each method is the code up to, or from, an await, and is proved to make exactly one step of the
// transition system. Host timers, suspended code and the history of calls and broadcasts are ghost.
module FightClubServices {
  import opened Wrappers
  import opened FightPrompt
  import opened FightClub
  import opened FightClubInvariant
  import opened FightClubSteps

  class FightClubService {
    var activeMatches: map<MatchId, Match>
    var insertionOrder: seq<MatchId>
    var lobbyGraceTimers: map<TimerKey, Timer>
    var suspiciousCadenceLogged: set<TimerKey>

    ghost var armed: map<nat, Grace>
    ghost var frames: map<nat, Frame>
    var nextHandle: nat
    ghost var tick: nat
    ghost var minted: set<string>
    ghost var created: set<MatchId>
    ghost var closed: set<SocketId>
    ghost var lastJoin: map<TimerKey, nat>
    ghost var calls: seq<Call>
    ghost var verdicts: seq<Verdict>
    ghost var emitted: seq<Broadcast>
    ghost var warned: seq<TimerKey>
    ghost var duels: map<MatchId, Duel>

    ghost function Snap(): State
      reads this
    {
      State(insertionOrder, activeMatches, lobbyGraceTimers, suspiciousCadenceLogged, armed, frames, nextHandle, tick,
            minted, created, closed, lastJoin, calls, verdicts, emitted, warned, duels)
    }

    constructor ()
      ensures Snap() == EMPTY && Inv(Snap())
    {
      activeMatches, insertionOrder, lobbyGraceTimers, suspiciousCadenceLogged := map[], [], map[], {};
      armed, frames, nextHandle, tick := map[], map[], 0, 0;
      minted, created, closed, lastJoin := {}, {}, {}, map[];
      calls, verdicts, emitted, warned, duels := [], [], [], [], map[];
    }

    // ----- private helpers of the service -----

    method ClearLobbyGrace(userId: UserId, matchId: MatchId)
      modifies this`lobbyGraceTimers, this`armed
      ensures Snap() == ClearGrace(old(Snap()), (userId, matchId))
      ensures lobbyGraceTimers == ClearGrace(old(Snap()), (userId, matchId)).timers
      ensures armed == ClearGrace(old(Snap()), (userId, matchId)).armed
    {
      var key := (userId, matchId);
      if key in lobbyGraceTimers {
        armed := armed - {lobbyGraceTimers[key].handle};
      }
      lobbyGraceTimers := lobbyGraceTimers - {key};
    }

    method ScheduleLobbyGrace(userId: UserId, matchId: MatchId, socketId: SocketId)
      modifies this`lobbyGraceTimers, this`armed, this`nextHandle
      ensures var s := ClearGrace(old(Snap()), (userId, matchId));
              Snap() == s.(armed := s.armed[s.next := Grace(userId, matchId, socketId, s.tick)],
                           timers := s.timers[(userId, matchId) := Timer(s.next, socketId)], next := s.next + 1)
    {
      ClearLobbyGrace(userId, matchId);
      var timer := nextHandle;
      nextHandle := nextHandle + 1;
      armed := armed[timer := Grace(userId, matchId, socketId, tick)];
      lobbyGraceTimers := lobbyGraceTimers[(userId, matchId) := Timer(timer, socketId)];
    }

    method DeleteMatch(matchId: MatchId, a: UserId, b: UserId)
      modifies this`activeMatches, this`insertionOrder, this`suspiciousCadenceLogged
      ensures Snap() == DropMatch(old(Snap()), matchId, a, b)
    {
      activeMatches := activeMatches - {matchId};
      insertionOrder := Erase(insertionOrder, matchId);
      suspiciousCadenceLogged := suspiciousCadenceLogged - {(a, matchId), (b, matchId)};
    }

    // `match.status = 'FIGHT_OVER'` and `finishMatch` up to its first await.
    method BeginFinish(m: Match, winnerId: UserId, loserId: UserId, ending: Ending)
      requires m.matchId in activeMatches && activeMatches[m.matchId] == m
      modifies this`activeMatches, this`calls, this`frames, this`nextHandle
      ensures Snap() == BeginSettle(old(Snap()), m, winnerId, loserId, ending)
    {
      BeginSettleIs(Snap(), m, winnerId, loserId, ending);
      hide BeginSettle;
      activeMatches := activeMatches[m.matchId := m.(status := FightOver)];
      calls := calls + [Settle(m.matchId, winnerId, loserId, m.stakeType, m.stakeAmount, m.player1.id, m.player2.id,
                               ending)];
      frames := frames[nextHandle := AwaitSettle(m.matchId, winnerId, loserId, ending)];
      nextHandle := nextHandle + 1;
    }

    static lemma BeginSettleIs(s: State, m: Match, winnerId: UserId, loserId: UserId, ending: Ending)
      ensures BeginSettle(s, m, winnerId, loserId, ending) ==
              s.(matches := s.matches[m.matchId := m.(status := FightOver)],
                 calls := s.calls + [Settle(m.matchId, winnerId, loserId, m.stakeType, m.stakeAmount, m.player1.id,
                                            m.player2.id, ending)],
                 frames := s.frames[s.next := AwaitSettle(m.matchId, winnerId, loserId, ending)], next := s.next + 1)
    {}

    // ----- create and list -----

    method ListChallenges() returns (r: seq<Challenge>)
      requires Ordered(Snap())
      ensures r == FightClub.ListChallenges(Snap())
    {
      r := [];
      for i := 0 to |insertionOrder|
        invariant r == Listing(insertionOrder[..i], activeMatches)
      {
        assert insertionOrder[..i + 1][..i] == insertionOrder[..i];
        var m := activeMatches[insertionOrder[i]];
        if m.status == Lobby && m.player2.id == "" {
          r := r + [ToChallenge(m)];
        }
      }
      assert insertionOrder[..|insertionOrder|] == insertionOrder;
    }

    method CreateMatch(user: User, socketId: SocketId, dto: CreateDto, newId: string) returns (challenge: Challenge)
      modifies this`activeMatches, this`insertionOrder, this`minted, this`created
      ensures var m := NewMatch(user, socketId, dto, newId);
              && challenge == ToChallenge(m)
              && Snap() == PutMatch(old(Snap()), m).(order := old(insertionOrder) + [newId],
                                                     minted := old(minted) + {newId}, created := old(created) + {newId})
    {
      var m := Match(newId, if dto.trimmedTitle == "" then "nameless basement duel" else dto.trimmedTitle,
                     CreatePlayer(user.userId, user.username, socketId, false), CreatePlayer("", "", "", false),
                     Prompt("", "", 0), dto.stakeType, dto.stakeAmount, Lobby);
      activeMatches := activeMatches[newId := m];
      insertionOrder := insertionOrder + [newId];
      minted, created := minted + {newId}, created + {newId};
      challenge := ToChallenge(m);
    }

    // ----- join and start -----

    // Who may sit where: a player comes back, or a newcomer takes the free seat of an open lobby.
    method TakeSeat(m: Match, user: User, socketId: SocketId) returns (r: Option<Match>, newcomer: bool)
      ensures r.Some? <==> Plays(m, user.userId) || Open(m)
      ensures r.Some? ==> r.value == JoinedMatch(m, user, socketId) && newcomer == !Plays(m, user.userId)
    {
      newcomer := false;
      if m.player1.id == user.userId {
        r := Some(m.(player1 := m.player1.(socketId := socketId, joinedMatch := true)));
      } else if m.player2.id == user.userId {
        r := Some(m.(player2 := m.player2.(socketId := socketId, joinedMatch := true)));
      } else if m.status == Lobby && m.player2.id == "" {
        r := Some(m.(player2 := CreatePlayer(user.userId, user.username, socketId, true)));
        newcomer := true;
      } else {
        r := None;
      }
    }

    // `joinMatch`, with the await of `handleJoin` that follows it.
    method JoinMatch(user: User, socketId: SocketId, matchId: MatchId) returns (r: Result<FightState>)
      requires matchId in activeMatches ==> activeMatches[matchId].matchId == matchId
      modifies this`activeMatches, this`lobbyGraceTimers, this`armed, this`emitted, this`lastJoin, this`frames,
               this`nextHandle
      ensures Snap() == JoinStep(old(Snap()), user, socketId, matchId)
      ensures r == JoinResult(old(Snap()), user, socketId, matchId)
    {
      hide JoinStep;
      JoinStepFields(Snap(), user, socketId, matchId);
      if matchId !in activeMatches {
        return Thrown("match not found. it got cooked.");
      }
      var seat, newcomer := TakeSeat(activeMatches[matchId], user, socketId);
      if seat.None? {
        return Thrown("fight is full");
      }
      r := SitDown(seat.value, newcomer, user, socketId);
    }

    method SitDown(m: Match, newcomer: bool, user: User, socketId: SocketId) returns (r: Result<FightState>)
      requires m.matchId in activeMatches && activeMatches[m.matchId].matchId == m.matchId
      requires JoinSucceeds(Snap(), user, m.matchId)
      requires m == JoinedMatch(activeMatches[m.matchId], user, socketId)
      requires newcomer == !Plays(activeMatches[m.matchId], user.userId)
      modifies this`activeMatches, this`lobbyGraceTimers, this`armed, this`emitted, this`lastJoin, this`frames,
               this`nextHandle
      ensures Snap() == JoinStep(old(Snap()), user, socketId, m.matchId)
      ensures r == Ok(ToFightState(m, user.userId))
    {
      JoinStepFields(Snap(), user, socketId, m.matchId);
      hide JoinStep, JoinSucceeds, JoinedMatch, ToFightState, Plays, ClearGrace;
      var state := Sit(m, newcomer, user.userId);
      r := Ok(state);
    }

    method Sit(m: Match, newcomer: bool, userId: UserId) returns (state: FightState)
      modifies this`activeMatches, this`lobbyGraceTimers, this`armed, this`emitted, this`lastJoin, this`frames,
               this`nextHandle
      ensures state == ToFightState(m, userId)
      ensures var key := (userId, m.matchId);
              && activeMatches == old(activeMatches)[m.matchId := m]
              && lobbyGraceTimers == ClearGrace(old(Snap()), key).timers && armed == ClearGrace(old(Snap()), key).armed
              && lastJoin == old(lastJoin)[key := old(tick)]
              && emitted == (if newcomer then old(emitted) + [Removed(m.matchId)] else old(emitted))
              && frames == old(frames)[old(nextHandle) := AwaitRoom(m.matchId, userId, state)]
              && nextHandle == old(nextHandle) + 1
    {
      hide ToFightState;
      activeMatches := activeMatches[m.matchId := m];
      ClearLobbyGrace(userId, m.matchId);
      if newcomer {
        emitted := emitted + [Removed(m.matchId)];
      }
      lastJoin := lastJoin[(userId, m.matchId) := tick];
      state := ToFightState(m, userId);
      frames := frames[nextHandle := AwaitRoom(m.matchId, userId, state)];
      nextHandle := nextHandle + 1;
    }

    static lemma JoinStepFields(s: State, user: User, socketId: SocketId, matchId: MatchId)
      requires matchId in s.matches ==> s.matches[matchId].matchId == matchId
      ensures !JoinSucceeds(s, user, matchId) ==> JoinStep(s, user, socketId, matchId) == s
      ensures JoinSucceeds(s, user, matchId) ==>
              var m := JoinedMatch(s.matches[matchId], user, socketId);
              var key := (user.userId, matchId);
              && m.matchId == matchId
              && JoinStep(s, user, socketId, matchId) == s.(
                   matches := s.matches[matchId := m], lastJoin := s.lastJoin[key := s.tick],
                   timers := ClearGrace(s, key).timers, armed := ClearGrace(s, key).armed,
                   emitted := if Plays(s.matches[matchId], user.userId) then s.emitted
                              else s.emitted + [Removed(matchId)],
                   frames := s.frames[s.next := AwaitRoom(matchId, user.userId, ToFightState(m, user.userId))],
                   next := s.next + 1)
    {}

    method StartMatch(matchId: MatchId, now: int, newId: string, roll: nat)
      requires roll < 26
      modifies this`activeMatches, this`minted, this`duels
      ensures if matchId !in old(activeMatches) || !Ready(old(activeMatches)[matchId])
              then activeMatches == old(activeMatches) && minted == old(minted) && duels == old(duels)
              else && activeMatches == old(activeMatches)[matchId := old(activeMatches)[matchId]
                                         .(prompt := CreatePrompt(now, "", newId, roll), status := Fighting)]
                   && minted == old(minted) + {newId} && duels == old(duels)[matchId := Duel(now, [])]
    {
      hide CreatePrompt;
      if matchId !in activeMatches { return; }
      var m := activeMatches[matchId];
      var ready := m.status == Lobby && m.player1.socketId != "" && m.player1.joinedMatch
                && m.player2.id != "" && m.player2.socketId != "" && m.player2.joinedMatch;
      assert ready <==> Ready(m);
      hide Ready;
      if !ready { return; }
      m := m.(prompt := CreatePrompt(now, "", newId, roll));
      m := m.(status := Fighting);
      activeMatches := activeMatches[matchId := m];
      minted, duels := minted + {newId}, duels[matchId := Duel(now, [])];
    }

    method GetFightState(userId: UserId, matchId: MatchId) returns (r: Option<FightState>)
      ensures r == if matchId in activeMatches && Plays(activeMatches[matchId], userId)
                   then Some(ToFightState(activeMatches[matchId], userId)) else None
    {
      if matchId !in activeMatches ||
         (activeMatches[matchId].player1.id != userId && activeMatches[matchId].player2.id != userId) {
        return None;
      }
      return Some(ToFightState(activeMatches[matchId], userId));
    }

    // ----- hits -----

    // `handleHit` up to the await of the settlement.
    method HandleHit(userId: UserId, socketId: SocketId, dto: HitDto, now: int, newId: string, roll: nat)
        returns (r: HitResult)
      requires Shape(Snap()) && newId !in minted && roll < 25
      modifies this`activeMatches, this`suspiciousCadenceLogged, this`warned, this`duels, this`minted,
               this`calls, this`frames, this`nextHandle
      ensures (Snap(), r) == HitStep(old(Snap()), userId, socketId, dto, now, newId, roll)
    {
      if dto.matchId !in activeMatches || activeMatches[dto.matchId].status != Fighting {
        return Rejected(NoMatch);
      }
      var m := activeMatches[dto.matchId];
      var isPlayer1 := m.player1.id == userId;
      if !isPlayer1 && m.player2.id != userId {
        return Rejected(NotPlayer);
      }
      var player := if isPlayer1 then m.player1 else m.player2;
      if socketId != player.socketId {
        return Rejected(ForeignSocket);
      }
      if now < player.stunnedUntil {
        return Rejected(Stunned);
      }
      if now - player.lastHitAt < HIT_COOLDOWN_MS {
        return Rejected(Cooldown);
      }
      if dto.promptId != m.prompt.promptId {
        return Rejected(StalePrompt);
      }
      if now - m.prompt.sentAt < MIN_REACTION_MS || [ToUpper(dto.k)] != m.prompt.key {
        player := player.(stunnedUntil := now + STUN_MS);
        player := player.(combo := 0);
        activeMatches := activeMatches[dto.matchId :=
                                         if isPlayer1 then m.(player1 := player) else m.(player2 := player)];
        duels := duels[dto.matchId :=
                       duels[dto.matchId].(swings := duels[dto.matchId].swings + [Missed(isPlayer1, now)])];
        return Miss(STUN_MS);
      }
      hide LandStep;
      r := Strike(m, isPlayer1, now, newId, roll);
    }

    // What a landed hit does to the match.
    method ApplyHit(m: Match, isPlayer1: bool, now: int, next: Prompt) returns (hit: Match, damage: nat, isCrit: bool)
      ensures hit == LandHit(m, isPlayer1, now, next)
      ensures damage == Damage(Seat(m, isPlayer1)) && isCrit == (Seat(m, isPlayer1).combo + 1 == 3)
    {
      var player := if isPlayer1 then m.player1 else m.player2;
      var enemy := if isPlayer1 then m.player2 else m.player1;
      player := player.(lastHitAt := now);
      player := player.(hitTimestamps := player.hitTimestamps + [now]);
      if |player.hitTimestamps| > WINDOW {
        player := player.(hitTimestamps := player.hitTimestamps[1..]);
      }
      player := player.(combo := player.combo + 1);
      enemy := enemy.(combo := 0);
      damage := 1;
      isCrit := false;
      if player.combo == 3 {
        damage := 5;
        isCrit := true;
        player := player.(combo := 0);
      }
      enemy := enemy.(hp := Max(0, enemy.hp - damage));
      hit := if isPlayer1 then m.(player1 := player, player2 := enemy) else m.(player2 := player, player1 := enemy);
      hit := hit.(prompt := next);
    }

    // `suspiciousCadenceLogged`: one warning per player and match.
    method CheckCadence(m: Match, player: Player)
      modifies this`suspiciousCadenceLogged, this`warned
      ensures Snap() == FlagCadence(old(Snap()), m, player.id, player)
    {
      hide IsSuspiciousCadence;
      var cadenceKey := (player.id, m.matchId);
      if cadenceKey !in suspiciousCadenceLogged && IsSuspiciousCadence(player.hitTimestamps) {
        suspiciousCadenceLogged := suspiciousCadenceLogged + {cadenceKey};
        warned := warned + [cadenceKey];
      }
    }

    // The rest of `handleHit`: a hit that lands.
    method Strike(m: Match, isPlayer1: bool, now: int, newId: string, roll: nat) returns (r: HitResult)
      requires m.matchId in activeMatches && activeMatches[m.matchId] == m && m.matchId in duels && roll < 25
      modifies this`activeMatches, this`suspiciousCadenceLogged, this`warned, this`duels, this`minted,
               this`calls, this`frames, this`nextHandle
      ensures (Snap(), r) == LandStep(old(Snap()), m, isPlayer1, now, newId, roll)
    {
      var next := CreatePrompt(now, m.prompt.key, newId, roll);
      var m', damage, isCrit := ApplyHit(m, isPlayer1, now, next);
      LandKeepsIds(m, isPlayer1, now, next);
      hide LandHit, CreatePrompt, Landing, ToUpdate, BeginSettle, Damage;
      RecordHit(m, m', isPlayer1, now, damage, newId);
      var player, enemy := Seat(m', isPlayer1), Seat(m', !isPlayer1);
      var update := ToUpdate(m', isCrit, damage, player.id);
      if enemy.hp == 0 {
        BeginFinish(m', player.id, enemy.id, Ko);
        return KnockOut(update, player.id, enemy.id);
      }
      return Hit(update);
    }

    method RecordHit(m: Match, m': Match, isPlayer1: bool, now: int, damage: nat, newId: string)
      requires m.matchId in duels && damage == Damage(Seat(m, isPlayer1)) && m'.matchId == m.matchId
      requires Seat(m', isPlayer1).id == Seat(m, isPlayer1).id
      modifies this`activeMatches, this`suspiciousCadenceLogged, this`warned, this`duels, this`minted
      ensures Snap() == Landing(old(Snap()), m, m', isPlayer1, now, newId)
      ensures activeMatches == old(activeMatches)[m.matchId := m']
    {
      ghost var s := Snap();
      hide Damage, FlagCadence;
      activeMatches := activeMatches[m.matchId := m'];
      FlagKeepsDuels(Snap(), m, Seat(m, isPlayer1).id, Seat(m', isPlayer1));
      CheckCadence(m, Seat(m', isPlayer1));
      duels := duels[m.matchId := duels[m.matchId].(swings := duels[m.matchId].swings
                                                    + [Landed(isPlayer1, m.prompt, now, damage)])];
      minted := minted + {newId};
    }

    static lemma LandKeepsIds(m: Match, first: bool, now: int, next: Prompt)
      ensures var m' := LandHit(m, first, now, next);
              m'.matchId == m.matchId && Seat(m', first).id == Seat(m, first).id &&
                Seat(m', !first).id == Seat(m, !first).id
    {}

    static lemma FlagKeepsDuels(s: State, m: Match, u: UserId, p: Player)
      ensures var t := FlagCadence(s, m, u, p); t == s.(cadence := t.cadence, warned := t.warned)
    {
      hide IsSuspiciousCadence;
    }

    // `finishMatch` when `settle` returns.
    method SettleReturned(ghost frame: nat, matchId: MatchId, winnerId: UserId, loserId: UserId, ending: Ending,
                          ok: bool)
      requires frame in frames && frames[frame] == AwaitSettle(matchId, winnerId, loserId, ending)
      modifies this`activeMatches, this`insertionOrder, this`suspiciousCadenceLogged, this`frames, this`nextHandle,
               this`verdicts
      ensures Snap() == SettleReturnStep(old(Snap()), frame, ok)
    {
      frames := frames - {frame};
      if ok {
        frames := frames[nextHandle := AwaitAwards(matchId, winnerId, loserId, ending)];
        nextHandle := nextHandle + 1;
      } else {
        verdicts := verdicts + [SettleFailed(matchId)];
        DeleteMatch(matchId, winnerId, loserId);
      }
    }

    // The end of `finishMatch`, whatever the awards did.
    method AwardsReturned(ghost frame: nat, matchId: MatchId, winnerId: UserId, loserId: UserId, ending: Ending)
      requires frame in frames && frames[frame] == AwaitAwards(matchId, winnerId, loserId, ending)
      modifies this`activeMatches, this`insertionOrder, this`suspiciousCadenceLogged, this`frames, this`verdicts
      ensures Snap() == AwardsReturnStep(old(Snap()), frame)
    {
      frames := frames - {frame};
      verdicts := verdicts + [GameOver(matchId, winnerId, loserId)];
      DeleteMatch(matchId, winnerId, loserId);
    }

    // ----- disconnect and the grace timer -----

    // `handlePlayerDisconnect`: lobbies start a grace period, the first fight is lost and ends the loop.
    method HandlePlayerDisconnect(userId: UserId, socketId: SocketId)
      requires Shape(Snap())
      modifies this
      ensures Snap() == DisconnectStep(old(Snap()), userId, socketId)
    {
      closed := closed + {socketId};
      ghost var s0 := Snap();
      var i, order := 0, insertionOrder;
      while i < |order|
        invariant 0 <= i <= |order| && order == insertionOrder
        invariant forall id :: id in order ==> id in activeMatches
        invariant forall id :: id in activeMatches ==> activeMatches[id].matchId == id
        invariant Sweep(s0, order, userId, socketId) == Sweep(Snap(), order[i..], userId, socketId)
      {
        assert order[i..][0] == order[i] && order[i..][1..] == order[i + 1..];
        assert order[i] in order;
        var quit := LeaveOne(order[i], userId, socketId);
        if quit { return; }
        i := i + 1;
      }
    }

    // The body of that loop, for one match.
    method LeaveOne(matchId: MatchId, userId: UserId, socketId: SocketId) returns (quit: bool)
      requires matchId in activeMatches && activeMatches[matchId].matchId == matchId
      modifies this`activeMatches, this`lobbyGraceTimers, this`armed, this`calls, this`frames, this`nextHandle
      ensures var m := old(activeMatches)[matchId];
              if !Plays(m, userId) || SeatOf(m, userId).socketId != socketId || m.status == FightOver
              then Snap() == old(Snap()) && !quit
              else if m.status == Lobby then Snap() == Leave(old(Snap()), m, userId, socketId) && !quit
              else Snap() == RageQuitStep(old(Snap()), m, userId) && quit
      ensures activeMatches.Keys == old(activeMatches).Keys
      ensures activeMatches[matchId].matchId == matchId
      ensures forall id :: id in activeMatches && id != matchId ==> activeMatches[id] == old(activeMatches)[id]
    {
      quit := false;
      var m := activeMatches[matchId];
      if m.player1.id != userId && m.player2.id != userId { return; }
      var first := m.player1.id == userId;
      var player := if first then m.player1 else m.player2;
      if player.socketId != socketId { return; }
      if m.status == Lobby {
        player := player.(joinedMatch := false);
        activeMatches := activeMatches[matchId := if first then m.(player1 := player) else m.(player2 := player)];
        ScheduleLobbyGrace(userId, matchId, socketId);
      } else if m.status == Fighting {
        var winner := if m.player1.id == userId then m.player2 else m.player1;
        BeginFinish(m, winner.id, userId, RageQuit);
        quit := true;
      }
    }

    // The callback of `setTimeout`, up to the await of `fetchSockets`.
    method ExpireLobbyChallenge(ghost handle: nat, userId: UserId, matchId: MatchId, socketId: SocketId,
                                ghost since: nat)
      requires handle in armed && armed[handle] == Grace(userId, matchId, socketId, since)
      modifies this`armed, this`lobbyGraceTimers, this`frames, this`nextHandle
      ensures Snap() == FireStep(old(Snap()), handle)
    {
      FireStepIs(Snap(), handle);
      hide FireStep;
      armed := armed - {handle};
      var key := (userId, matchId);
      if key in lobbyGraceTimers && lobbyGraceTimers[key].socketId == socketId {
        lobbyGraceTimers := lobbyGraceTimers - {key};
        frames := frames[nextHandle := AwaitSockets(Grace(userId, matchId, socketId, since))];
        nextHandle := nextHandle + 1;
      }
    }

    static lemma FireStepIs(s: State, handle: nat)
      requires handle in s.armed
      ensures var g := s.armed[handle];
              FireStep(s, handle) ==
              if g.Key() in s.timers && s.timers[g.Key()].socketId == g.socketId
              then s.(armed := s.armed - {handle}, timers := s.timers - {g.Key()},
                      frames := s.frames[s.next := AwaitSockets(g)], next := s.next + 1)
              else s.(armed := s.armed - {handle})
    {}

    // `expireLobbyChallenge` after `fetchSockets`, with the number of sockets found.
    method SocketsReturned(ghost frame: nat, userId: UserId, matchId: MatchId, socketId: SocketId, ghost since: nat,
                           sockets: nat)
      requires Shape(Snap()) && frame in frames
      requires frames[frame] == AwaitSockets(Grace(userId, matchId, socketId, since))
      modifies this`activeMatches, this`insertionOrder, this`suspiciousCadenceLogged, this`frames, this`emitted,
               this`verdicts, this`calls
      ensures Snap() == FetchStep(old(Snap()), frame, sockets)
    {
      frames := frames - {frame};
      if sockets > 0 || matchId !in activeMatches { return; }
      var m := activeMatches[matchId];
      if m.status != Lobby || (m.player1.id != userId && m.player2.id != userId) { return; }
      var player := if m.player1.id == userId then m.player1 else m.player2;
      if player.socketId != socketId { return; }
      CancelLobby(m);
    }

    method CancelLobby(m: Match)
      modifies this`activeMatches, this`insertionOrder, this`suspiciousCadenceLogged, this`emitted, this`verdicts,
               this`calls
      ensures Snap() == CancelMatch(old(Snap()), m)
    {
      DeleteMatch(m.matchId, m.player1.id, m.player2.id);
      emitted := emitted + [Removed(m.matchId)];
      verdicts := verdicts + [Cancelled(m.matchId)];
      calls := calls + [RecordCancelled(m.matchId, m.player1.id,
                                        if m.player2.id == "" then None else Some(m.player2.id),
                                        m.stakeType, m.stakeAmount)];
    }
  }

  // What the gateway sends: a stun to its client, the rest to the room of the match.
  datatype Emission =
    | Stun(stunMs: int)
    | Update(matchId: MatchId, update: FightUpdate)
    | Over(matchId: MatchId, winnerId: UserId, loserId: UserId, stakeType: string, stakeAmount: int)

  // fight-club.gateway.ts and the host: every entry into the service, as one step that keeps the invariant.
  class FightClubGateway {
    const service: FightClubService

    constructor (service: FightClubService)
      ensures this.service == service
    {
      this.service := service;
    }

    // A step is over: the clock of the history moves on.
    ghost method EndStep(s: State, e: Event)
      requires Inv(s) && Enabled(s, e) && service.Snap() == Do(s, e)
      modifies service`tick
      ensures service.Snap() == Step(s, e) && Inv(service.Snap())
    {
      hide Inv, Do, Enabled;
      service.tick := service.tick + 1;
      StepKeeps(s, e);
    }

    method HandleConnection() returns (snapshot: seq<Challenge>)
      requires Inv(service.Snap())
      ensures snapshot == FightClub.ListChallenges(service.Snap())
    {
      assert Ordered(service.Snap());
      hide Inv;
      snapshot := service.ListChallenges();
    }

    method HandleCreate(user: User, socketId: SocketId, dto: CreateDto, newId: string) returns (challenge: Challenge)
      requires Inv(service.Snap()) && Enabled(service.Snap(), Create(user, socketId, dto, newId))
      modifies service
      ensures service.Snap() == Step(old(service.Snap()), Create(user, socketId, dto, newId)) && Inv(service.Snap())
      ensures challenge == ToChallenge(NewMatch(user, socketId, dto, newId))
    {
      ghost var s := service.Snap();
      assert Ordered(s);
      hide Inv;
      challenge := service.CreateMatch(user, socketId, dto, newId);
      hide NewMatch, ToChallenge;
      var list := service.ListChallenges();
      service.emitted := service.emitted + [Snapshot(list)];
      service.emitted := service.emitted + [Created(challenge)];
      EndStep(s, Create(user, socketId, dto, newId));
    }

    method HandleJoin(user: User, socketId: SocketId, matchId: MatchId) returns (r: Result<FightState>)
      requires Inv(service.Snap()) && Enabled(service.Snap(), Join(user, socketId, matchId))
      modifies service
      ensures service.Snap() == Step(old(service.Snap()), Join(user, socketId, matchId)) && Inv(service.Snap())
      ensures r == JoinResult(old(service.Snap()), user, socketId, matchId)
    {
      ghost var s := service.Snap();
      assert Shape(s);
      hide Inv, JoinStep, JoinResult;
      r := service.JoinMatch(user, socketId, matchId);
      EndStep(s, Join(user, socketId, matchId));
    }

    // `handleJoin` after `client.join`: start the match if it is ready, then send the state.
    method HandleJoined(ghost frame: nat, userId: UserId, matchId: MatchId, state: FightState,
                       now: int, newId: string, roll: nat) returns (sent: FightState)
      requires Inv(service.Snap()) && Enabled(service.Snap(), RoomJoined(frame, now, newId, roll))
      requires service.frames[frame] == AwaitRoom(matchId, userId, state)
      modifies service
      ensures service.Snap() == Step(old(service.Snap()), RoomJoined(frame, now, newId, roll)) && Inv(service.Snap())
      ensures sent == if matchId in service.activeMatches && Plays(service.activeMatches[matchId], userId)
                      then ToFightState(service.activeMatches[matchId], userId) else state
    {
      StartIfReady(frame, matchId, now, newId, roll);
      hide Inv, Step, Enabled;
      var current := service.GetFightState(userId, matchId);
      sent := if current.Some? then current.value else state;
    }

    static lemma StartStepFields(s: State, frame: nat, now: int, newId: string, roll: nat)
      requires Shape(s) && frame in s.frames && s.frames[frame].AwaitRoom? && newId !in s.minted && roll < 26
      ensures var id := s.frames[frame].matchId;
              StartStep(s, frame, now, newId, roll)
              == if id !in s.matches || !Ready(s.matches[id]) then s.(frames := s.frames - {frame})
                 else s.(frames := s.frames - {frame}, minted := s.minted + {newId},
                         duels := s.duels[id := Duel(now, [])],
                         matches := s.matches[id := s.matches[id].(prompt := CreatePrompt(now, "", newId, roll),
                                                                   status := Fighting)])
    {
      hide CreatePrompt, Ready;
    }

    method StartIfReady(ghost frame: nat, matchId: MatchId, now: int, newId: string, roll: nat)
      requires Inv(service.Snap()) && Enabled(service.Snap(), RoomJoined(frame, now, newId, roll))
      requires service.frames[frame].matchId == matchId
      modifies service
      ensures service.Snap() == Step(old(service.Snap()), RoomJoined(frame, now, newId, roll)) && Inv(service.Snap())
    {
      ghost var s := service.Snap();
      assert Shape(s);
      StartStepFields(s, frame, now, newId, roll);
      hide Inv, CreatePrompt, Ready, StartStep, Enabled;
      service.frames := service.frames - {frame};
      service.StartMatch(matchId, now, newId, roll);
      assert service.Snap() == StartStep(s, frame, now, newId, roll);
      EndStep(s, RoomJoined(frame, now, newId, roll));
    }

    ghost predicate AwaitsSettlement(frame: nat, matchId: MatchId, winnerId: UserId, loserId: UserId)
      reads service
    {
      frame in service.frames && service.frames[frame] == AwaitSettle(matchId, winnerId, loserId, Ko)
    }

    static lemma KnockOutSuspends(s: State, userId: UserId, socketId: SocketId, dto: HitDto, now: int, nextId: string,
                                  roll: nat)
      requires Shape(s) && nextId !in s.minted && roll < 25
      ensures var (t, r) := HitStep(s, userId, socketId, dto, now, nextId, roll);
              r.KnockOut? ==>
                t.frames == s.frames[s.next := AwaitSettle(dto.matchId, r.winnerId, r.loserId, Ko)] &&
                  t.next == s.next + 1
    {
      hide CreatePrompt, IsSuspiciousCadence, TooFastOrWrong, MissHit, Damage;
    }

    // A miss stuns its client, a hit is sent to the room; a knockout is held back until its settlement returns.
    method HandleHit(userId: UserId, socketId: SocketId, dto: HitDto, now: int, newId: string, roll: nat)
      returns (r: HitResult, sent: seq<Emission>)
      requires Inv(service.Snap()) && Enabled(service.Snap(), HitKey(userId, socketId, dto, now, newId, roll))
      modifies service
      ensures service.Snap() == Step(old(service.Snap()), HitKey(userId, socketId, dto, now, newId, roll))
      ensures Inv(service.Snap())
      ensures Shape(old(service.Snap())) && r == HitStep(old(service.Snap()), userId, socketId, dto, now, newId, roll).1
      ensures r.KnockOut? ==> AwaitsSettlement(old(service.nextHandle), dto.matchId, r.winnerId, r.loserId)
      ensures match r
              case Rejected(_) => sent == []
              case Miss(stunMs) => sent == [Stun(stunMs)]
              case Hit(update) => sent == [Update(dto.matchId, update)]
              case KnockOut(_, _, _) => sent == []
    {
      ghost var s := service.Snap();
      assert Shape(s);
      hide Inv, HitStep, Shape;
      r := service.HandleHit(userId, socketId, dto, now, newId, roll);
      KnockOutSuspends(s, userId, socketId, dto, now, newId, roll);
      assert r.KnockOut? ==> AwaitsSettlement(s.next, dto.matchId, r.winnerId, r.loserId);
      hide AwaitsSettlement;
      EndStep(s, HitKey(userId, socketId, dto, now, newId, roll));
      sent := [];
      if r.Miss? { sent := [Stun(r.stunMs)]; }
      if r.Hit? { sent := [Update(dto.matchId, r.update)]; }
    }

    // A match whose settlement is not over is still there, and the call was made for its stake.
    static lemma FinishingMatch(s: State, frame: nat)
      requires Inv(s) && frame in s.frames && Finishing(s.frames[frame])
      ensures s.frames[frame].matchId in s.matches
      ensures CallOf(s.matches[s.frames[frame].matchId], s.frames[frame]) in s.calls
    {
      assert FinishOk(s, frame);
    }

    static lemma DueMatch(s: State, frame: nat, matchId: MatchId, winnerId: UserId, loserId: UserId, settled: bool)
      requires Inv(s) && Enabled(s, SettlementOver(frame, settled))
      requires s.frames[frame] == if settled then AwaitAwards(matchId, winnerId, loserId, Ko)
                                  else AwaitSettle(matchId, winnerId, loserId, Ko)
      ensures frame in s.frames && matchId in s.matches && CallOf(s.matches[matchId], s.frames[frame]) in s.calls
    {
      FinishingMatch(s, frame);
    }

    static ghost function SettlementOver(frame: nat, settled: bool): Event {
      if settled then AwardsReturn(frame) else SettleReturns(frame, false)
    }

    // What `finishMatch` does when it ends for a knockout.
    method FinishReturned(ghost frame: nat, matchId: MatchId, winnerId: UserId, loserId: UserId, settled: bool)
      requires Inv(service.Snap()) && Enabled(service.Snap(), SettlementOver(frame, settled))
      requires service.frames[frame] == if settled then AwaitAwards(matchId, winnerId, loserId, Ko)
                                        else AwaitSettle(matchId, winnerId, loserId, Ko)
      modifies service
      ensures service.Snap() == Step(old(service.Snap()), SettlementOver(frame, settled)) && Inv(service.Snap())
    {
      hide Inv, Step, Enabled;
      if settled {
        AwardsReturned(frame, matchId, winnerId, loserId, Ko);
      } else {
        SettleReturned(frame, matchId, winnerId, loserId, Ko, false);
      }
    }

    // `handleHit` when the settlement of its knockout is over: the room gets the last update and then the game-over,
    // with the stake that was settled, or nothing if the settlement failed. `update` is the suspended handler's local.
    method ReportKnockOut(ghost frame: nat, matchId: MatchId, winnerId: UserId, loserId: UserId, update: FightUpdate,
                          settled: bool) returns (sent: seq<Emission>)
      requires Inv(service.Snap()) && Enabled(service.Snap(), SettlementOver(frame, settled))
      requires service.frames[frame] == if settled then AwaitAwards(matchId, winnerId, loserId, Ko)
                                        else AwaitSettle(matchId, winnerId, loserId, Ko)
      modifies service
      ensures service.Snap() == Step(old(service.Snap()), SettlementOver(frame, settled)) && Inv(service.Snap())
      ensures matchId in old(service.activeMatches)
      ensures CallOf(old(service.activeMatches[matchId]), old(service.frames[frame])) in old(service.calls)
      ensures sent ==
              if !settled then []
              else
                var m := old(service.activeMatches[matchId]);
                [Update(matchId, update), Over(matchId, winnerId, loserId, m.stakeType, m.stakeAmount)]
    {
      hide Inv, Step, Enabled, CallOf, Finishing, SettlementOver;
      DueMatch(service.Snap(), frame, matchId, winnerId, loserId, settled);
      var m := service.activeMatches[matchId];
      sent := [];
      FinishReturned(frame, matchId, winnerId, loserId, settled);
      if settled {
        sent := [Update(matchId, update)];
        sent := sent + [Over(matchId, winnerId, loserId, m.stakeType, m.stakeAmount)];
      }
    }

    method HandleDisconnect(userId: UserId, socketId: SocketId)
      requires Inv(service.Snap()) && Enabled(service.Snap(), Disconnect(userId, socketId))
      modifies service
      ensures service.Snap() == Step(old(service.Snap()), Disconnect(userId, socketId)) && Inv(service.Snap())
    {
      ghost var s := service.Snap();
      assert Shape(s);
      hide Inv, DisconnectStep;
      service.HandlePlayerDisconnect(userId, socketId);
      EndStep(s, Disconnect(userId, socketId));
    }

    // ----- what the host calls back -----

    method TimerFired(ghost handle: nat, userId: UserId, matchId: MatchId, socketId: SocketId, ghost since: nat)
      requires Inv(service.Snap()) && handle in service.armed
      requires service.armed[handle] == Grace(userId, matchId, socketId, since)
      modifies service
      ensures service.Snap() == Step(old(service.Snap()), TimerFires(handle)) && Inv(service.Snap())
    {
      ghost var s := service.Snap();
      assert Shape(s);
      hide Inv, FireStep;
      service.ExpireLobbyChallenge(handle, userId, matchId, socketId, since);
      EndStep(s, TimerFires(handle));
    }

    method SocketsReturned(ghost frame: nat, userId: UserId, matchId: MatchId, socketId: SocketId, ghost since: nat,
                           sockets: nat)
      requires Inv(service.Snap()) && frame in service.frames
      requires service.frames[frame] == AwaitSockets(Grace(userId, matchId, socketId, since))
      modifies service
      ensures service.Snap() == Step(old(service.Snap()), SocketsFetched(frame, sockets)) && Inv(service.Snap())
    {
      ghost var s := service.Snap();
      assert Shape(s);
      hide Inv, FetchStep;
      service.SocketsReturned(frame, userId, matchId, socketId, since, sockets);
      EndStep(s, SocketsFetched(frame, sockets));
    }

    method SettleReturned(ghost frame: nat, matchId: MatchId, winnerId: UserId, loserId: UserId, ending: Ending,
                          ok: bool)
      requires Inv(service.Snap()) && Enabled(service.Snap(), SettleReturns(frame, ok))
      requires service.frames[frame] == AwaitSettle(matchId, winnerId, loserId, ending)
      modifies service
      ensures service.Snap() == Step(old(service.Snap()), SettleReturns(frame, ok)) && Inv(service.Snap())
    {
      ghost var s := service.Snap();
      assert Shape(s);
      hide Inv, SettleReturnStep;
      service.SettleReturned(frame, matchId, winnerId, loserId, ending, ok);
      EndStep(s, SettleReturns(frame, ok));
    }

    method AwardsReturned(ghost frame: nat, matchId: MatchId, winnerId: UserId, loserId: UserId, ending: Ending)
      requires Inv(service.Snap()) && Enabled(service.Snap(), AwardsReturn(frame))
      requires service.frames[frame] == AwaitAwards(matchId, winnerId, loserId, ending)
      modifies service
      ensures service.Snap() == Step(old(service.Snap()), AwardsReturn(frame)) && Inv(service.Snap())
    {
      ghost var s := service.Snap();
      assert Shape(s);
      hide Inv, AwardsReturnStep;
      service.AwardsReturned(frame, matchId, winnerId, loserId, ending);
      EndStep(s, AwardsReturn(frame));
    }
  }
}
