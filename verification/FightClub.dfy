// The fight club as a transition system. A step is the code between two awaits of
// fight-club.service.ts and fight-club.gateway.ts; what is suspended at an await is a Frame.
module FightClub {
  import opened Wrappers
  import opened FightPrompt

  type UserId = string
  type SocketId = string
  type MatchId = string
  type TimerKey = (UserId, MatchId)

  datatype User = User(userId: UserId, username: string)

  datatype Player = Player(
    id: UserId, username: string, socketId: SocketId, joinedMatch: bool,
    hp: int, combo: int, stunnedUntil: int, lastHitAt: int, hitTimestamps: seq<int>)

  datatype Status = Lobby | Fighting | FightOver

  datatype Match = Match(
    matchId: MatchId, title: string, player1: Player, player2: Player,
    prompt: Prompt, stakeType: string, stakeAmount: int, status: Status)

  datatype Challenge = Challenge(
    id: MatchId, creatorId: UserId, creator: string, title: string, stakeType: string, stakeAmount: int)

  datatype FightState = FightState(
    matchId: MatchId, title: string, status: Status, creator: bool, you: User, opponent: Option<User>,
    stakeType: string, stakeAmount: int)

  datatype FightUpdate = FightUpdate(
    matchId: MatchId, hp: map<UserId, int>, combo: map<UserId, int>, promptId: string, key: Key,
    isCrit: bool, damage: int, attackerId: UserId)

  datatype Reason = NoMatch | NotPlayer | ForeignSocket | Stunned | Cooldown | StalePrompt

  // KnockOut is returned at the await of `settle`; the verdict follows when the settlement returns.
  datatype HitResult =
    | Rejected(reason: Reason)
    | Miss(stunMs: int)
    | Hit(update: FightUpdate)
    | KnockOut(update: FightUpdate, winnerId: UserId, loserId: UserId)

  datatype CreateDto = CreateDto(trimmedTitle: string, stakeType: string, stakeAmount: int) {
    // What the validation pipe lets through.
    predicate Valid() {
      (stakeType == "aura" || stakeType == "debt") && 1 <= stakeAmount <= 1_000_000
    }
  }

  datatype Ending = Ko | RageQuit

  // A lobby grace period, started by the disconnect of `socketId` at step `since`.
  datatype Grace = Grace(userId: UserId, matchId: MatchId, socketId: SocketId, since: nat) {
    function Key(): TimerKey { (userId, matchId) }
  }

  datatype Timer = Timer(handle: nat, socketId: SocketId)

  datatype Frame =
    | AwaitRoom(matchId: MatchId, userId: UserId, fallback: FightState)
    | AwaitSockets(grace: Grace)
    | AwaitSettle(matchId: MatchId, winnerId: UserId, loserId: UserId, ending: Ending)
    | AwaitAwards(matchId: MatchId, winnerId: UserId, loserId: UserId, ending: Ending)

  // Calls into the repository.
  datatype Call =
    | Settle(matchId: MatchId, winnerId: UserId, loserId: UserId, stakeType: string, stakeAmount: int,
             player1Id: UserId, player2Id: UserId, ending: Ending)
    | RecordCancelled(matchId: MatchId, creatorId: UserId, challengerId: Option<UserId>, stakeType: string,
                      stakeAmount: int)

  // What the players of a match are told at its end.
  datatype Verdict =
    | GameOver(matchId: MatchId, winnerId: UserId, loserId: UserId)
    | SettleFailed(matchId: MatchId)
    | Cancelled(matchId: MatchId)

  // Broadcasts to every socket of the namespace.
  datatype Broadcast = Snapshot(list: seq<Challenge>) | Created(challenge: Challenge) | Removed(matchId: MatchId)

  // The log of one duel: its start and every swing that was not rejected.
  datatype Swing =
    | Landed(by1: bool, prompt: Prompt, at: int, damage: nat)
    | Missed(by1: bool, at: int)
  datatype Duel = Duel(startedAt: int, swings: seq<Swing>)

  datatype State = State(
    order: seq<MatchId>,             // insertion order of `activeMatches`
    matches: map<MatchId, Match>,    // `activeMatches`
    timers: map<TimerKey, Timer>,    // `lobbyGraceTimers`
    cadence: set<TimerKey>,          // `suspiciousCadenceLogged`, as (user, match)
    armed: map<nat, Grace>,          // host timers that are set and not cleared
    frames: map<nat, Frame>,         // code suspended at an await
    next: nat,                       // names the next host timer or frame
    tick: nat,                       // steps so far
    minted: set<string>,             // uuids handed out
    created: set<MatchId>,           // matches ever created
    closed: set<SocketId>,           // sockets that have disconnected
    lastJoin: map<TimerKey, nat>,    // the last step at which a player joined
    calls: seq<Call>,
    verdicts: seq<Verdict>,
    emitted: seq<Broadcast>,
    warned: seq<TimerKey>,
    duels: map<MatchId, Duel>)

  const EMPTY := State([], map[], map[], {}, map[], map[], 0, 0, {}, {}, {}, map[], [], [], [], [], map[])

  function Max(a: int, b: int): int { if a < b then b else a }

  // ----- players and matches -----

  function CreatePlayer(id: UserId, username: string, socketId: SocketId, joinedMatch: bool): Player {
    Player(id, username, socketId, joinedMatch, 30, 0, 0, 0, [])
  }

  function Seat(m: Match, first: bool): Player { if first then m.player1 else m.player2 }

  function WithSeat(m: Match, first: bool, p: Player): Match {
    if first then m.(player1 := p) else m.(player2 := p)
  }

  predicate Plays(m: Match, userId: UserId) {
    m.player1.id == userId || m.player2.id == userId
  }

  function SeatOf(m: Match, userId: UserId): Player
    requires Plays(m, userId)
  {
    Seat(m, m.player1.id == userId)
  }

  function ToChallenge(m: Match): Challenge {
    Challenge(m.matchId, m.player1.id, m.player1.username, m.title, m.stakeType, m.stakeAmount)
  }

  predicate Open(m: Match) { m.status == Lobby && m.player2.id == "" }

  function ToFightState(m: Match, userId: UserId): FightState {
    var creator := m.player1.id == userId;
    var you := Seat(m, creator);
    var opponent := Seat(m, !creator);
    FightState(m.matchId, m.title, m.status, creator, User(you.id, you.username),
               if opponent.id != "" then Some(User(opponent.id, opponent.username)) else None,
               m.stakeType, m.stakeAmount)
  }

  function ToUpdate(m: Match, isCrit: bool, damage: int, attackerId: UserId): FightUpdate {
    FightUpdate(m.matchId,
                map[m.player1.id := m.player1.hp, m.player2.id := m.player2.hp],
                map[m.player1.id := m.player1.combo, m.player2.id := m.player2.combo],
                m.prompt.promptId, m.prompt.key, isCrit, damage, attackerId)
  }

  // `listChallenges`, over the matches in insertion order.
  function Listing(order: seq<MatchId>, matches: map<MatchId, Match>): seq<Challenge>
    requires forall id :: id in order ==> id in matches
  {
    if order == [] then []
    else
      var last := matches[order[|order| - 1]];
      Listing(order[..|order| - 1], matches) + if Open(last) then [ToChallenge(last)] else []
  }

  // Map.delete on the insertion order.
  function Erase(order: seq<MatchId>, id: MatchId): (r: seq<MatchId>)
    ensures forall x :: x in r <==> x in order && x != id
  {
    if order == [] then []
    else
      var n := |order| - 1;
      var r := Erase(order[..n], id) + if order[n] == id then [] else [order[n]];
      assert order == order[..n] + [order[n]];
      r
  }

  // ----- the state's small changes -----

  function PutMatch(s: State, m: Match): State {
    s.(matches := s.matches[m.matchId := m])
  }

  // `activeMatches.delete` and `clearCadence`.
  function DropMatch(s: State, id: MatchId, a: UserId, b: UserId): State {
    s.(matches := s.matches - {id}, order := Erase(s.order, id), cadence := s.cadence - {(a, id), (b, id)})
  }

  function Suspend(s: State, f: Frame): State {
    s.(frames := s.frames[s.next := f], next := s.next + 1)
  }

  function Resume(s: State, frame: nat): State {
    s.(frames := s.frames - {frame})
  }

  function ClearGrace(s: State, key: TimerKey): State {
    s.(armed := if key in s.timers then s.armed - {s.timers[key].handle} else s.armed,
       timers := s.timers - {key})
  }

  function Announce(s: State, v: Verdict): State {
    s.(verdicts := s.verdicts + [v])
  }

  function Emit(s: State, b: Broadcast): State {
    s.(emitted := s.emitted + [b])
  }

  function Log(s: State, id: MatchId, swing: Swing): State
    requires id in s.duels
  {
    s.(duels := s.duels[id := s.duels[id].(swings := s.duels[id].swings + [swing])])
  }

  predicate Ordered(s: State) {
    forall id :: id in s.order ==> id in s.matches
  }

  function ListChallenges(s: State): seq<Challenge>
    requires Ordered(s)
  {
    Listing(s.order, s.matches)
  }

  // ----- create, join, start -----

  function NewMatch(user: User, socketId: SocketId, dto: CreateDto, matchId: MatchId): Match {
    Match(matchId, if dto.trimmedTitle == "" then "nameless basement duel" else dto.trimmedTitle,
          CreatePlayer(user.userId, user.username, socketId, false), CreatePlayer("", "", "", false),
          Prompt("", "", 0), dto.stakeType, dto.stakeAmount, Lobby)
  }

  // `handleCreate`: the new match, then the whole list, then the new challenge on its own.
  function CreateStep(s: State, user: User, socketId: SocketId, dto: CreateDto, matchId: MatchId): State
    requires Ordered(s) && matchId !in s.minted
  {
    var m := NewMatch(user, socketId, dto, matchId);
    var s1 := PutMatch(s, m).(order := s.order + [matchId], minted := s.minted + {matchId},
                              created := s.created + {matchId});
    Emit(Emit(s1, Snapshot(ListChallenges(s1))), Created(ToChallenge(m)))
  }

  function Rejoin(p: Player, socketId: SocketId): Player {
    p.(socketId := socketId, joinedMatch := true)
  }

  function JoinedMatch(m: Match, user: User, socketId: SocketId): Match {
    if m.player1.id == user.userId then m.(player1 := Rejoin(m.player1, socketId))
    else if m.player2.id == user.userId then m.(player2 := Rejoin(m.player2, socketId))
    else m.(player2 := CreatePlayer(user.userId, user.username, socketId, true))
  }

  predicate JoinSucceeds(s: State, user: User, matchId: MatchId) {
    matchId in s.matches && (Plays(s.matches[matchId], user.userId) || Open(s.matches[matchId]))
  }

  function JoinResult(s: State, user: User, socketId: SocketId, matchId: MatchId): Result<FightState> {
    if matchId !in s.matches then Thrown("match not found. it got cooked.")
    else if !JoinSucceeds(s, user, matchId) then Thrown("fight is full")
    else Ok(ToFightState(JoinedMatch(s.matches[matchId], user, socketId), user.userId))
  }

  // `handleJoin` up to its await.
  function JoinStep(s: State, user: User, socketId: SocketId, matchId: MatchId): State {
    if !JoinSucceeds(s, user, matchId) then s
    else
      var m := s.matches[matchId];
      var m' := JoinedMatch(m, user, socketId);
      var key := (user.userId, matchId);
      var s1 := ClearGrace(PutMatch(s, m'), key).(lastJoin := s.lastJoin[key := s.tick]);
      var s2 := if Plays(m, user.userId) then s1 else Emit(s1, Removed(matchId));
      Suspend(s2, AwaitRoom(matchId, user.userId, ToFightState(m', user.userId)))
  }

  predicate Ready(m: Match) {
    m.status == Lobby &&
    m.player1.socketId != "" && m.player1.joinedMatch &&
    m.player2.id != "" && m.player2.socketId != "" && m.player2.joinedMatch
  }

  // `startMatch`, run when `client.join` returns.
  function StartStep(s: State, frame: nat, now: int, promptId: string, roll: nat): State
    requires frame in s.frames && s.frames[frame].AwaitRoom?
    requires promptId !in s.minted && roll < 26
  {
    var matchId := s.frames[frame].matchId;
    var s1 := Resume(s, frame);
    if matchId !in s.matches || !Ready(s.matches[matchId]) then s1
    else
      var m := s.matches[matchId];
      PutMatch(s1, m.(prompt := CreatePrompt(now, "", promptId, roll), status := Fighting))
      .(minted := s.minted + {promptId}, duels := s.duels[matchId := Duel(now, [])])
  }

  // ----- hits -----

  // `toUpperCase` on one character, with the two non-ASCII letters whose capital is ASCII.
  function ToUpper(c: char): char {
    if 'a' <= c <= 'z' then c - 'a' + 'A'
    else if c == '\U{0131}' then 'I'
    else if c == '\U{017F}' then 'S'
    else c
  }

  // push, then shift when longer than the window
  function Push(ts: seq<int>, t: int): seq<int> {
    if |ts| + 1 > WINDOW then (ts + [t])[1..] else ts + [t]
  }

  function Damage(p: Player): nat { if p.combo + 1 == 3 then 5 else 1 }

  function LandHit(m: Match, first: bool, now: int, next: Prompt): Match {
    var p, e := Seat(m, first), Seat(m, !first);
    var p' := p.(lastHitAt := now, hitTimestamps := Push(p.hitTimestamps, now),
                 combo := if p.combo + 1 == 3 then 0 else p.combo + 1);
    var e' := e.(combo := 0, hp := Max(0, e.hp - Damage(p)));
    WithSeat(WithSeat(m, first, p'), !first, e').(prompt := next)
  }

  function MissHit(m: Match, first: bool, now: int): Match {
    WithSeat(m, first, Seat(m, first).(stunnedUntil := now + STUN_MS, combo := 0))
  }

  datatype HitDto = HitDto(matchId: MatchId, promptId: string, k: char)

  // The guards of `handleHit`, in order.
  function Screen(s: State, userId: UserId, socketId: SocketId, dto: HitDto, now: int): Option<Reason> {
    if dto.matchId !in s.matches || s.matches[dto.matchId].status != Fighting then Some(NoMatch)
    else
      var m := s.matches[dto.matchId];
      if !Plays(m, userId) then Some(NotPlayer)
      else
        var p := SeatOf(m, userId);
        if socketId != p.socketId then Some(ForeignSocket)
        else if now < p.stunnedUntil then Some(Stunned)
        else if now - p.lastHitAt < HIT_COOLDOWN_MS then Some(Cooldown)
        else if dto.promptId != m.prompt.promptId then Some(StalePrompt)
        else None
  }

  predicate TooFastOrWrong(m: Match, dto: HitDto, now: int) {
    now - m.prompt.sentAt < MIN_REACTION_MS || [ToUpper(dto.k)] != m.prompt.key
  }

  // Sets the status before the repository is called.
  function BeginSettle(s: State, m: Match, winner: UserId, loser: UserId, ending: Ending): State {
    var s1 := PutMatch(s, m.(status := FightOver));
    Suspend(s1.(calls := s.calls + [Settle(m.matchId, winner, loser, m.stakeType, m.stakeAmount,
                                           m.player1.id, m.player2.id, ending)]),
            AwaitSettle(m.matchId, winner, loser, ending))
  }

  function FlagCadence(s: State, m: Match, userId: UserId, p: Player): State {
    var key := (userId, m.matchId);
    if key !in s.cadence && IsSuspiciousCadence(p.hitTimestamps)
    then s.(cadence := s.cadence + {key}, warned := s.warned + [key])
    else s
  }

  // A hit has landed: the match, the log, and the cadence warning if it is due.
  function Landing(s: State, m: Match, m': Match, first: bool, now: int, nextId: string): State
    requires m.matchId in s.duels
  {
    Log(FlagCadence(PutMatch(s, m'), m, Seat(m, first).id, Seat(m', first)), m.matchId,
        Landed(first, m.prompt, now, Damage(Seat(m, first))))
    .(minted := s.minted + {nextId})
  }

  function LandStep(s: State, m: Match, first: bool, now: int, nextId: string, roll: nat): (State, HitResult)
    requires m.matchId in s.duels && roll < 25
  {
    var p, e := Seat(m, first), Seat(m, !first);
    var m' := LandHit(m, first, now, CreatePrompt(now, m.prompt.key, nextId, roll));
    var s1 := Landing(s, m, m', first, now, nextId);
    var update := ToUpdate(m', p.combo + 1 == 3, Damage(p), p.id);
    if Seat(m', !first).hp == 0
    then (BeginSettle(s1, m', p.id, e.id, Ko), KnockOut(update, p.id, e.id))
    else (s1, Hit(update))
  }

  // `handleHit` up to the await of the settlement.
  function HitStep(s: State, userId: UserId, socketId: SocketId, dto: HitDto, now: int, nextId: string, roll: nat)
    : (State, HitResult)
    requires (dto.matchId in s.matches && s.matches[dto.matchId].status == Fighting) ==>
               (dto.matchId in s.duels && s.matches[dto.matchId].matchId == dto.matchId)
    requires nextId !in s.minted && roll < 25
  {
    match Screen(s, userId, socketId, dto, now)
    case Some(reason) => (s, Rejected(reason))
    case None =>
      var m := s.matches[dto.matchId];
      var first := m.player1.id == userId;
      if TooFastOrWrong(m, dto, now)
      then (Log(PutMatch(s, MissHit(m, first, now)), m.matchId, Missed(first, now)), Miss(STUN_MS))
      else LandStep(s, m, first, now, nextId, roll)
  }

  // ----- disconnect -----

  function Leave(s: State, m: Match, userId: UserId, socketId: SocketId): State
    requires Plays(m, userId)
  {
    var first := m.player1.id == userId;
    var g := Grace(userId, m.matchId, socketId, s.tick);
    var s1 := ClearGrace(PutMatch(s, WithSeat(m, first, Seat(m, first).(joinedMatch := false))), g.Key());
    s1.(armed := s1.armed[s1.next := g], timers := s1.timers[g.Key() := Timer(s1.next, socketId)],
        next := s1.next + 1)
  }

  function RageQuitStep(s: State, m: Match, userId: UserId): State {
    var winner := if m.player1.id == userId then m.player2 else m.player1;
    BeginSettle(s, m, winner.id, userId, RageQuit)
  }

  // The loop of `handlePlayerDisconnect`; the first fight in progress ends it.
  function Sweep(s: State, ids: seq<MatchId>, userId: UserId, socketId: SocketId): State
    requires forall id :: id in ids ==> id in s.matches
    requires forall id :: id in s.matches ==> s.matches[id].matchId == id
    decreases ids
  {
    if ids == [] then s
    else
      var m := s.matches[ids[0]];
      if !Plays(m, userId) || SeatOf(m, userId).socketId != socketId then Sweep(s, ids[1..], userId, socketId)
      else if m.status == Lobby then Sweep(Leave(s, m, userId, socketId), ids[1..], userId, socketId)
      else if m.status == Fighting then RageQuitStep(s, m, userId)
      else Sweep(s, ids[1..], userId, socketId)
  }

  function DisconnectStep(s: State, userId: UserId, socketId: SocketId): State
    requires Ordered(s)
    requires forall id :: id in s.matches ==> s.matches[id].matchId == id
  {
    Sweep(s.(closed := s.closed + {socketId}), s.order, userId, socketId)
  }

  // ----- the grace timer -----

  // `expireLobbyChallenge` up to the await of `fetchSockets`.
  function FireStep(s: State, handle: nat): State
    requires handle in s.armed
  {
    var g := s.armed[handle];
    var s1 := s.(armed := s.armed - {handle});
    if g.Key() !in s.timers || s.timers[g.Key()].socketId != g.socketId then s1
    else Suspend(s1.(timers := s1.timers - {g.Key()}), AwaitSockets(g))
  }

  predicate StillAbandoned(s: State, g: Grace) {
    g.matchId in s.matches && s.matches[g.matchId].status == Lobby &&
    Plays(s.matches[g.matchId], g.userId) && SeatOf(s.matches[g.matchId], g.userId).socketId == g.socketId
  }

  function CancelMatch(s: State, m: Match): State {
    var s1 := Announce(Emit(DropMatch(s, m.matchId, m.player1.id, m.player2.id), Removed(m.matchId)),
                       Cancelled(m.matchId));
    s1.(calls := s1.calls + [RecordCancelled(m.matchId, m.player1.id,
                                             if m.player2.id == "" then None else Some(m.player2.id),
                                             m.stakeType, m.stakeAmount)])
  }

  function FetchStep(s: State, frame: nat, sockets: nat): State
    requires frame in s.frames && s.frames[frame].AwaitSockets?
  {
    var g := s.frames[frame].grace;
    var s1 := Resume(s, frame);
    if sockets > 0 || !StillAbandoned(s1, g) then s1 else CancelMatch(s1, s1.matches[g.matchId])
  }

  // ----- the rest of finishMatch -----

  function SettleReturnStep(s: State, frame: nat, ok: bool): State
    requires frame in s.frames && s.frames[frame].AwaitSettle?
  {
    var f := s.frames[frame];
    var s1 := Resume(s, frame);
    if ok then Suspend(s1, AwaitAwards(f.matchId, f.winnerId, f.loserId, f.ending))
    else DropMatch(Announce(s1, SettleFailed(f.matchId)), f.matchId, f.winnerId, f.loserId)
  }

  function AwardsReturnStep(s: State, frame: nat): State
    requires frame in s.frames && s.frames[frame].AwaitAwards?
  {
    var f := s.frames[frame];
    DropMatch(Announce(Resume(s, frame), GameOver(f.matchId, f.winnerId, f.loserId)), f.matchId, f.winnerId, f.loserId)
  }

  // ----- runs -----

  datatype Event =
    | Create(user: User, socketId: SocketId, dto: CreateDto, newId: string)
    | Join(user: User, socketId: SocketId, matchId: MatchId)
    | RoomJoined(frame: nat, now: int, newId: string, roll: nat)
    | HitKey(userId: UserId, socketId: SocketId, hit: HitDto, now: int, newId: string, roll: nat)
    | Disconnect(userId: UserId, socketId: SocketId)
    | TimerFires(handle: nat)
    | SocketsFetched(frame: nat, sockets: nat)
    | SettleReturns(frame: nat, ok: bool)
    | AwardsReturn(frame: nat)

  // The environment: users are authenticated, payloads validated, uuids fresh, and a closed socket sends nothing.
  // Clock readings are arbitrary.
  predicate Enabled(s: State, e: Event) {
    match e
    case Create(user, socketId, dto, newId) =>
      user.userId != "" && socketId != "" && socketId !in s.closed && dto.Valid() && newId !in s.minted
    case Join(user, socketId, _) => user.userId != "" && socketId != "" && socketId !in s.closed
    case RoomJoined(frame, _, newId, roll) =>
      frame in s.frames && s.frames[frame].AwaitRoom? && newId !in s.minted && roll < 26
    case HitKey(_, _, _, _, newId, roll) => newId !in s.minted && roll < 25
    case Disconnect(userId, _) => userId != ""
    case TimerFires(handle) => handle in s.armed
    case SocketsFetched(frame, _) => frame in s.frames && s.frames[frame].AwaitSockets?
    case SettleReturns(frame, _) => frame in s.frames && s.frames[frame].AwaitSettle?
    case AwardsReturn(frame) => frame in s.frames && s.frames[frame].AwaitAwards?
  }

  // What the step functions need of a state; part of the invariant.
  predicate Shape(s: State) {
    && Ordered(s)
    && (forall id :: id in s.matches ==> s.matches[id].matchId == id)
    && (forall id :: id in s.matches && s.matches[id].status != Lobby ==> id in s.duels)
  }

  function Do(s: State, e: Event): State
    requires Shape(s) && Enabled(s, e)
  {
    match e
    case Create(user, socketId, dto, newId) => CreateStep(s, user, socketId, dto, newId)
    case Join(user, socketId, matchId) => JoinStep(s, user, socketId, matchId)
    case RoomJoined(frame, now, newId, roll) => StartStep(s, frame, now, newId, roll)
    case HitKey(userId, socketId, hit, now, newId, roll) => HitStep(s, userId, socketId, hit, now, newId, roll).0
    case Disconnect(userId, socketId) => DisconnectStep(s, userId, socketId)
    case TimerFires(handle) => FireStep(s, handle)
    case SocketsFetched(frame, sockets) => FetchStep(s, frame, sockets)
    case SettleReturns(frame, ok) => SettleReturnStep(s, frame, ok)
    case AwardsReturn(frame) => AwardsReturnStep(s, frame)
  }

  function Tick(s: State): State { s.(tick := s.tick + 1) }

  function Step(s: State, e: Event): State
    requires Shape(s) && Enabled(s, e)
  {
    Tick(Do(s, e))
  }
}
