// What every step of the fight club keeps.
module FightClubInvariant {
  import opened Wrappers
  import opened FightPrompt
  import opened FightClub
  import opened FightClubDuel

  function CallsFor(calls: seq<Call>, id: MatchId): nat {
    if calls == [] then 0
    else CallsFor(DropLast(calls), id) + if Last(calls).matchId == id then 1 else 0
  }

  function VerdictsFor(verdicts: seq<Verdict>, id: MatchId): nat {
    if verdicts == [] then 0
    else VerdictsFor(DropLast(verdicts), id) + if Last(verdicts).matchId == id then 1 else 0
  }

  predicate Once<T(==)>(xs: seq<T>) {
    forall i, j :: 0 <= i < j < |xs| ==> xs[i] != xs[j]
  }

  // ----- matches -----

  predicate MatchOk(m: Match) {
    && m.player1.id != "" && m.player1.socketId != "" && m.player1.id != m.player2.id
    && (m.player2.id == "" ==> m.status == Lobby && !m.player2.joinedMatch)
    && (m.player2.id != "" ==> m.player2.socketId != "")
    && CreateDto("", m.stakeType, m.stakeAmount).Valid()
  }

  ghost predicate MatchesOk(s: State) {
    && Shape(s)
    && (forall id :: id in s.matches ==> id in s.order && id in s.created && MatchOk(s.matches[id]))
    && Once(s.order)
    && s.created <= s.minted
    && (forall id :: id in s.duels ==> id in s.created)
  }

  // ----- grace timers -----

  predicate SeatedAt(s: State, g: Grace) {
    g.matchId in s.matches && Plays(s.matches[g.matchId], g.userId) &&
    SeatOf(s.matches[g.matchId], g.userId).socketId == g.socketId
  }

  // The player of this grace period has not been back since the disconnect that started it.
  predicate NotBackSince(s: State, g: Grace)
    requires SeatedAt(s, g)
  {
    && s.matches[g.matchId].status == Lobby
    && !SeatOf(s.matches[g.matchId], g.userId).joinedMatch
    && (g.Key() in s.lastJoin ==> s.lastJoin[g.Key()] < g.since)
  }

  predicate GraceOk(s: State, g: Grace) {
    g.userId != "" && g.matchId in s.created && g.socketId in s.closed && (SeatedAt(s, g) ==> NotBackSince(s, g))
  }

  // An entry of `lobbyGraceTimers` and the host timer it holds belong together.
  predicate EntryOk(s: State, k: TimerKey)
    requires k in s.timers
  {
    var t := s.timers[k];
    t.handle in s.armed && s.armed[t.handle].Key() == k && s.armed[t.handle].socketId == t.socketId
  }

  predicate ArmedOk(s: State, h: nat)
    requires h in s.armed
  {
    var g := s.armed[h];
    && h < s.next && g.Key() in s.timers && s.timers[g.Key()].handle == h
    && GraceOk(s, g)
    && (g.matchId in s.matches ==> SeatedAt(s, g))
  }

  ghost predicate TimersOk(s: State) {
    && (forall k :: k in s.timers ==> EntryOk(s, k))
    && (forall h :: h in s.armed ==> ArmedOk(s, h))
    && (forall f :: f in s.frames ==> f < s.next)
    && (forall f :: f in s.frames && s.frames[f].AwaitSockets? ==> GraceOk(s, s.frames[f].grace))
    && (forall k :: k in s.lastJoin ==> s.lastJoin[k] < s.tick)
  }

  // ----- settlements -----

  predicate Finishing(f: Frame) { f.AwaitSettle? || f.AwaitAwards? }

  function CallOf(m: Match, f: Frame): Call
    requires Finishing(f)
  {
    Settle(m.matchId, f.winnerId, f.loserId, m.stakeType, m.stakeAmount, m.player1.id, m.player2.id, f.ending)
  }

  predicate TwoPlayers(m: Match, winner: UserId, loser: UserId) {
    (winner == m.player1.id && loser == m.player2.id) || (winner == m.player2.id && loser == m.player1.id)
  }

  ghost predicate FinishOk(s: State, f: nat)
    requires f in s.frames
  {
    Finishing(s.frames[f]) ==>
      && s.frames[f].matchId in s.matches
      && var m := s.matches[s.frames[f].matchId];
         m.status == FightOver && TwoPlayers(m, s.frames[f].winnerId, s.frames[f].loserId) &&
           CallOf(m, s.frames[f]) in s.calls
  }

  predicate SameFinish(f: Frame, g: Frame) { Finishing(f) && Finishing(g) && f.matchId == g.matchId }

  predicate FinishesMatch(f: Frame, id: MatchId) { Finishing(f) && f.matchId == id }

  ghost predicate SettlesOk(s: State) {
    && (forall f :: f in s.frames ==> FinishOk(s, f))
    && (forall f, g :: f in s.frames && g in s.frames && f != g ==> !SameFinish(s.frames[f], s.frames[g]))
    && (forall id :: id in s.matches && s.matches[id].status == FightOver ==>
          exists f :: f in s.frames && FinishesMatch(s.frames[f], id))
  }

  // ----- outcomes -----

  ghost predicate CallOk(s: State, c: Call) {
    c.matchId in s.created &&
    match c
    case Settle(id, winner, loser, stakeType, stakeAmount, p1, p2, ending) =>
      && winner != loser && winner != "" && loser != ""
      && ((winner == p1 && loser == p2) || (winner == p2 && loser == p1))
      && CreateDto("", stakeType, stakeAmount).Valid()
      && id in s.duels && Fair(s.duels[id])
      && (ending == Ko ==> KnockedOut(s.duels[id], winner == p1))
      && (ending == RageQuit ==> Dealt(s.duels[id].swings, true) <= 29 && Dealt(s.duels[id].swings, false) <= 29)
    case RecordCancelled(id, creator, challenger, stakeType, stakeAmount) =>
      && creator != "" && (challenger.Some? ==> challenger.value != "" && challenger.value != creator)
      && CreateDto("", stakeType, stakeAmount).Valid()
      && id !in s.duels
  }

  predicate Undecided(s: State, id: MatchId) { id in s.matches && s.matches[id].status != FightOver }

  ghost predicate CallsOk(s: State) {
    && (forall id :: id in s.created ==> CallsFor(s.calls, id) == if Undecided(s, id) then 0 else 1)
    && (forall c :: c in s.calls ==> CallOk(s, c) && !Undecided(s, c.matchId))
  }

  ghost predicate VerdictOk(s: State, v: Verdict) {
    v.matchId in s.created &&
    match v
    case GameOver(id, winner, loser) =>
      exists c :: c in s.calls && c.Settle? && c.matchId == id && c.winnerId == winner && c.loserId == loser
    case SettleFailed(id) => exists c :: c in s.calls && c.Settle? && c.matchId == id
    case Cancelled(id) => exists c :: c in s.calls && c.RecordCancelled? && c.matchId == id
  }

  ghost predicate VerdictsOk(s: State) {
    && (forall id :: id in s.created ==> VerdictsFor(s.verdicts, id) == if id in s.matches then 0 else 1)
    && (forall v :: v in s.verdicts ==> VerdictOk(s, v) && v.matchId !in s.matches)
  }

  // ----- starts -----

  predicate StartsMatch(f: Frame, id: MatchId) { f.AwaitRoom? && f.matchId == id }

  // A lobby that is ready to fight always has a join about to start it.
  ghost predicate StartsOk(s: State) {
    forall id :: id in s.matches && Ready(s.matches[id]) ==>
      exists f :: f in s.frames && StartsMatch(s.frames[f], id)
  }

  // ----- duels -----

  predicate FreshPlayer(p: Player) {
    p.hp == 30 && p.combo == 0 && p.stunnedUntil == 0 && p.lastHitAt == 0 && p.hitTimestamps == []
  }

  ghost predicate PromptsMinted(s: State, d: Duel) {
    forall i :: 0 <= i < |d.swings| && d.swings[i].Landed? ==> d.swings[i].prompt.promptId in s.minted
  }

  ghost predicate DuelOk(s: State, m: Match) {
    match m.status
    case Lobby => m.matchId !in s.duels && FreshPlayer(m.player1) && FreshPlayer(m.player2)
    case Fighting =>
      && m.matchId in s.duels && Describes(m, s.duels[m.matchId])
      && 1 <= m.player1.hp && 1 <= m.player2.hp
      && m.prompt.promptId in s.minted && PromptsMinted(s, s.duels[m.matchId])
    case FightOver => true
  }

  ghost predicate DuelsOk(s: State) {
    forall id :: id in s.matches ==> DuelOk(s, s.matches[id])
  }

  // ----- cadence warnings -----

  ghost predicate CadenceOk(s: State) {
    && (forall k :: k in s.cadence ==> k.0 != "" && k.1 in s.matches && Plays(s.matches[k.1], k.0))
    && (forall i, j :: 0 <= i < j < |s.warned| ==> s.warned[i] != s.warned[j])
    && (forall i :: 0 <= i < |s.warned| ==>
        s.warned[i].1 in s.created && (s.warned[i].1 in s.matches ==> s.warned[i] in s.cadence))
  }

  ghost predicate Inv(s: State) {
    && MatchesOk(s) && TimersOk(s) && SettlesOk(s) && CallsOk(s) && VerdictsOk(s)
    && StartsOk(s) && DuelsOk(s) && CadenceOk(s)
  }
}
