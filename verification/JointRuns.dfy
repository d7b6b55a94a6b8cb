// The fight club and the economy on one database: its repository calls are carried out in the ledger, each once, some
// time after they are made, and a settlement returns with what became of it.
module JointRuns {
  import opened Wrappers
  import Catalog
  import ConsumableItems
  import Shop
  import Stimulus
  import Store
  import Settlement
  import C = FightClub
  import Invariant = FightClubInvariant
  import Duel = FightClubDuel
  import Steps = FightClubSteps
  import Runs = FightClubRuns
  import L = Ledger
  import LedgerInvariant
  import LedgerSteps
  import FightPrompt
  import LedgerRuns

  // `done` says which calls have been carried out, and whether they committed; `rows` which call wrote each fights row.
  datatype Joint = Joint(club: C.State, ledger: L.World, done: map<nat, bool>, rows: seq<nat>)

  const START := Joint(C.EMPTY, L.EMPTY_WORLD, map[], [])

  datatype Event =
    | Club(club: C.Event)
    | Economy(economy: L.Event)
    | Commit(call: nat, now: int)
    | Fail(call: nat)

  predicate Commits(t: Store.Db, c: C.Call) {
    match c
    case Settle(_, _, _, _, _, p1, p2, _) => p1 in t.users && p2 in t.users
    case RecordCancelled(_, creator, challenger, _, _) => Settlement.Known(t, creator, challenger)
  }

  // The settlement of a match has been carried out, with this result.
  ghost predicate Answered(j: Joint, id: C.MatchId, ok: bool) {
    exists i :: i in j.done && IsAnswer(j, i, id, ok)
  }

  predicate IsAnswer(j: Joint, i: nat, id: C.MatchId, ok: bool)
    requires i in j.done
  {
    i < |j.club.calls| && j.club.calls[i].Settle? && j.club.calls[i].matchId == id && j.done[i] == ok
  }

  // What the settlement of this frame was answered.
  ghost predicate AnswerIs(j: Joint, frame: nat, ok: bool) {
    && frame in j.club.frames && j.club.frames[frame].AwaitSettle?
    && Answered(j, j.club.frames[frame].matchId, ok)
  }

  // A failure may have any cause; a commit needs what the transaction needs.
  ghost predicate Enabled(j: Joint, e: Event) {
    match e
    case Club(c) =>
      C.Shape(j.club) && C.Enabled(j.club, c) && (c.SettleReturns? ==> AnswerIs(j, c.frame, c.ok))
    case Economy(l) => L.Enabled(j.ledger, l) && !l.Settle? && !l.Cancel?
    case Commit(i, now) =>
      && i < |j.club.calls| && i !in j.done && Commits(j.ledger.db, j.club.calls[i])
      && L.Enabled(j.ledger, LedgerRuns.EventOf(j.club.calls[i], now))
    case Fail(i) => i < |j.club.calls| && i !in j.done
  }

  ghost function Step(j: Joint, e: Event): Joint
    requires Enabled(j, e)
  {
    match e
    case Club(c) => j.(club := C.Step(j.club, c))
    case Economy(l) => j.(ledger := L.Do(j.ledger, l))
    case Commit(i, now) =>
      j.(ledger := L.Do(j.ledger, LedgerRuns.EventOf(j.club.calls[i], now)), done := j.done[i := true],
         rows := j.rows + [i])
    case Fail(i) => j.(done := j.done[i := false])
  }

  ghost predicate Reaches(j: Joint, es: seq<Event>, k: Joint)
    decreases |es|
  {
    if es == [] then j == k
    else Enabled(j, es[0]) && Reaches(Step(j, es[0]), es[1..], k)
  }

  // ----- the invariant -----

  // A fights row against the call that wrote it.
  predicate RowOf(f: Store.Fight, c: C.Call) {
    match c
    case Settle(_, winner, _, stakeType, stakeAmount, p1, p2, ending) =>
      f.player1Id == p1 && f.player2Id == Some(p2) && f.winnerId == Some(winner) && f.stakeType == stakeType
      && f.stakeAmount == stakeAmount && f.outcome == LedgerRuns.OutcomeOf(ending)
    case RecordCancelled(_, creator, challenger, stakeType, stakeAmount) =>
      f.player1Id == creator && f.player2Id == challenger && f.winnerId == None && f.stakeType == stakeType
      && f.stakeAmount == stakeAmount && f.outcome == Store.Cancelled
  }

  predicate RowOk(j: Joint, k: nat)
    requires k < |j.rows| && k < |j.ledger.db.fights|
  {
    && j.rows[k] in j.done && j.done[j.rows[k]] && j.rows[k] < |j.club.calls|
    && RowOf(j.ledger.db.fights[k], j.club.calls[j.rows[k]])
  }

  ghost predicate RowsOk(j: Joint) {
    && (forall i :: i in j.done ==> i < |j.club.calls|)
    && |j.rows| == |j.ledger.db.fights|
    && (forall k :: 0 <= k < |j.rows| ==> RowOk(j, k))
    && (forall k, m :: 0 <= k < m < |j.rows| ==> j.rows[k] != j.rows[m])
    && (forall i :: i in j.done && j.done[i] ==> i in j.rows)
  }

  // The settlement with this winner and loser was committed.
  ghost predicate Committed(j: Joint, id: C.MatchId, winner: C.UserId, loser: C.UserId) {
    exists i :: i in j.done && IsAnswer(j, i, id, true) && j.club.calls[i].winnerId == winner &&
      j.club.calls[i].loserId == loser
  }

  ghost predicate VerdictTold(j: Joint, v: C.Verdict) {
    match v
    case GameOver(id, winner, loser) => Committed(j, id, winner, loser)
    case SettleFailed(id) => Answered(j, id, false)
    case Cancelled(_) => true
  }

  ghost predicate AwardsOk(j: Joint, f: C.Frame) {
    f.AwaitAwards? ==> Committed(j, f.matchId, f.winnerId, f.loserId)
  }

  ghost predicate ToldOk(j: Joint) {
    && (forall v :: v in j.club.verdicts ==> VerdictTold(j, v))
    && (forall f :: f in j.club.frames ==> AwardsOk(j, j.club.frames[f]))
  }

  ghost predicate Inv(j: Joint) {
    Invariant.Inv(j.club) && LedgerInvariant.Inv(j.ledger) && RowsOk(j) && ToldOk(j)
  }

  // ----- growth -----

  // Calls and commits are only ever added.
  ghost predicate Later(j: Joint, k: Joint) {
    && |j.club.calls| <= |k.club.calls| && (forall i :: 0 <= i < |j.club.calls| ==> k.club.calls[i] == j.club.calls[i])
    && (forall i :: i in j.done ==> i in k.done && k.done[i] == j.done[i])
  }

  lemma LaterKeepsAnswers(j: Joint, k: Joint, id: C.MatchId, ok: bool)
    requires Later(j, k) && Answered(j, id, ok)
    ensures Answered(k, id, ok)
  {
    var i :| i in j.done && IsAnswer(j, i, id, ok);
    assert IsAnswer(k, i, id, ok);
  }

  lemma LaterKeepsCommits(j: Joint, k: Joint, id: C.MatchId, winner: C.UserId, loser: C.UserId)
    requires Later(j, k) && Committed(j, id, winner, loser)
    ensures Committed(k, id, winner, loser)
  {
    var i :| i in j.done && IsAnswer(j, i, id, true) && j.club.calls[i].winnerId == winner &&
      j.club.calls[i].loserId == loser;
    assert IsAnswer(k, i, id, true);
  }

  lemma LaterKeepsTold(j: Joint, k: Joint, v: C.Verdict)
    requires Later(j, k) && VerdictTold(j, v)
    ensures VerdictTold(k, v)
  {
    hide Later, Answered, Committed;
    match v
    case GameOver(id, winner, loser) => LaterKeepsCommits(j, k, id, winner, loser);
    case SettleFailed(id) => LaterKeepsAnswers(j, k, id, false);
    case Cancelled(_) =>
  }

  lemma LaterKeepsAwards(j: Joint, k: Joint, f: C.Frame)
    requires Later(j, k) && AwardsOk(j, f)
    ensures AwardsOk(k, f)
  {
    hide Later, Committed;
    if f.AwaitAwards? { LaterKeepsCommits(j, k, f.matchId, f.winnerId, f.loserId); }
  }

  // Where the club stands still.
  lemma ToldStays(j: Joint, k: Joint)
    requires ToldOk(j) && Later(j, k) && k.club == j.club
    ensures ToldOk(k)
  {
    hide Later, VerdictTold, AwardsOk;
    forall v | v in k.club.verdicts ensures VerdictTold(k, v) { LaterKeepsTold(j, k, v); }
    forall f | f in k.club.frames ensures AwardsOk(k, k.club.frames[f]) { LaterKeepsAwards(j, k, k.club.frames[f]); }
  }

  // ----- steps of the club -----

  // What most of the club's steps do to calls, verdicts and awards.
  ghost predicate Grows(s: C.State, t: C.State) {
    && |s.calls| <= |t.calls| && (forall i :: 0 <= i < |s.calls| ==> t.calls[i] == s.calls[i])
    && (forall v :: v in t.verdicts ==> v in s.verdicts || v.Cancelled?)
    && (forall f :: f in t.frames && t.frames[f].AwaitAwards? ==> f in s.frames && s.frames[f] == t.frames[f])
  }

  lemma GrowsThenGrows(s: C.State, t: C.State, u: C.State)
    requires Grows(s, t) && Grows(t, u)
    ensures Grows(s, u)
  {}

  lemma CreateGrows(s: C.State, user: C.User, socketId: C.SocketId, dto: C.CreateDto, id: C.MatchId)
    requires C.Ordered(s) && id !in s.minted
    ensures Grows(s, C.CreateStep(s, user, socketId, dto, id))
  {
    hide C.ListChallenges;
  }

  lemma JoinSuspends(s: C.State, user: C.User, socketId: C.SocketId, id: C.MatchId)
    ensures var t := C.JoinStep(s, user, socketId, id);
            && t.calls == s.calls && t.verdicts == s.verdicts
            && (t.frames == s.frames || exists v :: t.frames == s.frames[s.next := C.AwaitRoom(id, user.userId, v)])
  {
    if C.JoinSucceeds(s, user, id) {
      var n := C.JoinedMatch(s.matches[id], user, socketId);
      hide C.ToFightState, C.JoinedMatch, C.JoinSucceeds, C.ClearGrace;
      ClearStays(C.PutMatch(s, n), (user.userId, id));
    }
  }

  lemma ClearStays(s: C.State, key: C.TimerKey)
    ensures var t := C.ClearGrace(s, key);
            t.frames == s.frames && t.calls == s.calls && t.verdicts == s.verdicts && t.next == s.next
  {}

  lemma JoinGrows(s: C.State, user: C.User, socketId: C.SocketId, id: C.MatchId)
    ensures Grows(s, C.JoinStep(s, user, socketId, id))
  {
    JoinSuspends(s, user, socketId, id);
    hide C.JoinStep;
  }

  lemma StartGrows(s: C.State, frame: nat, now: int, promptId: string, roll: nat)
    requires frame in s.frames && s.frames[frame].AwaitRoom? && promptId !in s.minted && roll < 26
    ensures Grows(s, C.StartStep(s, frame, now, promptId, roll))
  {
    hide C.Ready;
  }

  lemma BeginSettleGrows(s: C.State, m: C.Match, winner: C.UserId, loser: C.UserId, ending: C.Ending)
    ensures Grows(s, C.BeginSettle(s, m, winner, loser, ending))
  {}

  lemma LandGrows(s: C.State, m: C.Match, first: bool, now: int, nextId: string, roll: nat)
    requires m.matchId in s.duels && roll < 25
    ensures Grows(s, C.LandStep(s, m, first, now, nextId, roll).0)
  {
    hide C.LandHit, C.Landing, C.BeginSettle, Grows, C.Damage;
    var next := FightPrompt.CreatePrompt(now, m.prompt.key, nextId, roll);
    var m' := C.LandHit(m, first, now, next);
    var t := C.Landing(s, m, m', first, now, nextId);
    LandingGrows(s, m, m', first, now, nextId);
    BeginSettleGrows(t, m', C.Seat(m, first).id, C.Seat(m, !first).id, C.Ko);
    GrowsThenGrows(s, t, C.BeginSettle(t, m', C.Seat(m, first).id, C.Seat(m, !first).id, C.Ko));
  }

  lemma LandingGrows(s: C.State, m: C.Match, m': C.Match, first: bool, now: int, nextId: string)
    requires m.matchId in s.duels
    ensures Grows(s, C.Landing(s, m, m', first, now, nextId))
  {
    hide C.Damage;
  }

  lemma HitGrows(s: C.State, userId: C.UserId, socketId: C.SocketId, dto: C.HitDto, now: int, nextId: string, roll: nat)
    requires C.Shape(s) && nextId !in s.minted && roll < 25
    ensures Grows(s, C.HitStep(s, userId, socketId, dto, now, nextId, roll).0)
  {
    hide C.LandStep;
    if C.Screen(s, userId, socketId, dto, now).None? {
      var m := s.matches[dto.matchId];
      var first := m.player1.id == userId;
      hide C.Screen;
      if !C.TooFastOrWrong(m, dto, now) { LandGrows(s, m, first, now, nextId, roll); }
    }
  }

  lemma {:induction false} SweepGrows(s: C.State, ids: seq<C.MatchId>, userId: C.UserId, socketId: C.SocketId)
    requires C.Shape(s) && forall id :: id in ids ==> id in s.matches
    ensures Grows(s, C.Sweep(s, ids, userId, socketId))
    decreases ids
  {
    if ids != [] {
      var m := s.matches[ids[0]];
      if !C.Plays(m, userId) || C.SeatOf(m, userId).socketId != socketId {
        SweepGrows(s, ids[1..], userId, socketId);
      } else if m.status == C.Lobby {
        var t := C.Leave(s, m, userId, socketId);
        LeaveGrows(s, m, userId, socketId);
        hide Grows, C.Leave;
        SweepGrows(t, ids[1..], userId, socketId);
        GrowsThenGrows(s, t, C.Sweep(t, ids[1..], userId, socketId));
      } else if m.status == C.Fighting {
        BeginSettleGrows(s, m, (if m.player1.id == userId then m.player2 else m.player1).id, userId, C.RageQuit);
      } else {
        SweepGrows(s, ids[1..], userId, socketId);
      }
    }
  }

  lemma LeaveGrows(s: C.State, m: C.Match, userId: C.UserId, socketId: C.SocketId)
    requires C.Shape(s) && m.matchId in s.matches && s.matches[m.matchId] == m && C.Plays(m, userId)
    ensures Grows(s, C.Leave(s, m, userId, socketId)) && C.Shape(C.Leave(s, m, userId, socketId))
    ensures C.Leave(s, m, userId, socketId).matches.Keys == s.matches.Keys
  {
    assert C.Leave(s, m, userId, socketId).matches.Keys == s.matches.Keys + {m.matchId};
  }

  lemma DisconnectGrows(s: C.State, userId: C.UserId, socketId: C.SocketId)
    requires C.Shape(s)
    ensures Grows(s, C.DisconnectStep(s, userId, socketId))
  {
    SweepGrows(s.(closed := s.closed + {socketId}), s.order, userId, socketId);
  }

  lemma FireGrows(s: C.State, handle: nat)
    requires handle in s.armed
    ensures Grows(s, C.FireStep(s, handle))
  {}

  lemma FetchGrows(s: C.State, frame: nat, sockets: nat)
    requires frame in s.frames && s.frames[frame].AwaitSockets?
    ensures Grows(s, C.FetchStep(s, frame, sockets))
  {}

  lemma ClubGrows(s: C.State, e: C.Event)
    requires C.Shape(s) && C.Enabled(s, e) && !e.SettleReturns? && !e.AwardsReturn?
    ensures Grows(s, C.Step(s, e))
  {
    hide Grows, C.Shape, C.CreateStep, C.JoinStep, C.StartStep, C.HitStep, C.DisconnectStep, C.FireStep, C.FetchStep;
    match e {
      case Create(user, socketId, dto, newId) => ShapeIsOrdered(s); CreateGrows(s, user, socketId, dto, newId);
      case Join(user, socketId, matchId) => JoinGrows(s, user, socketId, matchId);
      case RoomJoined(frame, now, newId, roll) => StartGrows(s, frame, now, newId, roll);
      case HitKey(userId, socketId, hit, now, newId, roll) => HitGrows(s, userId, socketId, hit, now, newId, roll);
      case Disconnect(userId, socketId) => DisconnectGrows(s, userId, socketId);
      case TimerFires(handle) => FireGrows(s, handle);
      case SocketsFetched(frame, sockets) => FetchGrows(s, frame, sockets);
    }
    TickGrows(C.Do(s, e));
    GrowsThenGrows(s, C.Do(s, e), C.Step(s, e));
  }

  lemma ShapeIsOrdered(s: C.State)
    requires C.Shape(s)
    ensures C.Ordered(s)
  {}

  lemma TickGrows(s: C.State)
    ensures Grows(s, C.Tick(s))
  {}

  lemma GrowthIsLater(j: Joint, t: C.State)
    requires Grows(j.club, t)
    ensures Later(j, j.(club := t))
  {}

  lemma GrowthKeepsTold(j: Joint, t: C.State)
    requires ToldOk(j) && Grows(j.club, t)
    ensures ToldOk(j.(club := t))
  {
    var k := j.(club := t);
    GrowthIsLater(j, t);
    hide Later, VerdictTold, AwardsOk;
    forall v | v in t.verdicts ensures VerdictTold(k, v) {
      if v in j.club.verdicts { LaterKeepsTold(j, k, v); } else { CancelledIsTold(k, v); }
    }
    forall f | f in t.frames ensures AwardsOk(k, t.frames[f]) {
      if t.frames[f].AwaitAwards? { LaterKeepsAwards(j, k, t.frames[f]); } else { NoAwards(k, t.frames[f]); }
    }
  }

  lemma CancelledIsTold(j: Joint, v: C.Verdict)
    requires v.Cancelled?
    ensures VerdictTold(j, v)
  {}

  lemma NoAwards(j: Joint, f: C.Frame)
    requires !f.AwaitAwards?
    ensures AwardsOk(j, f)
  {}

  // ----- the two returns -----

  lemma {:induction false} OneCall(calls: seq<C.Call>, id: C.MatchId, i: nat, k: nat)
    requires i < |calls| && k < |calls| && calls[i].matchId == id && calls[k].matchId == id
    requires Invariant.CallsFor(calls, id) <= 1
    ensures i == k
  {
    var n := |calls| - 1;
    var rest := Duel.DropLast(calls);
    if i < n && k < n {
      OneCall(rest, id, i, k);
    } else if i < n {
      SomeCall(rest, id, i);
    } else if k < n {
      SomeCall(rest, id, k);
    }
  }

  lemma {:induction false} SomeCall(calls: seq<C.Call>, id: C.MatchId, i: nat)
    requires i < |calls| && calls[i].matchId == id
    ensures Invariant.CallsFor(calls, id) >= 1
  {
    if i < |calls| - 1 { SomeCall(Duel.DropLast(calls), id, i); }
  }

  lemma AtMostOneCall(s: C.State, id: C.MatchId)
    requires Invariant.CallsOk(s)
    ensures (exists c :: c in s.calls && c.matchId == id) ==> Invariant.CallsFor(s.calls, id) == 1
  {
    if c :| c in s.calls && c.matchId == id { assert Invariant.CallOk(s, c); }
  }

  // A settlement that has been answered well was committed for the winner and loser it was called with.
  lemma AnswerIsCommit(j: Joint, frame: nat)
    requires Invariant.Inv(j.club) && frame in j.club.frames && j.club.frames[frame].AwaitSettle?
    requires Answered(j, j.club.frames[frame].matchId, true)
    ensures var f := j.club.frames[frame]; Committed(j, f.matchId, f.winnerId, f.loserId)
  {
    var s := j.club;
    var f := s.frames[frame];
    assert Invariant.FinishOk(s, frame);
    var c := Invariant.CallOf(s.matches[f.matchId], f);
    assert s.matches[f.matchId].matchId == f.matchId;
    var k: nat :| k < |s.calls| && s.calls[k] == c;
    var i :| i in j.done && IsAnswer(j, i, f.matchId, true);
    AtMostOneCall(s, f.matchId);
    hide Invariant.Inv;
    OneCall(s.calls, f.matchId, i, k);
  }

  lemma SettleReturnFields(s: C.State, frame: nat, ok: bool)
    requires frame in s.frames && s.frames[frame].AwaitSettle?
    ensures var t, f := C.Tick(C.SettleReturnStep(s, frame, ok)), s.frames[frame];
            && t.calls == s.calls
            && t.verdicts == (if ok then s.verdicts else s.verdicts + [C.SettleFailed(f.matchId)])
            && (forall g :: g in t.frames ==>
                  (g in s.frames && t.frames[g] == s.frames[g]) ||
                  (ok && t.frames[g] == C.AwaitAwards(f.matchId, f.winnerId, f.loserId, f.ending)))
  {}

  // No call more, and nothing told or awaited but what the books back.
  lemma BackedIsTold(j: Joint, t: C.State)
    requires t.calls == j.club.calls
    requires forall v :: v in t.verdicts ==> VerdictTold(j, v)
    requires forall f :: f in t.frames ==> AwardsOk(j, t.frames[f])
    ensures ToldOk(j.(club := t))
  {
    var k := j.(club := t);
    assert Later(j, k);
    hide Later, VerdictTold, AwardsOk;
    forall v | v in t.verdicts ensures VerdictTold(k, v) { LaterKeepsTold(j, k, v); }
    forall f | f in t.frames ensures AwardsOk(k, t.frames[f]) { LaterKeepsAwards(j, k, t.frames[f]); }
  }

  lemma SettleReturnKeepsTold(j: Joint, frame: nat, ok: bool)
    requires Invariant.Inv(j.club) && ToldOk(j) && frame in j.club.frames && j.club.frames[frame].AwaitSettle?
    requires Answered(j, j.club.frames[frame].matchId, ok)
    ensures ToldOk(j.(club := C.Tick(C.SettleReturnStep(j.club, frame, ok))))
  {
    hide Invariant.Inv, C.SettleReturnStep, Answered, Committed;
    if ok { AnswerIsCommit(j, frame); }
    SettleReturnFields(j.club, frame, ok);
    var t := C.Tick(C.SettleReturnStep(j.club, frame, ok));
    hide C.Tick;
    forall v | v in t.verdicts ensures VerdictTold(j, v) {}
    forall f | f in t.frames ensures AwardsOk(j, t.frames[f]) {}
    BackedIsTold(j, t);
  }

  lemma AwardsReturnKeepsTold(j: Joint, frame: nat)
    requires ToldOk(j) && frame in j.club.frames && j.club.frames[frame].AwaitAwards?
    ensures ToldOk(j.(club := C.Tick(C.AwardsReturnStep(j.club, frame))))
  {
    hide Answered, Committed;
    assert AwardsOk(j, j.club.frames[frame]);
    BackedIsTold(j, C.Tick(C.AwardsReturnStep(j.club, frame)));
  }

  lemma AwardsReturnAddsNoCalls(s: C.State, frame: nat)
    requires frame in s.frames && s.frames[frame].AwaitAwards?
    ensures C.Tick(C.AwardsReturnStep(s, frame)).calls == s.calls
  {}

  lemma LaterKeepsRows(j: Joint, t: C.State)
    requires RowsOk(j) && Later(j, j.(club := t))
    ensures RowsOk(j.(club := t))
  {
    var k := j.(club := t);
    forall i | 0 <= i < |k.rows| ensures RowOk(k, i) { assert RowOk(j, i); }
  }

  lemma ClubKeeps(j: Joint, e: C.Event)
    requires Inv(j) && Enabled(j, Club(e))
    ensures Inv(Step(j, Club(e)))
  {
    hide Invariant.Inv, LedgerInvariant.Inv, RowsOk, ToldOk, Later, Grows, C.Enabled, Answered, C.Do;
    var t := C.Step(j.club, e);
    Steps.StepKeeps(j.club, e);
    if e.SettleReturns? {
      ReturnEnabled(j.club, e);
      SettleReturnKeepsTold(j, e.frame, e.ok);
      ReturnSteps(j.club, e);
    } else if e.AwardsReturn? {
      ReturnEnabled(j.club, e);
      AwardsReturnKeepsTold(j, e.frame);
      ReturnSteps(j.club, e);
    } else {
      ClubGrows(j.club, e);
      GrowthKeepsTold(j, t);
      GrowthIsLater(j, t);
    }
    LaterKeepsRows(j, t);
  }

  lemma ReturnEnabled(s: C.State, e: C.Event)
    requires C.Enabled(s, e)
    ensures e.SettleReturns? ==> e.frame in s.frames && s.frames[e.frame].AwaitSettle?
    ensures e.AwardsReturn? ==> e.frame in s.frames && s.frames[e.frame].AwaitAwards?
  {}

  lemma ReturnSteps(s: C.State, e: C.Event)
    requires C.Shape(s) && C.Enabled(s, e) && (e.SettleReturns? || e.AwardsReturn?)
    ensures e.SettleReturns? ==> C.Step(s, e) == C.Tick(C.SettleReturnStep(s, e.frame, e.ok))
    ensures e.AwardsReturn? ==> C.Step(s, e) == C.Tick(C.AwardsReturnStep(s, e.frame))
    ensures forall done, ledger, rows :: Later(Joint(s, ledger, done, rows), Joint(C.Step(s, e), ledger, done, rows))
  {
    hide C.Shape, C.SettleReturnStep, C.AwardsReturnStep, C.Tick;
    if e.SettleReturns? { SettleReturnFields(s, e.frame, e.ok); } else { AwardsReturnAddsNoCalls(s, e.frame); }
    assert C.Step(s, e).calls == s.calls;
  }

  // ----- steps of the ledger -----

  lemma BuyKeepsFights(w: L.World, u: Store.UserId, key: string, prize: string)
    ensures L.BuyStep(w, u, key, prize).db.fights == w.db.fights
  {
    hide Catalog.FindShopItem;
    if Shop.Sells(w.db, u, key) { LedgerSteps.BoughtRow(w.db, u, Catalog.FindShopItem(key).value, prize, u); }
  }

  lemma UseKeepsFights(w: L.World, u: Store.UserId, dto: ConsumableItems.UseItem, check: int, now: int,
                       newId: Store.MessageId)
    ensures L.UseStep(w, u, dto, check, now, newId).db.fights == w.db.fights
  {
    if L.Usable(w, u, dto, check) {
      LedgerSteps.UseHasEffect(w, u, dto, check, now, newId);
    } else {
      LedgerSteps.UseRefused(w, u, dto, check, now, newId);
    }
  }

  lemma EconomyKeepsFights(w: L.World, e: L.Event)
    requires L.Enabled(w, e) && !e.Settle? && !e.Cancel?
    ensures L.Do(w, e).db.fights == w.db.fights
  {
    hide L.BuyStep, L.UseStep, Catalog.SoapPool, Shop.EquipRefusal, Stimulus.Due, Stimulus.Claimed;
    match e
    case Buy(u, key, roll, pick) => BuyKeepsFights(w, u, key, Catalog.SoapPool(roll)[pick]);
    case Use(u, dto, check, now, newId) => UseKeepsFights(w, u, dto, check, now, newId);
    case _ =>
  }

  lemma EconomyKeeps(j: Joint, e: L.Event)
    requires Inv(j) && Enabled(j, Economy(e))
    ensures Inv(Step(j, Economy(e)))
  {
    hide Invariant.Inv, LedgerInvariant.Inv, L.Do, L.Enabled, ToldOk, RowOf;
    var k := Step(j, Economy(e));
    LedgerSteps.StepKeeps(j.ledger, e);
    EconomyKeepsFights(j.ledger, e);
    forall i | 0 <= i < |k.rows| ensures RowOk(k, i) { assert RowOk(j, i); }
    assert Later(j, k);
    ToldStays(j, k);
  }

  lemma FailKeeps(j: Joint, i: nat)
    requires Inv(j) && Enabled(j, Fail(i))
    ensures Inv(Step(j, Fail(i)))
  {
    hide Invariant.Inv, LedgerInvariant.Inv, ToldOk, RowsOk, RowOf, RowOk, Later;
    var k := j.(done := j.done[i := false]);
    FailKeepsRows(j, k, i);
    FailIsLater(j, i);
    ToldStays(j, k);
  }

  lemma FailKeepsRows(j: Joint, k: Joint, i: nat)
    requires RowsOk(j) && i < |j.club.calls| && i !in j.done && k == j.(done := j.done[i := false])
    ensures RowsOk(k)
  {
    hide RowOf;
    forall n | 0 <= n < |k.rows| ensures RowOk(k, n) { assert RowOk(j, n); }
  }

  lemma FailIsLater(j: Joint, i: nat)
    requires i < |j.club.calls| && i !in j.done
    ensures Later(j, j.(done := j.done[i := false]))
  {}

  function ArgsOf(c: C.Call, now: int): Settlement.SettleArgs
    requires c.Settle?
  {
    LedgerRuns.EventOf(c, now).args
  }

  lemma SettleWrites(w: L.World, c: C.Call, now: int)
    requires c.Settle? && Settlement.Settles(w.db, ArgsOf(c, now))
    ensures var after := L.SettleStep(w, ArgsOf(c, now)).db.fights;
            |after| == |w.db.fights| + 1 && after[..|w.db.fights|] == w.db.fights && RowOf(after[|w.db.fights|], c)
  {
    hide L.ArmedLog, Settlement.WinnerRow, Settlement.LoserRow, Settlement.Stake;
  }

  lemma CancelWrites(w: L.World, c: C.Call, now: int)
    requires c.RecordCancelled? && Commits(w.db, c)
    ensures var after := L.CancelStep(w, c.creatorId, c.challengerId, c.stakeType, c.stakeAmount, now).db.fights;
            |after| == |w.db.fights| + 1 && after[..|w.db.fights|] == w.db.fights && RowOf(after[|w.db.fights|], c)
  {}

  // A commit writes one row, and it is its call's.
  lemma CommitWrites(j: Joint, i: nat, now: int)
    requires Invariant.Inv(j.club) && i < |j.club.calls| && Commits(j.ledger.db, j.club.calls[i])
    requires L.Enabled(j.ledger, LedgerRuns.EventOf(j.club.calls[i], now))
    ensures var before, after := j.ledger.db.fights, L.Do(j.ledger, LedgerRuns.EventOf(j.club.calls[i], now)).db.fights;
            |after| == |before| + 1 && after[..|before|] == before && RowOf(after[|before|], j.club.calls[i])
  {
    hide RowOf, L.SettleStep, L.CancelStep, Settlement.Settles;
    var c := j.club.calls[i];
    assert Invariant.CallOk(j.club, c);
    hide Invariant.Inv;
    LedgerRuns.CallIsFair(j.club, c, j.ledger, now);
    hide Invariant.CallOk;
    if c.Settle? { SettleWrites(j.ledger, c, now); } else { CancelWrites(j.ledger, c, now); }
  }

  lemma CommitKeeps(j: Joint, i: nat, now: int)
    requires Inv(j) && Enabled(j, Commit(i, now))
    ensures Inv(Step(j, Commit(i, now)))
  {
    hide Invariant.Inv, LedgerInvariant.Inv, L.Do, L.Enabled, ToldOk, RowOf, Commits;
    var k := Step(j, Commit(i, now));
    LedgerSteps.StepKeeps(j.ledger, LedgerRuns.EventOf(j.club.calls[i], now));
    CommitWrites(j, i, now);
    hide LedgerRuns.EventOf;
    var n := |j.rows|;
    forall r | 0 <= r < |k.rows| ensures RowOk(k, r) {
      if r < n { assert RowOk(j, r) && k.ledger.db.fights[r] == k.ledger.db.fights[..n][r]; }
    }
    forall r | 0 <= r < n ensures j.rows[r] != i { assert RowOk(j, r); }
    forall c | c in k.done && k.done[c] ensures c in k.rows {
      if c == i { assert k.rows[n] == i; } else { assert c in j.rows; }
    }
    assert Later(j, k);
    ToldStays(j, k);
  }

  lemma StepKeeps(j: Joint, e: Event)
    requires Inv(j) && Enabled(j, e)
    ensures Inv(Step(j, e))
  {
    hide Inv, Enabled, Step;
    match e
    case Club(c) => ClubKeeps(j, c);
    case Economy(l) => EconomyKeeps(j, l);
    case Commit(i, now) => CommitKeeps(j, i, now);
    case Fail(i) => FailKeeps(j, i);
  }

  lemma {:induction false} RunKeepsFrom(j: Joint, es: seq<Event>, k: Joint)
    requires Inv(j) && Reaches(j, es, k)
    ensures Inv(k)
    decreases |es|
  {
    hide Inv, Enabled, Step;
    if es != [] {
      StepKeeps(j, es[0]);
      RunKeepsFrom(Step(j, es[0]), es[1..], k);
    }
  }

  lemma RunKeeps(es: seq<Event>, k: Joint)
    requires Reaches(START, es, k)
    ensures Inv(k)
  {
    Runs.EmptyKeeps();
    LedgerRuns.EmptyKeeps();
    hide Invariant.Inv, LedgerInvariant.Inv, Reaches;
    assert Inv(START);
    hide Inv;
    RunKeepsFrom(START, es, k);
  }

  // ----- what the players are told is what the books say -----

  // Row `k` of the fights table was written for this match.
  predicate RowFor(j: Joint, k: nat, id: C.MatchId) {
    k < |j.rows| && k < |j.ledger.db.fights| && j.rows[k] < |j.club.calls| && j.club.calls[j.rows[k]].matchId == id
  }

  // ... as its settlement, with this result.
  predicate SettledRow(j: Joint, k: nat, id: C.MatchId, winner: C.UserId, loser: C.UserId) {
    RowFor(j, k, id) && j.club.calls[j.rows[k]].Settle? && j.club.calls[j.rows[k]].loserId == loser
    && j.ledger.db.fights[k].winnerId == Some(winner)
  }

  lemma CallsAtMostOnce(es: seq<Event>, j: Joint, id: C.MatchId)
    requires Reaches(START, es, j) && id in j.club.created
    ensures Invariant.CallsFor(j.club.calls, id) <= 1
  {
    hide Reaches;
    RunKeeps(es, j);
  }

  // Every row of the fights table was written for one match, and a match adds at most one.
  lemma OneRowPerMatch(es: seq<Event>, j: Joint, k: nat, n: nat, id: C.MatchId)
    requires Reaches(START, es, j)
    ensures k < |j.ledger.db.fights| ==> exists m :: RowFor(j, k, m) && m in j.club.created
    ensures RowFor(j, k, id) && RowFor(j, n, id) ==> k == n
  {
    hide Reaches;
    RunKeeps(es, j);
    if k < |j.ledger.db.fights| {
      assert RowOk(j, k);
      var c := j.club.calls[j.rows[k]];
      assert Invariant.CallOk(j.club, c);
      assert RowFor(j, k, c.matchId);
    }
    if RowFor(j, k, id) && RowFor(j, n, id) {
      assert Invariant.CallOk(j.club, j.club.calls[j.rows[k]]);
      CallsAtMostOnce(es, j, id);
      hide Inv;
      OneCall(j.club.calls, id, j.rows[k], j.rows[n]);
      SameRow(j, k, n);
    }
  }

  lemma SameRow(j: Joint, k: nat, n: nat)
    requires k < |j.rows| && n < |j.rows| && j.rows[k] == j.rows[n]
    requires forall a, b :: 0 <= a < b < |j.rows| ==> j.rows[a] != j.rows[b]
    ensures k == n
  {}

  // A match that is gone has been told exactly one verdict.
  lemma GoneIsTold(s: C.State, id: C.MatchId)
    requires Invariant.VerdictsOk(s) && id in s.created && id !in s.matches
    ensures exists v :: v in s.verdicts && v.matchId == id
  {
    SomeVerdict(s.verdicts, id);
  }

  lemma {:induction false} SomeVerdict(verdicts: seq<C.Verdict>, id: C.MatchId)
    requires Invariant.VerdictsFor(verdicts, id) > 0
    ensures exists v :: v in verdicts && v.matchId == id
  {
    if Duel.Last(verdicts).matchId == id {
      assert Duel.Last(verdicts) in verdicts;
    } else {
      SomeVerdict(Duel.DropLast(verdicts), id);
      var v :| v in Duel.DropLast(verdicts) && v.matchId == id;
      assert v in verdicts;
    }
  }

  // A committed settlement has its row.
  lemma CommitHasRow(j: Joint, id: C.MatchId, winner: C.UserId, loser: C.UserId)
    requires RowsOk(j) && Committed(j, id, winner, loser)
    ensures exists k: nat :: SettledRow(j, k, id, winner, loser)
  {
    var i :| i in j.done && IsAnswer(j, i, id, true) && j.club.calls[i].winnerId == winner &&
      j.club.calls[i].loserId == loser;
    var k: nat :| k < |j.rows| && j.rows[k] == i;
    assert RowOk(j, k);
    assert SettledRow(j, k, id, winner, loser);
  }

  // A game-over is only told of a row, and a settlement error only where there is none.
  lemma ToldByTheBooks(es: seq<Event>, j: Joint, v: C.Verdict)
    requires Reaches(START, es, j) && v in j.club.verdicts
    ensures v.GameOver? ==> exists k: nat :: SettledRow(j, k, v.matchId, v.winnerId, v.loserId)
    ensures v.SettleFailed? ==> forall k: nat :: !RowFor(j, k, v.matchId)
  {
    hide Reaches;
    RunKeeps(es, j);
    assert VerdictTold(j, v) && Invariant.VerdictOk(j.club, v);
    if v.GameOver? {
      hide Invariant.Inv, LedgerInvariant.Inv, ToldOk;
      CommitHasRow(j, v.matchId, v.winnerId, v.loserId);
    } else if v.SettleFailed? {
      CallsAtMostOnce(es, j, v.matchId);
      hide Invariant.Inv, LedgerInvariant.Inv, ToldOk;
      forall k: nat ensures !RowFor(j, k, v.matchId) { FailedHasNoRow(j, v.matchId, k); }
    }
  }

  lemma FailedHasNoRow(j: Joint, id: C.MatchId, k: nat)
    requires RowsOk(j) && Answered(j, id, false) && Invariant.CallsFor(j.club.calls, id) <= 1
    ensures !RowFor(j, k, id)
  {
    if RowFor(j, k, id) {
      var i :| i in j.done && IsAnswer(j, i, id, false);
      OneCall(j.club.calls, id, i, j.rows[k]);
      DoneRow(j, k);
    }
  }

  lemma DoneRow(j: Joint, k: nat)
    requires RowsOk(j) && k < |j.rows|
    ensures j.rows[k] in j.done && j.done[j.rows[k]]
  {
    assert RowOk(j, k);
  }

  // Two calls for one match are the same call.
  lemma SameCall(s: C.State, c: C.Call, d: C.Call)
    requires Invariant.CallsOk(s) && c in s.calls && d in s.calls && c.matchId == d.matchId
    ensures c == d
  {
    var i: nat :| i < |s.calls| && s.calls[i] == c;
    var k: nat :| k < |s.calls| && s.calls[k] == d;
    AtMostOneCall(s, c.matchId);
    OneCall(s.calls, c.matchId, i, k);
  }

  ghost predicate WasSettled(s: C.State, id: C.MatchId) { exists c :: c in s.calls && c.Settle? && c.matchId == id }

  ghost predicate HasRow(j: Joint, id: C.MatchId) { exists k: nat :: RowFor(j, k, id) }

  ghost predicate WonBy(j: Joint, id: C.MatchId, winner: C.UserId, loser: C.UserId) {
    exists k: nat :: SettledRow(j, k, id, winner, loser)
  }

  lemma OneWinner(es: seq<Event>, j: Joint, id: C.MatchId, w1: C.UserId, l1: C.UserId, w2: C.UserId, l2: C.UserId)
    requires Reaches(START, es, j) && WonBy(j, id, w1, l1) && WonBy(j, id, w2, l2)
    ensures w1 == w2 && l1 == l2
  {
    hide Reaches;
    var k: nat :| SettledRow(j, k, id, w1, l1);
    var n: nat :| SettledRow(j, n, id, w2, l2);
    OneRowPerMatch(es, j, k, n, id);
  }

  // A settled row and a failed settlement both come from a settlement.
  lemma RowMeansSettled(j: Joint, id: C.MatchId, winner: C.UserId, loser: C.UserId)
    requires WonBy(j, id, winner, loser)
    ensures WasSettled(j.club, id) && HasRow(j, id)
  {
    var k: nat :| SettledRow(j, k, id, winner, loser);
    assert j.club.calls[j.rows[k]] in j.club.calls;
  }

  lemma ToldMeansSettled(s: C.State, v: C.Verdict)
    requires Invariant.VerdictOk(s, v)
    ensures v.GameOver? || v.SettleFailed? ==> WasSettled(s, v.matchId)
  {}

  lemma CancelledMeansUnsettled(s: C.State, v: C.Verdict)
    requires Invariant.CallsOk(s) && Invariant.VerdictOk(s, v) && v.Cancelled?
    ensures !WasSettled(s, v.matchId)
  {
    hide Invariant.CallsOk;
    var c :| c in s.calls && c.RecordCancelled? && c.matchId == v.matchId;
    forall d | d in s.calls && d.matchId == v.matchId ensures !d.Settle? { SameCall(s, c, d); }
  }

  // What the books say of a verdict that was told.
  lemma Backed(es: seq<Event>, j: Joint, v: C.Verdict)
    requires Reaches(START, es, j) && v in j.club.verdicts
    ensures Invariant.VerdictOk(j.club, v) && Invariant.CallsOk(j.club)
    ensures v.GameOver? ==> WonBy(j, v.matchId, v.winnerId, v.loserId)
    ensures v.SettleFailed? ==> !HasRow(j, v.matchId)
  {
    hide Reaches;
    ToldByTheBooks(es, j, v);
    RunKeeps(es, j);
  }

  // Once a match is gone, its players have heard of a winner exactly when a fights row with that winner was committed
  // for it, and of a failed settlement exactly when its settlement was called and left no row; until it is decided it
  // has none.
  lemma VerdictsMatchTheBooks(es: seq<Event>, j: Joint, id: C.MatchId, winner: C.UserId, loser: C.UserId)
    requires Reaches(START, es, j) && id in j.club.created
    ensures id !in j.club.matches ==>
            (C.GameOver(id, winner, loser) in j.club.verdicts <==> WonBy(j, id, winner, loser))
    ensures id !in j.club.matches ==>
            (C.SettleFailed(id) in j.club.verdicts <==> WasSettled(j.club, id) && !HasRow(j, id))
    ensures id in j.club.matches && j.club.matches[id].status != C.FightOver ==> !HasRow(j, id)
  {
    hide Reaches;
    RunKeeps(es, j);
    if id !in j.club.matches {
      GoneIsTold(j.club, id);
      hide Inv;
      var v :| v in j.club.verdicts && v.matchId == id;
      GoneMatchesTheBooks(es, j, v, winner, loser);
    } else if j.club.matches[id].status != C.FightOver {
      forall k: nat ensures !RowFor(j, k, id) { UndecidedHasNoRow(j, k, id); }
    }
  }

  lemma GoneMatchesTheBooks(es: seq<Event>, j: Joint, v: C.Verdict, winner: C.UserId, loser: C.UserId)
    requires Reaches(START, es, j) && v in j.club.verdicts
    ensures C.GameOver(v.matchId, winner, loser) in j.club.verdicts <==> WonBy(j, v.matchId, winner, loser)
    ensures C.SettleFailed(v.matchId) in j.club.verdicts <==> WasSettled(j.club, v.matchId) && !HasRow(j, v.matchId)
  {
    hide Reaches, WonBy, HasRow, WasSettled, Invariant.VerdictOk, Invariant.CallsOk;
    var id := v.matchId;
    var over, failed := C.GameOver(id, winner, loser), C.SettleFailed(id);
    Backed(es, j, v);
    ToldMeansSettled(j.club, v);
    if over in j.club.verdicts { Backed(es, j, over); ToldMeansSettled(j.club, over); }
    if failed in j.club.verdicts { Backed(es, j, failed); ToldMeansSettled(j.club, failed); }
    if WonBy(j, id, winner, loser) { RowMeansSettled(j, id, winner, loser); }
    match v
    case GameOver(_, w, l) =>
      RowMeansSettled(j, id, w, l);
      if WonBy(j, id, winner, loser) { OneWinner(es, j, id, w, l, winner, loser); }
    case SettleFailed(_) =>
    case Cancelled(_) => CancelledMeansUnsettled(j.club, v);
  }

  lemma UndecidedHasNoRow(j: Joint, k: nat, id: C.MatchId)
    requires Invariant.CallsOk(j.club) && Invariant.Undecided(j.club, id)
    ensures !RowFor(j, k, id)
  {
    hide Invariant.Undecided, Invariant.CallsOk;
    if RowFor(j, k, id) {
      DecidedCall(j.club, j.club.calls[j.rows[k]]);
    }
  }

  lemma DecidedCall(s: C.State, c: C.Call)
    requires Invariant.CallsOk(s) && c in s.calls
    ensures !Invariant.Undecided(s, c.matchId)
  {}
}
