// What a disconnect does, said of the seats that the socket holds and of nothing else.
module FightClubDisconnects {
  import opened Wrappers
  import opened FightClub
  import opened FightClubDuel
  import opened FightClubInvariant
  import opened FightClubSteps
  import opened FightClubRuns

  // The user has a seat in the match, on this socket.
  predicate Holds(m: Match, u: UserId, socketId: SocketId) {
    || (m.player1.id == u && m.player1.socketId == socketId)
    || (m.player2.id == u && m.player2.socketId == socketId)
  }

  predicate FightsOn(s: State, id: MatchId, u: UserId, socketId: SocketId) {
    id in s.matches && s.matches[id].status == Fighting && Holds(s.matches[id], u, socketId)
  }

  predicate WaitsOn(s: State, id: MatchId, u: UserId, socketId: SocketId) {
    id in s.matches && s.matches[id].status == Lobby && Holds(s.matches[id], u, socketId)
  }

  function Opponent(m: Match, u: UserId): UserId { if m.player1.id == u then m.player2.id else m.player1.id }

  // The user's seat is left, and all else of the match as it is.
  predicate SeatLeft(m: Match, n: Match, u: UserId) {
    n == if m.player1.id == u then m.(player1 := m.player1.(joinedMatch := false))
         else m.(player2 := m.player2.(joinedMatch := false))
  }

  // A new timer is set for the seat.
  predicate OnGrace(s: State, t: State, id: MatchId, u: UserId, socketId: SocketId) {
    && (u, id) in t.timers && t.timers[(u, id)].socketId == socketId
    && var h := t.timers[(u, id)].handle;
       h >= s.next && h in t.armed && t.armed[h] == Grace(u, id, socketId, s.tick)
  }

  // The lobbies `done` are left, each with a timer, and no other match, timer or frame is touched.
  ghost predicate Left(s: State, t: State, done: set<MatchId>, u: UserId, socketId: SocketId)
    requires forall id :: id in done ==> id in s.matches
  {
    && t.matches.Keys == s.matches.Keys
    && (forall id :: id in done ==> SeatLeft(s.matches[id], t.matches[id], u) && OnGrace(s, t, id, u, socketId))
    && (forall id :: id in s.matches && id !in done ==> t.matches[id] == s.matches[id])
    && (forall k: TimerKey :: !(k.0 == u && k.1 in done) ==> SameTimer(s, t, k))
    && (forall h :: h in s.armed && !Covers(done, u, s.armed[h]) ==> h in t.armed && t.armed[h] == s.armed[h])
    && (forall h :: h in t.armed && !Covers(done, u, t.armed[h]) ==> h in s.armed && s.armed[h] == t.armed[h])
    && SameElse(s, t)
  }

  predicate Covers(done: set<MatchId>, u: UserId, g: Grace) { g.userId == u && g.matchId in done }

  predicate SameTimer(s: State, t: State, k: TimerKey) {
    (k in t.timers <==> k in s.timers) && (k in s.timers ==> t.timers[k] == s.timers[k])
  }

  predicate SameElse(s: State, t: State) {
    && t.order == s.order && t.tick == s.tick && t.closed == s.closed && t.lastJoin == s.lastJoin
    && t.frames == s.frames && t.created == s.created && t.minted == s.minted && t.duels == s.duels
    && t.calls == s.calls && t.verdicts == s.verdicts && t.cadence == s.cadence && t.warned == s.warned
    && t.emitted == s.emitted && s.next <= t.next
  }

  // The fight is over and given to the repository: the other player has won, and the one who left has lost.
  predicate Forfeited(s: State, t: State, id: MatchId, u: UserId)
    requires id in s.matches
  {
    var m := s.matches[id];
    && t.matches == s.matches[id := m.(status := FightOver)]
    && t.calls == s.calls + [Settle(id, Opponent(m, u), u, m.stakeType, m.stakeAmount, m.player1.id, m.player2.id,
                                    RageQuit)]
    && t.frames == s.frames[s.next := AwaitSettle(id, Opponent(m, u), u, RageQuit)]
    && t == s.(matches := t.matches, calls := t.calls, frames := t.frames, next := s.next + 1)
  }

  // ----- one seat -----

  lemma HoldsSeat(m: Match, u: UserId, socketId: SocketId)
    requires MatchOk(m) && u != ""
    ensures Holds(m, u, socketId) <==> Plays(m, u) && SeatOf(m, u).socketId == socketId
  {}

  // One match is left, and one timer is set for it.
  ghost predicate LeavesOne(s: State, t: State, id: MatchId, u: UserId, socketId: SocketId)
    requires id in s.matches
  {
    && id in t.matches && t.matches == s.matches[id := t.matches[id]] && SeatLeft(s.matches[id], t.matches[id], u)
    && OnGrace(s, t, id, u, socketId) && SameElse(s, t)
    && (forall k :: k != (u, id) ==> SameTimer(s, t, k))
    && (forall h :: h in s.armed && s.armed[h].Key() != (u, id) ==> h in t.armed && t.armed[h] == s.armed[h])
    && (forall h :: h in t.armed && t.armed[h].Key() != (u, id) ==> h in s.armed && s.armed[h] == t.armed[h])
  }

  lemma EffectLeaves(s: State, t: State, m: Match, u: UserId, socketId: SocketId)
    requires LeaveEffect(s, t, m, u, socketId) && t.emitted == s.emitted
    requires (u, m.matchId) in s.timers ==> EntryOk(s, (u, m.matchId))
    requires forall h :: h in s.armed ==> h < s.next
    ensures LeavesOne(s, t, m.matchId, u, socketId)
  {}

  // What the loop needs of a state, and keeps.
  ghost predicate Timed(s: State) {
    && (forall id :: id in s.matches ==> s.matches[id].matchId == id && MatchOk(s.matches[id]))
    && (forall k :: k in s.timers ==> EntryOk(s, k))
    && (forall h :: h in s.armed ==> h < s.next)
  }

  lemma InvIsTimed(s: State)
    requires Inv(s)
    ensures Timed(s)
  {
    hide SettlesOk, CallsOk, VerdictsOk, StartsOk, DuelsOk, CadenceOk, MatchOk, EntryOk;
    forall h | h in s.armed ensures h < s.next { assert ArmedOk(s, h); }
  }

  lemma LeaveLeaves(s: State, id: MatchId, u: UserId, socketId: SocketId)
    requires Timed(s) && u != "" && WaitsOn(s, id, u, socketId)
    ensures LeavesOne(s, Leave(s, s.matches[id], u, socketId), id, u, socketId)
  {
    var m := s.matches[id];
    HoldsSeat(m, u, socketId);
    LeaveHasEffect(s, m, u, socketId);
    var t := Leave(s, m, u, socketId);
    assert t.emitted == s.emitted;
    hide Leave, LeaveEffect, LeavesOne, MatchOk, EntryOk;
    EffectLeaves(s, t, WithSeat(m, m.player1.id == u, SeatOf(m, u).(joinedMatch := false)), u, socketId);
  }

  lemma LeaveStaysTimed(s: State, t: State, id: MatchId, u: UserId, socketId: SocketId)
    requires Timed(s) && id in s.matches && LeavesOne(s, t, id, u, socketId) && s.matches[id].status == Lobby
    requires forall h :: h in t.armed ==> h < t.next
    ensures Timed(t)
  {
    forall k | k in t.timers ensures EntryOk(t, k) {
      if k != (u, id) { assert SameTimer(s, t, k) && EntryOk(s, k); }
    }
  }

  lemma QuitForfeits(s: State, m: Match, u: UserId)
    requires m.matchId in s.matches && s.matches[m.matchId] == m
    ensures Forfeited(s, RageQuitStep(s, m, u), m.matchId, u)
  {}

  lemma RageQuitForfeits(s: State, id: MatchId, u: UserId, socketId: SocketId)
    requires Timed(s) && FightsOn(s, id, u, socketId)
    ensures Forfeited(s, RageQuitStep(s, s.matches[id], u), id, u)
  {
    assert s.matches[id].matchId == id;
    hide *;
    QuitForfeits(s, s.matches[id], u);
  }

  // ----- the loop -----

  function Waiting(s: State, ids: seq<MatchId>, u: UserId, socketId: SocketId): set<MatchId> {
    set id | id in ids && WaitsOn(s, id, u, socketId)
  }

  lemma LeftMatches(s: State, v: State, t: State, id: MatchId, done: set<MatchId>, u: UserId, socketId: SocketId)
    requires id in s.matches && LeavesOne(s, v, id, u, socketId) && id !in done
    requires forall x :: x in done ==> x in v.matches
    requires Left(v, t, done, u, socketId)
    ensures t.matches.Keys == s.matches.Keys && SameElse(s, t)
    ensures forall x :: x in done + {id} ==> SeatLeft(s.matches[x], t.matches[x], u)
    ensures forall x :: x in s.matches && x !in done + {id} ==> t.matches[x] == s.matches[x]
  {
    hide OnGrace, SameTimer, SeatLeft, Covers;
  }

  lemma LeftTimers(s: State, v: State, t: State, id: MatchId, done: set<MatchId>, u: UserId, socketId: SocketId)
    requires id in s.matches && LeavesOne(s, v, id, u, socketId) && id !in done
    requires forall x :: x in done ==> x in v.matches
    requires Left(v, t, done, u, socketId)
    ensures forall x :: x in done + {id} ==> OnGrace(s, t, x, u, socketId)
    ensures forall k: TimerKey :: !(k.0 == u && k.1 in done + {id}) ==> SameTimer(s, t, k)
    ensures forall h :: h in s.armed && !Covers(done + {id}, u, s.armed[h]) ==> h in t.armed && t.armed[h] == s.armed[h]
    ensures forall h :: h in t.armed && !Covers(done + {id}, u, t.armed[h]) ==> h in s.armed && s.armed[h] == t.armed[h]
  {
    hide SeatLeft;
    forall k: TimerKey | !(k.0 == u && k.1 in done + {id}) ensures SameTimer(s, t, k) {
      assert SameTimer(s, v, k) && SameTimer(v, t, k);
    }
    forall x | x in done + {id} ensures OnGrace(s, t, x, u, socketId) {
      if x == id {
        assert SameTimer(v, t, (u, id));
        assert !Covers(done, u, v.armed[v.timers[(u, id)].handle]);
      } else {
        assert OnGrace(v, t, x, u, socketId);
      }
    }
  }

  lemma LeftMore(s: State, v: State, t: State, id: MatchId, done: set<MatchId>, u: UserId, socketId: SocketId)
    requires id in s.matches && LeavesOne(s, v, id, u, socketId) && id !in done
    requires forall x :: x in done ==> x in v.matches
    requires Left(v, t, done, u, socketId)
    ensures Left(s, t, done + {id}, u, socketId)
  {
    LeftMatches(s, v, t, id, done, u, socketId);
    LeftTimers(s, v, t, id, done, u, socketId);
  }

  lemma NothingLeft(s: State, u: UserId, socketId: SocketId)
    ensures Left(s, s, {}, u, socketId)
  {}

  // Seats of other matches are as they were.
  lemma StillThere(s: State, v: State, id: MatchId, u: UserId, socketId: SocketId, x: MatchId)
    requires id in s.matches && LeavesOne(s, v, id, u, socketId) && x != id
    ensures WaitsOn(v, x, u, socketId) <==> WaitsOn(s, x, u, socketId)
    ensures FightsOn(v, x, u, socketId) <==> FightsOn(s, x, u, socketId)
  {}

  lemma SweepForfeits(s: State, ids: seq<MatchId>, u: UserId, socketId: SocketId)
    requires Timed(s) && u != "" && ids != [] && FightsOn(s, ids[0], u, socketId)
    requires forall id :: id in ids ==> id in s.matches
    ensures Sweep(s, ids, u, socketId) == RageQuitStep(s, s.matches[ids[0]], u)
  {
    HoldsSeat(s.matches[ids[0]], u, socketId);
    hide Leave, RageQuitStep, MatchOk, EntryOk;
  }

  lemma SweepSkips(s: State, ids: seq<MatchId>, u: UserId, socketId: SocketId)
    requires Timed(s) && u != "" && ids != [] && !FightsOn(s, ids[0], u, socketId) && !WaitsOn(s, ids[0], u, socketId)
    requires forall id :: id in ids ==> id in s.matches
    ensures Sweep(s, ids, u, socketId) == Sweep(s, ids[1..], u, socketId)
  {
    assert ids[0] in ids;
    HoldsSeat(s.matches[ids[0]], u, socketId);
    hide Leave, RageQuitStep, MatchOk, EntryOk;
  }

  lemma LeaveNames(s: State, m: Match, u: UserId, socketId: SocketId)
    requires Plays(m, u) && forall h :: h in s.armed ==> h < s.next
    ensures var w := Leave(s, m, u, socketId); forall h :: h in w.armed ==> h < w.next
  {}

  lemma SweepLeavesOne(s: State, ids: seq<MatchId>, u: UserId, socketId: SocketId)
    requires Timed(s) && u != "" && ids != [] && WaitsOn(s, ids[0], u, socketId)
    requires forall id :: id in ids ==> id in s.matches
    ensures var w := Leave(s, s.matches[ids[0]], u, socketId);
            && Timed(w) && LeavesOne(s, w, ids[0], u, socketId)
            && (forall id :: id in ids[1..] ==> id in w.matches)
            && Sweep(s, ids, u, socketId) == Sweep(w, ids[1..], u, socketId)
  {
    var id := ids[0];
    var w := Leave(s, s.matches[id], u, socketId);
    HoldsSeat(s.matches[id], u, socketId);
    LeaveLeaves(s, id, u, socketId);
    LeaveKeepsKeys(s, s.matches[id], u, socketId);
    LeaveNames(s, s.matches[id], u, socketId);
    assert forall x :: x in ids[1..] ==> x in ids;
    LeaveStaysTimed(s, w, id, u, socketId);
    hide Leave, RageQuitStep, MatchOk, LeavesOne, EntryOk;
  }

  // Lobbies and fights of the other matches are what they were.
  lemma OthersStay(s: State, v: State, ids: seq<MatchId>, n: nat, u: UserId, socketId: SocketId)
    requires 0 < n <= |ids| && Once(ids) && WaitsOn(s, ids[0], u, socketId) && LeavesOne(s, v, ids[0], u, socketId)
    ensures ids[0] !in ids[1..] && Once(ids[1..])
    ensures forall j :: 0 <= j < |ids| - 1 ==>
              (FightsOn(v, ids[1..][j], u, socketId) <==> FightsOn(s, ids[j + 1], u, socketId))
    ensures Waiting(s, ids[..n], u, socketId) == Waiting(v, ids[1..][..n - 1], u, socketId) + {ids[0]}
    ensures ids[0] !in Waiting(v, ids[1..][..n - 1], u, socketId)
  {
    var id, rest := ids[0], ids[1..];
    assert ids[..n] == [id] + rest[..n - 1];
    assert forall j :: 0 <= j < |rest| ==> rest[j] == ids[j + 1] && rest[j] != id;
    forall x | x != id
      ensures WaitsOn(v, x, u, socketId) <==> WaitsOn(s, x, u, socketId)
      ensures FightsOn(v, x, u, socketId) <==> FightsOn(s, x, u, socketId)
    {
      StillThere(s, v, id, u, socketId, x);
    }
    hide LeavesOne, WaitsOn, FightsOn;
  }

  lemma SkippedStay(s: State, ids: seq<MatchId>, n: nat, u: UserId, socketId: SocketId)
    requires 0 < n <= |ids| && Once(ids) && !WaitsOn(s, ids[0], u, socketId)
    ensures Once(ids[1..]) && Waiting(s, ids[..n], u, socketId) == Waiting(s, ids[1..][..n - 1], u, socketId)
  {
    assert ids[..n] == [ids[0]] + ids[1..][..n - 1];
    hide WaitsOn;
  }

  lemma SweepEnds(s: State, u: UserId, socketId: SocketId)
    requires forall id :: id in s.matches ==> s.matches[id].matchId == id
    ensures Sweep(s, [], u, socketId) == s
  {}

  // The loop may run over `ids`, and comes to its first fight after `n` of them.
  ghost predicate Sweepable(s: State, ids: seq<MatchId>, n: nat, u: UserId, socketId: SocketId) {
    && Timed(s) && u != "" && n <= |ids| && Once(ids)
    && (forall id :: id in ids ==> id in s.matches)
    && (forall j :: 0 <= j < n ==> !FightsOn(s, ids[j], u, socketId))
    && (n < |ids| ==> FightsOn(s, ids[n], u, socketId))
  }

  // Lobby after lobby is left up to that fight, and `r` is its forfeit, or what there is after the last match.
  ghost predicate Swept(s: State, v: State, r: State, ids: seq<MatchId>, n: nat, u: UserId, socketId: SocketId) {
    && n <= |ids| && Waiting(s, ids[..n], u, socketId) <= s.matches.Keys
    && Left(s, v, Waiting(s, ids[..n], u, socketId), u, socketId) && Timed(v)
    && if n == |ids| then r == v else ids[n] in v.matches && r == RageQuitStep(v, v.matches[ids[n]], u)
  }

  lemma {:induction false} SweepLeaves(s: State, ids: seq<MatchId>, n: nat, u: UserId, socketId: SocketId, r: State)
    returns (v: State)
    requires Sweepable(s, ids, n, u, socketId) && r == Sweep(s, ids, u, socketId)
    ensures Swept(s, v, r, ids, n, u, socketId)
    decreases |ids|, 1
  {
    hide Timed, Once, Swept, WaitsOn, Sweep, FightsOn;
    if n == 0 {
      v := s;
      SweptAtOnce(s, ids, u, socketId);
    } else {
      hide Sweepable;
      if WaitsOn(s, ids[0], u, socketId) {
        v := LeaveAndSweep(s, ids, n, u, socketId, r);
      } else {
        v := SkipAndSweep(s, ids, n, u, socketId, r);
      }
    }
  }

  lemma {:induction false} LeaveAndSweep(s: State, ids: seq<MatchId>, n: nat, u: UserId, socketId: SocketId, r: State)
    returns (v: State)
    requires Sweepable(s, ids, n, u, socketId) && r == Sweep(s, ids, u, socketId)
    requires 0 < n <= |ids| && WaitsOn(s, ids[0], u, socketId)
    ensures Swept(s, v, r, ids, n, u, socketId)
    decreases |ids|, 0
  {
    assert Once(ids);
    hide Sweepable, Timed, Once, Swept, WaitsOn, LeavesOne, Sweep;
    var w := LeaveFirst(s, ids, n, u, socketId);
    v := SweepLeaves(w, ids[1..], n - 1, u, socketId, r);
    SweptMore(s, w, v, r, ids, n, u, socketId);
  }

  lemma {:induction false} SkipAndSweep(s: State, ids: seq<MatchId>, n: nat, u: UserId, socketId: SocketId, r: State)
    returns (v: State)
    requires Sweepable(s, ids, n, u, socketId) && r == Sweep(s, ids, u, socketId)
    requires 0 < n <= |ids| && !WaitsOn(s, ids[0], u, socketId)
    ensures Swept(s, v, r, ids, n, u, socketId)
    decreases |ids|, 0
  {
    assert Once(ids);
    hide Sweepable, Timed, Once, Swept, WaitsOn, Sweep;
    SkipFirst(s, ids, n, u, socketId);
    v := SweepLeaves(s, ids[1..], n - 1, u, socketId, r);
    SweptOn(s, v, r, ids, n, u, socketId);
  }

  lemma SweptAtOnce(s: State, ids: seq<MatchId>, u: UserId, socketId: SocketId)
    requires Sweepable(s, ids, 0, u, socketId)
    ensures Swept(s, s, Sweep(s, ids, u, socketId), ids, 0, u, socketId)
  {
    NothingLeft(s, u, socketId);
    assert Waiting(s, ids[..0], u, socketId) == {};
    hide Waiting, Left, Timed, Once, Sweep, RageQuitStep;
    if ids != [] { SweepForfeits(s, ids, u, socketId); } else { SweepEnds(s, u, socketId); }
  }

  lemma LeaveFirst(s: State, ids: seq<MatchId>, n: nat, u: UserId, socketId: SocketId) returns (w: State)
    requires Sweepable(s, ids, n, u, socketId) && n > 0 && WaitsOn(s, ids[0], u, socketId)
    ensures Sweepable(w, ids[1..], n - 1, u, socketId) && LeavesOne(s, w, ids[0], u, socketId)
    ensures Sweep(s, ids, u, socketId) == Sweep(w, ids[1..], u, socketId)
  {
    w := Leave(s, s.matches[ids[0]], u, socketId);
    SweepLeavesOne(s, ids, u, socketId);
    hide Timed, Sweep, Leave;
    OthersStay(s, w, ids, n, u, socketId);
    hide LeavesOne, Once, WaitsOn, Waiting, FightsOn;
  }

  lemma SweptMore(s: State, w: State, v: State, r: State, ids: seq<MatchId>, n: nat, u: UserId, socketId: SocketId)
    requires 0 < n <= |ids| && Once(ids) && WaitsOn(s, ids[0], u, socketId) && LeavesOne(s, w, ids[0], u, socketId)
    requires Swept(w, v, r, ids[1..], n - 1, u, socketId)
    ensures Swept(s, v, r, ids, n, u, socketId)
  {
    OthersStay(s, w, ids, n, u, socketId);
    assert n < |ids| ==> ids[1..][n - 1] == ids[n];
    var done := Waiting(w, ids[1..][..n - 1], u, socketId);
    assert Waiting(s, ids[..n], u, socketId) <= s.matches.Keys;
    hide Timed, RageQuitStep, Once, WaitsOn, LeavesOne, Left, Waiting;
    LeftMore(s, w, v, ids[0], done, u, socketId);
  }

  lemma SkipFirst(s: State, ids: seq<MatchId>, n: nat, u: UserId, socketId: SocketId)
    requires Sweepable(s, ids, n, u, socketId) && n > 0 && !WaitsOn(s, ids[0], u, socketId)
    ensures Sweepable(s, ids[1..], n - 1, u, socketId)
    ensures Sweep(s, ids, u, socketId) == Sweep(s, ids[1..], u, socketId)
  {
    SweepSkips(s, ids, u, socketId);
    SkippedStay(s, ids, n, u, socketId);
    hide Timed, Sweep, WaitsOn, FightsOn, Once, Waiting;
  }

  lemma SweptOn(s: State, v: State, r: State, ids: seq<MatchId>, n: nat, u: UserId, socketId: SocketId)
    requires 0 < n <= |ids| && Once(ids) && !WaitsOn(s, ids[0], u, socketId)
    requires Swept(s, v, r, ids[1..], n - 1, u, socketId)
    ensures Swept(s, v, r, ids, n, u, socketId)
  {
    SkippedStay(s, ids, n, u, socketId);
    assert n < |ids| ==> ids[1..][n - 1] == ids[n];
    hide Timed, RageQuitStep, Once, WaitsOn, Left, Waiting;
  }

  // ----- the whole step -----

  // The first `n` matches in insertion order are no fights of this socket, and the next one, if there is one, is.
  predicate FirstFight(s: State, n: nat, u: UserId, socketId: SocketId) {
    && n <= |s.order|
    && (forall j :: 0 <= j < n ==> !FightsOn(s, s.order[j], u, socketId))
    && (n < |s.order| ==> FightsOn(s, s.order[n], u, socketId))
  }

  // There is always exactly one such `n`.
  lemma OneFirstFight(s: State, u: UserId, socketId: SocketId)
    ensures exists n: nat :: FirstFight(s, n, u, socketId)
    ensures forall n: nat, k: nat :: FirstFight(s, n, u, socketId) && FirstFight(s, k, u, socketId) ==> n == k
  {
    hide FightsOn;
    var n := 0;
    while n < |s.order| && !FightsOn(s, s.order[n], u, socketId)
      invariant n <= |s.order| && forall j :: 0 <= j < n ==> !FightsOn(s, s.order[j], u, socketId)
    {
      n := n + 1;
    }
    assert FirstFight(s, n, u, socketId);
  }

  // That fight is lost by the user and given to the repository, once; without one no call is made.
  ghost predicate FightLost(s: State, t: State, n: nat, u: UserId, socketId: SocketId)
    requires FirstFight(s, n, u, socketId)
  {
    if n == |s.order| then t.calls == s.calls && t.frames == s.frames
    else
      var id := s.order[n];
      var m := s.matches[id];
      && t.calls == s.calls + [Settle(id, Opponent(m, u), u, m.stakeType, m.stakeAmount, m.player1.id, m.player2.id,
                                      RageQuit)]
      && exists f: nat :: f !in s.frames && t.frames == s.frames[f := AwaitSettle(id, Opponent(m, u), u, RageQuit)]
  }

  // The lobbies that the loop comes by are left, the fight is over, every other match is as it was.
  ghost predicate SeatsLost(s: State, t: State, n: nat, u: UserId, socketId: SocketId)
    requires FirstFight(s, n, u, socketId)
  {
    var done := Waiting(s, s.order[..n], u, socketId);
    && t.matches.Keys == s.matches.Keys
    && (forall id :: id in done ==> SeatLeft(s.matches[id], t.matches[id], u) && OnGrace(s, t, id, u, socketId))
    && (forall id :: id in s.matches && id !in done ==>
          t.matches[id] ==
          if n < |s.order| && id == s.order[n] then s.matches[id].(status := FightOver) else s.matches[id])
  }

  // No other timer is set or cleared.
  ghost predicate TimersStay(s: State, t: State, n: nat, u: UserId, socketId: SocketId)
    requires FirstFight(s, n, u, socketId)
  {
    var done := Waiting(s, s.order[..n], u, socketId);
    && (forall k: TimerKey :: !(k.0 == u && k.1 in done) ==> SameTimer(s, t, k))
    && (forall h :: h in s.armed && !Covers(done, u, s.armed[h]) ==> h in t.armed && t.armed[h] == s.armed[h])
    && (forall h :: h in t.armed && !Covers(done, u, t.armed[h]) ==> h in s.armed && s.armed[h] == t.armed[h])
  }

  predicate RestStays(s: State, t: State, socketId: SocketId) {
    && t.order == s.order && t.tick == s.tick + 1 && t.closed == s.closed + {socketId} && t.lastJoin == s.lastJoin
    && t.created == s.created && t.minted == s.minted && t.duels == s.duels && t.verdicts == s.verdicts
    && t.cadence == s.cadence && t.warned == s.warned && t.emitted == s.emitted
  }

  lemma WithoutFight(s: State, v: State, u: UserId, socketId: SocketId)
    requires FirstFight(s, |s.order|, u, socketId)
    requires Waiting(s, s.order[..|s.order|], u, socketId) <= s.matches.Keys
    requires var s1 := s.(closed := s.closed + {socketId});
             Left(s1, v, Waiting(s, s.order[..|s.order|], u, socketId), u, socketId)
    ensures var t := Tick(v);
            && FightLost(s, t, |s.order|, u, socketId) && SeatsLost(s, t, |s.order|, u, socketId)
            && TimersStay(s, t, |s.order|, u, socketId) && RestStays(s, t, socketId)
  {
    hide FirstFight, SeatLeft, Covers, Waiting;
  }

  lemma ForfeitKeepsTimers(v: State, t: State, id: MatchId, u: UserId)
    requires id in v.matches && Forfeited(v, t, id, u)
    ensures t.timers == v.timers && t.armed == v.armed
  {}

  lemma FightGoes(s: State, v: State, t: State, n: nat, u: UserId, socketId: SocketId)
    requires FirstFight(s, n, u, socketId) && n < |s.order| && forall f :: f in s.frames ==> f < s.next
    requires SameElse(s.(closed := s.closed + {socketId}), v) && s.order[n] in v.matches
    requires v.matches[s.order[n]] == s.matches[s.order[n]] && Forfeited(v, t, s.order[n], u)
    ensures FightLost(s, Tick(t), n, u, socketId) && RestStays(s, Tick(t), socketId)
  {
    hide FirstFight;
    assert v.next !in s.frames;
  }

  lemma SeatsGo(s: State, v: State, t: State, n: nat, u: UserId, socketId: SocketId)
    requires FirstFight(s, n, u, socketId) && n < |s.order| && Waiting(s, s.order[..n], u, socketId) <= s.matches.Keys
    requires s.order[n] !in Waiting(s, s.order[..n], u, socketId)
    requires var s1 := s.(closed := s.closed + {socketId});
             Left(s1, v, Waiting(s, s.order[..n], u, socketId), u, socketId)
    requires Forfeited(v, t, s.order[n], u)
    ensures SeatsLost(s, Tick(t), n, u, socketId)
  {
    assert s.order[n] in s.matches;
    hide FirstFight, SeatLeft, Covers, Waiting, SameElse;
    var done, last := Waiting(s, s.order[..n], u, socketId), Tick(t);
    forall id | id in done ensures SeatLeft(s.matches[id], last.matches[id], u) && OnGrace(s, last, id, u, socketId) {
      assert OnGrace(s.(closed := s.closed + {socketId}), v, id, u, socketId);
    }
  }

  lemma TimersDoNotGo(s: State, v: State, t: State, n: nat, u: UserId, socketId: SocketId)
    requires FirstFight(s, n, u, socketId) && n < |s.order| && Waiting(s, s.order[..n], u, socketId) <= s.matches.Keys
    requires var s1 := s.(closed := s.closed + {socketId});
             Left(s1, v, Waiting(s, s.order[..n], u, socketId), u, socketId)
    requires t.timers == v.timers && t.armed == v.armed
    ensures TimersStay(s, Tick(t), n, u, socketId)
  {
    hide FirstFight, SeatLeft, OnGrace, Covers, Waiting, SameElse;
    var done := Waiting(s, s.order[..n], u, socketId);
    forall k: TimerKey | !(k.0 == u && k.1 in done) ensures SameTimer(s, Tick(t), k) {
      assert SameTimer(s.(closed := s.closed + {socketId}), v, k);
    }
  }

  lemma FightUnvisited(s: State, v: State, n: nat, u: UserId, socketId: SocketId)
    requires FirstFight(s, n, u, socketId) && n < |s.order| && Waiting(s, s.order[..n], u, socketId) <= s.matches.Keys
    requires var s1 := s.(closed := s.closed + {socketId});
             Left(s1, v, Waiting(s, s.order[..n], u, socketId), u, socketId)
    ensures s.order[n] !in Waiting(s, s.order[..n], u, socketId) && FightsOn(v, s.order[n], u, socketId)
    ensures v.matches[s.order[n]] == s.matches[s.order[n]] && SameElse(s.(closed := s.closed + {socketId}), v)
  {
    hide SeatLeft, OnGrace, Covers, SameTimer, Holds;
    assert s.order[n] !in Waiting(s, s.order[..n], u, socketId);
  }

  lemma SameSeatsNow(s: State, s1: State, ids: seq<MatchId>, u: UserId, socketId: SocketId)
    requires s1.matches == s.matches
    ensures Waiting(s1, ids, u, socketId) == Waiting(s, ids, u, socketId)
    ensures forall id :: FightsOn(s1, id, u, socketId) <==> FightsOn(s, id, u, socketId)
  {}

  lemma ClosedIsTimed(s: State, socketId: SocketId)
    requires Timed(s)
    ensures Timed(s.(closed := s.closed + {socketId}))
  {
    var t := s.(closed := s.closed + {socketId});
    forall k | k in t.timers ensures EntryOk(t, k) { assert EntryOk(s, k); }
  }

  lemma LoopRuns(s: State, u: UserId, socketId: SocketId, n: nat) returns (v: State)
    requires Inv(s) && Shape(s) && u != "" && FirstFight(s, n, u, socketId)
    ensures Waiting(s, s.order[..n], u, socketId) <= s.matches.Keys && Timed(v)
    ensures Left(s.(closed := s.closed + {socketId}), v, Waiting(s, s.order[..n], u, socketId), u, socketId)
    ensures n == |s.order| ==> DisconnectStep(s, u, socketId) == v
    ensures n < |s.order| ==>
              s.order[n] in v.matches && DisconnectStep(s, u, socketId) == RageQuitStep(v, v.matches[s.order[n]], u)
  {
    assert Once(s.order);
    InvIsTimed(s);
    hide Inv;
    assert Timed(s.(closed := s.closed + {socketId})) by { hide *; ClosedIsTimed(s, socketId); }
    hide Timed, Once, RageQuitStep, Left, Sweep;
    var s1 := s.(closed := s.closed + {socketId});
    SameSeatsNow(s, s1, s.order[..n], u, socketId);
    assert Waiting(s, s.order[..n], u, socketId) <= s.matches.Keys;
    hide FightsOn, WaitsOn, Waiting;
    assert Sweepable(s1, s1.order, n, u, socketId);
    v := SweepLeaves(s1, s1.order, n, u, socketId, DisconnectStep(s, u, socketId));
  }

  lemma StepDisconnects(s: State, u: UserId, socketId: SocketId, n: nat)
    requires Inv(s) && Shape(s) && u != "" && FirstFight(s, n, u, socketId) && forall f :: f in s.frames ==> f < s.next
    ensures var t := Tick(DisconnectStep(s, u, socketId));
            && FightLost(s, t, n, u, socketId) && SeatsLost(s, t, n, u, socketId)
            && TimersStay(s, t, n, u, socketId) && RestStays(s, t, socketId)
  {
    assert n <= |s.order|;
    hide Inv, Timed, RageQuitStep, SeatsLost, TimersStay, FightLost, RestStays, FirstFight, Waiting, Left, FightsOn,
         SameElse, Forfeited;
    var v := LoopRuns(s, u, socketId, n);
    hide DisconnectStep, Shape, Tick;
    if n == |s.order| {
      WithoutFight(s, v, u, socketId);
    } else {
      FightUnvisited(s, v, n, u, socketId);
      RageQuitForfeits(v, s.order[n], u, socketId);
      var t := RageQuitStep(v, v.matches[s.order[n]], u);
      assert t.timers == v.timers && t.armed == v.armed by { hide *; ForfeitKeepsTimers(v, t, s.order[n], u); }
      SeatsGo(s, v, t, n, u, socketId);
      TimersDoNotGo(s, v, t, n, u, socketId);
      FightGoes(s, v, t, n, u, socketId);
    }
  }

  // Whenever a socket disconnects in any run: if some fight seats the user on it, the first one in insertion order gets
  // exactly one call, a rage quit that the user loses to the other player, and otherwise there is no call; each lobby
  // seat before that fight, or each if there is none, is left with a new grace timer; nothing else changes.
  lemma DisconnectAnswers(es: seq<Event>, s: State, u: UserId, socketId: SocketId, n: nat)
    requires Reaches(EMPTY, es, s) && u != "" && FirstFight(s, n, u, socketId)
    ensures Shape(s)
    ensures var t := Step(s, Disconnect(u, socketId));
            && FightLost(s, t, n, u, socketId) && SeatsLost(s, t, n, u, socketId)
            && TimersStay(s, t, n, u, socketId) && RestStays(s, t, socketId)
  {
    RunKeeps(es, s);
    hide Reaches;
    InvFacts(s);
    hide Inv, SeatsLost, TimersStay, FightLost, RestStays, FirstFight, Shape, Step;
    StepIs(s, u, socketId);
    StepDisconnects(s, u, socketId, n);
  }

  lemma InvFacts(s: State)
    requires Inv(s)
    ensures Shape(s) && forall f :: f in s.frames ==> f < s.next
  {
    FramesBelowNext(s);
  }

  lemma StepIs(s: State, u: UserId, socketId: SocketId)
    requires Shape(s) && u != ""
    ensures Step(s, Disconnect(u, socketId)) == Tick(DisconnectStep(s, u, socketId))
  {
    hide DisconnectStep;
  }
}
