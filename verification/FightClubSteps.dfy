// Every step keeps the invariant; the lemmas go step by step, and within a step by the part of
// the invariant they concern. A part is untouched when the fields it reads are.
module FightClubSteps {
  import opened Wrappers
  import opened FightPrompt
  import opened FightClub
  import opened FightClubDuel
  import opened FightClubInvariant

  // ----- framing -----

  lemma MatchesFrame(s: State, t: State)
    requires MatchesOk(s)
    requires t.order == s.order && t.matches == s.matches && t.created == s.created && t.duels == s.duels
    requires s.minted <= t.minted
    ensures MatchesOk(t)
  {}

  lemma CallsFrame(s: State, t: State)
    requires CallsOk(s)
    requires t.matches == s.matches && t.created == s.created && t.duels == s.duels && t.calls == s.calls
    ensures CallsOk(t)
  {
    forall c | c in t.calls ensures CallOk(t, c) && !Undecided(t, c.matchId) { assert CallOk(s, c); }
  }

  lemma VerdictsFrame(s: State, t: State)
    requires VerdictsOk(s)
    requires t.matches == s.matches && t.created == s.created && t.calls == s.calls && t.verdicts == s.verdicts
    ensures VerdictsOk(t)
  {
    forall v | v in t.verdicts ensures VerdictOk(t, v) { assert VerdictOk(s, v); }
  }

  lemma DuelsFrame(s: State, t: State)
    requires DuelsOk(s)
    requires t.matches == s.matches && t.duels == s.duels && s.minted <= t.minted
    ensures DuelsOk(t)
  {
    forall id | id in t.matches ensures DuelOk(t, t.matches[id]) { assert DuelOk(s, s.matches[id]); }
  }

  lemma CadenceFrame(s: State, t: State)
    requires CadenceOk(s)
    requires t.cadence == s.cadence && t.warned == s.warned && t.matches == s.matches && t.created == s.created
    ensures CadenceOk(t)
  {}

  // Parts that read `frames`, when a frame that is no settlement and no start comes or goes.
  lemma SettlesFrame(s: State, t: State)
    requires SettlesOk(s)
    requires t.matches == s.matches && t.calls == s.calls
    requires forall f :: f in t.frames && Finishing(t.frames[f]) ==> f in s.frames && s.frames[f] == t.frames[f]
    requires forall f :: f in s.frames && Finishing(s.frames[f]) ==> f in t.frames && s.frames[f] == t.frames[f]
    ensures SettlesOk(t)
  {
    forall f | f in t.frames ensures FinishOk(t, f) {
      if Finishing(t.frames[f]) { assert FinishOk(s, f); }
    }
    forall id | id in t.matches && t.matches[id].status == FightOver
      ensures exists f :: f in t.frames && FinishesMatch(t.frames[f], id)
    {
      var f :| f in s.frames && FinishesMatch(s.frames[f], id);
      assert FinishesMatch(t.frames[f], id);
    }
  }

  lemma StartsFrame(s: State, t: State)
    requires StartsOk(s)
    requires forall id :: id in t.matches && Ready(t.matches[id]) ==> id in s.matches && Ready(s.matches[id])
    requires forall f, id ::
             f in s.frames && StartsMatch(s.frames[f], id) && id in t.matches && Ready(t.matches[id]) ==>
               f in t.frames && t.frames[f] == s.frames[f]
    ensures StartsOk(t)
  {
    forall id | id in t.matches && Ready(t.matches[id])
      ensures exists f :: f in t.frames && StartsMatch(t.frames[f], id)
    {
      var f :| f in s.frames && StartsMatch(s.frames[f], id);
      assert StartsMatch(t.frames[f], id);
    }
  }

  // ----- the grace timer fires -----

  lemma FireKeepsTimers(s: State, h: nat)
    requires TimersOk(s) && h in s.armed
    ensures TimersOk(Tick(FireStep(s, h)))
    ensures s.armed[h].Key() in s.timers && s.timers[s.armed[h].Key()].socketId == s.armed[h].socketId
  {
    var t := Tick(FireStep(s, h));
    assert ArmedOk(s, h);
    assert EntryOk(s, s.armed[h].Key());
    forall k | k in t.timers ensures EntryOk(t, k) {
      assert EntryOk(s, k);
    }
    forall i | i in t.armed ensures ArmedOk(t, i) {
      assert ArmedOk(s, i);
    }
  }

  lemma FireHasEffect(s: State, h: nat)
    requires TimersOk(s) && h in s.armed
    ensures var t := Tick(FireStep(s, h));
            && t == s.(armed := t.armed, timers := t.timers, frames := t.frames, next := t.next, tick := t.tick)
            && (forall f :: f in s.frames ==> f in t.frames && t.frames[f] == s.frames[f])
            && (forall f :: f in t.frames && f !in s.frames ==> !Finishing(t.frames[f]))
  {
    FramesBelowNext(s);
  }

  lemma FireKeeps(s: State, h: nat)
    requires Inv(s) && h in s.armed
    ensures Inv(Tick(FireStep(s, h)))
  {
    var t := Tick(FireStep(s, h));
    hide MatchesOk, TimersOk, SettlesOk, CallsOk, VerdictsOk, StartsOk, DuelsOk, CadenceOk, FireStep, Finishing,
         Ready, StartsMatch;
    FireHasEffect(s, h);
    FireKeepsTimers(s, h);
    MatchesFrame(s, t);
    CallsFrame(s, t);
    VerdictsFrame(s, t);
    DuelsFrame(s, t);
    CadenceFrame(s, t);
    SettlesFrame(s, t);
    StartsFrame(s, t);
  }

  // ----- a match leaves the map -----

  lemma {:induction false} EraseKeepsOrder(order: seq<MatchId>, id: MatchId)
    requires Once(order)
    ensures Once(Erase(order, id))
  {
    if order != [] {
      var rest := order[..|order| - 1];
      assert forall i :: 0 <= i < |rest| ==> rest[i] == order[i];
      EraseKeepsOrder(rest, id);
      var r := Erase(rest, id);
      assert order[|order| - 1] !in rest;
      assert forall i :: 0 <= i < |r| ==> r[i] in r;
    }
  }

  // `t` is `s` without the match `id`, as far as matches go.
  ghost predicate Without(s: State, t: State, id: MatchId) {
    t.matches == s.matches - {id} && t.order == Erase(s.order, id) &&
    t.created == s.created && t.minted == s.minted && t.duels == s.duels
  }

  lemma DropKeepsMatches(s: State, t: State, id: MatchId)
    requires MatchesOk(s) && Without(s, t, id)
    ensures MatchesOk(t)
  {
    EraseKeepsOrder(s.order, id);
  }

  lemma DropKeepsTimers(s: State, t: State, id: MatchId)
    requires TimersOk(s) && Without(s, t, id)
    requires t.timers == s.timers && t.armed == s.armed && t.closed == s.closed && t.lastJoin == s.lastJoin
    requires t.next >= s.next && t.tick >= s.tick
    requires forall f :: f in t.frames ==> f in s.frames && s.frames[f] == t.frames[f]
    ensures TimersOk(t)
  {
    forall k | k in t.timers ensures EntryOk(t, k) { assert EntryOk(s, k); }
    forall h | h in t.armed ensures ArmedOk(t, h) { assert ArmedOk(s, h); }
  }

  lemma DropKeepsDuels(s: State, t: State, id: MatchId)
    requires DuelsOk(s) && Without(s, t, id)
    ensures DuelsOk(t)
  {
    forall i | i in t.matches ensures DuelOk(t, t.matches[i]) { assert DuelOk(s, s.matches[i]); }
  }

  lemma DropKeepsCadence(s: State, t: State, id: MatchId, a: UserId, b: UserId)
    requires CadenceOk(s) && Without(s, t, id) && t.warned == s.warned
    requires id in s.matches && TwoPlayers(s.matches[id], a, b)
    requires t.cadence == s.cadence - {(a, id), (b, id)}
    ensures CadenceOk(t)
  {}

  lemma VerdictCounts(vs: seq<Verdict>, v: Verdict)
    ensures VerdictsFor(vs + [v], v.matchId) == VerdictsFor(vs, v.matchId) + 1
    ensures forall id :: id != v.matchId ==> VerdictsFor(vs + [v], id) == VerdictsFor(vs, id)
  {
    assert DropLast(vs + [v]) == vs;
  }

  lemma CallCounts(cs: seq<Call>, c: Call)
    ensures CallsFor(cs + [c], c.matchId) == CallsFor(cs, c.matchId) + 1
    ensures forall id :: id != c.matchId ==> CallsFor(cs + [c], id) == CallsFor(cs, id)
  {
    assert DropLast(cs + [c]) == cs;
  }

  lemma DropKeepsVerdicts(s: State, t: State, v: Verdict)
    requires VerdictsOk(s) && Without(s, t, v.matchId) && v.matchId in s.matches && v.matchId in s.created
    requires t.verdicts == s.verdicts + [v]
    requires forall c :: c in s.calls ==> c in t.calls
    requires VerdictOk(t, v)
    ensures VerdictsOk(t)
  {
    VerdictCounts(s.verdicts, v);
    forall w | w in t.verdicts ensures VerdictOk(t, w) && w.matchId !in t.matches {
      if w in s.verdicts { assert VerdictOk(s, w); }
    }
  }

  // ----- `fetchSockets` returns -----

  // A frame that neither starts nor finishes a match is dropped and nothing else happens.
  lemma IdleKeeps(s: State, frame: nat)
    requires Inv(s) && frame in s.frames
    requires !Finishing(s.frames[frame])
    requires forall id :: id in s.matches && Ready(s.matches[id]) ==> !StartsMatch(s.frames[frame], id)
    ensures Inv(Tick(Resume(s, frame)))
  {
    var t := Tick(Resume(s, frame));
    hide MatchesOk, TimersOk, SettlesOk, CallsOk, VerdictsOk, StartsOk, DuelsOk, CadenceOk;
    FramesBelowNext(s);
    ResumeKeepsTimers(s, t);
    MatchesFrame(s, t);
    CallsFrame(s, t);
    VerdictsFrame(s, t);
    DuelsFrame(s, t);
    CadenceFrame(s, t);
    SettlesFrame(s, t);
    StartsFrame(s, t);
  }

  lemma FetchKeeps(s: State, frame: nat, sockets: nat)
    requires Inv(s) && frame in s.frames && s.frames[frame].AwaitSockets?
    ensures Inv(Tick(FetchStep(s, frame, sockets)))
  {
    hide MatchesOk, TimersOk, SettlesOk, CallsOk, VerdictsOk, StartsOk, DuelsOk, CadenceOk, CancelMatch;
    var g := s.frames[frame].grace;
    if sockets > 0 || !StillAbandoned(Resume(s, frame), g) {
      IdleKeeps(s, frame);
    } else {
      MatchFacts(s, g.matchId);
      CancelKeeps(s, frame, s.matches[g.matchId]);
    }
  }

  lemma FramesBelowNext(s: State)
    requires TimersOk(s)
    ensures forall f :: f in s.frames ==> f < s.next
  {}

  lemma ResumeKeepsTimers(s: State, t: State)
    requires TimersOk(s)
    requires t.matches == s.matches && t.created == s.created
    requires t.timers == s.timers && t.armed == s.armed && t.closed == s.closed
    requires t.lastJoin == s.lastJoin && t.next >= s.next && t.tick >= s.tick
    requires forall f :: f in t.frames ==>
             f < t.next && (t.frames[f].AwaitSockets? ==> f in s.frames && s.frames[f] == t.frames[f])
    ensures TimersOk(t)
  {
    forall k | k in t.timers ensures EntryOk(t, k) { assert EntryOk(s, k); }
    forall h | h in t.armed ensures ArmedOk(t, h) { assert ArmedOk(s, h); }
  }

  // The code after `fetchSockets`, when it cancels lobby `m`.
  lemma CancelKeeps(s: State, frame: nat, m: Match)
    requires Inv(s) && frame in s.frames && s.frames[frame].AwaitSockets?
    requires m.matchId in s.matches && m == s.matches[m.matchId] && m.status == Lobby
    ensures Inv(Tick(CancelMatch(Resume(s, frame), m)))
  {
    hide MatchesOk, TimersOk, SettlesOk, CallsOk, VerdictsOk, StartsOk, DuelsOk, CadenceOk;
    CancelKeepsPlayers(s, frame, m);
    CancelKeepsOutcomes(s, frame, m);
  }

  lemma CancelKeepsPlayers(s: State, frame: nat, m: Match)
    requires MatchesOk(s) && TimersOk(s) && DuelsOk(s) && CadenceOk(s) && frame in s.frames
    requires m.matchId in s.matches && m == s.matches[m.matchId]
    ensures var t := Tick(CancelMatch(Resume(s, frame), m));
            MatchesOk(t) && TimersOk(t) && DuelsOk(t) && CadenceOk(t)
  {
    var t := Tick(CancelMatch(Resume(s, frame), m));
    var id := m.matchId;
    DropKeepsMatches(s, t, id);
    DropKeepsTimers(s, t, id);
    DropKeepsDuels(s, t, id);
    DropKeepsCadence(s, t, id, m.player1.id, m.player2.id);
  }

  lemma CancelKeepsOutcomes(s: State, frame: nat, m: Match)
    requires MatchesOk(s) && DuelsOk(s) && SettlesOk(s) && CallsOk(s) && VerdictsOk(s) && StartsOk(s)
    requires frame in s.frames && s.frames[frame].AwaitSockets?
    requires m.matchId in s.matches && m == s.matches[m.matchId] && m.status == Lobby
    ensures var t := Tick(CancelMatch(Resume(s, frame), m));
            SettlesOk(t) && CallsOk(t) && VerdictsOk(t) && StartsOk(t)
  {
    hide MatchesOk, DuelsOk, SettlesOk, CallsOk, VerdictsOk, StartsOk;
    CancelKeepsCalls(s, Tick(CancelMatch(Resume(s, frame), m)), m);
    CancelKeepsFrames(s, frame, m);
    CancelKeepsVerdicts(s, frame, m);
  }

  lemma CancelKeepsFrames(s: State, frame: nat, m: Match)
    requires SettlesOk(s) && StartsOk(s)
    requires frame in s.frames && s.frames[frame].AwaitSockets?
    requires m.matchId in s.matches && m == s.matches[m.matchId] && m.status == Lobby
    ensures var t := Tick(CancelMatch(Resume(s, frame), m)); SettlesOk(t) && StartsOk(t)
  {
    hide SettlesOk, StartsOk;
    var t := Tick(CancelMatch(Resume(s, frame), m));
    CancelKeepsSettles(s, t, m.matchId);
    StartsFrame(s, t);
  }

  lemma CancelKeepsVerdicts(s: State, frame: nat, m: Match)
    requires MatchesOk(s) && VerdictsOk(s) && frame in s.frames && m.matchId in s.matches && m == s.matches[m.matchId]
    ensures VerdictsOk(Tick(CancelMatch(Resume(s, frame), m)))
  {
    hide VerdictsOk;
    var t := Tick(CancelMatch(Resume(s, frame), m));
    CancelIsRecorded(t, m.matchId);
    DropKeepsVerdicts(s, t, Cancelled(m.matchId));
  }

  lemma CancelIsRecorded(t: State, id: MatchId)
    requires id in t.created && t.calls != [] && Last(t.calls).RecordCancelled? && Last(t.calls).matchId == id
    ensures VerdictOk(t, Cancelled(id))
  {
    assert Last(t.calls) in t.calls;
  }

  lemma CancelCallOk(s: State, t: State, m: Match, c: Call)
    requires MatchesOk(s) && DuelsOk(s)
    requires m.matchId in s.matches && m == s.matches[m.matchId] && m.status == Lobby
    requires t.created == s.created && t.duels == s.duels
    requires c == RecordCancelled(m.matchId, m.player1.id, if m.player2.id == "" then None else Some(m.player2.id),
                                  m.stakeType, m.stakeAmount)
    ensures CallOk(t, c)
  {
    assert MatchOk(m) && DuelOk(s, m);
  }

  lemma CallStaysOk(s: State, t: State, c: Call)
    requires CallOk(s, c) && t.created == s.created && t.duels == s.duels
    ensures CallOk(t, c)
  {}

  lemma CancelKeepsCalls(s: State, t: State, m: Match)
    requires MatchesOk(s) && CallsOk(s) && DuelsOk(s)
    requires m.matchId in s.matches && m == s.matches[m.matchId] && m.status == Lobby
    requires Without(s, t, m.matchId)
    requires t.calls == s.calls + [RecordCancelled(m.matchId, m.player1.id,
                                     if m.player2.id == "" then None else Some(m.player2.id),
                                     m.stakeType, m.stakeAmount)]
    ensures CallsOk(t)
  {
    var c0 := Last(t.calls);
    CallCounts(s.calls, c0);
    CancelCallOk(s, t, m, c0);
    assert Undecided(s, m.matchId);
    hide CallOk, MatchesOk, DuelsOk;
    forall id | id in t.created ensures CallsFor(t.calls, id) == if Undecided(t, id) then 0 else 1 {
      assert id != m.matchId ==> (Undecided(t, id) <==> Undecided(s, id));
    }
    forall c | c in t.calls ensures CallOk(t, c) && !Undecided(t, c.matchId) {
      if c in s.calls { CallStaysOk(s, t, c); }
    }
  }

  lemma CancelKeepsSettles(s: State, t: State, id: MatchId)
    requires SettlesOk(s) && id in s.matches && s.matches[id].status == Lobby
    requires t.matches == s.matches - {id}
    requires forall c :: c in s.calls ==> c in t.calls
    requires forall f :: f in t.frames && Finishing(t.frames[f]) ==> f in s.frames && s.frames[f] == t.frames[f]
    requires forall f :: f in s.frames && Finishing(s.frames[f]) ==> f in t.frames && s.frames[f] == t.frames[f]
    ensures SettlesOk(t)
  {
    forall f | f in t.frames ensures FinishOk(t, f) {
      if Finishing(t.frames[f]) { assert FinishOk(s, f); }
    }
    forall i | i in t.matches && t.matches[i].status == FightOver
      ensures exists f :: f in t.frames && FinishesMatch(t.frames[f], i)
    {
      var f :| f in s.frames && FinishesMatch(s.frames[f], i);
      assert FinishesMatch(t.frames[f], i);
    }
  }

  // ----- the settlement returns -----

  lemma SettledKeepsFrames(s: State, frame: nat)
    requires SettlesOk(s) && StartsOk(s) && TimersOk(s)
    requires frame in s.frames && s.frames[frame].AwaitSettle?
    ensures var t := Tick(SettleReturnStep(s, frame, true)); SettlesOk(t) && StartsOk(t) && TimersOk(t)
  {
    var t := Tick(SettleReturnStep(s, frame, true));
    FramesBelowNext(s);
    ResumeKeepsTimers(s, t);
    StartsFrame(s, t);
    SettledKeepsSettles(s, frame);
  }

  lemma SettledKeepsSettles(s: State, frame: nat)
    requires SettlesOk(s) && forall f :: f in s.frames ==> f < s.next
    requires frame in s.frames && s.frames[frame].AwaitSettle?
    ensures SettlesOk(Tick(SettleReturnStep(s, frame, true)))
  {
    var t := Tick(SettleReturnStep(s, frame, true));
    assert FinishOk(s, frame);
    forall f | f in t.frames ensures FinishOk(t, f) {
      if f != s.next { assert FinishOk(s, f); }
    }
    forall f, g | f in t.frames && g in t.frames && f != g ensures !SameFinish(t.frames[f], t.frames[g]) {
      var f', g' := if f == s.next then frame else f, if g == s.next then frame else g;
      assert !SameFinish(s.frames[f'], s.frames[g']);
    }
    forall i | i in t.matches && t.matches[i].status == FightOver
      ensures exists f :: f in t.frames && FinishesMatch(t.frames[f], i)
    {
      var f :| f in s.frames && FinishesMatch(s.frames[f], i);
      assert FinishesMatch(t.frames[if f == frame then s.next else f], i);
    }
  }

  lemma SettledKeeps(s: State, frame: nat)
    requires Inv(s) && frame in s.frames && s.frames[frame].AwaitSettle?
    ensures Inv(Tick(SettleReturnStep(s, frame, true)))
  {
    hide MatchesOk, TimersOk, SettlesOk, CallsOk, VerdictsOk, StartsOk, DuelsOk, CadenceOk;
    var t := Tick(SettleReturnStep(s, frame, true));
    SettledKeepsFrames(s, frame);
    MatchesFrame(s, t);
    CallsFrame(s, t);
    VerdictsFrame(s, t);
    DuelsFrame(s, t);
    CadenceFrame(s, t);
  }

  // The end of `finishMatch`: the verdict, then the match is gone.
  function Finish(s: State, frame: nat, v: Verdict): State
    requires frame in s.frames && Finishing(s.frames[frame])
  {
    var f := s.frames[frame];
    Tick(DropMatch(Announce(Resume(s, frame), v), f.matchId, f.winnerId, f.loserId))
  }

  lemma FinishKeeps(s: State, frame: nat, v: Verdict)
    requires Inv(s) && frame in s.frames && Finishing(s.frames[frame])
    requires v == SettleFailed(s.frames[frame].matchId) ||
             v == GameOver(s.frames[frame].matchId, s.frames[frame].winnerId, s.frames[frame].loserId)
    ensures Inv(Finish(s, frame, v))
  {
    hide MatchesOk, TimersOk, SettlesOk, CallsOk, VerdictsOk, StartsOk, DuelsOk, CadenceOk;
    FinishKeepsPlayers(s, frame, v);
    FinishKeepsFrames(s, frame, v);
    FinishKeepsOutcomes(s, frame, v);
  }

  lemma FinishKeepsPlayers(s: State, frame: nat, v: Verdict)
    requires MatchesOk(s) && TimersOk(s) && DuelsOk(s) && CadenceOk(s) && SettlesOk(s)
    requires frame in s.frames && Finishing(s.frames[frame])
    ensures var t := Finish(s, frame, v); MatchesOk(t) && TimersOk(t) && DuelsOk(t) && CadenceOk(t)
  {
    var t := Finish(s, frame, v);
    var f := s.frames[frame];
    assert FinishOk(s, frame);
    hide MatchesOk, TimersOk, DuelsOk, CadenceOk, SettlesOk;
    DropKeepsMatches(s, t, f.matchId);
    DropKeepsTimers(s, t, f.matchId);
    DropKeepsDuels(s, t, f.matchId);
    DropKeepsCadence(s, t, f.matchId, f.winnerId, f.loserId);
  }

  lemma FinishKeepsFrames(s: State, frame: nat, v: Verdict)
    requires SettlesOk(s) && StartsOk(s)
    requires frame in s.frames && Finishing(s.frames[frame])
    ensures var t := Finish(s, frame, v); SettlesOk(t) && StartsOk(t)
  {
    var t := Finish(s, frame, v);
    StartsFrame(s, t);
    forall f | f in t.frames ensures FinishOk(t, f) {
      assert FinishOk(s, f);
      assert !SameFinish(s.frames[f], s.frames[frame]);
    }
    forall i | i in t.matches && t.matches[i].status == FightOver
      ensures exists f :: f in t.frames && FinishesMatch(t.frames[f], i)
    {
      var f :| f in s.frames && FinishesMatch(s.frames[f], i);
      assert FinishesMatch(t.frames[f], i);
    }
  }

  lemma FinishKeepsOutcomes(s: State, frame: nat, v: Verdict)
    requires MatchesOk(s) && SettlesOk(s) && CallsOk(s) && VerdictsOk(s)
    requires frame in s.frames && Finishing(s.frames[frame])
    requires v == SettleFailed(s.frames[frame].matchId) ||
             v == GameOver(s.frames[frame].matchId, s.frames[frame].winnerId, s.frames[frame].loserId)
    ensures var t := Finish(s, frame, v); CallsOk(t) && VerdictsOk(t)
  {
    var t := Finish(s, frame, v);
    assert FinishOk(s, frame);
    FinishKeepsCalls(s, t, v.matchId);
    assert CallOf(s.matches[v.matchId], s.frames[frame]) in t.calls;
    assert VerdictOk(t, v);
    hide VerdictsOk, VerdictOk, SettlesOk, CallsOk;
    DropKeepsVerdicts(s, t, v);
  }

  lemma FinishKeepsCalls(s: State, t: State, id: MatchId)
    requires CallsOk(s) && Without(s, t, id) && t.calls == s.calls && !Undecided(s, id)
    ensures CallsOk(t)
  {
    forall i | i in t.created ensures CallsFor(t.calls, i) == if Undecided(t, i) then 0 else 1 {
      assert Undecided(t, i) <==> Undecided(s, i);
    }
    forall c | c in t.calls ensures CallOk(t, c) && !Undecided(t, c.matchId) { assert CallOk(s, c); }
  }

  // ----- a match is created -----

  lemma {:induction false} NoCallsFor(calls: seq<Call>, id: MatchId)
    requires forall c :: c in calls ==> c.matchId != id
    ensures CallsFor(calls, id) == 0
  {
    if calls != [] {
      assert Last(calls) in calls;
      NoCallsFor(DropLast(calls), id);
    }
  }

  lemma {:induction false} NoVerdictsFor(verdicts: seq<Verdict>, id: MatchId)
    requires forall v :: v in verdicts ==> v.matchId != id
    ensures VerdictsFor(verdicts, id) == 0
  {
    if verdicts != [] {
      assert Last(verdicts) in verdicts;
      NoVerdictsFor(DropLast(verdicts), id);
    }
  }

  // `t` is `s` with the fresh lobby `m`.
  ghost predicate Adds(s: State, t: State, m: Match) {
    && m.matchId !in s.minted && t.matches == s.matches[m.matchId := m] && t.order == s.order + [m.matchId]
    && t.minted == s.minted + {m.matchId} && t.created == s.created + {m.matchId} && t.duels == s.duels
    && m.status == Lobby && !Ready(m) && MatchOk(m) && FreshPlayer(m.player1) && FreshPlayer(m.player2)
  }

  lemma AddKeepsOrder(s: State, t: State, m: Match)
    requires MatchesOk(s) && Adds(s, t, m)
    ensures Once(t.order) && forall id :: id in t.order <==> id in s.order || id == m.matchId
  {
    assert forall i :: 0 <= i < |t.order| ==> t.order[i] == if i < |s.order| then s.order[i] else m.matchId;
    assert forall i :: 0 <= i < |s.order| ==> s.order[i] in s.created;
    assert t.order[|s.order|] == m.matchId;
  }

  lemma AddKeepsMatches(s: State, t: State, m: Match)
    requires MatchesOk(s) && Adds(s, t, m)
    ensures MatchesOk(t)
  {
    AddKeepsOrder(s, t, m);
    hide Once, MatchOk, Ready, FreshPlayer;
  }

  lemma AddKeepsTimers(s: State, t: State, m: Match)
    requires MatchesOk(s) && TimersOk(s) && Adds(s, t, m) && m.player1.socketId !in s.closed && m.player2.id == ""
    requires t.timers == s.timers && t.armed == s.armed && t.closed == s.closed && t.lastJoin == s.lastJoin
    requires t.next == s.next && t.tick >= s.tick && t.frames == s.frames
    ensures TimersOk(t)
  {
    forall k | k in t.timers ensures EntryOk(t, k) { assert EntryOk(s, k); }
    forall h | h in t.armed ensures ArmedOk(t, h) { assert ArmedOk(s, h); }
  }

  lemma AddKeepsOutcomes(s: State, t: State, m: Match)
    requires MatchesOk(s) && CallsOk(s) && VerdictsOk(s) && Adds(s, t, m)
    requires t.calls == s.calls && t.verdicts == s.verdicts
    ensures CallsOk(t) && VerdictsOk(t)
  {
    forall c | c in t.calls ensures CallOk(t, c) && !Undecided(t, c.matchId) && c.matchId != m.matchId {
      assert CallOk(s, c);
    }
    forall v | v in t.verdicts ensures VerdictOk(t, v) && v.matchId !in t.matches { assert VerdictOk(s, v); }
    NoCallsFor(s.calls, m.matchId);
    NoVerdictsFor(s.verdicts, m.matchId);
  }

  lemma AddKeepsFrames(s: State, t: State, m: Match)
    requires MatchesOk(s) && SettlesOk(s) && StartsOk(s) && Adds(s, t, m) && t.calls == s.calls && t.frames == s.frames
    ensures SettlesOk(t) && StartsOk(t)
  {
    StartsFrame(s, t);
    forall f | f in t.frames ensures FinishOk(t, f) { assert FinishOk(s, f); }
    forall id | id in t.matches && t.matches[id].status == FightOver
      ensures exists f :: f in t.frames && FinishesMatch(t.frames[f], id)
    {
      var f :| f in s.frames && FinishesMatch(s.frames[f], id);
      assert FinishesMatch(t.frames[f], id);
    }
  }

  lemma AddKeepsDuels(s: State, t: State, m: Match)
    requires MatchesOk(s) && DuelsOk(s) && CadenceOk(s) && Adds(s, t, m)
    requires t.cadence == s.cadence && t.warned == s.warned
    ensures DuelsOk(t) && CadenceOk(t)
  {
    forall id | id in t.matches ensures DuelOk(t, t.matches[id]) {
      if id != m.matchId { assert DuelOk(s, s.matches[id]); }
    }
  }

  lemma CreateKeeps(s: State, user: User, socketId: SocketId, dto: CreateDto, id: MatchId)
    requires Inv(s) && Enabled(s, Create(user, socketId, dto, id))
    ensures Inv(Tick(CreateStep(s, user, socketId, dto, id)))
  {
    assert Ordered(s);
    hide MatchesOk, TimersOk, SettlesOk, CallsOk, VerdictsOk, StartsOk, DuelsOk, CadenceOk, Listing;
    var m := NewMatch(user, socketId, dto, id);
    var t := Tick(CreateStep(s, user, socketId, dto, id));
    AddKeepsMatches(s, t, m);
    AddKeepsTimers(s, t, m);
    AddKeepsOutcomes(s, t, m);
    AddKeepsFrames(s, t, m);
    AddKeepsDuels(s, t, m);
  }

  // ----- a player joins -----

  // `t` is `s` with match `id` replaced by `m`, as far as matches go.
  ghost predicate Replaces(s: State, t: State, m: Match) {
    && m.matchId in s.matches && t.matches == s.matches[m.matchId := m] && t.order == s.order
    && t.created == s.created && s.minted <= t.minted
  }

  ghost predicate SameTerms(m: Match, n: Match) {
    && m.matchId == n.matchId && m.stakeType == n.stakeType && m.stakeAmount == n.stakeAmount
    && m.player1.id == n.player1.id && m.player2.id == n.player2.id
  }

  lemma ReplaceKeepsMatches(s: State, t: State, m: Match)
    requires MatchesOk(s) && Replaces(s, t, m) && MatchOk(m)
    requires t.duels == s.duels || (m.matchId in t.duels && t.duels == s.duels[m.matchId := t.duels[m.matchId]])
    requires m.status != Lobby ==> m.matchId in t.duels
    ensures MatchesOk(t)
  {}

  lemma ReplaceKeepsCalls(s: State, t: State, m: Match)
    requires CallsOk(s) && Replaces(s, t, m) && t.calls == s.calls
    requires m.status == FightOver <==> s.matches[m.matchId].status == FightOver
    requires t.duels == s.duels ||
             (Undecided(s, m.matchId) && m.matchId in t.duels && t.duels == s.duels[m.matchId := t.duels[m.matchId]])
    ensures CallsOk(t)
  {
    assert forall id :: Undecided(t, id) <==> Undecided(s, id);
    forall c | c in t.calls ensures CallOk(t, c) && !Undecided(t, c.matchId) { assert CallOk(s, c); }
  }

  lemma ReplaceKeepsVerdicts(s: State, t: State, m: Match)
    requires VerdictsOk(s) && Replaces(s, t, m) && t.verdicts == s.verdicts
    requires forall c :: c in s.calls ==> c in t.calls
    ensures VerdictsOk(t)
  {
    forall v | v in t.verdicts ensures VerdictOk(t, v) { assert VerdictOk(s, v); }
  }

  lemma ReplaceKeepsSettles(s: State, t: State, m: Match)
    requires SettlesOk(s) && Replaces(s, t, m) && t.calls == s.calls
    requires m.status == FightOver <==> s.matches[m.matchId].status == FightOver
    requires m.status == FightOver ==> SameTerms(m, s.matches[m.matchId])
    requires forall f :: f in t.frames && Finishing(t.frames[f]) ==> f in s.frames && s.frames[f] == t.frames[f]
    requires forall f :: f in s.frames && Finishing(s.frames[f]) ==> f in t.frames && s.frames[f] == t.frames[f]
    ensures SettlesOk(t)
  {
    forall f | f in t.frames ensures FinishOk(t, f) {
      if Finishing(t.frames[f]) { assert FinishOk(s, f); }
    }
    forall id | id in t.matches && t.matches[id].status == FightOver
      ensures exists f :: f in t.frames && FinishesMatch(t.frames[f], id)
    {
      var f :| f in s.frames && FinishesMatch(s.frames[f], id);
      assert FinishesMatch(t.frames[f], id);
    }
  }

  lemma ReplaceKeepsDuels(s: State, t: State, m: Match)
    requires MatchesOk(s) && DuelsOk(s) && Replaces(s, t, m) && DuelOk(t, m)
    requires t.duels == s.duels || (m.matchId in t.duels && t.duels == s.duels[m.matchId := t.duels[m.matchId]])
    ensures DuelsOk(t)
  {
    forall id | id in t.matches ensures DuelOk(t, t.matches[id]) {
      if id != m.matchId { assert DuelOk(s, s.matches[id]); }
    }
  }

  lemma ReplaceKeepsCadence(s: State, t: State, m: Match)
    requires CadenceOk(s) && Replaces(s, t, m) && t.cadence == s.cadence && t.warned == s.warned
    requires forall u :: u != "" && Plays(s.matches[m.matchId], u) ==> Plays(m, u)
    ensures CadenceOk(t)
  {}

  // What a successful join does, field by field.
  ghost predicate JoinEffect(s: State, t: State, user: User, socketId: SocketId, m: Match) {
    var key := (user.userId, m.matchId);
    && m.matchId in s.matches && s.matches[m.matchId].matchId == m.matchId
    && (Plays(s.matches[m.matchId], user.userId) || Open(s.matches[m.matchId]))
    && m == JoinedMatch(s.matches[m.matchId], user, socketId)
    && t.matches == s.matches[m.matchId := m] && t.order == s.order
    && t.timers == s.timers - {key}
    && t.armed == (if key in s.timers then s.armed - {s.timers[key].handle} else s.armed)
    && t.closed == s.closed && t.lastJoin == s.lastJoin[key := s.tick]
    && t.frames == s.frames[s.next := AwaitRoom(m.matchId, user.userId, ToFightState(m, user.userId))]
    && t.next == s.next + 1 && t.tick == s.tick + 1
    && t.created == s.created && t.minted == s.minted && t.duels == s.duels
    && t.calls == s.calls && t.verdicts == s.verdicts && t.cadence == s.cadence && t.warned == s.warned
  }

  lemma JoinHasEffect(s: State, user: User, socketId: SocketId, id: MatchId)
    requires JoinSucceeds(s, user, id) && s.matches[id].matchId == id
    ensures JoinEffect(s, Tick(JoinStep(s, user, socketId, id)), user, socketId,
                       JoinedMatch(s.matches[id], user, socketId))
  {}

  lemma JoinKeepsMatch(m: Match, user: User, socketId: SocketId)
    requires MatchOk(m) && user.userId != "" && socketId != "" && (Plays(m, user.userId) || Open(m))
    ensures MatchOk(JoinedMatch(m, user, socketId))
  {}

  lemma JoinKeepsDuel(s: State, m: Match, user: User, socketId: SocketId)
    requires DuelOk(s, m) && (Plays(m, user.userId) || Open(m))
    ensures DuelOk(s, JoinedMatch(m, user, socketId))
  {}

  // The grace period of another player keeps its seat; the joining player's no longer has one.
  lemma JoinKeepsSeat(m: Match, user: User, socketId: SocketId, u: UserId, closed: set<SocketId>, was: SocketId)
    requires MatchOk(m) && user.userId != "" && u != "" && socketId !in closed && was in closed
    requires Plays(m, user.userId) || Open(m)
    ensures var m' := JoinedMatch(m, user, socketId);
            && m'.status == m.status
            && (u == user.userId ==> Plays(m', u) && SeatOf(m', u).socketId != was)
            && (u != user.userId ==> (Plays(m', u) <==> Plays(m, u)) && (Plays(m, u) ==> SeatOf(m', u) == SeatOf(m, u)))
  {}

  lemma JoinKeepsGrace(s: State, t: State, user: User, socketId: SocketId, m: Match, g: Grace)
    requires JoinEffect(s, t, user, socketId, m) && MatchOk(s.matches[m.matchId]) && GraceOk(s, g)
    requires user.userId != "" && socketId !in s.closed
    ensures GraceOk(t, g) && (g.Key() != (user.userId, m.matchId) && SeatedAt(s, g) ==> SeatedAt(t, g))
  {
    if g.matchId == m.matchId {
      JoinKeepsSeat(s.matches[m.matchId], user, socketId, g.userId, s.closed, g.socketId);
      hide JoinedMatch;
    }
  }

  lemma JoinKeepsTimers(s: State, t: State, user: User, socketId: SocketId, m: Match)
    requires TimersOk(s) && JoinEffect(s, t, user, socketId, m) && MatchOk(s.matches[m.matchId])
    requires user.userId != "" && socketId !in s.closed
    ensures TimersOk(t)
  {
    var key := (user.userId, m.matchId);
    if key in s.timers { assert EntryOk(s, key); }
    forall k | k in t.timers ensures EntryOk(t, k) {
      assert EntryOk(s, k);
    }
    forall h | h in t.armed ensures ArmedOk(t, h) {
      assert ArmedOk(s, h);
      JoinKeepsGrace(s, t, user, socketId, m, s.armed[h]);
    }
    forall f | f in t.frames && t.frames[f].AwaitSockets? ensures GraceOk(t, t.frames[f].grace) {
      JoinKeepsGrace(s, t, user, socketId, m, s.frames[f].grace);
    }
  }

  lemma JoinKeepsStarts(s: State, t: State, user: User, socketId: SocketId, m: Match)
    requires StartsOk(s) && JoinEffect(s, t, user, socketId, m) && forall f :: f in s.frames ==> f < s.next
    ensures StartsOk(t)
  {
    forall i | i in t.matches && Ready(t.matches[i]) ensures exists f :: f in t.frames && StartsMatch(t.frames[f], i) {
      if i == m.matchId {
        assert StartsMatch(t.frames[s.next], i);
      } else {
        var f :| f in s.frames && StartsMatch(s.frames[f], i);
        assert StartsMatch(t.frames[f], i);
      }
    }
  }

  lemma JoinKeepsSettles(s: State, t: State, user: User, socketId: SocketId, m: Match)
    requires SettlesOk(s) && JoinEffect(s, t, user, socketId, m) && forall f :: f in s.frames ==> f < s.next
    ensures SettlesOk(t)
  {
    hide SettlesOk;
    ReplaceKeepsSettles(s, t, m);
  }

  lemma JoinKeepsRest(s: State, t: State, m: Match)
    requires MatchesOk(s) && CallsOk(s) && VerdictsOk(s) && DuelsOk(s) && CadenceOk(s)
    requires Replaces(s, t, m) && MatchOk(m) && DuelOk(s, m) && m.status == s.matches[m.matchId].status
    requires t.duels == s.duels && t.calls == s.calls && t.verdicts == s.verdicts
    requires t.cadence == s.cadence && t.warned == s.warned && t.minted == s.minted
    requires forall u :: u != "" && Plays(s.matches[m.matchId], u) ==> Plays(m, u)
    ensures MatchesOk(t) && CallsOk(t) && VerdictsOk(t) && DuelsOk(t) && CadenceOk(t)
  {
    assert DuelOk(t, m);
    assert m.status != Lobby ==> m.matchId in t.duels;
    hide MatchesOk, CallsOk, VerdictsOk, DuelsOk, CadenceOk, DuelOk, MatchOk;
    ReplaceKeepsMatches(s, t, m);
    ReplaceKeepsCalls(s, t, m);
    ReplaceKeepsVerdicts(s, t, m);
    ReplaceKeepsDuels(s, t, m);
    ReplaceKeepsCadence(s, t, m);
  }

  lemma MatchFacts(s: State, id: MatchId)
    requires MatchesOk(s) && DuelsOk(s) && id in s.matches
    ensures MatchOk(s.matches[id]) && s.matches[id].matchId == id && DuelOk(s, s.matches[id])
  {
    hide MatchOk, DuelOk;
  }

  lemma JoinKeeps(s: State, user: User, socketId: SocketId, id: MatchId)
    requires Inv(s) && Enabled(s, Join(user, socketId, id)) && JoinSucceeds(s, user, id)
    ensures Inv(Tick(JoinStep(s, user, socketId, id)))
  {
    var t := Tick(JoinStep(s, user, socketId, id));
    var m0 := s.matches[id];
    var m := JoinedMatch(m0, user, socketId);
    hide MatchesOk, TimersOk, SettlesOk, CallsOk, VerdictsOk, StartsOk, DuelsOk, CadenceOk, DuelOk, MatchOk, JoinStep;
    MatchFacts(s, id);
    FramesBelowNext(s);
    JoinHasEffect(s, user, socketId, id);
    JoinKeepsMatch(m0, user, socketId);
    JoinKeepsDuel(s, m0, user, socketId);
    JoinKeepsTimers(s, t, user, socketId, m);
    JoinKeepsStarts(s, t, user, socketId, m);
    JoinKeepsSettles(s, t, user, socketId, m);
    JoinKeepsRest(s, t, m);
  }

  // ----- a match starts -----

  ghost predicate SameSeat(p: Player, q: Player) {
    p.id == q.id && p.socketId == q.socketId && p.joinedMatch == q.joinedMatch
  }

  ghost predicate SameSeats(m: Match, n: Match) {
    SameTerms(m, n) && SameSeat(m.player1, n.player1) && SameSeat(m.player2, n.player2)
  }

  // A match may leave the lobby under the timers only when nobody is away.
  lemma ReplaceKeepsTimers(s: State, t: State, m: Match)
    requires TimersOk(s) && Replaces(s, t, m) && SameSeats(m, s.matches[m.matchId])
    requires m.status == s.matches[m.matchId].status || s.matches[m.matchId].status != Lobby
          || (m.player1.joinedMatch && m.player2.joinedMatch)
    requires t.timers == s.timers && t.armed == s.armed && t.closed == s.closed && t.lastJoin == s.lastJoin
    requires t.next >= s.next && t.tick >= s.tick
    requires forall f :: f in t.frames ==>
             f < t.next && (t.frames[f].AwaitSockets? ==> f in s.frames && s.frames[f] == t.frames[f])
    ensures TimersOk(t)
  {
    forall k | k in t.timers ensures EntryOk(t, k) { assert EntryOk(s, k); }
    forall h | h in t.armed ensures ArmedOk(t, h) {
      assert ArmedOk(s, h);
      ReplaceKeepsGrace(s, t, m, s.armed[h]);
    }
    forall f | f in t.frames && t.frames[f].AwaitSockets? ensures GraceOk(t, t.frames[f].grace) {
      ReplaceKeepsGrace(s, t, m, s.frames[f].grace);
    }
  }

  lemma ReplaceKeepsGrace(s: State, t: State, m: Match, g: Grace)
    requires GraceOk(s, g) && Replaces(s, t, m) && SameSeats(m, s.matches[m.matchId])
    requires m.status == s.matches[m.matchId].status || s.matches[m.matchId].status != Lobby
          || (m.player1.joinedMatch && m.player2.joinedMatch)
    requires t.closed == s.closed && t.lastJoin == s.lastJoin
    ensures GraceOk(t, g) && (SeatedAt(t, g) <==> SeatedAt(s, g))
  {}

  ghost predicate StartEffect(s: State, t: State, frame: nat, m: Match, now: int) {
    && frame in s.frames && s.frames[frame].AwaitRoom? && m.matchId == s.frames[frame].matchId
    && m.matchId in s.matches && Ready(s.matches[m.matchId]) && s.matches[m.matchId].matchId == m.matchId
    && m == s.matches[m.matchId].(prompt := m.prompt, status := Fighting)
    && m.prompt.promptId !in s.minted && t.minted == s.minted + {m.prompt.promptId}
    && t.matches == s.matches[m.matchId := m] && t.order == s.order
    && t.duels == s.duels[m.matchId := Duel(now, [])]
    && t.frames == s.frames - {frame} && t.next == s.next && t.tick == s.tick + 1
    && t.timers == s.timers && t.armed == s.armed && t.closed == s.closed && t.lastJoin == s.lastJoin
    && t.created == s.created && t.calls == s.calls && t.verdicts == s.verdicts
    && t.cadence == s.cadence && t.warned == s.warned
  }

  lemma StartHasEffect(s: State, frame: nat, now: int, promptId: string, roll: nat)
    requires Enabled(s, RoomJoined(frame, now, promptId, roll))
    requires var id := s.frames[frame].matchId; id in s.matches && Ready(s.matches[id]) && s.matches[id].matchId == id
    ensures StartEffect(s, Tick(StartStep(s, frame, now, promptId, roll)), frame,
                        s.matches[s.frames[frame].matchId].(prompt := CreatePrompt(now, "", promptId, roll),
                                                            status := Fighting), now)
  {}

  lemma StartKeepsDuel(s: State, t: State, frame: nat, now: int, roll: nat, m0: Match, m: Match)
    requires StartEffect(s, t, frame, m, now) && m0 == s.matches[m.matchId] && DuelOk(s, m0) && roll < 26
    requires m.prompt == CreatePrompt(now, "", m.prompt.promptId, roll)
    ensures DuelOk(t, m)
  {
    StartDescribes(m0, now, m.prompt.promptId, roll);
  }

  lemma StartKeepsFrames(s: State, t: State, frame: nat, m: Match, now: int)
    requires SettlesOk(s) && StartsOk(s) && TimersOk(s) && StartEffect(s, t, frame, m, now)
    ensures SettlesOk(t) && StartsOk(t)
  {
    hide SettlesOk, StartsOk, TimersOk;
    FramesBelowNext(s);
    ReplaceKeepsSettles(s, t, m);
    StartsFrame(s, t);
  }

  lemma StartKeepsTimers(s: State, t: State, frame: nat, m: Match, now: int)
    requires TimersOk(s) && StartEffect(s, t, frame, m, now)
    ensures TimersOk(t)
  {
    hide TimersOk;
    FramesBelowNext(s);
    ReplaceKeepsTimers(s, t, m);
  }

  lemma StartKeeps(s: State, frame: nat, now: int, promptId: string, roll: nat)
    requires Inv(s) && Enabled(s, RoomJoined(frame, now, promptId, roll))
    ensures Inv(Tick(StartStep(s, frame, now, promptId, roll)))
  {
    var id := s.frames[frame].matchId;
    if id !in s.matches || !Ready(s.matches[id]) {
      IdleKeeps(s, frame);
    } else {
      var m0 := s.matches[id];
      hide MatchesOk, TimersOk, SettlesOk, CallsOk, VerdictsOk, StartsOk, DuelsOk, CadenceOk, DuelOk;
      MatchFacts(s, id);
      var t := Tick(StartStep(s, frame, now, promptId, roll));
      var m := m0.(prompt := CreatePrompt(now, "", promptId, roll), status := Fighting);
      StartHasEffect(s, frame, now, promptId, roll);
      StartKeepsDuel(s, t, frame, now, roll, m0, m);
      StartKeepsFrames(s, t, frame, m, now);
      StartKeepsTimers(s, t, frame, m, now);
      hide StartStep;
      ReplaceKeepsMatches(s, t, m);
      ReplaceKeepsCalls(s, t, m);
      ReplaceKeepsVerdicts(s, t, m);
      ReplaceKeepsDuels(s, t, m);
      ReplaceKeepsCadence(s, t, m);
    }
  }

  // ----- a key is hit -----

  // At most one warning, for a player of `m` who was not warned before.
  ghost predicate Flags(s: State, t: State, m: Match) {
    (t.cadence == s.cadence && t.warned == s.warned) ||
    exists u :: u != "" && Plays(m, u) && (u, m.matchId) !in s.cadence &&
                t.cadence == s.cadence + {(u, m.matchId)} && t.warned == s.warned + [(u, m.matchId)]
  }

  lemma FlagKeepsCadence(s: State, t: State, m: Match)
    requires CadenceOk(s) && Replaces(s, t, m) && Flags(s, t, m) && m.matchId in s.created
    requires forall u :: Plays(s.matches[m.matchId], u) <==> Plays(m, u)
    ensures CadenceOk(t)
  {
    if t.warned != s.warned {
      var u :| u != "" && Plays(m, u) && (u, m.matchId) !in s.cadence &&
               t.cadence == s.cadence + {(u, m.matchId)} && t.warned == s.warned + [(u, m.matchId)];
      assert forall i :: 0 <= i < |t.warned| ==> t.warned[i] == if i < |s.warned| then s.warned[i] else (u, m.matchId);
    }
  }

  // A step inside the fight of `m`, up to what it does to frames, calls and verdicts.
  ghost predicate FightEffect(s: State, t: State, m: Match) {
    && m.matchId in s.matches && s.matches[m.matchId].matchId == m.matchId
    && s.matches[m.matchId].status == Fighting && SameSeats(m, s.matches[m.matchId])
    && t.matches == s.matches[m.matchId := m] && t.order == s.order
    && m.matchId in t.duels && m.matchId in s.duels && t.duels == s.duels[m.matchId := t.duels[m.matchId]]
    && s.minted <= t.minted && t.created == s.created && t.tick == s.tick + 1
    && t.timers == s.timers && t.armed == s.armed && t.closed == s.closed && t.lastJoin == s.lastJoin
    && t.verdicts == s.verdicts && t.emitted == s.emitted && Flags(s, t, m)
  }

  ghost predicate SwingEffect(s: State, t: State, m: Match) {
    FightEffect(s, t, m) && m.status == Fighting &&
    t.frames == s.frames && t.next == s.next && t.calls == s.calls
  }

  ghost predicate OverEffect(s: State, t: State, m: Match, winner: UserId, loser: UserId, ending: Ending) {
    var f := AwaitSettle(m.matchId, winner, loser, ending);
    FightEffect(s, t, m) && m.status == FightOver &&
    t.frames == s.frames[s.next := f] && t.next == s.next + 1 && t.calls == s.calls + [CallOf(m, f)]
  }

  lemma SwingKeepsFrames(s: State, t: State, m: Match)
    requires SettlesOk(s) && StartsOk(s) && TimersOk(s) && SwingEffect(s, t, m)
    ensures SettlesOk(t) && StartsOk(t) && TimersOk(t)
  {
    FramesBelowNext(s);
    hide SettlesOk, StartsOk, TimersOk;
    ReplaceKeepsSettles(s, t, m);
    StartsFrame(s, t);
    ReplaceKeepsTimers(s, t, m);
  }

  lemma SwingKeeps(s: State, t: State, m: Match)
    requires Inv(s) && SwingEffect(s, t, m) && DuelOk(t, m)
    ensures Inv(t)
  {
    assert MatchOk(s.matches[m.matchId]);
    assert Undecided(s, m.matchId);
    assert m.matchId in s.created;
    hide MatchesOk, TimersOk, SettlesOk, CallsOk, VerdictsOk, StartsOk, DuelsOk, CadenceOk, DuelOk;
    SwingKeepsFrames(s, t, m);
    ReplaceKeepsMatches(s, t, m);
    ReplaceKeepsCalls(s, t, m);
    ReplaceKeepsVerdicts(s, t, m);
    ReplaceKeepsDuels(s, t, m);
    FlagKeepsCadence(s, t, m);
  }

  lemma OverKeepsCalls(s: State, t: State, m: Match, winner: UserId, loser: UserId, ending: Ending)
    requires MatchesOk(s) && CallsOk(s) && OverEffect(s, t, m, winner, loser, ending)
    requires CallOk(t, Last(t.calls))
    ensures CallsOk(t)
  {
    assert Undecided(s, m.matchId);
    CallCounts(s.calls, Last(t.calls));
    forall id | id in t.created ensures CallsFor(t.calls, id) == if Undecided(t, id) then 0 else 1 {
      assert id != m.matchId ==> (Undecided(t, id) <==> Undecided(s, id));
    }
    forall c | c in t.calls ensures CallOk(t, c) && !Undecided(t, c.matchId) {
      if c in s.calls { assert CallOk(s, c); }
    }
  }

  lemma OverKeepsSettles(s: State, t: State, m: Match, winner: UserId, loser: UserId, ending: Ending)
    requires SettlesOk(s) && OverEffect(s, t, m, winner, loser, ending) && TwoPlayers(m, winner, loser)
    requires forall f :: f in s.frames ==> f < s.next
    ensures SettlesOk(t)
  {
    var last := t.frames[s.next];
    assert Last(t.calls) in t.calls && Last(t.calls) == CallOf(m, last);
    forall f | f in t.frames ensures FinishOk(t, f) {
      if f != s.next { assert FinishOk(s, f); }
    }
    forall f, g | f in t.frames && g in t.frames && f != g ensures !SameFinish(t.frames[f], t.frames[g]) {
      if f != s.next && g != s.next {
        assert !SameFinish(s.frames[f], s.frames[g]);
      } else {
        assert FinishOk(s, if f == s.next then g else f);
      }
    }
    forall i | i in t.matches && t.matches[i].status == FightOver
      ensures exists f :: f in t.frames && FinishesMatch(t.frames[f], i)
    {
      if i == m.matchId {
        assert FinishesMatch(t.frames[s.next], i);
      } else {
        var f :| f in s.frames && FinishesMatch(s.frames[f], i);
        assert FinishesMatch(t.frames[f], i);
      }
    }
  }

  lemma OverKeepsFrames(s: State, t: State, m: Match, winner: UserId, loser: UserId, ending: Ending)
    requires SettlesOk(s) && StartsOk(s) && TimersOk(s)
    requires OverEffect(s, t, m, winner, loser, ending) && TwoPlayers(m, winner, loser)
    ensures SettlesOk(t) && StartsOk(t) && TimersOk(t)
  {
    FramesBelowNext(s);
    hide SettlesOk, StartsOk, TimersOk;
    OverKeepsSettles(s, t, m, winner, loser, ending);
    StartsFrame(s, t);
    ReplaceKeepsTimers(s, t, m);
  }

  lemma OverKeeps(s: State, t: State, m: Match, winner: UserId, loser: UserId, ending: Ending)
    requires Inv(s) && OverEffect(s, t, m, winner, loser, ending) && TwoPlayers(m, winner, loser)
    requires CallOk(t, Last(t.calls))
    ensures Inv(t)
  {
    assert MatchOk(s.matches[m.matchId]);
    assert m.matchId in s.created;
    assert DuelOk(t, m);
    hide MatchesOk, TimersOk, SettlesOk, CallsOk, VerdictsOk, StartsOk, DuelsOk, CadenceOk, DuelOk, CallOk;
    OverKeepsFrames(s, t, m, winner, loser, ending);
    OverKeepsCalls(s, t, m, winner, loser, ending);
    ReplaceKeepsMatches(s, t, m);
    ReplaceKeepsVerdicts(s, t, m);
    ReplaceKeepsDuels(s, t, m);
    FlagKeepsCadence(s, t, m);
  }

  lemma MissKeepsDuel(s: State, t: State, m: Match, first: bool, now: int)
    requires DuelOk(s, m) && m.status == Fighting && s.minted <= t.minted
    requires now >= Seat(m, first).stunnedUntil && now - Seat(m, first).lastHitAt >= HIT_COOLDOWN_MS
    requires m.matchId in t.duels && t.duels[m.matchId] == Extend(s.duels[m.matchId], Missed(first, now))
    ensures DuelOk(t, MissHit(m, first, now))
  {
    MissDescribes(m, s.duels[m.matchId], first, now);
  }

  lemma MissKeeps(s: State, m: Match, first: bool, now: int)
    requires Inv(s) && m.matchId in s.matches && m == s.matches[m.matchId] && m.status == Fighting
    requires now >= Seat(m, first).stunnedUntil && now - Seat(m, first).lastHitAt >= HIT_COOLDOWN_MS
    ensures Inv(Tick(Log(PutMatch(s, MissHit(m, first, now)), m.matchId, Missed(first, now))))
  {
    assert DuelOk(s, m) && s.matches[m.matchId].matchId == m.matchId;
    hide Inv, DuelOk;
    MissHasEffect(s, m, first, now);
    var t := Tick(Log(PutMatch(s, MissHit(m, first, now)), m.matchId, Missed(first, now)));
    MissKeepsDuel(s, t, m, first, now);
    hide SwingEffect, MissHit;
    SwingKeeps(s, t, MissHit(m, first, now));
  }

  lemma MissHasEffect(s: State, m: Match, first: bool, now: int)
    requires m.matchId in s.matches && m == s.matches[m.matchId] && m.status == Fighting && m.matchId in s.duels
    ensures SwingEffect(s, Tick(Log(PutMatch(s, MissHit(m, first, now)), m.matchId, Missed(first, now))),
                        MissHit(m, first, now))
  {}

  // The match, the log and the call of a landed hit.
  lemma LandKeepsDuel(s: State, t: State, m: Match, first: bool, now: int, next: Prompt)
    requires DuelOk(s, m) && m.status == Fighting && m.player1.id != m.player2.id
    requires now >= Seat(m, first).stunnedUntil && now - Seat(m, first).lastHitAt >= HIT_COOLDOWN_MS
    requires now - m.prompt.sentAt >= MIN_REACTION_MS
    requires next.sentAt == now && IsLetter(next.key) && next.key != m.prompt.key && next.promptId !in s.minted
    requires t.minted == s.minted + {next.promptId} && m.matchId in t.duels
    requires t.duels[m.matchId] == Extend(s.duels[m.matchId], Landed(first, m.prompt, now, Damage(Seat(m, first))))
    ensures var m' := LandHit(m, first, now, next);
            && Describes(m', t.duels[m.matchId])
            && (Seat(m', !first).hp != 0 ==> DuelOk(t, m'))
            && (Seat(m', !first).hp == 0 ==> KnockedOut(t.duels[m.matchId], first))
  {
    var d := s.duels[m.matchId];
    assert PromptsMinted(s, d);
    LandDescribes(m, d, first, now, next);
    if Seat(LandHit(m, first, now, next), !first).hp == 0 {
      KnockoutIsKnockedOut(m, d, first, now, next);
    }
    var w := Landed(first, m.prompt, now, Damage(Seat(m, first)));
    assert forall i :: 0 <= i < |d.swings| + 1 ==> (d.swings + [w])[i] == if i < |d.swings| then d.swings[i] else w;
    hide Describes, Extend, LandHit;
  }

  lemma LandKeepsSeats(m: Match, first: bool, now: int, next: Prompt)
    requires m.status == Fighting
    ensures var m' := LandHit(m, first, now, next); SameSeats(m', m) && m'.status == Fighting
  {}

  lemma LandingHasEffect(s: State, m: Match, m': Match, first: bool, now: int, nextId: string)
    requires m.matchId in s.matches && m == s.matches[m.matchId] && m.status == Fighting && m.matchId in s.duels
    requires SameSeats(m', m) && m'.status == Fighting && MatchOk(m)
    ensures var t := Tick(Landing(s, m, m', first, now, nextId));
            && SwingEffect(s, t, m') && t.minted == s.minted + {nextId} && m.matchId in t.duels
            && t.duels[m.matchId] == Extend(s.duels[m.matchId], Landed(first, m.prompt, now, Damage(Seat(m, first))))
  {
    hide IsSuspiciousCadence;
    FlagsFlag(s, m, Seat(m, first).id, Seat(m', first), Tick(Landing(s, m, m', first, now, nextId)), m');
  }

  // Ending the fight on top of a swing is one step of the fight.
  lemma SettlingHasEffect(s: State, t: State, m: Match, winner: UserId, loser: UserId, ending: Ending)
    requires SwingEffect(s, Tick(t), m)
    ensures OverEffect(s, Tick(BeginSettle(t, m, winner, loser, ending)), m.(status := FightOver), winner, loser,
                       ending)
    ensures BeginSettle(t, m, winner, loser, ending).minted == t.minted
    ensures BeginSettle(t, m, winner, loser, ending).duels == t.duels
  {
    var over := m.(status := FightOver);
    assert t.matches[m.matchId := over] == s.matches[m.matchId := over];
    if t.warned != s.warned {
      var u :| u != "" && Plays(m, u) && (u, m.matchId) !in s.cadence &&
               t.cadence == s.cadence + {(u, m.matchId)} && t.warned == s.warned + [(u, m.matchId)];
      assert Plays(over, u);
    }
  }

  lemma LandHasEffect(s: State, m: Match, first: bool, now: int, nextId: string, roll: nat)
    requires m.matchId in s.matches && m == s.matches[m.matchId] && m.status == Fighting && m.matchId in s.duels
    requires MatchOk(m) && nextId !in s.minted && roll < 25
    ensures var m' := LandHit(m, first, now, CreatePrompt(now, m.prompt.key, nextId, roll));
            var t := Tick(LandStep(s, m, first, now, nextId, roll).0);
            && t.minted == s.minted + {nextId} && m.matchId in t.duels
            && t.duels[m.matchId] == Extend(s.duels[m.matchId], Landed(first, m.prompt, now, Damage(Seat(m, first))))
            && (Seat(m', !first).hp != 0 ==> SwingEffect(s, t, m'))
            && (Seat(m', !first).hp == 0 ==>
                  OverEffect(s, t, m'.(status := FightOver), Seat(m, first).id, Seat(m, !first).id, Ko))
  {
    var next := CreatePrompt(now, m.prompt.key, nextId, roll);
    var m' := LandHit(m, first, now, next);
    LandKeepsSeats(m, first, now, next);
    hide LandHit, CreatePrompt, Landing, SwingEffect, OverEffect;
    LandingHasEffect(s, m, m', first, now, nextId);
    if Seat(m', !first).hp == 0 {
      SettlingHasEffect(s, Landing(s, m, m', first, now, nextId), m', Seat(m, first).id, Seat(m, !first).id, Ko);
      hide BeginSettle;
    }
  }

  lemma FlagsFlag(s: State, m: Match, u: UserId, p: Player, t: State, m': Match)
    requires u != "" && Plays(m', u) && m'.matchId == m.matchId
    requires t.cadence == FlagCadence(s, m, u, p).cadence && t.warned == FlagCadence(s, m, u, p).warned
    ensures Flags(s, t, m')
  {}

  lemma LandKeeps(s: State, m: Match, first: bool, now: int, nextId: string, roll: nat)
    requires Inv(s) && m.matchId in s.matches && m == s.matches[m.matchId] && m.status == Fighting
    requires nextId !in s.minted && roll < 25 && m.matchId in s.duels
    requires now >= Seat(m, first).stunnedUntil && now - Seat(m, first).lastHitAt >= HIT_COOLDOWN_MS
    requires now - m.prompt.sentAt >= MIN_REACTION_MS
    ensures Inv(Tick(LandStep(s, m, first, now, nextId, roll).0))
  {
    assert MatchOk(m) && DuelOk(s, m) && m.matchId in s.created;
    hide Inv, DuelOk, LandStep;
    var next := CreatePrompt(now, m.prompt.key, nextId, roll);
    var m' := LandHit(m, first, now, next);
    var t := Tick(LandStep(s, m, first, now, nextId, roll).0);
    LandHasEffect(s, m, first, now, nextId, roll);
    LandKeepsDuel(s, t, m, first, now, next);
    if Seat(m', !first).hp != 0 {
      hide LandHit;
      SwingKeeps(s, t, m');
    } else {
      var over := m'.(status := FightOver);
      assert TwoPlayers(over, Seat(m, first).id, Seat(m, !first).id);
      assert over.player1.id == m.player1.id && over.player2.id == m.player2.id;
      assert MatchOk(over);
      hide LandHit, Describes, KnockedOut;
      KnockoutCallOk(s, t, over, first);
      OverKeeps(s, t, over, Seat(m, first).id, Seat(m, !first).id, Ko);
    }
  }

  lemma KnockoutCallOk(s: State, t: State, m: Match, first: bool)
    requires OverEffect(s, t, m, Seat(m, first).id, Seat(m, !first).id, Ko)
    requires MatchOk(m) && m.matchId in s.created && KnockedOut(t.duels[m.matchId], first)
    ensures CallOk(t, Last(t.calls))
  {
    assert Last(t.calls) == CallOf(m, AwaitSettle(m.matchId, Seat(m, first).id, Seat(m, !first).id, Ko));
  }

  lemma HitKeeps(s: State, userId: UserId, socketId: SocketId, dto: HitDto, now: int, nextId: string, roll: nat)
    requires Inv(s) && Enabled(s, HitKey(userId, socketId, dto, now, nextId, roll))
    ensures Inv(Tick(HitStep(s, userId, socketId, dto, now, nextId, roll).0))
  {
    assert Shape(s);
    if Screen(s, userId, socketId, dto, now).None? {
      var m := s.matches[dto.matchId];
      var first := m.player1.id == userId;
      assert m.matchId == dto.matchId && m.matchId in s.duels;
      hide Inv, Log, PutMatch, MissHit, LandStep;
      if TooFastOrWrong(m, dto, now) {
        MissKeeps(s, m, first, now);
      } else {
        LandKeeps(s, m, first, now, nextId, roll);
      }
    } else {
      TickKeeps(s);
    }
  }

  lemma TickKeeps(s: State)
    requires Inv(s)
    ensures Inv(Tick(s))
  {
    var t := Tick(s);
    FramesBelowNext(s);
    hide MatchesOk, TimersOk, SettlesOk, CallsOk, VerdictsOk, StartsOk, DuelsOk, CadenceOk;
    ResumeKeepsTimers(s, t);
    MatchesFrame(s, t);
    CallsFrame(s, t);
    VerdictsFrame(s, t);
    DuelsFrame(s, t);
    CadenceFrame(s, t);
    SettlesFrame(s, t);
    StartsFrame(s, t);
  }

  // ----- a socket closes -----

  lemma CloseKeeps(s: State, socketId: SocketId)
    requires Inv(s)
    ensures Inv(s.(closed := s.closed + {socketId}))
  {
    var t := s.(closed := s.closed + {socketId});
    CloseKeepsTimers(s, t);
    hide MatchesOk, TimersOk, SettlesOk, CallsOk, VerdictsOk, StartsOk, DuelsOk, CadenceOk;
    MatchesFrame(s, t);
    CallsFrame(s, t);
    VerdictsFrame(s, t);
    DuelsFrame(s, t);
    CadenceFrame(s, t);
    SettlesFrame(s, t);
    StartsFrame(s, t);
  }

  lemma CloseKeepsTimers(s: State, t: State)
    requires TimersOk(s) && t == s.(closed := t.closed) && s.closed <= t.closed
    ensures TimersOk(t)
  {
    forall k | k in t.timers ensures EntryOk(t, k) { assert EntryOk(s, k); }
    forall h | h in t.armed ensures ArmedOk(t, h) { assert ArmedOk(s, h); }
  }

  ghost predicate LeaveEffect(s: State, t: State, m: Match, userId: UserId, socketId: SocketId) {
    var key := (userId, m.matchId);
    && m.matchId in s.matches && s.matches[m.matchId].matchId == m.matchId && s.matches[m.matchId].status == Lobby
    && Plays(s.matches[m.matchId], userId) && SeatOf(s.matches[m.matchId], userId).socketId == socketId
    && m == WithSeat(s.matches[m.matchId], s.matches[m.matchId].player1.id == userId,
                     SeatOf(s.matches[m.matchId], userId).(joinedMatch := false))
    && t.matches == s.matches[m.matchId := m] && t.order == s.order
    && t.armed == (if key in s.timers then s.armed - {s.timers[key].handle} else s.armed)
                  [s.next := Grace(userId, m.matchId, socketId, s.tick)]
    && t.timers == s.timers[key := Timer(s.next, socketId)]
    && t.next == s.next + 1 && t.tick == s.tick && t.closed == s.closed && t.lastJoin == s.lastJoin
    && t.frames == s.frames && t.created == s.created && t.minted == s.minted && t.duels == s.duels
    && t.calls == s.calls && t.verdicts == s.verdicts && t.cadence == s.cadence && t.warned == s.warned
  }

  lemma LeaveHasEffect(s: State, m0: Match, userId: UserId, socketId: SocketId)
    requires m0.matchId in s.matches && m0 == s.matches[m0.matchId] && m0.status == Lobby
    requires Plays(m0, userId) && SeatOf(m0, userId).socketId == socketId
    ensures LeaveEffect(s, Leave(s, m0, userId, socketId),
                        WithSeat(m0, m0.player1.id == userId, SeatOf(m0, userId).(joinedMatch := false)),
                        userId, socketId)
  {
    var key := (userId, m0.matchId);
    var t := Leave(s, m0, userId, socketId);
    assert (s.timers - {key})[key := Timer(s.next, socketId)] == s.timers[key := Timer(s.next, socketId)];
  }

  lemma LeaveKeepsGrace(s: State, t: State, m: Match, userId: UserId, socketId: SocketId, g: Grace)
    requires LeaveEffect(s, t, m, userId, socketId) && GraceOk(s, g) && MatchOk(s.matches[m.matchId])
    ensures GraceOk(t, g) && (SeatedAt(t, g) <==> SeatedAt(s, g))
  {}

  lemma LeaveKeepsTimers(s: State, t: State, m: Match, userId: UserId, socketId: SocketId)
    requires TimersOk(s) && LeaveEffect(s, t, m, userId, socketId) && MatchOk(s.matches[m.matchId])
    requires userId != "" && socketId in s.closed && m.matchId in s.created
    ensures TimersOk(t)
  {
    var key := (userId, m.matchId);
    if key in s.timers { assert EntryOk(s, key); }
    assert GraceOk(t, t.armed[s.next]);
    forall k | k in t.timers ensures EntryOk(t, k) {
      if k != key { assert EntryOk(s, k); }
    }
    forall h | h in t.armed ensures ArmedOk(t, h) {
      if h != s.next {
        assert ArmedOk(s, h);
        LeaveKeepsGrace(s, t, m, userId, socketId, s.armed[h]);
      }
    }
    forall f | f in t.frames && t.frames[f].AwaitSockets? ensures GraceOk(t, t.frames[f].grace) {
      LeaveKeepsGrace(s, t, m, userId, socketId, s.frames[f].grace);
    }
  }

  lemma LeaveKeepsFrames(s: State, t: State, m: Match, userId: UserId, socketId: SocketId)
    requires SettlesOk(s) && StartsOk(s) && LeaveEffect(s, t, m, userId, socketId)
    ensures SettlesOk(t) && StartsOk(t)
  {
    hide SettlesOk, StartsOk;
    ReplaceKeepsSettles(s, t, m);
    StartsFrame(s, t);
  }

  lemma LeaveKeeps(s: State, m0: Match, userId: UserId, socketId: SocketId)
    requires Inv(s) && m0.matchId in s.matches && m0 == s.matches[m0.matchId] && m0.status == Lobby
    requires Plays(m0, userId) && SeatOf(m0, userId).socketId == socketId && userId != "" && socketId in s.closed
    ensures Inv(Leave(s, m0, userId, socketId))
  {
    var t := Leave(s, m0, userId, socketId);
    var m := WithSeat(m0, m0.player1.id == userId, SeatOf(m0, userId).(joinedMatch := false));
    assert MatchOk(m0) && DuelOk(s, m0) && m0.matchId in s.created;
    LeaveHasEffect(s, m0, userId, socketId);
    hide MatchesOk, TimersOk, SettlesOk, CallsOk, VerdictsOk, StartsOk, DuelsOk, CadenceOk, Leave;
    assert MatchOk(m) && DuelOk(s, m);
    LeaveKeepsTimers(s, t, m, userId, socketId);
    LeaveKeepsFrames(s, t, m, userId, socketId);
    hide DuelOk, MatchOk;
    JoinKeepsRest(s, t, m);
  }

  lemma RageQuitHasEffect(s: State, m: Match, winner: UserId, loser: UserId)
    requires m.matchId in s.matches && m == s.matches[m.matchId] && m.status == Fighting && m.matchId in s.duels
    ensures OverEffect(s, Tick(BeginSettle(s, m, winner, loser, RageQuit)), m.(status := FightOver), winner, loser,
                       RageQuit)
    ensures BeginSettle(s, m, winner, loser, RageQuit).duels == s.duels
  {
    assert s.matches[m.matchId := m] == s.matches && s.duels[m.matchId := s.duels[m.matchId]] == s.duels;
    SettlingHasEffect(s, s, m, winner, loser, RageQuit);
  }

  lemma RageQuitKeeps(s: State, m: Match, userId: UserId)
    requires Inv(s) && m.matchId in s.matches && m == s.matches[m.matchId] && m.status == Fighting && Plays(m, userId)
    ensures Inv(Tick(RageQuitStep(s, m, userId)))
  {
    assert MatchOk(m) && DuelOk(s, m) && m.matchId in s.created && m.matchId in s.duels;
    hide Inv, BeginSettle, OverEffect, DuelOk, CallOk;
    var over := m.(status := FightOver);
    var winner := if m.player1.id == userId then m.player2.id else m.player1.id;
    var t := Tick(BeginSettle(s, m, winner, userId, RageQuit));
    RageQuitHasEffect(s, m, winner, userId);
    RageQuitCallOk(s, t, m, winner, userId);
    OverKeeps(s, t, over, winner, userId, RageQuit);
  }

  lemma RageQuitCallOk(s: State, t: State, m: Match, winner: UserId, loser: UserId)
    requires OverEffect(s, t, m.(status := FightOver), winner, loser, RageQuit) && m.status == Fighting
    requires MatchOk(m) && m.matchId in s.created && DuelOk(s, m) && TwoPlayers(m, winner, loser)
    requires t.duels == s.duels
    ensures CallOk(t, Last(t.calls))
  {}

  lemma LeaveKeepsKeys(s: State, m: Match, userId: UserId, socketId: SocketId)
    requires m.matchId in s.matches && m == s.matches[m.matchId]
    ensures Plays(m, userId) ==> Leave(s, m, userId, socketId).matches.Keys == s.matches.Keys
    ensures (forall id :: id in s.matches ==> s.matches[id].matchId == id) && Plays(m, userId) ==>
              forall id :: id in s.matches ==> Leave(s, m, userId, socketId).matches[id].matchId == id
  {}

  lemma {:induction false} SweepKeeps(s: State, ids: seq<MatchId>, userId: UserId, socketId: SocketId)
    requires Inv(s) && userId != "" && socketId in s.closed
    requires forall id :: id in ids ==> id in s.matches
    ensures Inv(Tick(Sweep(s, ids, userId, socketId)))
    decreases ids
  {
    if ids == [] {
      TickKeeps(s);
    } else {
      var m := s.matches[ids[0]];
      assert m.matchId == ids[0] && Shape(s);
      var rest := ids[1..];
      LeaveKeepsKeys(s, m, userId, socketId);
      hide Inv, Leave, RageQuitStep;
      assert forall id :: id in rest ==> id in ids;
      if Plays(m, userId) && SeatOf(m, userId).socketId == socketId && m.status == Lobby {
        LeaveKeeps(s, m, userId, socketId);
        SweepKeeps(Leave(s, m, userId, socketId), rest, userId, socketId);
      } else if Plays(m, userId) && SeatOf(m, userId).socketId == socketId && m.status == Fighting {
        RageQuitKeeps(s, m, userId);
      } else {
        SweepKeeps(s, rest, userId, socketId);
      }
    }
  }

  lemma DisconnectKeeps(s: State, userId: UserId, socketId: SocketId)
    requires Inv(s) && userId != ""
    ensures Inv(Tick(DisconnectStep(s, userId, socketId)))
  {
    CloseKeeps(s, socketId);
    SweepKeeps(s.(closed := s.closed + {socketId}), s.order, userId, socketId);
  }

  // ----- every step, every run -----

  lemma SettleReturnsKeeps(s: State, frame: nat, ok: bool)
    requires Inv(s) && frame in s.frames && s.frames[frame].AwaitSettle?
    ensures Inv(Tick(SettleReturnStep(s, frame, ok)))
  {
    hide Inv, DropMatch, Suspend, Announce, Resume, Tick;
    if ok { SettledKeeps(s, frame); } else { FinishKeeps(s, frame, SettleFailed(s.frames[frame].matchId)); }
  }

  lemma AwardsReturnKeeps(s: State, frame: nat)
    requires Inv(s) && frame in s.frames && s.frames[frame].AwaitAwards?
    ensures Inv(Tick(AwardsReturnStep(s, frame)))
  {
    hide Inv, DropMatch, Announce, Resume, Tick;
    FinishKeeps(s, frame, GameOver(s.frames[frame].matchId, s.frames[frame].winnerId, s.frames[frame].loserId));
  }

  lemma StepKeeps(s: State, e: Event)
    requires Inv(s) && Enabled(s, e)
    ensures Inv(Step(s, e))
  {
    assert Shape(s);
    hide Inv, Shape, CreateStep, JoinStep, StartStep, HitStep, DisconnectStep, FireStep, FetchStep,
      SettleReturnStep, AwardsReturnStep, JoinSucceeds, Tick;
    match e
    case Create(user, socketId, dto, newId) => CreateKeeps(s, user, socketId, dto, newId);
    case Join(user, socketId, matchId) =>
      if JoinSucceeds(s, user, matchId) { JoinKeeps(s, user, socketId, matchId); } else { TickKeeps(s); }
    case RoomJoined(frame, now, newId, roll) => StartKeeps(s, frame, now, newId, roll);
    case HitKey(userId, socketId, hit, now, newId, roll) => HitKeeps(s, userId, socketId, hit, now, newId, roll);
    case Disconnect(userId, socketId) => DisconnectKeeps(s, userId, socketId);
    case TimerFires(handle) => FireKeeps(s, handle);
    case SocketsFetched(frame, sockets) => FetchKeeps(s, frame, sockets);
    case SettleReturns(frame, ok) => SettleReturnsKeeps(s, frame, ok);
    case AwardsReturn(frame) => AwardsReturnKeeps(s, frame);
  }
}
