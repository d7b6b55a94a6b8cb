// The rules of a duel are no stricter than the service: every duel that keeps them is the log of some run.
module FightClubPlays {
  import opened Wrappers
  import opened FightPrompt
  import opened FightClub
  import opened FightClubDuel
  import opened FightClubInvariant
  import opened FightClubSteps
  import opened FightClubRuns
  import opened FightClubWarnings

  lemma {:induction false} ReachesSnoc(s: State, es: seq<Event>, t: State, e: Event)
    requires Reaches(s, es, t) && Shape(t) && Enabled(t, e)
    ensures Reaches(s, es + [e], Step(t, e))
    decreases |es|
  {
    hide Shape, Enabled, Step;
    if es == [] {
      assert [e][1..] == [];
    } else {
      assert (es + [e])[1..] == es[1..] + [e];
      ReachesSnoc(Step(s, es[0]), es[1..], t, e);
    }
  }

  // ----- names and keys -----

  ghost predicate AllShorter(names: set<string>, n: nat) { forall x :: x in names ==> |x| < n }

  lemma {:induction false} SomeBound(names: set<string>)
    ensures exists n: nat :: AllShorter(names, n)
    decreases |names|
  {
    if names == {} {
      assert AllShorter(names, 0);
    } else {
      var y :| y in names;
      SomeBound(names - {y});
      var n: nat :| AllShorter(names - {y}, n);
      assert forall x :: x in names ==> x == y || x in names - {y};
      assert AllShorter(names, n + |y| + 1);
    }
  }

  // There is always another uuid.
  lemma FreshName(names: set<string>)
    ensures exists x :: x !in names
  {
    SomeBound(names);
    var n: nat :| AllShorter(names, n);
    assert Name(n) !in names;
  }

  // Any key may follow any other one but itself.
  lemma SomeRoll(previous: Key, key: Key)
    requires IsLetter(key) && key != previous
    ensures exists roll :: 0 <= roll < |Choices(previous)| && Choices(previous)[roll] == key[0]
  {
    assert [key[0]] == key;
    KeysAreLetters(key[0]);
    assert key[0] in Choices(previous);
  }

  lemma KeysAreCapitals(key: Key)
    requires IsLetter(key)
    ensures |key| == 1 && 'A' <= key[0] <= 'Z' && [ToUpper(key[0])] == key && [ToUpper('0')] != key
  {
    CapitalsStay(key[0]);
    assert [key[0]] == key;
  }

  lemma CapitalsStay(c: char)
    requires 'A' <= c <= 'Z'
    ensures ToUpper(c) == c && ToUpper('0') != c
  {}

  // ----- duels that can be played -----

  function PromptIds(log: seq<Swing>): set<string> {
    set i | 0 <= i < |log| && log[i].Landed? :: log[i].prompt.promptId
  }

  predicate HasKey(w: Swing) { w.Landed? ==> IsLetter(w.prompt.key) }

  // The rules, and prompts as the generator makes them.
  predicate Playable(d: Duel) { Fair(d) && forall i :: 0 <= i < |d.swings| ==> HasKey(d.swings[i]) }

  predicate Standing(log: seq<Swing>) { Dealt(log, true) <= 29 && Dealt(log, false) <= 29 }

  const A := User("a", "a")
  const B := User("b", "b")

  predicate Sits(p: Player, u: User, socketId: SocketId) { p.id == u.userId && p.socketId == socketId }

  // The fight `id` is on, its log is `d`, and its prompt has this id and key.
  ghost predicate At(s: State, id: MatchId, d: Duel, promptId: string, key: Key) {
    && id in s.matches && s.matches[id].matchId == id && s.matches[id].status == Fighting
    && Sits(s.matches[id].player1, A, "s") && Sits(s.matches[id].player2, B, "t")
    && s.matches[id].stakeType == "aura" && s.matches[id].stakeAmount == 1
    && id in s.duels && s.duels[id] == d
    && s.matches[id].prompt == Prompt(promptId, key, PromptSent(d))
    && s.minted == {id, promptId} + PromptIds(d.swings)
  }

  ghost predicate Played(id: MatchId, d: Duel, promptId: string, key: Key) {
    exists es, s :: Reaches(EMPTY, es, s) && At(s, id, d, promptId, key)
  }

  function UserOf(by1: bool): UserId { if by1 then "a" else "b" }

  function SocketOf(by1: bool): SocketId { if by1 then "s" else "t" }

  // What the service sees of a swing that the rules allow.
  lemma LegalPasses(s: State, id: MatchId, d: Duel, promptId: string, key: Key, by1: bool, at: int, k: char)
    requires Inv(s) && At(s, id, d, promptId, key)
    requires at >= StunEnd(d.swings, by1) && at - LastHit(d.swings, by1) >= 150
    ensures Screen(s, UserOf(by1), SocketOf(by1), HitDto(id, promptId, k), at).None?
    ensures (s.matches[id].player1.id == UserOf(by1)) == by1
  {
    hide StunEnd, LastHit, MatchesOk, TimersOk, SettlesOk, CallsOk, VerdictsOk, StartsOk, CadenceOk, Fair, PromptIds,
         PromptSent;
    assert DuelOk(s, s.matches[id]);
  }

  // ----- one more swing -----

  lemma ShapeOfRun(es: seq<Event>, s: State)
    requires Reaches(EMPTY, es, s)
    ensures Inv(s) && Shape(s)
  {
    hide Reaches;
    RunKeeps(es, s);
    hide TimersOk, SettlesOk, CallsOk, VerdictsOk, StartsOk, DuelsOk, CadenceOk;
  }

  lemma MissPlays(es: seq<Event>, s: State, id: MatchId, d: Duel, promptId: string, key: Key, by1: bool, at: int)
    requires Reaches(EMPTY, es, s) && At(s, id, d, promptId, key) && IsLetter(key)
    requires at >= StunEnd(d.swings, by1) && at - LastHit(d.swings, by1) >= 150
    ensures Played(id, Extend(d, Missed(by1, at)), promptId, key)
  {
    hide Inv, Reaches, Screen, Shape, At, StunEnd, LastHit, IsLetter;
    ShapeOfRun(es, s);
    LegalPasses(s, id, d, promptId, key, by1, at, '0');
    KeysAreCapitals(key);
    FreshName(s.minted);
    var nextId :| nextId !in s.minted;
    var e := HitKey(UserOf(by1), SocketOf(by1), HitDto(id, promptId, '0'), at, nextId, 0);
    hide Step;
    ReachesSnoc(EMPTY, es, s, e);
    MissedAt(s, id, d, promptId, key, by1, at, nextId);
  }

  lemma MissedAt(s: State, id: MatchId, d: Duel, promptId: string, key: Key, by1: bool, at: int, nextId: string)
    requires Shape(s) && At(s, id, d, promptId, key) && nextId !in s.minted && [ToUpper('0')] != key
    requires Screen(s, UserOf(by1), SocketOf(by1), HitDto(id, promptId, '0'), at).None?
    requires (s.matches[id].player1.id == UserOf(by1)) == by1
    ensures At(Step(s, HitKey(UserOf(by1), SocketOf(by1), HitDto(id, promptId, '0'), at, nextId, 0)), id,
               Extend(d, Missed(by1, at)), promptId, key)
  {
    AfterMiss(d, by1, at);
    MissIds(d.swings, by1, at);
    hide Screen, PromptSent, PromptIds, Shape, UserOf, SocketOf, ToUpper;
  }

  lemma MissIds(log: seq<Swing>, by1: bool, at: int)
    ensures PromptIds(log + [Missed(by1, at)]) == PromptIds(log)
  {
    var longer := log + [Missed(by1, at)];
    assert forall i :: 0 <= i < |longer| ==> longer[i] == if i < |log| then log[i] else Missed(by1, at);
    assert forall i :: 0 <= i < |log| ==> log[i] == longer[i];
  }

  lemma HitIds(log: seq<Swing>, w: Swing)
    requires w.Landed?
    ensures PromptIds(log + [w]) == PromptIds(log) + {w.prompt.promptId}
  {
    var longer := log + [w];
    assert forall i :: 0 <= i < |log| ==> log[i] == longer[i];
    assert longer[|log|] == w;
    forall x | x in PromptIds(longer) ensures x in PromptIds(log) + {w.prompt.promptId} {
      var i :| 0 <= i < |longer| && longer[i].Landed? && longer[i].prompt.promptId == x;
      if i < |log| { assert log[i].prompt.promptId == x; }
    }
    forall x | x in PromptIds(log) ensures x in PromptIds(longer) {
      var i :| 0 <= i < |log| && log[i].Landed? && log[i].prompt.promptId == x;
      assert longer[i].prompt.promptId == x;
    }
  }

  // A swing that is screened, in time and right is a landed hit.
  lemma HitIsLand(s: State, m: Match, by1: bool, socketId: SocketId, at: int, k: char, promptId: string, roll: nat)
    requires Shape(s) && m.matchId in s.matches && s.matches[m.matchId] == m && m.status == Fighting
    requires promptId !in s.minted && roll < 25
    requires Screen(s, UserOf(by1), socketId, HitDto(m.matchId, m.prompt.promptId, k), at).None?
    requires (m.player1.id == UserOf(by1)) == by1 && at - m.prompt.sentAt >= 120 && [ToUpper(k)] == m.prompt.key
    ensures var e := HitKey(UserOf(by1), socketId, HitDto(m.matchId, m.prompt.promptId, k), at, promptId, roll);
            Enabled(s, e) && m.matchId in s.duels && Step(s, e) == Tick(LandStep(s, m, by1, at, promptId, roll).0)
  {
    hide Screen, LandStep, ToUpper;
  }

  lemma LandRuns(es: seq<Event>, s: State, id: MatchId, d: Duel, w: Swing, promptId: string, roll: nat)
    requires Reaches(EMPTY, es, s) && w.Landed? && At(s, id, d, w.prompt.promptId, w.prompt.key)
    requires IsLetter(w.prompt.key) && promptId !in s.minted && roll < 25
    requires w.at >= StunEnd(d.swings, w.by1) && w.at - LastHit(d.swings, w.by1) >= 150 && w.at - PromptSent(d) >= 120
    ensures id in s.duels && Describes(s.matches[id], d) && (s.matches[id].player1.id == UserOf(w.by1)) == w.by1
    ensures exists fs :: Reaches(EMPTY, fs, Tick(LandStep(s, s.matches[id], w.by1, w.at, promptId, roll).0))
  {
    hide Inv, Reaches, Screen, Shape, StunEnd, LastHit, PromptSent, IsLetter, PromptIds, Step, Enabled, LandStep,
         Describes;
    ShapeOfRun(es, s);
    KeysAreCapitals(w.prompt.key);
    var k := w.prompt.key[0];
    LegalPasses(s, id, d, w.prompt.promptId, w.prompt.key, w.by1, w.at, k);
    var m := s.matches[id];
    HitIsLand(s, m, w.by1, SocketOf(w.by1), w.at, k, promptId, roll);
    ReachesSnoc(EMPTY, es, s, HitKey(UserOf(w.by1), SocketOf(w.by1), HitDto(id, w.prompt.promptId, k), w.at, promptId,
                                     roll));
    DescribedAt(s, id);
  }

  // A landed hit with the prompt that is up, and the prompt that follows it.
  lemma LandPlays(es: seq<Event>, s: State, id: MatchId, d: Duel, w: Swing, promptId: string, key: Key)
    requires Reaches(EMPTY, es, s) && w.Landed? && At(s, id, d, w.prompt.promptId, w.prompt.key)
    requires w.prompt.sentAt == PromptSent(d)
    requires IsLetter(w.prompt.key) && IsLetter(key) && key != w.prompt.key && promptId !in s.minted
    requires w.at >= StunEnd(d.swings, w.by1) && w.at - LastHit(d.swings, w.by1) >= 150 && w.at - w.prompt.sentAt >= 120
    requires w.damage == if Streak(d.swings, w.by1) == 2 then 5 else 1
    ensures Standing(Extend(d, w).swings) ==> Played(id, Extend(d, w), promptId, key)
    ensures Dealt(Extend(d, w).swings, w.by1) >= 30 ==> KnockoutPlayed(id, Extend(d, w), w.by1)
  {
    hide Reaches, StunEnd, LastHit, PromptSent, IsLetter, Streak, Standing, Dealt, Choices, LandStep, Describes,
         SettledAs;
    KeysAreCapitals(key);
    SomeRoll(w.prompt.key, key);
    var roll: nat :| roll < |Choices(w.prompt.key)| && Choices(w.prompt.key)[roll] == key[0];
    FewChoices(w.prompt.key);
    LandRuns(es, s, id, d, w, promptId, roll);
    LandedAt(s, id, d, w, promptId, key, roll);
    var t := LandStep(s, s.matches[id], w.by1, w.at, promptId, roll).0;
    hide At, Extend;
    TickStays(t, id, Extend(d, w), promptId, key, w.by1);
    var fs :| Reaches(EMPTY, fs, Tick(t));
  }

  lemma DescribedAt(s: State, id: MatchId)
    requires Inv(s) && id in s.matches && s.matches[id].status == Fighting && s.matches[id].matchId == id
    ensures id in s.duels && Describes(s.matches[id], s.duels[id])
  {
    hide MatchesOk, TimersOk, SettlesOk, CallsOk, VerdictsOk, StartsOk, CadenceOk, Describes;
    assert DuelOk(s, s.matches[id]);
  }

  lemma TickStays(s: State, id: MatchId, d: Duel, promptId: string, key: Key, by1: bool)
    ensures At(Tick(s), id, d, promptId, key) <==> At(s, id, d, promptId, key)
    ensures SettledAs(Tick(s), id, d, by1) <==> SettledAs(s, id, d, by1)
  {
    hide PromptSent, PromptIds;
  }

  lemma FewChoices(key: Key)
    requires IsLetter(key)
    ensures |Choices(key)| == 25
  {
    KeysAreLetters(key[0]);
  }

  // The knockout of `d` has been given to the repository.
  ghost predicate KnockoutPlayed(id: MatchId, d: Duel, by1: bool) {
    exists es, s :: Reaches(EMPTY, es, s) && SettledAs(s, id, d, by1)
  }

  ghost predicate SettledAs(s: State, id: MatchId, d: Duel, by1: bool) {
    id in s.duels && s.duels[id] == d &&
    Settle(id, UserOf(by1), UserOf(!by1), "aura", 1, "a", "b", Ko) in s.calls
  }

  // What a landed hit leaves as it is.
  lemma LandHitKeeps(m: Match, first: bool, now: int, next: Prompt)
    ensures var m' := LandHit(m, first, now, next);
            && m'.matchId == m.matchId && m'.status == m.status && m'.prompt == next
            && m'.stakeType == m.stakeType && m'.stakeAmount == m.stakeAmount
            && m'.player1.id == m.player1.id && m'.player1.socketId == m.player1.socketId
            && m'.player2.id == m.player2.id && m'.player2.socketId == m.player2.socketId
  {}

  // The damage and the remaining hp, by the log.
  lemma DamageByLog(m: Match, d: Duel, w: Swing, next: Prompt)
    requires Describes(m, d) && w.Landed? && w.damage == if Streak(d.swings, w.by1) == 2 then 5 else 1
    ensures Damage(Seat(m, w.by1)) == w.damage
    ensures Seat(LandHit(m, w.by1, w.at, next), !w.by1).hp == Max(0, 30 - Dealt(Extend(d, w).swings, w.by1))
  {
    assert DropLast(d.swings + [w]) == d.swings;
    hide Fair, Times, StunEnd, PromptSent, LastKey, UsedPrompt, Streak, Push;
  }

  // The state after a landed hit, given the match after it.
  lemma LandedState(s: State, m: Match, m': Match, w: Swing, promptId: string, roll: nat)
    requires m.matchId in s.duels && roll < 25 && w == Landed(w.by1, m.prompt, w.at, Damage(Seat(m, w.by1)))
    requires m' == LandHit(m, w.by1, w.at, CreatePrompt(w.at, m.prompt.key, promptId, roll)) && m'.matchId == m.matchId
    ensures var t := LandStep(s, m, w.by1, w.at, promptId, roll).0;
            && t.duels == s.duels[m.matchId := Extend(s.duels[m.matchId], w)] && t.minted == s.minted + {promptId}
            && (Seat(m', !w.by1).hp != 0 ==> t.matches == s.matches[m.matchId := m'])
            && (Seat(m', !w.by1).hp == 0 ==>
                  Settle(m.matchId, Seat(m, w.by1).id, Seat(m, !w.by1).id, m'.stakeType, m'.stakeAmount,
                         m'.player1.id, m'.player2.id, Ko)
                  in t.calls)
  {
    hide CreatePrompt, Damage, LandHit, Landing, BeginSettle;
    LandingFields(s, m, m', w.by1, w.at, promptId);
    LandingMints(s, m, m', w.by1, w.at, promptId);
    var t := Landing(s, m, m', w.by1, w.at, promptId);
    BeginSettleFields(t, m', Seat(m, w.by1).id, Seat(m, !w.by1).id, Ko);
    BeginSettleMints(t, m', Seat(m, w.by1).id, Seat(m, !w.by1).id);
  }

  lemma LandingMints(s: State, m: Match, m': Match, first: bool, now: int, nextId: string)
    requires m.matchId in s.duels
    ensures Landing(s, m, m', first, now, nextId).minted == s.minted + {nextId}
  {
    hide IsSuspiciousCadence;
  }

  lemma BeginSettleMints(s: State, m: Match, winner: UserId, loser: UserId)
    ensures BeginSettle(s, m, winner, loser, Ko).minted == s.minted
  {}

  lemma PromptIs(now: int, previous: Key, promptId: string, roll: nat, key: Key)
    requires roll < |Choices(previous)| && |key| == 1 && Choices(previous)[roll] == key[0]
    ensures CreatePrompt(now, previous, promptId, roll) == Prompt(promptId, key, now)
  {
    hide Choices;
    assert [key[0]] == key;
  }

  lemma LandedFollows(s: State, m: Match, x: Match, d: Duel, w: Swing, promptId: string, roll: nat)
    requires m.matchId in s.duels && s.duels[m.matchId] == d && Describes(m, d) && w.Landed? && w.prompt == m.prompt
    requires roll < 25 && x == LandHit(m, w.by1, w.at, CreatePrompt(w.at, m.prompt.key, promptId, roll))
    requires w.damage == if Streak(d.swings, w.by1) == 2 then 5 else 1
    ensures var t := LandStep(s, m, w.by1, w.at, promptId, roll).0;
            && t.duels == s.duels[m.matchId := Extend(d, w)] && t.minted == s.minted + {promptId}
            && (Dealt(Extend(d, w).swings, w.by1) <= 29 ==> t.matches == s.matches[m.matchId := x])
            && (Dealt(Extend(d, w).swings, w.by1) >= 30 ==>
                  Settle(m.matchId, Seat(m, w.by1).id, Seat(m, !w.by1).id, m.stakeType, m.stakeAmount, m.player1.id,
                         m.player2.id, Ko)
                  in t.calls)
  {
    hide Describes, LandStep, LandHit, Damage, Streak, Dealt, CreatePrompt, Extend;
    var next := CreatePrompt(w.at, m.prompt.key, promptId, roll);
    DamageByLog(m, d, w, next);
    LandHitKeeps(m, w.by1, w.at, next);
    LandedState(s, m, x, w, promptId, roll);
  }

  // What LandedFollows leaves to know for the fight to go on, or to be over.
  lemma AtAgain(s: State, t: State, id: MatchId, d: Duel, w: Swing, x: Match, promptId: string, key: Key)
    requires w.Landed? && At(s, id, d, w.prompt.promptId, w.prompt.key)
    requires t.duels == s.duels[id := Extend(d, w)] && t.minted == s.minted + {promptId}
    requires t.matches == s.matches[id := x]
    requires x.matchId == id && x.status == Fighting && x.prompt == Prompt(promptId, key, w.at)
    requires x.stakeType == "aura" && x.stakeAmount == 1
    requires Sits(x.player1, A, "s") && Sits(x.player2, B, "t")
    ensures At(t, id, Extend(d, w), promptId, key)
  {
    HitIds(d.swings, w);
    SentAtHit(d, w);
    hide PromptIds, PromptSent;
  }

  lemma LandedAt(s: State, id: MatchId, d: Duel, w: Swing, promptId: string, key: Key, roll: nat)
    requires w.Landed? && At(s, id, d, w.prompt.promptId, w.prompt.key) && w.prompt.sentAt == PromptSent(d)
    requires Describes(s.matches[id], d) && (s.matches[id].player1.id == UserOf(w.by1)) == w.by1
    requires |key| == 1 && roll < 25 && |Choices(w.prompt.key)| == 25 && Choices(w.prompt.key)[roll] == key[0]
    requires w.damage == if Streak(d.swings, w.by1) == 2 then 5 else 1
    ensures var t := LandStep(s, s.matches[id], w.by1, w.at, promptId, roll).0;
            && (Standing(Extend(d, w).swings) ==> At(t, id, Extend(d, w), promptId, key))
            && (Dealt(Extend(d, w).swings, w.by1) >= 30 ==> SettledAs(t, id, Extend(d, w), w.by1))
  {
    hide Describes, LandStep, PromptIds, Streak, PromptSent, Dealt, Choices, CreatePrompt, LandHit;
    var m := s.matches[id];
    var next := CreatePrompt(w.at, m.prompt.key, promptId, roll);
    var x := LandHit(m, w.by1, w.at, next);
    PromptIs(w.at, m.prompt.key, promptId, roll, key);
    LandHitKeeps(m, w.by1, w.at, next);
    LandedFollows(s, m, x, d, w, promptId, roll);
    var t := LandStep(s, m, w.by1, w.at, promptId, roll).0;
    hide Extend;
    if Standing(Extend(d, w).swings) {
      assert Dealt(Extend(d, w).swings, w.by1) <= 29;
      hide Standing, SettledAs;
      AtAgain(s, t, id, d, w, x, promptId, key);
    }
  }

  lemma SentAtHit(d: Duel, w: Swing)
    requires w.Landed?
    ensures PromptSent(Extend(d, w)) == w.at
  {}

  // ----- getting there -----

  // One lobby, no fight, and nobody gone.
  ghost predicate InLobby(s: State, id: MatchId, p1: Player, p2: Player, frames: nat) {
    && Shape(s) && s.matches.Keys == {id} && s.matches[id].matchId == id && s.matches[id].status == Lobby
    && s.matches[id].stakeType == "aura" && s.matches[id].stakeAmount == 1
    && s.matches[id].player1 == p1 && s.matches[id].player2 == p2
    && s.minted == {id} && s.duels == map[] && s.closed == {} && s.timers == map[] && s.next == frames
    && (forall f :: 0 <= f < frames ==> f in s.frames && s.frames[f].AwaitRoom? && s.frames[f].matchId == id)
  }

  lemma Opens(id: MatchId)
    ensures var e := Create(A, "s", CreateDto("", "aura", 1), id);
            && Shape(EMPTY) && Enabled(EMPTY, e)
            && InLobby(Step(EMPTY, e), id, CreatePlayer("a", "a", "s", false), CreatePlayer("", "", "", false), 0)
  {}

  lemma CreatorJoins(s: State, id: MatchId)
    requires InLobby(s, id, CreatePlayer("a", "a", "s", false), CreatePlayer("", "", "", false), 0)
    ensures Enabled(s, Join(A, "s", id))
    ensures InLobby(Step(s, Join(A, "s", id)), id, CreatePlayer("a", "a", "s", true), CreatePlayer("", "", "", false),
                    1)
  {}

  lemma OtherJoins(s: State, id: MatchId)
    requires InLobby(s, id, CreatePlayer("a", "a", "s", true), CreatePlayer("", "", "", false), 1)
    ensures Enabled(s, Join(B, "t", id))
    ensures InLobby(Step(s, Join(B, "t", id)), id, CreatePlayer("a", "a", "s", true),
                    CreatePlayer("b", "b", "t", true), 2)
  {}

  lemma Starts(s: State, id: MatchId, startedAt: int, promptId: string, roll: nat, key: Key)
    requires InLobby(s, id, CreatePlayer("a", "a", "s", true), CreatePlayer("b", "b", "t", true), 2)
    requires promptId != id && roll < 26
    requires CreatePrompt(startedAt, "", promptId, roll) == Prompt(promptId, key, startedAt)
    ensures Enabled(s, RoomJoined(1, startedAt, promptId, roll))
    ensures At(Step(s, RoomJoined(1, startedAt, promptId, roll)), id, Duel(startedAt, []), promptId, key)
  {
    hide CreatePrompt;
    assert PromptIds([]) == {};
  }

  ghost predicate LobbyReached(id: MatchId, p1: Player, p2: Player, frames: nat) {
    exists es, s :: Reaches(EMPTY, es, s) && InLobby(s, id, p1, p2, frames)
  }

  lemma LobbyShape(s: State, id: MatchId, p1: Player, p2: Player, frames: nat)
    requires InLobby(s, id, p1, p2, frames)
    ensures Shape(s)
  {}

  lemma LobbyOpens(id: MatchId)
    ensures LobbyReached(id, CreatePlayer("a", "a", "s", false), CreatePlayer("", "", "", false), 0)
  {
    Opens(id);
    assert Reaches(EMPTY, [], EMPTY);
    hide Reaches, InLobby, Step, Enabled, Shape;
    ReachesSnoc(EMPTY, [], EMPTY, Create(A, "s", CreateDto("", "aura", 1), id));
  }

  lemma LobbyFills(id: MatchId)
    ensures LobbyReached(id, CreatePlayer("a", "a", "s", true), CreatePlayer("b", "b", "t", true), 2)
  {
    hide Reaches, InLobby, Step, Enabled, Shape;
    LobbyOpens(id);
    var es, s :| Reaches(EMPTY, es, s) &&
      InLobby(s, id, CreatePlayer("a", "a", "s", false), CreatePlayer("", "", "", false), 0);
    LobbyShape(s, id, CreatePlayer("a", "a", "s", false), CreatePlayer("", "", "", false), 0);
    CreatorJoins(s, id);
    ReachesSnoc(EMPTY, es, s, Join(A, "s", id));
    var t := Step(s, Join(A, "s", id));
    LobbyShape(t, id, CreatePlayer("a", "a", "s", true), CreatePlayer("", "", "", false), 1);
    OtherJoins(t, id);
    ReachesSnoc(EMPTY, es + [Join(A, "s", id)], t, Join(B, "t", id));
  }

  lemma StartPlays(id: MatchId, startedAt: int, promptId: string, key: Key)
    requires promptId != id && IsLetter(key)
    ensures Played(id, Duel(startedAt, []), promptId, key)
  {
    hide IsLetter, Choices, InLobby, Step, Enabled, At, Reaches, Shape;
    KeysAreCapitals(key);
    SomeRoll("", key);
    var roll: nat :| roll < |Choices("")| && Choices("")[roll] == key[0];
    PromptIs(startedAt, "", promptId, roll, key);
    hide CreatePrompt;
    LobbyFills(id);
    var es, s :| Reaches(EMPTY, es, s) &&
      InLobby(s, id, CreatePlayer("a", "a", "s", true), CreatePlayer("b", "b", "t", true), 2);
    LobbyShape(s, id, CreatePlayer("a", "a", "s", true), CreatePlayer("b", "b", "t", true), 2);
    Starts(s, id, startedAt, promptId, roll, key);
    ReachesSnoc(EMPTY, es, s, RoomJoined(1, startedAt, promptId, roll));
  }

  // ----- whole duels -----

  lemma FairParts(d: Duel)
    requires Playable(d) && d.swings != []
    ensures var before := Duel(d.startedAt, DropLast(d.swings));
            && Playable(before) && Legal(before, Last(d.swings)) && d == Extend(before, Last(d.swings)) &&
               HasKey(Last(d.swings))
  {
    hide Legal;
    assert forall i :: 0 <= i < |d.swings| - 1 ==> DropLast(d.swings)[i] == d.swings[i];
    assert d.swings == DropLast(d.swings) + [Last(d.swings)];
  }

  // While both stand, any duel that keeps the rules can be played, and then any prompt can be up.
  lemma {:induction false} StandingDuelsHappen(id: MatchId, d: Duel, promptId: string, key: Key)
    requires Playable(d) && Standing(d.swings) && IsLetter(key) && key != LastKey(d.swings)
    requires promptId != id && promptId !in PromptIds(d.swings) && id !in PromptIds(d.swings)
    ensures Played(id, d, promptId, key)
    decreases |d.swings|
  {
    hide Reaches, At, StunEnd, LastHit, PromptSent, Streak, IsLetter;
    if d.swings == [] {
      StartPlays(id, d.startedAt, promptId, key);
    } else {
      var before, w := Duel(d.startedAt, DropLast(d.swings)), Last(d.swings);
      FairParts(d);
      if w.Missed? {
        MissIds(before.swings, w.by1, w.at);
        hide PromptIds;
        StandingDuelsHappen(id, before, promptId, key);
        var es, s :| Reaches(EMPTY, es, s) && At(s, id, before, promptId, key);
        MissPlays(es, s, id, before, promptId, key, w.by1, w.at);
      } else {
        HitIds(before.swings, w);
        UnusedId(before.swings, w.prompt.promptId);
        hide PromptIds;
        StandingDuelsHappen(id, before, w.prompt.promptId, w.prompt.key);
        var es, s :| Reaches(EMPTY, es, s) && At(s, id, before, w.prompt.promptId, w.prompt.key);
        MintedAt(s, id, before, w.prompt.promptId, w.prompt.key);
        LandPlays(es, s, id, before, w, promptId, key);
      }
    }
  }

  lemma UnusedId(log: seq<Swing>, promptId: string)
    ensures UsedPrompt(log, promptId) <==> promptId in PromptIds(log)
  {}

  lemma MintedAt(s: State, id: MatchId, d: Duel, promptId: string, key: Key)
    requires At(s, id, d, promptId, key)
    ensures s.minted == {id, promptId} + PromptIds(d.swings)
  {}

  ghost predicate Happens(d: Duel) {
    exists es, s, id :: Reaches(EMPTY, es, s) && id in s.duels && s.duels[id] == d
  }

  lemma PlayedHappens(id: MatchId, d: Duel, promptId: string, key: Key)
    requires Played(id, d, promptId, key)
    ensures Happens(d)
  {
    hide Reaches, PromptSent, PromptIds;
    var es, s :| Reaches(EMPTY, es, s) && At(s, id, d, promptId, key);
  }

  function OtherKey(key: Key): Key { if key == "A" then "B" else "A" }

  lemma OtherIsKey(key: Key)
    ensures IsLetter(OtherKey(key)) && OtherKey(key) != key
  {
    assert KEYS[0] == 'A' && KEYS[1] == 'B';
  }

  // A knockout that keeps the rules is settled in some run.
  lemma KnockoutsHappen(id: MatchId, d: Duel, by1: bool)
    requires Playable(d) && KnockedOut(d, by1) && id !in PromptIds(d.swings)
    ensures KnockoutPlayed(id, d, by1)
  {
    hide Reaches, At, StunEnd, LastHit, PromptSent, Streak, IsLetter, Dealt, LastKey, Fair, OtherKey;
    var before, w := Duel(d.startedAt, DropLast(d.swings)), Last(d.swings);
    FairParts(d);
    HitIds(before.swings, w);
    UnusedId(before.swings, w.prompt.promptId);
    hide PromptIds;
    StandingDuelsHappen(id, before, w.prompt.promptId, w.prompt.key);
    var es, s :| Reaches(EMPTY, es, s) && At(s, id, before, w.prompt.promptId, w.prompt.key);
    FreshName(s.minted);
    var promptId :| promptId !in s.minted;
    OtherIsKey(w.prompt.key);
    LandPlays(es, s, id, before, w, promptId, OtherKey(w.prompt.key));
  }

  // The converse of EveryDuelIsFair: whatever the rules allow, with prompts as they are generated, up to and
  // including a knockout, is the log of a fight in some run.
  lemma EveryFairDuelHappens(d: Duel)
    requires Playable(d) && (Standing(d.swings) || KnockedOut(d, true) || KnockedOut(d, false))
    ensures Happens(d)
  {
    hide Reaches, IsLetter, LastKey, Dealt, Fair, KnockedOut, Standing, OtherKey, PromptIds;
    FreshName(PromptIds(d.swings));
    var id :| id !in PromptIds(d.swings);
    if Standing(d.swings) {
      FreshName(PromptIds(d.swings) + {id});
      var promptId :| promptId !in PromptIds(d.swings) + {id};
      OtherIsKey(LastKey(d.swings));
      StandingDuelsHappen(id, d, promptId, OtherKey(LastKey(d.swings)));
      PlayedHappens(id, d, promptId, OtherKey(LastKey(d.swings)));
    } else {
      var by1 := KnockedOut(d, true);
      KnockoutsHappen(id, d, by1);
      var es, s :| Reaches(EMPTY, es, s) && SettledAs(s, id, d, by1);
    }
  }

  lemma TurnHasKey(n: nat)
    requires n > 0
    ensures HasKey(NthHit(n)) && HasKey(TurnHit(n))
  {
    assert KEYS[0] == 'A' && KEYS[1] == 'B';
  }

  lemma {:induction false} TurnsArePlayable(n: nat)
    ensures forall i :: 0 <= i < n ==> HasKey(Fastest(n).swings[i]) && HasKey(Longest(n).swings[i])
  {
    if n > 0 {
      TurnsArePlayable(n - 1);
      TurnHasKey(n);
      FastestSnoc(n);
      hide HasKey, NthHit, TurnHit, Fastest, Longest;
      forall i | 0 <= i < n - 1 ensures HasKey(Fastest(n).swings[i]) && HasKey(Longest(n).swings[i]) {
        assert DropLast(Fastest(n).swings)[i] == Fastest(n).swings[i] &&
               DropLast(Longest(n).swings)[i] == Longest(n).swings[i];
      }
    }
  }

  // Runs of the service meet every bound of KnockoutBounds: a knockout settled after fourteen hits and 2070 ms, and one
  // settled at the fifty-ninth hit.
  lemma RunsMeetTheBounds()
    ensures exists id, d ::
            KnockoutPlayed(id, d, true) && |Times(d.swings, true)| == 14 && Last(d.swings).at == d.startedAt + 2070
    ensures exists id, d :: KnockoutPlayed(id, d, true) && |Times(d.swings, true)| + |Times(d.swings, false)| == 59
  {
    hide KnockoutPlayed, Times, KnockedOut, Fastest, Longest, Fair, PromptIds;
    FastestKnocksOut(14);
    FastestIsFair(14);
    TurnsArePlayable(14);
    var fast := Fastest(14);
    FreshName(PromptIds(fast.swings));
    var id :| id !in PromptIds(fast.swings);
    KnockoutsHappen(id, fast, true);
    LongestKnocksOut(59);
    LongestIsFair(59);
    TurnsArePlayable(59);
    var long := Longest(59);
    FreshName(PromptIds(long.swings));
    var jd :| jd !in PromptIds(long.swings);
    KnockoutsHappen(jd, long, true);
  }
}
