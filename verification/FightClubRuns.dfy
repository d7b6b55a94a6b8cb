// Whole runs of the fight club: what holds in every state that any interleaving can reach.
module FightClubRuns {
  import opened Wrappers
  import opened FightPrompt
  import opened FightClub
  import opened FightClubDuel
  import opened FightClubInvariant
  import opened FightClubSteps

  // `es` is a possible run from `s` to `t`.
  ghost predicate Reaches(s: State, es: seq<Event>, t: State)
    decreases es
  {
    if es == [] then s == t
    else Shape(s) && Enabled(s, es[0]) && Reaches(Step(s, es[0]), es[1..], t)
  }

  lemma EmptyKeeps()
    ensures Inv(EMPTY)
  {}

  lemma {:induction false} RunKeepsFrom(s: State, es: seq<Event>, t: State)
    requires Inv(s) && Reaches(s, es, t)
    ensures Inv(t)
    decreases es
  {
    if es != [] {
      StepKeeps(s, es[0]);
      hide Inv, Step, Enabled;
      RunKeepsFrom(Step(s, es[0]), es[1..], t);
    }
  }

  lemma RunKeeps(es: seq<Event>, t: State)
    requires Reaches(EMPTY, es, t)
    ensures Inv(t)
  {
    EmptyKeeps();
    RunKeepsFrom(EMPTY, es, t);
  }

  // ----- exactly-once outcomes -----

  // Every match that was ever created gets no repository call while it is in the lobby or being
  // fought, and exactly one, ever, once it is over or gone; its players hear exactly one verdict,
  // and only when it is gone. Every settlement is between the match's two distinct players.
  lemma ExactlyOneOutcome(es: seq<Event>, t: State, id: MatchId)
    requires Reaches(EMPTY, es, t) && id in t.created
    ensures CallsFor(t.calls, id) == if id in t.matches && t.matches[id].status != FightOver then 0 else 1
    ensures VerdictsFor(t.verdicts, id) == if id in t.matches then 0 else 1
    ensures id in t.matches && t.matches[id].status == FightOver ==>
              exists f :: f in t.frames && FinishesMatch(t.frames[f], id)
  {
    RunKeeps(es, t);
  }

  lemma SettlementsNameThePlayers(es: seq<Event>, t: State, c: Call)
    requires Reaches(EMPTY, es, t) && c in t.calls && c.Settle?
    ensures c.winnerId != c.loserId && c.winnerId != "" && c.loserId != ""
    ensures {c.winnerId, c.loserId} == {c.player1Id, c.player2Id}
    ensures (c.stakeType == "aura" || c.stakeType == "debt") && 1 <= c.stakeAmount <= 1_000_000
  {
    RunKeeps(es, t);
    assert CallOk(t, c);
  }

  // A game-over names the winner and loser that were settled; nobody is told of a result that was never settled.
  lemma VerdictsAreSettled(es: seq<Event>, t: State, v: Verdict)
    requires Reaches(EMPTY, es, t) && v in t.verdicts && v.GameOver?
    ensures exists c ::
            c in t.calls && c.Settle? && c.matchId == v.matchId && c.winnerId == v.winnerId && c.loserId == v.loserId
  {
    RunKeeps(es, t);
    assert VerdictOk(t, v);
  }

  // ----- the life of a match -----

  predicate StatusPath(s: State, t: State, id: MatchId)
  {
    if id in s.matches then
      if id in t.matches then
        t.matches[id].status == s.matches[id].status ||
        (s.matches[id].status == Lobby && t.matches[id].status == Fighting) ||
        (s.matches[id].status == Fighting && t.matches[id].status == FightOver)
      else s.matches[id].status != Fighting
    else id in t.matches ==> id !in s.created && t.matches[id].status == Lobby
  }

  // The same matches in the same order, listed alike; statuses as `StatusPath` allows.
  ghost predicate Gentle(s: State, t: State) {
    && t.matches.Keys == s.matches.Keys && t.order == s.order && t.emitted == s.emitted && t.created == s.created
    && (forall id :: id in s.matches ==> StatusPath(s, t, id) && SameListing(s.matches[id], t.matches[id]))
  }

  predicate SameListing(m: Match, n: Match) {
    (Open(m) <==> Open(n)) && ToChallenge(m) == ToChallenge(n)
  }

  ghost predicate Calm(s: State, t: State) {
    Gentle(s, t) && forall id :: id in s.matches ==> t.matches[id].status == s.matches[id].status
  }

  lemma PutIsGentle(s: State, t: State, m: Match)
    requires m.matchId in s.matches && t.matches == s.matches[m.matchId := m]
    requires t.order == s.order && t.emitted == s.emitted && t.created == s.created
    requires StatusPath(s, t, m.matchId) && SameListing(s.matches[m.matchId], m)
    ensures Gentle(s, t)
    ensures m.status == s.matches[m.matchId].status ==> Calm(s, t)
  {}

  lemma CalmThenGentle(s: State, t: State, u: State)
    requires Calm(s, t) && Gentle(t, u)
    ensures Gentle(s, u)
  {}

  lemma LeaveIsCalm(s: State, m: Match, userId: UserId, socketId: SocketId)
    requires m.matchId in s.matches && m == s.matches[m.matchId] && Plays(m, userId) && m.status == Lobby
    ensures Calm(s, Leave(s, m, userId, socketId))
  {
    var first := m.player1.id == userId;
    var m' := WithSeat(m, first, Seat(m, first).(joinedMatch := false));
    PutIsGentle(s, Leave(s, m, userId, socketId), m');
  }

  lemma RageQuitIsGentle(s: State, m: Match, userId: UserId)
    requires m.matchId in s.matches && m == s.matches[m.matchId] && m.status == Fighting
    ensures Gentle(s, RageQuitStep(s, m, userId))
  {
    PutIsGentle(s, RageQuitStep(s, m, userId), m.(status := FightOver));
  }

  lemma {:induction false} SweepIsGentle(s: State, ids: seq<MatchId>, userId: UserId, socketId: SocketId)
    requires forall id :: id in ids ==> id in s.matches
    requires forall id :: id in s.matches ==> s.matches[id].matchId == id
    ensures Gentle(s, Sweep(s, ids, userId, socketId))
    decreases ids
  {
    if ids != [] {
      var m := s.matches[ids[0]];
      var rest := ids[1..];
      assert forall id :: id in rest ==> id in ids;
      if Plays(m, userId) && SeatOf(m, userId).socketId == socketId && m.status == Lobby {
        var s1 := Leave(s, m, userId, socketId);
        LeaveIsCalm(s, m, userId, socketId);
        assert forall id :: id in s1.matches ==> s1.matches[id].matchId == id by { hide Gentle, Calm; }
        hide Leave;
        SweepIsGentle(s1, rest, userId, socketId);
        CalmThenGentle(s, s1, Sweep(s1, rest, userId, socketId));
      } else if Plays(m, userId) && SeatOf(m, userId).socketId == socketId && m.status == Fighting {
        RageQuitIsGentle(s, m, userId);
      } else {
        SweepIsGentle(s, rest, userId, socketId);
      }
    }
  }

  lemma DisconnectIsGentle(s: State, userId: UserId, socketId: SocketId)
    requires Shape(s)
    ensures Gentle(s, Tick(DisconnectStep(s, userId, socketId)))
  {
    SweepIsGentle(s.(closed := s.closed + {socketId}), s.order, userId, socketId);
  }

  // ----- the list of open challenges, as a client hears it -----

  function Upsert(list: seq<Challenge>, c: Challenge): seq<Challenge> {
    if list == [] then [c]
    else if list[0].id == c.id then [c] + list[1..]
    else [list[0]] + Upsert(list[1..], c)
  }

  function Remove(list: seq<Challenge>, id: MatchId): seq<Challenge> {
    if list == [] then []
    else Remove(DropLast(list), id) + if Last(list).id == id then [] else [Last(list)]
  }

  // A client's list: a snapshot replaces it, a new challenge goes at the end unless it is already there.
  function Hear(list: seq<Challenge>, b: Broadcast): seq<Challenge> {
    match b
    case Snapshot(all) => all
    case Created(c) => Upsert(list, c)
    case Removed(id) => Remove(list, id)
  }

  function Fold(list: seq<Challenge>, bs: seq<Broadcast>): seq<Challenge> {
    if bs == [] then list else Hear(Fold(list, DropLast(bs)), Last(bs))
  }

  lemma {:induction false} FoldConcat(list: seq<Challenge>, a: seq<Broadcast>, b: seq<Broadcast>)
    ensures Fold(list, a + b) == Fold(Fold(list, a), b)
  {
    if b == [] {
      assert a + b == a;
    } else {
      assert DropLast(a + b) == a + DropLast(b);
      FoldConcat(list, a, DropLast(b));
    }
  }

  lemma {:induction false} UpsertAtEnd(list: seq<Challenge>, c: Challenge)
    requires forall x :: x in list ==> x.id != c.id
    ensures Upsert(list + [c], c) == list + [c]
  {
    if list != [] {
      assert (list + [c])[1..] == list[1..] + [c];
      UpsertAtEnd(list[1..], c);
    }
  }

  lemma RemoveSnoc(list: seq<Challenge>, c: Challenge, id: MatchId)
    ensures Remove(list + [c], id) == Remove(list, id) + if c.id == id then [] else [c]
  {
    assert DropLast(list + [c]) == list;
  }

  lemma {:induction false} RemoveAbsent(list: seq<Challenge>, id: MatchId, n: nat)
    requires n <= |list| && forall i :: 0 <= i < |list| ==> list[i].id != id
    ensures Remove(list[..n], id) == list[..n]
  {
    if n != 0 {
      hide Remove;
      var front, last := list[..n - 1], list[n - 1];
      assert list[..n] == front + [last];
      RemoveAbsent(list, id, n - 1);
      RemoveSnoc(front, last, id);
      calc {
        Remove(list[..n], id);
        Remove(front + [last], id);
        Remove(front, id) + [last];
        front + [last];
        list[..n];
      }
    }
  }

  ghost predicate Listed(order: seq<MatchId>, matches: map<MatchId, Match>) {
    forall id :: id in order ==> id in matches && matches[id].matchId == id
  }

  lemma {:induction false} ListingIds(order: seq<MatchId>, matches: map<MatchId, Match>)
    requires Listed(order, matches)
    ensures forall c :: c in Listing(order, matches) ==>
            c.id in order && Open(matches[c.id]) && c == ToChallenge(matches[c.id])
    ensures forall id :: id in order && Open(matches[id]) ==> ToChallenge(matches[id]) in Listing(order, matches)
  {
    if order != [] {
      ListingIds(DropLast(order), matches);
      assert order == DropLast(order) + [Last(order)];
    }
  }

  // Matches that are listed alike give the same list.
  lemma {:induction false} ListingSame(order: seq<MatchId>, a: map<MatchId, Match>, b: map<MatchId, Match>)
    requires Listed(order, a) && Listed(order, b)
    requires forall id :: id in order ==> SameListing(a[id], b[id])
    ensures Listing(order, a) == Listing(order, b)
  {
    if order != [] {
      ListingSame(DropLast(order), a, b);
    }
  }

  // Closing one match removes exactly its challenge, and so does erasing it.
  lemma {:induction false} ListingCloses(order: seq<MatchId>, a: map<MatchId, Match>, b: map<MatchId, Match>,
                                         id: MatchId)
    requires Listed(order, a) && Listed(order, b) && (id in order ==> !Open(b[id]))
    requires forall i :: i in order && i != id ==> b[i] == a[i]
    ensures Listing(order, b) == Remove(Listing(order, a), id)
  {
    if order != [] {
      var rest := order[..|order| - 1];
      ListingCloses(rest, a, b, id);
      ListingSnoc(rest, a, Last(order), id);
      assert order == rest + [Last(order)];
      ListingSnoc(rest, b, Last(order), id);
      assert Last(order) in order;
    }
  }

  lemma ErasedIsListed(order: seq<MatchId>, a: map<MatchId, Match>, b: map<MatchId, Match>, id: MatchId)
    requires Listed(order, a)
    requires forall i :: i in order && i != id ==> i in b && b[i] == a[i]
    ensures Listed(Erase(order, id), b)
  {
    hide Erase;
  }

  lemma {:induction false} ListingErases(order: seq<MatchId>, a: map<MatchId, Match>, b: map<MatchId, Match>,
                                         id: MatchId)
    requires Listed(order, a)
    requires forall i :: i in order && i != id ==> i in b && b[i] == a[i]
    ensures Listed(Erase(order, id), b) && Listing(Erase(order, id), b) == Remove(Listing(order, a), id)
  {
    ErasedIsListed(order, a, b, id);
    if order != [] {
      var rest, last := order[..|order| - 1], Last(order);
      assert order == rest + [last] && last in order;
      ListingErases(rest, a, b, id);
      hide Remove, Erase, Listing, Open, ToChallenge;
      ErasesOne(rest, last, id);
      ListingSnoc(rest, a, last, id);
      if last != id {
        ListingSnoc(Erase(rest, id), b, last, id);
      } else {
        assert Remove(Listing(rest, a), id) + [] == Remove(Listing(rest, a), id);
      }
    }
  }

  lemma ErasesOne(rest: seq<MatchId>, last: MatchId, id: MatchId)
    ensures Erase(rest + [last], id) == if last == id then Erase(rest, id) else Erase(rest, id) + [last]
  {
    assert (rest + [last])[..|rest + [last]| - 1] == rest;
  }

  lemma ListingSnoc(rest: seq<MatchId>, a: map<MatchId, Match>, last: MatchId, id: MatchId)
    requires Listed(rest, a) && last in a && a[last].matchId == last
    ensures Listing(rest + [last], a) == Listing(rest, a) + if Open(a[last]) then [ToChallenge(a[last])] else []
    ensures Remove(Listing(rest + [last], a), id) ==
            Remove(Listing(rest, a), id) + if Open(a[last]) && last != id then [ToChallenge(a[last])] else []
  {
    assert (rest + [last])[..|rest + [last]| - 1] == rest;
    if Open(a[last]) {
      RemoveSnoc(Listing(rest, a), ToChallenge(a[last]), id);
    } else {
      assert Listing(rest, a) + [] == Listing(rest, a);
    }
  }

  // What a step broadcasts.
  ghost predicate Heard(s: State, t: State)
    requires Ordered(s) && Ordered(t)
  {
    |s.emitted| <= |t.emitted| && t.emitted[..|s.emitted|] == s.emitted &&
    Fold(ListChallenges(s), t.emitted[|s.emitted|..]) == ListChallenges(t)
  }

  lemma GentleIsHeard(s: State, t: State)
    requires Shape(s) && Shape(t) && Gentle(s, t)
    ensures Heard(s, t)
  {
    ListingSame(s.order, s.matches, t.matches);
    assert t.emitted[|s.emitted|..] == [];
  }

  lemma HeardOne(s: State, t: State, b: Broadcast)
    requires Ordered(s) && Ordered(t) && t.emitted == s.emitted + [b]
    requires Hear(ListChallenges(s), b) == ListChallenges(t)
    ensures Heard(s, t)
  {
    assert t.emitted[|s.emitted|..] == [b];
    assert DropLast([b]) == [];
  }

  // A third player's join closes one open match.
  lemma CloseIsHeard(s: State, t: State, m: Match)
    requires Shape(s) && Shape(t) && m.matchId in s.matches && !Open(m)
    requires t.matches == s.matches[m.matchId := m] && t.order == s.order
    requires t.emitted == s.emitted + [Removed(m.matchId)]
    ensures Heard(s, t)
  {
    ListingCloses(s.order, s.matches, t.matches, m.matchId);
    HeardOne(s, t, Removed(m.matchId));
  }

  lemma DropIsHeard(s: State, t: State, id: MatchId)
    requires Shape(s) && Shape(t) && id in s.matches
    requires t.matches == s.matches - {id} && t.order == Erase(s.order, id)
    requires t.emitted == s.emitted + [Removed(id)] || (t.emitted == s.emitted && !Open(s.matches[id]))
    ensures Heard(s, t)
  {
    ListingErases(s.order, s.matches, t.matches, id);
    if t.emitted == s.emitted {
      ClosedIsUnlisted(s, id);
      hide Listing, Remove;
      assert t.emitted[|s.emitted|..] == [];
    } else {
      hide Listing, Remove;
      HeardOne(s, t, Removed(id));
    }
  }

  lemma ClosedIsUnlisted(s: State, id: MatchId)
    requires Shape(s) && id in s.matches && !Open(s.matches[id])
    ensures Remove(ListChallenges(s), id) == ListChallenges(s)
  {
    var list := ListChallenges(s);
    ListingIds(s.order, s.matches);
    hide Listing, ListChallenges;
    assert forall i :: 0 <= i < |list| ==> list[i] in list;
    RemoveAbsent(list, id, |list|);
    assert list[..|list|] == list;
  }

  lemma HeardCompose(s: State, u: State, t: State)
    requires Ordered(s) && Ordered(u) && Ordered(t) && Heard(s, u) && Heard(u, t)
    ensures Heard(s, t)
  {
    hide ListChallenges, Fold;
    var a, b := u.emitted[|s.emitted|..], t.emitted[|u.emitted|..];
    assert t.emitted == s.emitted + a + b;
    assert t.emitted[|s.emitted|..] == a + b;
    FoldConcat(ListChallenges(s), a, b);
  }

  lemma CreateIsHeard(s: State, t: State, m: Match)
    requires Shape(s) && Shape(t) && m.matchId !in s.matches && Open(m)
    requires t.matches == s.matches[m.matchId := m] && t.order == s.order + [m.matchId]
    requires t.emitted == s.emitted + [Snapshot(ListChallenges(t))] + [Created(ToChallenge(m))]
    ensures Heard(s, t)
  {
    var c := ToChallenge(m);
    assert DropLast(t.order) == s.order;
    ListingSame(s.order, s.matches, t.matches);
    ListingIds(s.order, s.matches);
    assert ListChallenges(t) == ListChallenges(s) + [c];
    UpsertAtEnd(ListChallenges(s), c);
    var bs := [Snapshot(ListChallenges(t)), Created(c)];
    assert t.emitted[|s.emitted|..] == bs;
    assert DropLast(bs) == [Snapshot(ListChallenges(t))];
    assert DropLast(DropLast(bs)) == [];
  }

  // ----- every step moves matches forward and is heard -----

  ghost predicate Advances(s: State, t: State)
    requires Ordered(s) && Ordered(t)
  {
    Heard(s, t) && s.created <= t.created && forall id :: StatusPath(s, t, id)
  }

  lemma GentleAdvances(s: State, t: State)
    requires Shape(s) && Shape(t) && Gentle(s, t)
    ensures Advances(s, t)
  {
    GentleIsHeard(s, t);
  }

  lemma PutAdvances(s: State, t: State, m: Match)
    requires Shape(s) && Shape(t)
    requires m.matchId in s.matches && t.matches == s.matches[m.matchId := m]
    requires t.order == s.order && t.emitted == s.emitted && t.created == s.created
    requires StatusPath(s, t, m.matchId) && SameListing(s.matches[m.matchId], m)
    ensures Advances(s, t)
  {
    PutIsGentle(s, t, m);
    GentleAdvances(s, t);
  }

  lemma DropAdvances(s: State, t: State, id: MatchId)
    requires Shape(s) && Shape(t) && id in s.matches && s.matches[id].status != Fighting && t.created == s.created
    requires t.matches == s.matches - {id} && t.order == Erase(s.order, id)
    requires t.emitted == s.emitted + [Removed(id)] || (t.emitted == s.emitted && !Open(s.matches[id]))
    ensures Advances(s, t)
  {
    DropIsHeard(s, t, id);
  }

  lemma CreateAdvances(s: State, user: User, socketId: SocketId, dto: CreateDto, id: MatchId)
    requires MatchesOk(s) && Enabled(s, Create(user, socketId, dto, id))
    requires Shape(Tick(CreateStep(s, user, socketId, dto, id)))
    ensures Advances(s, Tick(CreateStep(s, user, socketId, dto, id)))
  {
    var t := Tick(CreateStep(s, user, socketId, dto, id));
    CreateIsHeard(s, t, NewMatch(user, socketId, dto, id));
    hide Heard;
  }

  lemma RejoinAdvances(s: State, user: User, socketId: SocketId, id: MatchId)
    requires Shape(s) && id in s.matches && Plays(s.matches[id], user.userId)
    requires Shape(Tick(JoinStep(s, user, socketId, id)))
    ensures Advances(s, Tick(JoinStep(s, user, socketId, id)))
  {
    hide Heard, Advances;
    PutAdvances(s, Tick(JoinStep(s, user, socketId, id)), JoinedMatch(s.matches[id], user, socketId));
  }

  lemma JoinAdvances(s: State, user: User, socketId: SocketId, id: MatchId)
    requires Shape(s) && JoinSucceeds(s, user, id) && user.userId != "" && MatchOk(s.matches[id])
    requires Shape(Tick(JoinStep(s, user, socketId, id)))
    ensures Advances(s, Tick(JoinStep(s, user, socketId, id)))
  {
    if Plays(s.matches[id], user.userId) {
      RejoinAdvances(s, user, socketId, id);
    } else {
      CloseIsHeard(s, Tick(JoinStep(s, user, socketId, id)), JoinedMatch(s.matches[id], user, socketId));
      hide Heard;
    }
  }

  lemma StartAdvances(s: State, frame: nat, now: int, promptId: string, roll: nat)
    requires Shape(s) && Enabled(s, RoomJoined(frame, now, promptId, roll))
    requires Shape(Tick(StartStep(s, frame, now, promptId, roll)))
    ensures Advances(s, Tick(StartStep(s, frame, now, promptId, roll)))
  {
    var t := Tick(StartStep(s, frame, now, promptId, roll));
    var id := s.frames[frame].matchId;
    if id in s.matches && Ready(s.matches[id]) {
      PutAdvances(s, t, s.matches[id].(prompt := CreatePrompt(now, "", promptId, roll), status := Fighting));
    } else {
      GentleAdvances(s, t);
    }
  }

  lemma LandKeepsListing(m: Match, first: bool, now: int, next: Prompt)
    requires m.status == Fighting
    ensures var m' := LandHit(m, first, now, next); SameListing(m, m') && SameListing(m, m'.(status := FightOver))
  {}

  lemma LandAdvances(s: State, m: Match, first: bool, now: int, nextId: string, roll: nat)
    requires Shape(s) && m.matchId in s.matches && m == s.matches[m.matchId] && m.status == Fighting
    requires MatchOk(m) && nextId !in s.minted && roll < 25
    requires Shape(Tick(LandStep(s, m, first, now, nextId, roll).0))
    ensures Advances(s, Tick(LandStep(s, m, first, now, nextId, roll).0))
  {
    var t := Tick(LandStep(s, m, first, now, nextId, roll).0);
    var next := CreatePrompt(now, m.prompt.key, nextId, roll);
    var m' := LandHit(m, first, now, next);
    LandKeepsListing(m, first, now, next);
    LandHasEffect(s, m, first, now, nextId, roll);
    hide LandStep, LandHit, CreatePrompt, Flags, Shape, MatchOk;
    if Seat(m', !first).hp == 0 {
      PutAdvances(s, t, m'.(status := FightOver));
    } else {
      PutAdvances(s, t, m');
    }
  }

  lemma HitAdvances(s: State, userId: UserId, socketId: SocketId, dto: HitDto, now: int, nextId: string, roll: nat)
    requires Shape(s) && Enabled(s, HitKey(userId, socketId, dto, now, nextId, roll))
    requires dto.matchId in s.matches ==> MatchOk(s.matches[dto.matchId])
    requires Shape(Tick(HitStep(s, userId, socketId, dto, now, nextId, roll).0))
    ensures Advances(s, Tick(HitStep(s, userId, socketId, dto, now, nextId, roll).0))
  {
    var t := Tick(HitStep(s, userId, socketId, dto, now, nextId, roll).0);
    if Screen(s, userId, socketId, dto, now).None? {
      var m := s.matches[dto.matchId];
      var first := m.player1.id == userId;
      if TooFastOrWrong(m, dto, now) {
        PutAdvances(s, t, MissHit(m, first, now));
      } else {
        LandAdvances(s, m, first, now, nextId, roll);
      }
    } else {
      GentleAdvances(s, t);
    }
  }

  lemma FinishAdvances(s: State, frame: nat, v: Verdict)
    requires Shape(s) && SettlesOk(s) && frame in s.frames && Finishing(s.frames[frame])
    requires Shape(Finish(s, frame, v))
    ensures Advances(s, Finish(s, frame, v))
  {
    assert FinishOk(s, frame);
    DropAdvances(s, Finish(s, frame, v), s.frames[frame].matchId);
  }

  lemma FetchAdvances(s: State, frame: nat, sockets: nat)
    requires Shape(s) && frame in s.frames && s.frames[frame].AwaitSockets?
    requires Shape(Tick(FetchStep(s, frame, sockets)))
    ensures Advances(s, Tick(FetchStep(s, frame, sockets)))
  {
    var g := s.frames[frame].grace;
    var t := Tick(FetchStep(s, frame, sockets));
    if sockets > 0 || !StillAbandoned(Resume(s, frame), g) {
      GentleAdvances(s, t);
    } else {
      DropAdvances(s, t, g.matchId);
    }
  }

  lemma MatchesAreShaped(s: State)
    requires MatchesOk(s)
    ensures Shape(s) && forall id :: id in s.matches ==> MatchOk(s.matches[id])
  {
    hide MatchOk, Shape, Once;
  }

  lemma StepAdvances(s: State, e: Event)
    requires Inv(s) && Enabled(s, e)
    ensures Shape(Step(s, e)) && Advances(s, Step(s, e))
  {
    hide MatchesOk, TimersOk, SettlesOk, CallsOk, VerdictsOk, StartsOk, DuelsOk, CadenceOk, Shape, Advances,
         CreateStep, JoinStep,
      StartStep, HitStep, DisconnectStep, FetchStep, FireStep, SettleReturnStep, AwardsReturnStep, MatchOk, Tick;
    StepKeeps(s, e);
    MatchesAreShaped(s);
    MatchesAreShaped(Step(s, e));
    hide Inv;
    match e
    case Create(user, socketId, dto, newId) => CreateAdvances(s, user, socketId, dto, newId);
    case Join(user, socketId, matchId) =>
      if JoinSucceeds(s, user, matchId) {
        JoinAdvances(s, user, socketId, matchId);
      } else {
        FailedJoinAdvances(s, user, socketId, matchId);
      }
    case RoomJoined(frame, now, newId, roll) => StartAdvances(s, frame, now, newId, roll);
    case HitKey(userId, socketId, hit, now, newId, roll) => HitAdvances(s, userId, socketId, hit, now, newId, roll);
    case Disconnect(userId, socketId) =>
      DisconnectIsGentle(s, userId, socketId);
      GentleAdvances(s, Step(s, e));
    case TimerFires(handle) => FireAdvances(s, handle);
    case SocketsFetched(frame, sockets) => FetchAdvances(s, frame, sockets);
    case SettleReturns(frame, ok) =>
      if ok { SettledAdvances(s, frame); } else { FailedSettleAdvances(s, frame); }
    case AwardsReturn(frame) => AwardsAdvances(s, frame);
  }

  lemma FailedSettleAdvances(s: State, frame: nat)
    requires Shape(s) && SettlesOk(s) && frame in s.frames && s.frames[frame].AwaitSettle?
    requires Shape(Tick(SettleReturnStep(s, frame, false)))
    ensures Advances(s, Tick(SettleReturnStep(s, frame, false)))
  {
    FinishAdvances(s, frame, SettleFailed(s.frames[frame].matchId));
  }

  lemma AwardsAdvances(s: State, frame: nat)
    requires Shape(s) && SettlesOk(s) && frame in s.frames && s.frames[frame].AwaitAwards?
    requires Shape(Tick(AwardsReturnStep(s, frame)))
    ensures Advances(s, Tick(AwardsReturnStep(s, frame)))
  {
    FinishAdvances(s, frame, GameOver(s.frames[frame].matchId, s.frames[frame].winnerId, s.frames[frame].loserId));
  }

  lemma FailedJoinAdvances(s: State, user: User, socketId: SocketId, id: MatchId)
    requires Shape(s) && !JoinSucceeds(s, user, id)
    ensures Shape(Tick(JoinStep(s, user, socketId, id))) && Advances(s, Tick(JoinStep(s, user, socketId, id)))
  {
    GentleAdvances(s, Tick(s));
  }

  lemma FireAdvances(s: State, handle: nat)
    requires Shape(s) && handle in s.armed
    ensures Shape(Tick(FireStep(s, handle))) && Advances(s, Tick(FireStep(s, handle)))
  {
    GentleAdvances(s, Tick(FireStep(s, handle)));
  }

  lemma SettledAdvances(s: State, frame: nat)
    requires Shape(s) && frame in s.frames && s.frames[frame].AwaitSettle?
    ensures var t := Tick(SettleReturnStep(s, frame, true)); Shape(t) && Advances(s, t)
  {
    GentleAdvances(s, Tick(SettleReturnStep(s, frame, true)));
  }

  // A match only moves lobby, fighting, fight over, gone, or from the lobby straight to gone;
  // an id that is gone never comes back.
  lemma MatchesMoveForward(s: State, e: Event, id: MatchId)
    requires Inv(s) && Enabled(s, e)
    ensures StatusPath(s, Step(s, e), id)
    ensures id in s.created && id !in s.matches ==> id in Step(s, e).created && id !in Step(s, e).matches
  {
    StepAdvances(s, e);
    hide Step, Inv;
  }

  // A client that took the list at any moment of a run and folds what it hears from then on always holds
  // the server's list, in the server's order.
  lemma {:induction false} ClientListAgrees(s: State, es: seq<Event>, t: State)
    requires Inv(s) && Reaches(s, es, t)
    ensures Ordered(t) && Heard(s, t)
    decreases es
  {
    if es == [] {
      assert t.emitted[|s.emitted|..] == [];
    } else {
      var u := Step(s, es[0]);
      StepAdvances(s, es[0]);
      StepKeeps(s, es[0]);
      assert Ordered(s) && Ordered(u) by { hide Step; }
      hide Inv, Step, Enabled, Heard, Ordered;
      ClientListAgrees(u, es[1..], t);
      HeardCompose(s, u, t);
    }
  }

  // Someone who is not in a match can join it exactly when it is on the list.
  lemma ListedMeansJoinable(s: State, user: User, id: MatchId)
    requires Inv(s) && (id in s.matches ==> !Plays(s.matches[id], user.userId))
    ensures JoinSucceeds(s, user, id) <==> exists c :: c in ListChallenges(s) && c.id == id
  {
    ListingIds(s.order, s.matches);
    if id in s.matches && Open(s.matches[id]) {
      assert ToChallenge(s.matches[id]) in ListChallenges(s);
    }
  }

  // ----- reconnecting against the grace timer -----

  // A pending timer for a live match means that match is a lobby and that player has not joined;
  // in a fight nobody has a pending timer.
  lemma PendingTimerMeansAway(es: seq<Event>, t: State, k: TimerKey)
    requires Reaches(EMPTY, es, t) && k in t.timers && k.1 in t.matches
    ensures var m := t.matches[k.1];
            m.status == Lobby && Plays(m, k.0) && !SeatOf(m, k.0).joinedMatch
  {
    RunKeeps(es, t);
    assert EntryOk(t, k);
    assert ArmedOk(t, t.timers[k].handle);
  }

  // No player has two timers for one match.
  lemma OneTimerPerSeat(es: seq<Event>, t: State, h: nat, k: nat)
    requires Reaches(EMPTY, es, t) && h in t.armed && k in t.armed && t.armed[h].Key() == t.armed[k].Key()
    ensures h == k
  {
    RunKeeps(es, t);
    assert ArmedOk(t, h) && ArmedOk(t, k);
  }

  // However events interleave while `fetchSockets` is awaited, the timer only removes a lobby whose player
  // has not joined since the disconnect that started the timer, and it removes nothing else.
  lemma OnlyAbandonedLobbiesExpire(es: seq<Event>, t: State, frame: nat, sockets: nat, id: MatchId)
    requires Reaches(EMPTY, es, t) && frame in t.frames && t.frames[frame].AwaitSockets?
    requires id in t.matches && id !in FetchStep(t, frame, sockets).matches
    ensures var g := t.frames[frame].grace;
            && sockets == 0 && id == g.matchId && t.matches[id].status == Lobby
            && Plays(t.matches[id], g.userId) && !SeatOf(t.matches[id], g.userId).joinedMatch
            && ((g.userId, id) in t.lastJoin ==> t.lastJoin[(g.userId, id)] < g.since)
  {
    hide Reaches;
    RunKeeps(es, t);
    var g := t.frames[frame].grace;
    hide SettlesOk, CallsOk, VerdictsOk, StartsOk, DuelsOk, CadenceOk, GraceOk;
    assert GraceOk(t, g) && Shape(t);
    hide Inv;
    OnlyAbandoned(t, frame, sockets, id);
  }

  lemma OnlyAbandoned(t: State, frame: nat, sockets: nat, id: MatchId)
    requires frame in t.frames && t.frames[frame].AwaitSockets? && GraceOk(t, t.frames[frame].grace) && Shape(t)
    requires id in t.matches && id !in FetchStep(t, frame, sockets).matches
    ensures var g := t.frames[frame].grace; sockets == 0 && id == g.matchId && SeatedAt(t, g) && NotBackSince(t, g)
  {
    var g := t.frames[frame].grace;
    if sockets == 0 && StillAbandoned(Resume(t, frame), g) {
      assert SeatedAt(t, g);
    }
  }

  // A player who comes back clears the timer.
  lemma RejoinDisarms(s: State, user: User, socketId: SocketId, id: MatchId)
    requires JoinSucceeds(s, user, id)
    ensures (user.userId, id) !in JoinStep(s, user, socketId, id).timers
  {}

  // A lobby with both players in it always has a join in flight that will start the fight.
  lemma ReadyLobbiesStart(es: seq<Event>, t: State, id: MatchId)
    requires Reaches(EMPTY, es, t) && id in t.matches && Ready(t.matches[id])
    ensures exists f :: f in t.frames && StartsMatch(t.frames[f], id)
  {
    RunKeeps(es, t);
  }

  // ----- duels -----

  lemma {:induction false} SomeCallFor(calls: seq<Call>, id: MatchId)
    requires CallsFor(calls, id) > 0
    ensures exists c :: c in calls && c.matchId == id
  {
    if Last(calls).matchId == id {
      assert Last(calls) in calls;
    } else {
      SomeCallFor(DropLast(calls), id);
      var c :| c in DropLast(calls) && c.matchId == id;
      assert c in calls;
    }
  }

  // Every fight that was ever started kept the rules of the duel.
  lemma EveryDuelIsFair(es: seq<Event>, t: State, id: MatchId)
    requires Reaches(EMPTY, es, t) && id in t.duels
    ensures Fair(t.duels[id])
  {
    RunKeeps(es, t);
    if Undecided(t, id) {
      assert DuelOk(t, t.matches[id]);
    } else {
      SomeCallFor(t.calls, id);
      var c :| c in t.calls && c.matchId == id;
      assert CallOk(t, c);
    }
  }

  // While a fight goes on both players have 1 to 30 hp, 30 less what the log says they took; combos, hit times
  // and stuns are those of the log.
  lemma FightingMatchesMatchTheirLog(es: seq<Event>, t: State, id: MatchId)
    requires Reaches(EMPTY, es, t) && id in t.matches && t.matches[id].status == Fighting
    ensures id in t.duels
    ensures var m, d := t.matches[id], t.duels[id];
            && 1 <= m.player1.hp <= 30 && m.player1.hp == 30 - Dealt(d.swings, false)
            && 1 <= m.player2.hp <= 30 && m.player2.hp == 30 - Dealt(d.swings, true)
            && 0 <= m.player1.combo <= 2 && 0 <= m.player2.combo <= 2 && (m.player1.combo == 0 || m.player2.combo == 0)
            && m.player1.hitTimestamps == LastN(Times(d.swings, true), 11)
            && m.player2.hitTimestamps == LastN(Times(d.swings, false), 11)
            && |Times(d.swings, true)| + |Times(d.swings, false)| <= 58
  {
    RunKeeps(es, t);
    assert DuelOk(t, t.matches[id]);
    OneComboAtATime(t.duels[id]);
    FewHitsWhileBothStand(t.duels[id]);
  }

  // Every knockout that was ever settled took at least 14 hits by the winner and 2070 ms, and came
  // within 59 landed hits.
  lemma SettledKnockoutBounds(es: seq<Event>, t: State, c: Call)
    requires Reaches(EMPTY, es, t) && c in t.calls && c.Settle? && c.ending == Ko
    ensures c.matchId in t.duels
    ensures var d, by1 := t.duels[c.matchId], c.winnerId == c.player1Id;
            && |Times(d.swings, by1)| >= 14
            && d.swings != [] && Last(d.swings).Landed? && Last(d.swings).by1 == by1
            && Last(d.swings).at >= d.startedAt + 2070
            && |Times(d.swings, true)| + |Times(d.swings, false)| <= 59
  {
    RunKeeps(es, t);
    assert CallOk(t, c);
    KnockoutBounds(t.duels[c.matchId], c.winnerId == c.player1Id);
  }

  // Across both players of any fight, at any distance: a prompt lands once, landed hits are 120 ms apart,
  // one player's swings 150 ms after a hit and 1000 ms after a miss.
  lemma DuelDiscipline(es: seq<Event>, t: State, id: MatchId, i: nat, j: nat)
    requires Reaches(EMPTY, es, t) && id in t.duels && i < j < |t.duels[id].swings|
    ensures var a, b := t.duels[id].swings[i], t.duels[id].swings[j];
            && (a.Landed? && b.Landed? ==> a.prompt.promptId != b.prompt.promptId && b.at >= a.at + 120)
            && (a.by1 == b.by1 ==> b.at >= a.at + if a.Landed? then 150 else 1000)
  {
    EveryDuelIsFair(es, t, id);
    var d := t.duels[id];
    if d.swings[i].Landed? && d.swings[j].Landed? {
      PromptsLandOnce(d, i, j);
      LandingsAreSpaced(d, j);
    }
    if d.swings[i].by1 == d.swings[j].by1 {
      StunIsServed(d, i, j);
    }
  }

  // Each player is warned about cadence at most once in a match.
  lemma WarnedOnce(es: seq<Event>, t: State, i: nat, j: nat)
    requires Reaches(EMPTY, es, t) && i < j < |t.warned|
    ensures t.warned[i] != t.warned[j]
  {
    RunKeeps(es, t);
  }
}
