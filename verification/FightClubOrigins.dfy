// Where the terms of every match and every call come from: the one event that created the match.
module FightClubOrigins {
  import opened Wrappers
  import opened FightClub
  import opened FightClubDuel
  import opened FightClubInvariant
  import opened FightClubSteps
  import opened FightClubRuns
  import Answers = FightClubAnswers
  import Disconnects = FightClubDisconnects
  import Events = FightClubEvents
  import Plays = FightClubPlays

  // What was agreed when a match was created.
  datatype Terms = Terms(title: string, stakeType: string, stakeAmount: int, creatorId: UserId, creator: string)

  function TermsOf(m: Match): Terms { Terms(m.title, m.stakeType, m.stakeAmount, m.player1.id, m.player1.username) }

  predicate CallHas(c: Call, terms: Terms) {
    && c.stakeType == terms.stakeType && c.stakeAmount == terms.stakeAmount
    && terms.creatorId == if c.Settle? then c.player1Id else c.creatorId
  }

  // ----- one step -----

  // Every match keeps its terms, and every new call has the terms of its match.
  ghost predicate Keeps(s: State, t: State) {
    && s.minted <= t.minted
    && (forall id :: id in t.matches ==> id in s.matches && TermsOf(t.matches[id]) == TermsOf(s.matches[id]))
    && (t.calls == s.calls || NewCall(s, t))
  }

  ghost predicate NewCall(s: State, t: State) {
    |t.calls| > 0 && DropLast(t.calls) == s.calls &&
    var c := Last(t.calls);
    c.matchId in s.matches && CallHas(c, TermsOf(s.matches[c.matchId]))
  }

  lemma HitKeepsTerms(s: State, u: UserId, socketId: SocketId, dto: HitDto, now: int, newId: string, roll: nat)
    requires Inv(s) && Shape(s) && newId !in s.minted && roll < 25
    ensures Keeps(s, Tick(HitStep(s, u, socketId, dto, now, newId, roll).0))
  {
    var t := Tick(HitStep(s, u, socketId, dto, now, newId, roll).0);
    hide HitStep, Inv, Shape, Keeps, Answers.MaySwing, Answers.Answers, Answers.Told, Answers.Lands, Answers.Misses,
         Tick;
    if first :| Answers.MaySwing(s, u, socketId, dto, now, first) {
      assert dto.matchId in s.matches by { Answers.SwingsInFight(s, u, socketId, dto, now, first); }
      if Answers.Answers(s.matches[dto.matchId], dto, now) {
        Answers.HitLands(s, u, socketId, dto, now, newId, roll, first);
        LandKeepsTerms(s, t, dto.matchId, first, now, newId);
      } else {
        Answers.HitMisses(s, u, socketId, dto, now, newId, roll, first);
        MissKeepsTerms(s, t, dto.matchId, first, now);
      }
    } else {
      Answers.HitIsRefused(s, u, socketId, dto, now, newId, roll);
      SameKeepsTerms(s, t);
    }
  }

  lemma SameKeepsTerms(s: State, t: State)
    requires t.matches == s.matches && t.calls == s.calls && t.minted == s.minted
    ensures Keeps(s, t)
  {}

  lemma MissKeepsTerms(s: State, t: State, id: MatchId, first: bool, now: int)
    requires Answers.Misses(s, t, id, first, now)
    ensures Keeps(s, t)
  {
    hide Describes;
  }

  lemma LandKeepsTerms(s: State, t: State, id: MatchId, first: bool, now: int, newId: string)
    requires Answers.Lands(s, t, id, first, now, newId)
    ensures Keeps(s, t)
  {
    hide Describes, Dealt;
  }

  lemma DisconnectKeepsTerms(es: seq<Event>, s: State, u: UserId, socketId: SocketId)
    requires Reaches(EMPTY, es, s) && u != ""
    ensures Shape(s) && Keeps(s, Step(s, Disconnect(u, socketId)))
  {
    Disconnects.OneFirstFight(s, u, socketId);
    var n: nat :| Disconnects.FirstFight(s, n, u, socketId);
    Disconnects.DisconnectAnswers(es, s, u, socketId, n);
    hide Reaches, Step, Shape;
    QuitKeepsTerms(s, Step(s, Disconnect(u, socketId)), n, u, socketId);
  }

  lemma QuitKeepsTerms(s: State, t: State, n: nat, u: UserId, socketId: SocketId)
    requires Disconnects.FirstFight(s, n, u, socketId)
    requires Disconnects.FightLost(s, t, n, u, socketId) && Disconnects.SeatsLost(s, t, n, u, socketId)
    requires Disconnects.RestStays(s, t, socketId)
    ensures Keeps(s, t)
  {
    hide Disconnects.OnGrace, Disconnects.Waiting, Disconnects.Holds;
    forall id | id in t.matches ensures id in s.matches && TermsOf(t.matches[id]) == TermsOf(s.matches[id]) {
      if id in Disconnects.Waiting(s, s.order[..n], u, socketId) {
        assert Disconnects.SeatLeft(s.matches[id], t.matches[id], u);
      }
    }
  }

  lemma JoinsKeepsTerms(s: State, t: State, user: User, socketId: SocketId, id: MatchId)
    requires Events.Joins(s, t, user, socketId, id)
    ensures Keeps(s, t)
  {
    hide Events.Shows;
  }

  lemma JoinKeepsTerms(es: seq<Event>, s: State, user: User, socketId: SocketId, id: MatchId)
    requires Reaches(EMPTY, es, s) && Enabled(s, Join(user, socketId, id))
    ensures Shape(s) && Keeps(s, Step(s, Join(user, socketId, id)))
  {
    Events.JoinAnswers(es, s, user, socketId, id);
    hide Reaches, Step, Shape, JoinResult, Events.Shows, Events.MayJoin, Events.Joins, Keeps;
    var t := Step(s, Join(user, socketId, id));
    if JoinResult(s, user, socketId, id).Ok? {
      JoinsKeepsTerms(s, t, user, socketId, id);
    } else {
      SameKeepsTerms(s, t);
    }
  }

  lemma StartsKeepsTerms(s: State, t: State, frame: nat, id: MatchId, now: int, newId: string)
    requires Events.Starts(s, t, frame, id, now, newId)
    ensures Keeps(s, t)
  {}

  lemma StartKeepsTerms(es: seq<Event>, s: State, frame: nat, now: int, newId: string, roll: nat)
    requires Reaches(EMPTY, es, s) && Enabled(s, RoomJoined(frame, now, newId, roll))
    ensures Shape(s) && Keeps(s, Step(s, RoomJoined(frame, now, newId, roll)))
  {
    Events.RoomJoinedAnswers(es, s, frame, now, newId, roll);
    hide Reaches, Step, Shape, Events.BothIn, Events.Starts, Keeps;
    var t, id := Step(s, RoomJoined(frame, now, newId, roll)), s.frames[frame].matchId;
    if Events.BothIn(s, id) {
      StartsKeepsTerms(s, t, frame, id, now, newId);
    } else {
      SameKeepsTerms(s, t);
    }
  }

  lemma ExpiresKeepsTerms(s: State, t: State, frame: nat, id: MatchId)
    requires Ordered(s) && id in s.matches && s.matches[id].matchId == id && Events.Expires(s, t, frame, id)
    ensures Keeps(s, t)
  {
    hide Events.Unlisted, Events.Vacant;
  }

  lemma EndsKeepsTerms(s: State, t: State, frame: nat, id: MatchId, v: Verdict)
    requires Ordered(s) && id in s.matches && Events.Ends(s, t, frame, id, v)
    ensures Keeps(s, t)
  {
    hide Events.Unlisted;
  }

  lemma ExpiryKeepsTerms(es: seq<Event>, s: State, frame: nat, sockets: nat)
    requires Reaches(EMPTY, es, s) && frame in s.frames && s.frames[frame].AwaitSockets?
    ensures Shape(s) && Keeps(s, Step(s, SocketsFetched(frame, sockets)))
  {
    Events.SocketsAnswer(es, s, frame, sockets);
    hide Reaches, Step, Events.Expires;
    var t, g := Step(s, SocketsFetched(frame, sockets)), s.frames[frame].grace;
    if sockets == 0 && Events.Abandoned(s, g) {
      hide Keeps;
      ExpiresKeepsTerms(s, t, frame, g.matchId);
    } else {
      hide Shape, Events.Abandoned, Keeps;
      SameKeepsTerms(s, t);
    }
  }

  lemma SettleKeepsTerms(es: seq<Event>, s: State, frame: nat, ok: bool)
    requires Reaches(EMPTY, es, s) && frame in s.frames && s.frames[frame].AwaitSettle?
    ensures Shape(s) && Keeps(s, Step(s, SettleReturns(frame, ok)))
  {
    Events.SettleAnswers(es, s, frame, ok);
    hide Reaches, Step, Shape, Events.Ends, Keeps;
    var t, id := Step(s, SettleReturns(frame, ok)), s.frames[frame].matchId;
    if ok {
      SameKeepsTerms(s, t);
    } else {
      assert Ordered(s) by { hide *; ShapeIsOrdered(s); }
      EndsKeepsTerms(s, t, frame, id, SettleFailed(id));
    }
  }

  lemma ShapeIsOrdered(s: State)
    requires Shape(s)
    ensures Ordered(s)
  {}

  lemma AwardsKeepTerms(es: seq<Event>, s: State, frame: nat)
    requires Reaches(EMPTY, es, s) && frame in s.frames && s.frames[frame].AwaitAwards?
    ensures Shape(s) && Keeps(s, Step(s, AwardsReturn(frame)))
  {
    Events.AwardsAnswer(es, s, frame);
    hide Reaches, Step, Shape, Events.Ends, Keeps;
    assert Ordered(s) by { hide *; ShapeIsOrdered(s); }
    var f := s.frames[frame];
    EndsKeepsTerms(s, Step(s, AwardsReturn(frame)), frame, f.matchId, GameOver(f.matchId, f.winnerId, f.loserId));
  }

  lemma TimerKeepsTerms(es: seq<Event>, s: State, handle: nat)
    requires Reaches(EMPTY, es, s) && handle in s.armed
    ensures Shape(s) && Keeps(s, Step(s, TimerFires(handle)))
  {
    Events.TimerAnswers(es, s, handle);
    hide Reaches, Step, Shape;
  }

  lemma PressKeepsTerms(es: seq<Event>, s: State, u: UserId, socketId: SocketId, dto: HitDto, now: int, newId: string,
                        roll: nat)
    requires Reaches(EMPTY, es, s) && newId !in s.minted && roll < 25
    ensures Shape(s) && Keeps(s, Step(s, HitKey(u, socketId, dto, now, newId, roll)))
  {
    hide Reaches;
    RunKeeps(es, s);
    Answers.ShapeOf(s);
    hide Inv, Keeps, HitStep, Shape, Tick;
    HitKeepsTerms(s, u, socketId, dto, now, newId, roll);
  }

  // Every event but the creation of a match keeps all terms.
  lemma StepKeepsTerms(es: seq<Event>, s: State, e: Event)
    requires Reaches(EMPTY, es, s) && Enabled(s, e) && !e.Create?
    ensures Shape(s) && Keeps(s, Step(s, e))
  {
    hide Reaches, Keeps, Shape, Step;
    match e
    case Join(user, socketId, id) => JoinKeepsTerms(es, s, user, socketId, id);
    case RoomJoined(frame, now, newId, roll) => StartKeepsTerms(es, s, frame, now, newId, roll);
    case HitKey(u, socketId, dto, now, newId, roll) => PressKeepsTerms(es, s, u, socketId, dto, now, newId, roll);
    case Disconnect(u, socketId) => DisconnectKeepsTerms(es, s, u, socketId);
    case TimerFires(handle) => TimerKeepsTerms(es, s, handle);
    case SocketsFetched(frame, sockets) => ExpiryKeepsTerms(es, s, frame, sockets);
    case SettleReturns(frame, ok) => SettleKeepsTerms(es, s, frame, ok);
    case AwardsReturn(frame) => AwardsKeepTerms(es, s, frame);
  }

  // ----- whole runs -----

  predicate CreatedAt(es: seq<Event>, i: int, id: MatchId) { 0 <= i < |es| && es[i].Create? && es[i].newId == id }

  // What the creator asks for.
  function Requested(e: Event): Terms
    requires e.Create?
  {
    Terms(if e.dto.trimmedTitle == "" then "nameless basement duel" else e.dto.trimmedTitle,
          e.dto.stakeType, e.dto.stakeAmount, e.user.userId, e.user.username)
  }

  // One event of the run created the match, on these terms.
  ghost predicate Origin(es: seq<Event>, id: MatchId, terms: Terms) {
    exists i :: CreatedAt(es, i, id) && (forall j :: CreatedAt(es, j, id) ==> j == i) &&
                terms == Requested(es[i])
  }

  ghost predicate CallHasOrigin(es: seq<Event>, c: Call) {
    exists terms :: Origin(es, c.matchId, terms) && CallHas(c, terms)
  }

  ghost predicate Originated(es: seq<Event>, s: State) {
    && (forall id :: id in s.matches ==> Origin(es, id, TermsOf(s.matches[id])))
    && (forall c :: c in s.calls ==> CallHasOrigin(es, c))
    && (forall i :: 0 <= i < |es| && es[i].Create? ==> es[i].newId in s.minted)
  }

  lemma OriginStays(es: seq<Event>, e: Event, id: MatchId, terms: Terms)
    requires Origin(es, id, terms) && (e.Create? ==> e.newId != id)
    ensures Origin(es + [e], id, terms)
  {
    var i :| CreatedAt(es, i, id) && (forall j :: CreatedAt(es, j, id) ==> j == i) &&
             terms == Requested(es[i]);
    assert CreatedAt(es + [e], i, id);
    forall j | CreatedAt(es + [e], j, id) ensures j == i {
      if j < |es| { assert CreatedAt(es, j, id); }
    }
  }

  lemma StepKeepsOrigins(es: seq<Event>, s: State, t: State, e: Event)
    requires Originated(es, s) && Keeps(s, t) && !e.Create?
    ensures Originated(es + [e], t)
  {
    hide Origin, CallHas;
    forall id | id in t.matches ensures Origin(es + [e], id, TermsOf(t.matches[id])) {
      OriginStays(es, e, id, TermsOf(s.matches[id]));
    }
    forall c | c in t.calls ensures CallHasOrigin(es + [e], c) {
      if c in s.calls {
        assert CallHasOrigin(es, c);
        var terms :| Origin(es, c.matchId, terms) && CallHas(c, terms);
        OriginStays(es, e, c.matchId, terms);
      } else {
        assert c == Last(t.calls);
        OriginStays(es, e, c.matchId, TermsOf(s.matches[c.matchId]));
      }
    }
  }

  lemma CreateKeepsOrigins(es: seq<Event>, s: State, t: State, user: User, socketId: SocketId, dto: CreateDto,
                           id: MatchId)
    requires Originated(es, s) && Ordered(s) && Events.Opens(s, t, user, socketId, dto, id) && id !in s.minted
    requires (forall x :: x in s.matches ==> x in s.minted) && forall c :: c in s.calls ==> c.matchId in s.minted
    ensures Originated(es + [Create(user, socketId, dto, id)], t)
  {
    var e := Create(user, socketId, dto, id);
    var fs := es + [e];
    hide Listing;
    forall x | x in s.matches ensures Origin(fs, x, TermsOf(t.matches[x])) {
      OriginStays(es, e, x, TermsOf(s.matches[x]));
    }
    assert CreatedAt(fs, |es|, id);
    assert Origin(fs, id, TermsOf(t.matches[id]));
    hide Origin;
    forall c | c in t.calls ensures CallHasOrigin(fs, c) {
      assert CallHasOrigin(es, c);
      var terms :| Origin(es, c.matchId, terms) && CallHas(c, terms);
      OriginStays(es, e, c.matchId, terms);
    }
  }

  lemma CallsAreMinted(s: State)
    requires Inv(s)
    ensures (forall id :: id in s.matches ==> id in s.minted) && forall c :: c in s.calls ==> c.matchId in s.minted
  {
    hide TimersOk, SettlesOk, VerdictsOk, StartsOk, DuelsOk, CadenceOk;
    forall c | c in s.calls ensures c.matchId in s.minted { assert CallOk(s, c); }
  }

  lemma EventKeepsOrigins(es: seq<Event>, s: State, e: Event)
    requires Reaches(EMPTY, es, s) && Originated(es, s) && Enabled(s, e)
    ensures Shape(s) && Originated(es + [e], Step(s, e))
  {
    RunKeeps(es, s);
    hide Reaches;
    CallsAreMinted(s);
    Answers.ShapeOf(s);
    hide Inv, Originated, Step, Shape, Keeps, Events.Opens;
    assert Ordered(s) by { hide *; ShapeIsOrdered(s); }
    if e.Create? {
      Events.CreateAnswers(es, s, e.user, e.socketId, e.dto, e.newId);
      CreateKeepsOrigins(es, s, Step(s, e), e.user, e.socketId, e.dto, e.newId);
    } else {
      StepKeepsTerms(es, s, e);
      StepKeepsOrigins(es, s, Step(s, e), e);
    }
  }

  lemma {:induction false} OriginsFrom(before: seq<Event>, s: State, es: seq<Event>, t: State)
    requires Reaches(EMPTY, before, s) && Originated(before, s) && Reaches(s, es, t)
    ensures Originated(before + es, t)
    decreases |es|
  {
    hide Originated, Step, Enabled, Shape;
    if es == [] {
      assert before + es == before;
    } else {
      Plays.ReachesSnoc(EMPTY, before, s, es[0]);
      EventKeepsOrigins(before, s, es[0]);
      OriginsFrom(before + [es[0]], Step(s, es[0]), es[1..], t);
      assert before + [es[0]] + es[1..] == before + es;
    }
  }

  // In every run each live match has the title, the stake and the creator of the one event that created it, and so does
  // every call that is ever made for it.
  lemma TermsAreKept(es: seq<Event>, t: State)
    requires Reaches(EMPTY, es, t)
    ensures forall id :: id in t.matches ==> Origin(es, id, TermsOf(t.matches[id]))
    ensures forall c :: c in t.calls ==> exists terms :: Origin(es, c.matchId, terms) && CallHas(c, terms)
  {
    hide Origin;
    assert Originated([], EMPTY) && Reaches(EMPTY, [], EMPTY);
    assert [] + es == es;
    hide Reaches, Originated;
    OriginsFrom([], EMPTY, es, t);
    OriginatedSays(es, t);
  }

  lemma OriginatedSays(es: seq<Event>, t: State)
    requires Originated(es, t)
    ensures forall id :: id in t.matches ==> Origin(es, id, TermsOf(t.matches[id]))
    ensures forall c :: c in t.calls ==> exists terms :: Origin(es, c.matchId, terms) && CallHas(c, terms)
  {
    hide Origin, CallHas;
    assert forall c :: c in t.calls ==> CallHasOrigin(es, c);
  }
}
