// What the other events of the fight club answer: creating, joining, starting, expiring and finishing, each said of the
// fields of the state alone.
module FightClubEvents {
  import opened Wrappers
  import opened FightPrompt
  import opened FightClub
  import opened FightClubDuel
  import opened FightClubInvariant
  import opened FightClubSteps
  import opened FightClubRuns

  // ----- the list -----

  // A lobby without a second player.
  predicate Vacant(m: Match) { m.status == Lobby && m.player2.id == "" }

  function Offer(m: Match): Challenge {
    Challenge(m.matchId, m.player1.id, m.player1.username, m.title, m.stakeType, m.stakeAmount)
  }

  // `id` comes before `other` in insertion order.
  predicate Precedes(order: seq<MatchId>, id: MatchId, other: MatchId) {
    exists i, j :: 0 <= i < j < |order| && order[i] == id && order[j] == other
  }

  lemma {:induction false} ListingIsInOrder(order: seq<MatchId>, matches: map<MatchId, Match>, i: nat, j: nat)
    requires Listed(order, matches) && i < j < |Listing(order, matches)|
    ensures Precedes(order, Listing(order, matches)[i].id, Listing(order, matches)[j].id)
  {
    var n := |order| - 1;
    var rest, last := order[..n], order[n];
    assert order == rest + [last];
    var list := Listing(rest, matches);
    var a, b := Listing(order, matches)[i].id, Listing(order, matches)[j].id;
    if j < |list| {
      ListingIsInOrder(rest, matches, i, j);
      var k, l :| 0 <= k < l < |rest| && rest[k] == a && rest[l] == b;
      assert order[k] == a && order[l] == b;
    } else {
      ListingIds(rest, matches);
      assert list[i] in list;
      var k :| 0 <= k < |rest| && rest[k] == a;
      assert order[k] == a && order[n] == b;
    }
  }

  // In every run the list has exactly the vacant lobbies, as they are, in insertion order.
  lemma ListIsExact(es: seq<Event>, s: State)
    requires Reaches(EMPTY, es, s)
    ensures Ordered(s)
    ensures forall c :: c in ListChallenges(s) <==>
                        exists id :: id in s.matches && Vacant(s.matches[id]) && c == Offer(s.matches[id])
    ensures forall i, j :: 0 <= i < j < |ListChallenges(s)| ==>
              Precedes(s.order, ListChallenges(s)[i].id, ListChallenges(s)[j].id)
  {
    RunIsTabled(es, s);
    hide Reaches, Once, MatchOk;
    ListingIds(s.order, s.matches);
    forall c | c in ListChallenges(s)
      ensures exists id :: id in s.matches && Vacant(s.matches[id]) && c == Offer(s.matches[id])
    {
      assert Vacant(s.matches[c.id]) && c == Offer(s.matches[c.id]);
    }
    forall i, j | 0 <= i < j < |ListChallenges(s)|
      ensures Precedes(s.order, ListChallenges(s)[i].id, ListChallenges(s)[j].id)
    {
      ListingIsInOrder(s.order, s.matches, i, j);
    }
  }

  // What the invariant says of the table of matches.
  ghost predicate Tabled(s: State) {
    && Listed(s.order, s.matches) && Once(s.order) && s.created <= s.minted
    && forall id :: id in s.matches ==> id in s.order && id in s.created && MatchOk(s.matches[id])
  }

  lemma RunIsTabled(es: seq<Event>, s: State)
    requires Reaches(EMPTY, es, s)
    ensures Shape(s) && Tabled(s)
  {
    hide Reaches;
    RunKeeps(es, s);
    hide MatchOk, Once, TimersOk, SettlesOk, CallsOk, VerdictsOk, StartsOk, DuelsOk, CadenceOk;
  }

  lemma RunFrames(es: seq<Event>, s: State, frame: nat)
    requires Reaches(EMPTY, es, s) && frame in s.frames
    ensures FinishOk(s, frame) && (s.frames[frame].AwaitSockets? ==> s.frames[frame].grace.userId != "")
  {
    hide Reaches;
    RunKeeps(es, s);
    hide MatchesOk, CallsOk, VerdictsOk, StartsOk, DuelsOk, CadenceOk, FinishOk;
    assert s.frames[frame].AwaitSockets? ==> GraceOk(s, s.frames[frame].grace);
  }

  lemma RunTimers(es: seq<Event>, s: State, handle: nat)
    requires Reaches(EMPTY, es, s) && handle in s.armed
    ensures var key := s.armed[handle].Key(); key in s.timers && s.timers[key].socketId == s.armed[handle].socketId
  {
    hide Reaches;
    RunKeeps(es, s);
    hide MatchesOk, SettlesOk, CallsOk, VerdictsOk, StartsOk, DuelsOk, CadenceOk, GraceOk;
    assert ArmedOk(s, handle) && EntryOk(s, s.armed[handle].Key());
  }

  // ----- create -----

  // A player as the fight begins.
  function Fresh(id: UserId, username: string, socketId: SocketId, joined: bool): Player {
    Player(id, username, socketId, joined, 30, 0, 0, 0, [])
  }

  function TitleOf(dto: CreateDto): string {
    if dto.trimmedTitle == "" then "nameless basement duel" else dto.trimmedTitle
  }

  // A new lobby on the requested terms, whose creator is seated but has not joined.
  predicate OnTerms(m: Match, user: User, socketId: SocketId, dto: CreateDto, id: MatchId) {
    && m.matchId == id && m.title == TitleOf(dto) && m.stakeType == dto.stakeType && m.stakeAmount == dto.stakeAmount
    && m.status == Lobby && m.player1 == Fresh(user.userId, user.username, socketId, false)
    && m.player2 == Fresh("", "", "", false)
  }

  // The requested match is added at the end, everyone is sent the whole list and then the new challenge.
  ghost predicate Opens(s: State, t: State, user: User, socketId: SocketId, dto: CreateDto, id: MatchId)
    requires Ordered(s)
  {
    && id !in s.matches && id in t.matches && OnTerms(t.matches[id], user, socketId, dto, id)
    && t.order == s.order + [id] && Ordered(t)
    && ListChallenges(t) == ListChallenges(s) + [Offer(t.matches[id])]
    && t == s.(matches := s.matches[id := t.matches[id]], order := t.order,
               minted := s.minted + {id}, created := s.created + {id}, tick := s.tick + 1,
               emitted := s.emitted + [Snapshot(ListChallenges(t)), Created(Offer(t.matches[id]))])
  }

  lemma CreateAnswers(es: seq<Event>, s: State, user: User, socketId: SocketId, dto: CreateDto, newId: string)
    requires Reaches(EMPTY, es, s) && Enabled(s, Create(user, socketId, dto, newId))
    ensures Shape(s) && Opens(s, Step(s, Create(user, socketId, dto, newId)), user, socketId, dto, newId)
  {
    RunIsTabled(es, s);
    hide Reaches, Once, MatchOk, CreateStep, Opens;
    StepOpens(s, user, socketId, dto, newId);
  }

  lemma StepOpens(s: State, user: User, socketId: SocketId, dto: CreateDto, id: MatchId)
    requires Ordered(s) && Listed(s.order, s.matches) && id !in s.minted && id !in s.matches
    ensures Opens(s, Tick(CreateStep(s, user, socketId, dto, id)), user, socketId, dto, id)
  {
    NewIsListed(s, NewMatch(user, socketId, dto, id));
    hide Listing;
  }

  lemma NewIsListed(s: State, m: Match)
    requires Listed(s.order, s.matches) && m.matchId !in s.matches && Vacant(m)
    ensures Listing(s.order + [m.matchId], s.matches[m.matchId := m]) == Listing(s.order, s.matches) + [Offer(m)]
  {
    var order := s.order + [m.matchId];
    assert order[..|order| - 1] == s.order;
    ListingSame(s.order, s.matches, s.matches[m.matchId := m]);
  }

  // ----- join -----

  // How the match looks to one of its players.
  predicate Shows(v: FightState, m: Match, u: UserId) {
    && v.matchId == m.matchId && v.title == m.title && v.status == m.status
    && v.stakeType == m.stakeType && v.stakeAmount == m.stakeAmount
    && (m.player1.id == u ==>
          && v.creator && v.you == User(u, m.player1.username)
          && v.opponent == if m.player2.id == "" then None else Some(User(m.player2.id, m.player2.username)))
    && (m.player1.id != u ==>
          !v.creator && v.you == User(u, m.player2.username) &&
            v.opponent == Some(User(m.player1.id, m.player1.username)))
  }

  predicate MayJoin(s: State, u: UserId, id: MatchId) {
    id in s.matches && (s.matches[id].player1.id == u || s.matches[id].player2.id == u || Vacant(s.matches[id]))
  }

  // A player is back on this socket, or a newcomer takes the empty seat; the rest of the match is as it was.
  predicate Seats(m: Match, n: Match, user: User, socketId: SocketId) {
    n == if m.player1.id == user.userId then m.(player1 := m.player1.(socketId := socketId, joinedMatch := true))
         else if m.player2.id == user.userId then m.(player2 := m.player2.(socketId := socketId, joinedMatch := true))
         else m.(player2 := Fresh(user.userId, user.username, socketId, true))
  }

  ghost predicate Joins(s: State, t: State, user: User, socketId: SocketId, id: MatchId) {
    var key := (user.userId, id);
    && id in s.matches && id in t.matches && Seats(s.matches[id], t.matches[id], user, socketId)
    && var newcomer := s.matches[id].player1.id != user.userId && s.matches[id].player2.id != user.userId;
       && (exists v :: Shows(v, t.matches[id], user.userId) &&
                       t.frames == s.frames[s.next := AwaitRoom(id, user.userId, v)])
       && t == s.(matches := s.matches[id := t.matches[id]], frames := t.frames, next := s.next + 1, tick := s.tick + 1,
                  timers := s.timers - {key}, lastJoin := s.lastJoin[key := s.tick],
                  armed := if key in s.timers then s.armed - {s.timers[key].handle} else s.armed,
                  emitted := if newcomer then s.emitted + [Removed(id)] else s.emitted)
  }

  // What a player is sent of a match shows that match.
  lemma StateShows(m: Match, u: UserId)
    requires MatchOk(m) && u != "" && (m.player1.id == u || m.player2.id == u)
    ensures Shows(ToFightState(m, u), m, u)
  {}

  lemma JoinSeats(m: Match, user: User, socketId: SocketId)
    requires MatchOk(m) && user.userId != ""
    requires (m.player1.id == user.userId || m.player2.id == user.userId || Vacant(m))
    ensures var n := JoinedMatch(m, user, socketId);
            && n.matchId == m.matchId && Seats(m, n, user, socketId)
            && Shows(ToFightState(n, user.userId), n, user.userId)
  {}

  lemma ClearedIs(s: State, key: TimerKey)
    ensures ClearGrace(s, key) ==
            s.(timers := s.timers - {key},
               armed := if key in s.timers then s.armed - {s.timers[key].handle} else s.armed)
  {}

  lemma JoinFields(s: State, user: User, socketId: SocketId, id: MatchId)
    requires id in s.matches && s.matches[id].matchId == id && MayJoin(s, user.userId, id)
    ensures var n, key := JoinedMatch(s.matches[id], user, socketId), (user.userId, id);
            var newcomer := s.matches[id].player1.id != user.userId && s.matches[id].player2.id != user.userId;
            JoinStep(s, user, socketId, id) ==
            s.(matches := s.matches[id := n], next := s.next + 1,
               frames := s.frames[s.next := AwaitRoom(id, user.userId, ToFightState(n, user.userId))],
               timers := s.timers - {key}, lastJoin := s.lastJoin[key := s.tick],
               armed := if key in s.timers then s.armed - {s.timers[key].handle} else s.armed,
               emitted := if newcomer then s.emitted + [Removed(id)] else s.emitted)
  {
    var n := JoinedMatch(s.matches[id], user, socketId);
    assert n.matchId == id && JoinSucceeds(s, user, id);
    hide JoinedMatch, ToFightState, JoinSucceeds, ClearGrace, MayJoin;
    ClearedIs(PutMatch(s, n), (user.userId, id));
  }

  lemma JoinedSees(s: State, user: User, socketId: SocketId, id: MatchId)
    requires id in s.matches && MayJoin(s, user.userId, id)
    ensures var n := JoinedMatch(s.matches[id], user, socketId);
            JoinResult(s, user, socketId, id) == Ok(ToFightState(n, user.userId))
  {
    hide JoinedMatch, ToFightState;
  }

  lemma StepJoins(s: State, user: User, socketId: SocketId, id: MatchId)
    requires id in s.matches && MatchOk(s.matches[id]) && s.matches[id].matchId == id && user.userId != ""
    requires MayJoin(s, user.userId, id)
    ensures var t, r := Tick(JoinStep(s, user, socketId, id)), JoinResult(s, user, socketId, id);
            Joins(s, t, user, socketId, id) && r.Ok? && Shows(r.value, t.matches[id], user.userId)
  {
    JoinSeats(s.matches[id], user, socketId);
    JoinFields(s, user, socketId, id);
    JoinedSees(s, user, socketId, id);
    hide JoinStep, JoinResult, JoinedMatch, ToFightState, Shows, MatchOk, Seats, MayJoin;
  }

  lemma StepDoesNotJoin(s: State, user: User, socketId: SocketId, id: MatchId)
    requires !MayJoin(s, user.userId, id)
    ensures JoinStep(s, user, socketId, id) == s
    ensures JoinResult(s, user, socketId, id) ==
            Thrown(if id in s.matches then "fight is full" else "match not found. it got cooked.")
  {}

  // In every run a join goes through exactly for the players of the match and, while it is a lobby with an empty seat,
  // for anybody else; it seats the user on this socket, stops the user's timer for the match, and shows the match.
  lemma JoinAnswers(es: seq<Event>, s: State, user: User, socketId: SocketId, id: MatchId)
    requires Reaches(EMPTY, es, s) && Enabled(s, Join(user, socketId, id))
    ensures Shape(s)
    ensures var t, r := Step(s, Join(user, socketId, id)), JoinResult(s, user, socketId, id);
            && (r.Ok? <==> MayJoin(s, user.userId, id))
            && (r.Ok? ==> Joins(s, t, user, socketId, id) && Shows(r.value, t.matches[id], user.userId))
            && (!r.Ok? ==> t == s.(tick := s.tick + 1))
            && (id !in s.matches ==> r == Thrown("match not found. it got cooked."))
            && (id in s.matches && !r.Ok? ==> r == Thrown("fight is full"))
  {
    RunIsTabled(es, s);
    hide Reaches, Once, JoinStep, MayJoin, Joins, Shows, MatchOk, JoinResult;
    if MayJoin(s, user.userId, id) {
      assert id in s.matches by { hide *; MayJoinLive(s, user.userId, id); }
      StepJoins(s, user, socketId, id);
    } else {
      StepDoesNotJoin(s, user, socketId, id);
    }
  }

  lemma MayJoinLive(s: State, u: UserId, id: MatchId)
    requires MayJoin(s, u, id)
    ensures id in s.matches
  {}

  // ----- start -----

  // Both have come, and the fight has not begun.
  predicate BothIn(s: State, id: MatchId) {
    && id in s.matches && s.matches[id].status == Lobby && s.matches[id].player2.id != ""
    && s.matches[id].player1.joinedMatch && s.matches[id].player2.joinedMatch
  }

  ghost predicate Starts(s: State, t: State, frame: nat, id: MatchId, now: int, newId: string) {
    && id in s.matches && id in t.matches
    && var n := t.matches[id];
       && n == s.matches[id].(prompt := n.prompt, status := Fighting)
       && n.prompt.promptId == newId && n.prompt.sentAt == now && IsLetter(n.prompt.key)
       && t == s.(matches := s.matches[id := n], duels := s.duels[id := Duel(now, [])], minted := s.minted + {newId},
                  frames := s.frames - {frame}, tick := s.tick + 1)
  }

  // When the socket is in the room, the fight starts with a fresh prompt exactly if both players are in the lobby.
  lemma RoomJoinedAnswers(es: seq<Event>, s: State, frame: nat, now: int, newId: string, roll: nat)
    requires Reaches(EMPTY, es, s) && Enabled(s, RoomJoined(frame, now, newId, roll))
    ensures Shape(s)
    ensures var t, id := Step(s, RoomJoined(frame, now, newId, roll)), s.frames[frame].matchId;
            if BothIn(s, id) then Starts(s, t, frame, id, now, newId)
            else t == s.(frames := s.frames - {frame}, tick := s.tick + 1)
  {
    RunIsTabled(es, s);
    hide Reaches, Once, StartStep, BothIn, Starts, MatchOk;
    StepStarts(s, frame, now, newId, roll);
  }

  lemma StepStarts(s: State, frame: nat, now: int, newId: string, roll: nat)
    requires frame in s.frames && s.frames[frame].AwaitRoom? && newId !in s.minted && roll < 26
    requires forall id :: id in s.matches ==> s.matches[id].matchId == id && MatchOk(s.matches[id])
    ensures var t, id := Tick(StartStep(s, frame, now, newId, roll)), s.frames[frame].matchId;
            if BothIn(s, id) then Starts(s, t, frame, id, now, newId)
            else t == s.(frames := s.frames - {frame}, tick := s.tick + 1)
  {
    var id := s.frames[frame].matchId;
    if id in s.matches {
      assert MatchOk(s.matches[id]);
      ReadyIs(s, id);
    }
    hide MatchOk, Ready, BothIn;
    if BothIn(s, id) {
      assert id in s.matches by { hide *; BothInLive(s, id); }
      hide CreatePrompt;
    }
  }

  lemma BothInLive(s: State, id: MatchId)
    requires BothIn(s, id)
    ensures id in s.matches
  {}

  lemma ReadyIs(s: State, id: MatchId)
    requires id in s.matches && MatchOk(s.matches[id])
    ensures Ready(s.matches[id]) <==> BothIn(s, id)
  {}

  // ----- the grace timer -----

  // In every run a timer that fires is current: its entry goes and the sockets of its user are fetched.
  lemma TimerAnswers(es: seq<Event>, s: State, handle: nat)
    requires Reaches(EMPTY, es, s) && handle in s.armed
    ensures Shape(s)
    ensures var g := s.armed[handle];
            Step(s, TimerFires(handle)) ==
            s.(armed := s.armed - {handle}, timers := s.timers - {(g.userId, g.matchId)},
               frames := s.frames[s.next := AwaitSockets(g)], next := s.next + 1, tick := s.tick + 1)
  {
    RunIsTabled(es, s);
    RunTimers(es, s, handle);
    hide Reaches, Tabled;
    StepFetches(s, handle);
  }

  lemma StepFetches(s: State, handle: nat)
    requires handle in s.armed && s.armed[handle].Key() in s.timers
    requires s.timers[s.armed[handle].Key()].socketId == s.armed[handle].socketId
    ensures var g := s.armed[handle];
            FireStep(s, handle) ==
            s.(armed := s.armed - {handle}, timers := s.timers - {(g.userId, g.matchId)},
               frames := s.frames[s.next := AwaitSockets(g)], next := s.next + 1)
  {}

  // The lobby is still there, and its user still seated on the socket whose disconnect set the timer.
  predicate Abandoned(s: State, g: Grace) {
    && g.matchId in s.matches && s.matches[g.matchId].status == Lobby
    && var m := s.matches[g.matchId];
       || (m.player1.id == g.userId && m.player1.socketId == g.socketId)
       || (m.player2.id == g.userId && m.player2.socketId == g.socketId)
  }

  // `list` is `before` without what stands at one place.
  predicate Lacks<T(==)>(list: seq<T>, before: seq<T>, x: T) {
    exists i :: 0 <= i < |before| && before[i] == x && list == before[..i] + before[i + 1..]
  }

  // The match has lost its place, and the list at most its challenge.
  ghost predicate Unlisted(s: State, t: State, id: MatchId)
    requires Ordered(s) && id in s.matches
  {
    && Lacks(t.order, s.order, id) && Ordered(t)
    && if Vacant(s.matches[id]) then Lacks(ListChallenges(t), ListChallenges(s), Offer(s.matches[id]))
       else ListChallenges(t) == ListChallenges(s)
  }

  ghost predicate Expires(s: State, t: State, frame: nat, id: MatchId)
    requires Ordered(s) && id in s.matches
  {
    var m := s.matches[id];
    && Unlisted(s, t, id)
    && t == s.(matches := s.matches - {id}, order := t.order, frames := s.frames - {frame}, tick := s.tick + 1,
               cadence := s.cadence - {(m.player1.id, id), (m.player2.id, id)},
               emitted := s.emitted + [Removed(id)], verdicts := s.verdicts + [Cancelled(id)],
               calls := s.calls + [RecordCancelled(id, m.player1.id,
                                                   if m.player2.id == "" then None else Some(m.player2.id),
                                                   m.stakeType, m.stakeAmount)])
  }

  lemma {:induction false} EraseAbsent(order: seq<MatchId>, id: MatchId)
    requires id !in order
    ensures Erase(order, id) == order
  {
    if order != [] {
      var rest, last := order[..|order| - 1], order[|order| - 1];
      assert order == rest + [last] && last in order;
      EraseAbsent(rest, id);
    }
  }

  lemma {:induction false} EraseIs(order: seq<MatchId>, i: nat)
    requires Once(order) && i < |order|
    ensures Erase(order, order[i]) == order[..i] + order[i + 1..]
  {
    var n, id := |order| - 1, order[i];
    var rest, last := order[..n], order[n];
    assert order == rest + [last];
    assert forall j :: 0 <= j < n ==> rest[j] == order[j];
    if i == n {
      assert id !in rest;
      EraseAbsent(rest, id);
      assert order[..i] + order[i + 1..] == rest && rest + [] == rest;
    } else {
      EraseIs(rest, i);
      assert order[..i] + order[i + 1..] == (rest[..i] + rest[i + 1..]) + [last];
    }
  }

  lemma {:induction false} ListingConcat(a: seq<MatchId>, b: seq<MatchId>, matches: map<MatchId, Match>)
    requires forall id :: id in a + b ==> id in matches
    ensures forall id :: id in a || id in b ==> id in matches
    ensures Listing(a + b, matches) == Listing(a, matches) + Listing(b, matches)
  {
    forall id | id in a || id in b ensures id in matches { assert id in a + b; }
    if b == [] {
      assert a + b == a;
    } else {
      var rest, last := b[..|b| - 1], b[|b| - 1];
      assert (a + b)[..|a + b| - 1] == a + rest;
      ListingConcat(a, rest, matches);
    }
  }

  // The list is what stands before the match, the match if it is vacant, and what stands after it.
  lemma ListingParts(order: seq<MatchId>, matches: map<MatchId, Match>, i: nat)
    requires Listed(order, matches) && i < |order|
    ensures var a, m, b := order[..i], matches[order[i]], order[i + 1..];
            && (forall x :: x in a || x in b ==> x in matches)
            && Listing(order, matches) ==
               Listing(a, matches) + ((if Vacant(m) then [Offer(m)] else []) + Listing(b, matches))
  {
    var id, a, b := order[i], order[..i], order[i + 1..];
    assert id in order;
    assert order == a + ([id] + b);
    ListingConcat(a, [id] + b, matches);
    ListingConcat([id], b, matches);
    ListingOfOne(id, matches);
  }

  lemma ListingWithout(part: seq<MatchId>, matches: map<MatchId, Match>, id: MatchId)
    requires Listed(part, matches) && id !in part
    ensures Listed(part, matches - {id}) && Listing(part, matches - {id}) == Listing(part, matches)
  {
    assert Listed(part, matches - {id});
    ListingSame(part, matches, matches - {id});
  }

  lemma ListingGap(order: seq<MatchId>, matches: map<MatchId, Match>, i: nat)
    requires Listed(order, matches) && Once(order) && i < |order|
    ensures var a, b, matches' := order[..i], order[i + 1..], matches - {order[i]};
            && (forall x :: x in a || x in b ==> x in matches)
            && (forall x :: x in a + b ==> x in matches')
            && Listing(a + b, matches') == Listing(a, matches) + Listing(b, matches)
  {
    var id, a, b := order[i], order[..i], order[i + 1..];
    assert id !in a && id !in b;
    assert forall x :: x in a || x in b ==> x in order;
    assert Listed(a, matches) && Listed(b, matches);
    hide Listing, Once;
    ListingWithout(a, matches, id);
    ListingWithout(b, matches, id);
    ListingConcat(a, b, matches - {id});
  }

  lemma GapLacks<T>(a: seq<T>, x: T, b: seq<T>)
    ensures Lacks(a + b, a + ([x] + b), x)
  {
    var list := a + ([x] + b);
    assert list[|a|] == x && a + b == list[..|a|] + list[|a| + 1..];
  }

  lemma ListingLacks(order: seq<MatchId>, matches: map<MatchId, Match>, i: nat)
    requires Listed(order, matches) && Once(order) && i < |order|
    ensures var id, order' := order[i], order[..i] + order[i + 1..];
            var m, matches' := matches[id], matches - {id};
            && (forall x :: x in order' ==> x in matches')
            && (Vacant(m) ==> Lacks(Listing(order', matches'), Listing(order, matches), Offer(m)))
            && (!Vacant(m) ==> Listing(order', matches') == Listing(order, matches))
  {
    var id, a, b := order[i], order[..i], order[i + 1..];
    var m := matches[id];
    ListingParts(order, matches, i);
    ListingGap(order, matches, i);
    hide Once, Listed, Vacant, Lacks;
    var l, r := Listing(a, matches), Listing(b, matches);
    hide Listing;
    assert l + ([] + r) == l + r;
    GapLacks(l, Offer(m), r);
  }

  lemma ListingOfOne(id: MatchId, matches: map<MatchId, Match>)
    requires id in matches && matches[id].matchId == id
    ensures Listing([id], matches) == if Vacant(matches[id]) then [Offer(matches[id])] else []
  {
    assert [id][..0] == [];
  }

  // In every run the awaited `fetchSockets` removes the match of the timer exactly if no socket was found and the lobby
  // is still abandoned; then everyone hears of it once, it leaves its place in the list, and it is recorded as
  // cancelled with its players and stake; nothing else changes.
  lemma SocketsAnswer(es: seq<Event>, s: State, frame: nat, sockets: nat)
    requires Reaches(EMPTY, es, s) && frame in s.frames && s.frames[frame].AwaitSockets?
    ensures Shape(s)
    ensures var t, g := Step(s, SocketsFetched(frame, sockets)), s.frames[frame].grace;
            && (g.matchId in s.matches && g.matchId !in t.matches <==> sockets == 0 && Abandoned(s, g))
            && if sockets == 0 && Abandoned(s, g) then Expires(s, t, frame, g.matchId)
               else t == s.(frames := s.frames - {frame}, tick := s.tick + 1)
  {
    RunIsTabled(es, s);
    RunFrames(es, s, frame);
    hide Reaches, MatchOk, FinishOk, FetchStep, Abandoned, Expires, Once;
    StepExpires(s, frame, sockets);
  }

  lemma StepExpires(s: State, frame: nat, sockets: nat)
    requires frame in s.frames && s.frames[frame].AwaitSockets? && s.frames[frame].grace.userId != ""
    requires Listed(s.order, s.matches) && Once(s.order) && Ordered(s)
    requires forall id :: id in s.matches ==> id in s.order && MatchOk(s.matches[id])
    ensures var t, g := Tick(FetchStep(s, frame, sockets)), s.frames[frame].grace;
            && (g.matchId in s.matches && g.matchId !in t.matches <==> sockets == 0 && Abandoned(s, g))
            && if sockets == 0 && Abandoned(s, g) then Expires(s, t, frame, g.matchId)
               else t == s.(frames := s.frames - {frame}, tick := s.tick + 1)
  {
    var g := s.frames[frame].grace;
    StillAbandonedIs(s, frame, g);
    if sockets == 0 && Abandoned(s, g) {
      hide MatchOk;
      LobbyExpires(s, frame);
    } else {
      hide MatchOk, Listing, Once, Abandoned, Listed, StillAbandoned, CancelMatch;
    }
  }

  lemma LobbyExpires(s: State, frame: nat)
    requires frame in s.frames && s.frames[frame].AwaitSockets? && s.frames[frame].grace.matchId in s.order
    requires Listed(s.order, s.matches) && Once(s.order) && Ordered(s)
    requires StillAbandoned(Resume(s, frame), s.frames[frame].grace)
    ensures var t, id := Tick(FetchStep(s, frame, 0)), s.frames[frame].grace.matchId;
            id !in t.matches && Expires(s, t, frame, id)
  {
    var g := s.frames[frame].grace;
    assert g.matchId in s.matches && s.matches[g.matchId].matchId == g.matchId;
    CancelIs(s, frame, g);
    hide StillAbandoned, FetchStep, Erase, Unlisted;
    GoesUnlisted(s, Tick(FetchStep(s, frame, 0)), g.matchId);
    hide Listed, Once, Listing;
  }

  lemma GoesUnlisted(s: State, t: State, id: MatchId)
    requires Ordered(s) && Listed(s.order, s.matches) && Once(s.order) && id in s.order
    requires t.matches == s.matches - {id} && t.order == Erase(s.order, id)
    ensures Unlisted(s, t, id)
  {
    var i :| 0 <= i < |s.order| && s.order[i] == id;
    hide Erase, Once, Listing, Vacant, Lacks;
    EraseIs(s.order, i);
    ListingLacks(s.order, s.matches, i);
    HasPlace(s.order, i);
  }

  lemma HasPlace(order: seq<MatchId>, i: nat)
    requires i < |order|
    ensures Lacks(order[..i] + order[i + 1..], order, order[i])
  {}

  lemma StillAbandonedIs(s: State, frame: nat, g: Grace)
    requires g.matchId in s.matches ==> MatchOk(s.matches[g.matchId])
    requires g.userId != ""
    ensures StillAbandoned(Resume(s, frame), g) <==> Abandoned(s, g)
  {}

  lemma CancelIs(s: State, frame: nat, g: Grace)
    requires frame in s.frames && s.frames[frame] == AwaitSockets(g) && g.matchId in s.matches
    requires s.matches[g.matchId].matchId == g.matchId && StillAbandoned(Resume(s, frame), g)
    ensures var m, id := s.matches[g.matchId], g.matchId;
            FetchStep(s, frame, 0) ==
            s.(matches := s.matches - {id}, order := Erase(s.order, id), frames := s.frames - {frame},
               cadence := s.cadence - {(m.player1.id, id), (m.player2.id, id)},
               emitted := s.emitted + [Removed(id)], verdicts := s.verdicts + [Cancelled(id)],
               calls := s.calls + [RecordCancelled(id, m.player1.id,
                                                   if m.player2.id == "" then None else Some(m.player2.id),
                                                   m.stakeType, m.stakeAmount)])
  {
    hide StillAbandoned, Erase;
  }

  // ----- the settlement -----

  // The match is gone, its players are told this, and nobody else hears of it.
  ghost predicate Ends(s: State, t: State, frame: nat, id: MatchId, v: Verdict)
    requires Ordered(s) && id in s.matches
  {
    && Unlisted(s, t, id)
    && t == s.(matches := s.matches - {id}, order := t.order, frames := s.frames - {frame}, tick := s.tick + 1,
               cadence := s.cadence - {(s.matches[id].player1.id, id), (s.matches[id].player2.id, id)},
               verdicts := s.verdicts + [v])
  }

  lemma DropIs(s: State, frame: nat, v: Verdict)
    requires frame in s.frames && Finishing(s.frames[frame]) && FinishOk(s, frame)
    ensures var f, m := s.frames[frame], s.matches[s.frames[frame].matchId];
            DropMatch(Announce(Resume(s, frame), v), f.matchId, f.winnerId, f.loserId) ==
            s.(matches := s.matches - {f.matchId}, order := Erase(s.order, f.matchId), frames := s.frames - {frame},
               cadence := s.cadence - {(m.player1.id, f.matchId), (m.player2.id, f.matchId)},
               verdicts := s.verdicts + [v])
  {
    var f := s.frames[frame];
    assert {(f.winnerId, f.matchId), (f.loserId, f.matchId)} ==
           {(s.matches[f.matchId].player1.id, f.matchId), (s.matches[f.matchId].player2.id, f.matchId)};
    hide Erase;
  }

  lemma DropEnds(s: State, frame: nat, v: Verdict)
    requires frame in s.frames && Finishing(s.frames[frame]) && FinishOk(s, frame)
    requires Tabled(s) && Ordered(s)
    ensures var f := s.frames[frame];
            Ends(s, Tick(DropMatch(Announce(Resume(s, frame), v), f.matchId, f.winnerId, f.loserId)), frame,
                 f.matchId, v)
  {
    var f := s.frames[frame];
    assert !Vacant(s.matches[f.matchId]);
    DropIs(s, frame, v);
    hide FinishOk, MatchOk, DropMatch, Announce, Resume, Erase, Unlisted, Once;
    GoesUnlisted(s, Tick(DropMatch(Announce(Resume(s, frame), v), f.matchId, f.winnerId, f.loserId)), f.matchId);
    hide Listed, Listing;
  }

  // When the settlement returns, the awards follow; or the players are told that it failed, and the match is gone.
  lemma SettleAnswers(es: seq<Event>, s: State, frame: nat, ok: bool)
    requires Reaches(EMPTY, es, s) && frame in s.frames && s.frames[frame].AwaitSettle?
    ensures Shape(s) && s.frames[frame].matchId in s.matches
    ensures var t, f := Step(s, SettleReturns(frame, ok)), s.frames[frame];
            if ok
            then t == s.(frames := (s.frames - {frame})[s.next :=
                                                        AwaitAwards(f.matchId, f.winnerId, f.loserId, f.ending)],
                         next := s.next + 1, tick := s.tick + 1)
            else Ends(s, t, frame, f.matchId, SettleFailed(f.matchId))
  {
    RunIsTabled(es, s);
    RunFrames(es, s, frame);
    hide Reaches, Ends, Tabled, FinishOk;
    hide SettleReturnStep;
    FinishLive(s, frame);
    SettlePasses(s, frame);
    SettleFails(s, frame);
  }

  lemma SettlePasses(s: State, frame: nat)
    requires frame in s.frames && s.frames[frame].AwaitSettle?
    ensures var f := s.frames[frame];
            SettleReturnStep(s, frame, true) ==
            s.(frames := (s.frames - {frame})[s.next := AwaitAwards(f.matchId, f.winnerId, f.loserId, f.ending)],
               next := s.next + 1)
  {}

  lemma FinishLive(s: State, frame: nat)
    requires frame in s.frames && Finishing(s.frames[frame]) && FinishOk(s, frame)
    ensures s.frames[frame].matchId in s.matches
  {}

  lemma SettleFails(s: State, frame: nat)
    requires frame in s.frames && s.frames[frame].AwaitSettle? && FinishOk(s, frame) && Tabled(s) && Ordered(s)
    ensures var id := s.frames[frame].matchId;
            id in s.matches && Ends(s, Tick(SettleReturnStep(s, frame, false)), frame, id, SettleFailed(id))
  {
    FinishLive(s, frame);
    DropEnds(s, frame, SettleFailed(s.frames[frame].matchId));
    hide FinishOk, DropMatch, Announce, Tabled, Ends, Tick, Resume;
  }

  // When the awards are done, the players are told of the winner and the loser that were settled, and the match is
  // gone.
  lemma AwardsAnswer(es: seq<Event>, s: State, frame: nat)
    requires Reaches(EMPTY, es, s) && frame in s.frames && s.frames[frame].AwaitAwards?
    ensures Shape(s) && s.frames[frame].matchId in s.matches
    ensures var f := s.frames[frame];
            Ends(s, Step(s, AwardsReturn(frame)), frame, f.matchId, GameOver(f.matchId, f.winnerId, f.loserId))
  {
    RunIsTabled(es, s);
    RunFrames(es, s, frame);
    hide Reaches, MatchOk, Ends, Once;
    var f := s.frames[frame];
    DropEnds(s, frame, GameOver(f.matchId, f.winnerId, f.loserId));
    hide FinishOk, DropMatch, Announce, Tabled, Shape;
  }
}
