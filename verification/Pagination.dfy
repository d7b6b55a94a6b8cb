// messages.repository.ts: a room's history read backwards, page by page.
module Pagination {
  import opened Wrappers

  type MessageId = int    // uuids, by their place in the order of ids

  datatype Message = Message(id: MessageId, roomId: string, createdAt: int, cipherText: string, isDeleted: bool)

  // What messages are ordered by.
  datatype Key = Key(createdAt: int, id: MessageId)

  predicate Before(a: Key, b: Key) { a.createdAt < b.createdAt || (a.createdAt == b.createdAt && a.id < b.id) }

  type Messages = map<MessageId, Message>

  ghost predicate Valid(t: Messages) { forall id :: id in t ==> t[id].id == id }

  function KeyOf(m: Message): Key { Key(m.createdAt, m.id) }

  function RoomKeys(t: Messages, roomId: string): (ks: set<Key>)
    ensures forall k :: k in ks <==> k.id in t && t[k.id].roomId == roomId && t[k.id].createdAt == k.createdAt
  {
    set id | id in t && t[id].roomId == roomId :: Key(t[id].createdAt, id)
  }

  // ----- the room in ascending order -----

  ghost predicate Ascends(s: seq<Key>) { forall i, j :: 0 <= i < j < |s| ==> Before(s[i], s[j]) }

  ghost predicate Newest(k: Key, ks: set<Key>) { k in ks && forall x :: x in ks && x != k ==> Before(x, k) }

  lemma {:induction false} SomeNewest(ks: set<Key>)
    requires ks != {}
    ensures exists newest :: Newest(newest, ks)
    decreases |ks|
  {
    var k :| k in ks;
    if ks == {k} {
      assert Newest(k, ks);
    } else {
      SomeNewest(ks - {k});
      var other :| Newest(other, ks - {k});
      assert forall x :: x in ks && x != k ==> x in ks - {k};
      if Before(other, k) { assert Newest(k, ks); } else { assert Newest(other, ks); }
    }
  }

  ghost function Ascending(ks: set<Key>): seq<Key>
    decreases |ks|
  {
    if ks == {} then []
    else
      SomeNewest(ks);
      var newest :| Newest(newest, ks);
      Ascending(ks - {newest}) + [newest]
  }

  // It is the one ascending list of the keys.
  lemma {:induction false} AscendingLists(ks: set<Key>)
    ensures Ascends(Ascending(ks)) && |Ascending(ks)| == |ks|
    ensures forall k :: k in Ascending(ks) <==> k in ks
    decreases |ks|
  {
    if ks != {} {
      SomeNewest(ks);
      var newest :| Newest(newest, ks) && Ascending(ks) == Ascending(ks - {newest}) + [newest];
      AscendingLists(ks - {newest});
      var rest := Ascending(ks - {newest});
      forall i, j | 0 <= i < j < |Ascending(ks)| ensures Before(Ascending(ks)[i], Ascending(ks)[j]) {
        if j == |rest| { assert rest[i] in ks - {newest}; }
      }
    }
  }

  lemma HeadIsIn(s: seq<Key>)
    requires s != []
    ensures s[0] in s
  {}

  lemma {:induction false} OneAscendingList(a: seq<Key>, b: seq<Key>)
    requires Ascends(a) && Ascends(b) && forall k :: k in a <==> k in b
    ensures a == b
    decreases |a|
  {
    if a == [] && b != [] {
      HeadIsIn(b);
    } else if a != [] && b == [] {
      HeadIsIn(a);
    } else if a != [] {
      var m, n := |a| - 1, |b| - 1;
      assert a[m] in b && b[n] in a;
      assert a[m] == b[n];
      forall k ensures k in a[..m] <==> k in b[..n] {
        assert k in a[..m] <==> k in a && k != a[m];
        assert k in b[..n] <==> k in b && k != b[n];
      }
      OneAscendingList(a[..m], b[..n]);
      assert a == a[..m] + [a[m]] && b == b[..n] + [b[n]];
    }
  }

  // ----- one page -----

  datatype Page = Page(items: seq<Message>, nextCursor: Option<MessageId>)

  function KeysOf(items: seq<Message>): seq<Key> { seq(|items|, i requires 0 <= i < |items| => KeyOf(items[i])) }

  function Lookup(t: Messages, ks: seq<Key>): seq<Message>
    requires forall k :: k in ks ==> k.id in t
  {
    seq(|ks|, i requires 0 <= i < |ks| => t[ks[i].id])
  }

  // The messages a request may return: all of the room's, or those older than the cursor.
  function Candidates(t: Messages, roomId: string, before: Option<MessageId>): set<Key> {
    if before.None? then RoomKeys(t, roomId)
    else if before.value in t
    then set k | k in RoomKeys(t, roomId) && Before(k, Key(t[before.value].createdAt, before.value))
    else {}
  }

  predicate CursorFound(t: Messages, roomId: string, before: Option<MessageId>) {
    before.Some? ==> before.value in t && t[before.value].roomId == roomId
  }

  ghost function PageAt(t: Messages, roomId: string, limit: nat, before: Option<MessageId>): Page
    requires limit >= 1
  {
    if !CursorFound(t, roomId, before) then Page([], None)
    else
      var all := Ascending(Candidates(t, roomId, before));
      CandidatesExist(t, roomId, before);
      if |all| <= limit then Page(Lookup(t, all), None)
      else Page(Lookup(t, all[|all| - limit..]), Some(all[|all| - limit].id))
  }

  class MessagesRepository {
    var messages: Messages
    var attachments: map<MessageId, seq<string>>

    constructor ()
      ensures messages == map[] && attachments == map[]
    {
      messages, attachments := map[], map[];
    }

    // The query: newest first, at most `limit`.
    method FindMany(candidates: set<Key>, limit: nat) returns (rows: seq<Key>)
      ensures var all := Ascending(candidates);
              && |rows| == (if |all| < limit then |all| else limit)
              && forall i :: 0 <= i < |rows| ==> rows[i] == all[|all| - 1 - i]
    {
      NothingLists();
      hide *;
      rows := [];
      var todo := candidates;
      ghost var all := Ascending(candidates);
      while |rows| < limit && todo != {}
        invariant |rows| <= limit && |rows| <= |all| && Ascending(todo) == all[..|all| - |rows|]
        invariant forall i :: 0 <= i < |rows| ==> rows[i] == all[|all| - 1 - i]
        decreases |todo|
      {
        var newest := FindNewest(todo);
        TakeNewest(todo, newest, all, |rows|);
        rows := rows + [newest];
        todo := todo - {newest};
      }
    }

    method FindNewest(ks: set<Key>) returns (newest: Key)
      requires ks != {}
      ensures Newest(newest, ks)
    {
      newest :| newest in ks;
      var todo := ks - {newest};
      while todo != {}
        invariant todo <= ks && Newest(newest, ks - todo)
        decreases |todo|
      {
        var k :| k in todo;
        ghost var seen := ks - todo;
        todo := todo - {k};
        assert ks - todo == seen + {k};
        if Before(newest, k) { newest := k; }
      }
      assert ks - todo == ks;
    }

    method GetRoomHistory(roomId: string, before: Option<MessageId>, limit: nat) returns (page: Page)
      requires limit >= 1
      ensures page == PageAt(messages, roomId, limit, before)
    {
      if before.Some? && (before.value !in messages || messages[before.value].roomId != roomId) {
        return Page([], None);
      }
      var candidates := Candidates(messages, roomId, before);
      var rows := FindMany(candidates, limit + 1);
      ghost var all := Ascending(candidates);
      PageIs(messages, roomId, before, limit, all);
      hide Ascending, Candidates, RoomKeys, Valid, PageAt, Lookup;
      var hasMore := |rows| > limit;
      var firstRows := if hasMore then rows[..limit] else rows;
      var keys := Reverse(firstRows);
      assert |keys| == if |all| <= limit then |all| else limit;
      assert keys == all[|all| - |keys|..];
      var items := Lookup(messages, keys);
      page := Page(items, if hasMore then Some(keys[0].id) else None);
    }

    static method Reverse(s: seq<Key>) returns (r: seq<Key>)
      ensures |r| == |s| && forall i :: 0 <= i < |s| ==> r[i] == s[|s| - 1 - i]
    {
      r := [];
      for i := 0 to |s|
        invariant |r| == i && forall j :: 0 <= j < i ==> r[j] == s[i - 1 - j]
      {
        r := [s[i]] + r;
      }
    }

    method Create(id: MessageId, roomId: string, createdAt: int, cipherText: string, files: seq<string>)
      requires id !in messages
      modifies this
      ensures messages == Created(old(messages), Message(id, roomId, createdAt, cipherText, false))
      ensures attachments == if files == [] then old(attachments) else old(attachments)[id := files]
    {
      messages := messages[id := Message(id, roomId, createdAt, cipherText, false)];
      if files != [] { attachments := attachments[id := files]; }
    }

    // The row stays; its text and attachments go.
    method DeleteMessage(id: MessageId) returns (deleted: Option<Message>)
      modifies this
      ensures messages == SoftDeleted(old(messages), id) && id !in attachments
      ensures deleted == if id in old(messages) then Some(messages[id]) else None
    {
      attachments := attachments - {id};
      if id !in messages { return None; }
      messages := messages[id := messages[id].(cipherText := "GOT DELETED LMAO CRY ABOUT IT", isDeleted := true)];
      return Some(messages[id]);
    }
  }

  function Created(t: Messages, m: Message): Messages { t[m.id := m] }

  function SoftDeleted(t: Messages, id: MessageId): Messages {
    if id in t then t[id := t[id].(cipherText := "GOT DELETED LMAO CRY ABOUT IT", isDeleted := true)] else t
  }

  // The page, and where to look its messages up, from the listing of what the request sees.
  lemma PageIs(t: Messages, roomId: string, before: Option<MessageId>, limit: nat, all: seq<Key>)
    requires limit >= 1 && CursorFound(t, roomId, before) && all == Ascending(Candidates(t, roomId, before))
    ensures forall k :: k in all ==> k.id in t
    ensures PageAt(t, roomId, limit, before)
         == if |all| <= limit then Page(Lookup(t, all), None)
            else Page(Lookup(t, all[|all| - limit..]), Some(all[|all| - limit].id))
  {
    CandidatesExist(t, roomId, before);
    hide Ascending, Candidates, Lookup;
  }

  lemma NothingLists()
    ensures Ascending({}) == []
  {}

  lemma OneNewest(a: Key, b: Key, ks: set<Key>)
    requires Newest(a, ks) && Newest(b, ks)
    ensures a == b
  {}

  lemma RemoveNewest(ks: set<Key>, newest: Key)
    requires Newest(newest, ks)
    ensures Ascending(ks) == Ascending(ks - {newest}) + [newest]
  {
    var other :| Newest(other, ks) && Ascending(ks) == Ascending(ks - {other}) + [other];
    OneNewest(other, newest, ks);
  }

  lemma TakeNewest(todo: set<Key>, newest: Key, all: seq<Key>, taken: nat)
    requires Newest(newest, todo) && taken <= |all| && Ascending(todo) == all[..|all| - taken]
    ensures taken < |all| && newest == all[|all| - 1 - taken] && Ascending(todo - {newest}) == all[..|all| - taken - 1]
  {
    RemoveNewest(todo, newest);
    hide Ascending;
    var rest := Ascending(todo - {newest});
    assert |rest| + 1 == |all| - taken;
    assert rest == (rest + [newest])[..|rest|];
    assert newest == (rest + [newest])[|rest|];
  }

  // Candidates are messages of the table, under their own keys.
  lemma CandidatesExist(t: Messages, roomId: string, before: Option<MessageId>)
    requires CursorFound(t, roomId, before)
    ensures forall k :: k in Ascending(Candidates(t, roomId, before)) ==>
            k.id in t && t[k.id].roomId == roomId && t[k.id].createdAt == k.createdAt
  {
    AscendingLists(Candidates(t, roomId, before));
  }

  // ----- following the cursors -----

  // The pages of a reader who follows `nextCursor`, over the tables as they are at each of its requests.
  ghost function Follow(ts: seq<Messages>, roomId: string, limit: nat, before: Option<MessageId>): seq<Page>
    requires limit >= 1
    decreases |ts|
  {
    if ts == [] then []
    else
      var page := PageAt(ts[0], roomId, limit, before);
      [page] + if page.nextCursor.None? then [] else Follow(ts[1..], roomId, limit, page.nextCursor)
  }

  // Older pages are put in front.
  function Joined(pages: seq<Page>): seq<Key> {
    if pages == [] then [] else Joined(pages[1..]) + KeysOf(pages[0].items)
  }

  // Since the table was `t0`, the room's messages are all still there, perhaps soft-deleted, and any others are newer
  // than every one of them.
  ghost predicate Grown(t0: Messages, t: Messages, roomId: string) {
    && Valid(t)
    && RoomKeys(t0, roomId) <= RoomKeys(t, roomId)
    && forall k, k0 :: k in RoomKeys(t, roomId) && k !in RoomKeys(t0, roomId) && k0 in RoomKeys(t0, roomId) ==>
       Before(k0, k)
  }

  function Requests(n: nat, limit: nat): nat
    requires limit >= 1
  {
    if n <= limit then 1 else 1 + Requests(n - limit, limit)
  }

  lemma {:induction false} RequestsAreCeiling(n: nat, limit: nat)
    requires limit >= 1
    ensures Requests(n, limit) == if n == 0 then 1 else (n + limit - 1) / limit
  {
    if n > limit {
      RequestsAreCeiling(n - limit, limit);
      DivStep(n - 1, limit);
    } else if n > 0 {
      DivOne(n, limit);
    }
  }

  lemma DivStep(a: nat, b: nat)
    requires 0 < b <= a
    ensures (a + b) / b == a / b + 1
  {
    assert a + b == (a / b + 1) * b + a % b;
    QuotientIs(a + b, b, a / b + 1, a % b);
  }

  lemma QuotientIs(x: nat, b: nat, q: nat, r: nat)
    requires r < b && x == q * b + r
    ensures x / b == q
  {
    var p, s := x / b, x % b;
    assert p * b + s == q * b + r;
    if p > q { AtLeastOneMore(p, q, b); }
    if p < q { AtLeastOneMore(q, p, b); }
  }

  lemma AtLeastOneMore(p: nat, q: nat, b: nat)
    requires p > q
    ensures p * b >= q * b + b
  {
    assert p * b == (q + 1) * b + (p - q - 1) * b;
  }

  lemma DivOne(n: nat, b: nat)
    requires 0 < n <= b
    ensures (n + b - 1) / b == 1
  {}

  // A request that sees exactly the first `j` messages of the listing.
  ghost predicate Sees(t: Messages, roomId: string, before: Option<MessageId>, all: seq<Key>, j: nat) {
    && Valid(t) && CursorFound(t, roomId, before) && j <= |all|
    && Ascending(Candidates(t, roomId, before)) == all[..j]
  }

  // The older part of an ascending list.
  lemma OlderPart(all: seq<Key>, j: nat, k: Key)
    requires Ascends(all) && j < |all|
    ensures k in all[..j] <==> k in all && Before(k, all[j])
  {
    if k in all && Before(k, all[j]) {
      var i :| 0 <= i < |all| && all[i] == k;
      assert i < j;
      assert all[..j][i] == k;
    }
  }

  // A cursor on a listed message sees what was listed before it, however the room has grown.
  lemma CursorSees(t0: Messages, t: Messages, roomId: string, j: nat)
    requires Grown(t0, t, roomId) && j < |Ascending(RoomKeys(t0, roomId))|
    ensures var all := Ascending(RoomKeys(t0, roomId)); Sees(t, roomId, Some(all[j].id), all, j)
  {
    var all := Ascending(RoomKeys(t0, roomId));
    AscendingLists(RoomKeys(t0, roomId));
    var cursor := all[j];
    assert cursor in all && cursor in RoomKeys(t, roomId);
    var seen := Candidates(t, roomId, Some(cursor.id));
    AscendingLists(seen);
    hide Ascending;
    forall k ensures k in all[..j] <==> k in Ascending(seen) {
      OlderPart(all, j, k);
      assert k in seen <==> k in RoomKeys(t, roomId) && Before(k, cursor);
      assert k in RoomKeys(t, roomId) && k !in RoomKeys(t0, roomId) ==> Before(cursor, k);
    }
    assert Ascends(all[..j]);
    OneAscendingList(Ascending(seen), all[..j]);
  }

  // The page of such a request, and where the next one goes on.
  lemma PageOfPrefix(t: Messages, roomId: string, limit: nat, before: Option<MessageId>, all: seq<Key>, j: nat)
    requires limit >= 1 && Sees(t, roomId, before, all, j)
    ensures var page := PageAt(t, roomId, limit, before);
            var start := if j <= limit then 0 else j - limit;
            KeysOf(page.items) == all[start..j] && page.nextCursor == if j <= limit then None else Some(all[start].id)
  {
    CandidatesExist(t, roomId, before);
    var seen := Ascending(Candidates(t, roomId, before));
    hide Ascending, Candidates;
    var start := if j <= limit then 0 else j - limit;
    assert seen[start..] == all[start..j];
    assert forall k :: k in seen[start..] ==> k in seen;
    assert KeysOf(Lookup(t, seen[start..])) == seen[start..];
  }

  lemma {:induction false} FollowFrom(t0: Messages, ts: seq<Messages>, roomId: string, limit: nat,
                                      before: Option<MessageId>, j: nat)
    requires limit >= 1 && |ts| >= Requests(j, limit)
    requires forall i :: 0 <= i < |ts| ==> Grown(t0, ts[i], roomId)
    requires Sees(ts[0], roomId, before, Ascending(RoomKeys(t0, roomId)), j)
    ensures var pages := Follow(ts, roomId, limit, before);
            && |pages| == Requests(j, limit) && pages[|pages| - 1].nextCursor.None?
            && Joined(pages) == Ascending(RoomKeys(t0, roomId))[..j]
    decreases j
  {
    var all := Ascending(RoomKeys(t0, roomId));
    hide PageAt, Grown, Ascending, KeysOf, RoomKeys;
    PageOfPrefix(ts[0], roomId, limit, before, all, j);
    var page := PageAt(ts[0], roomId, limit, before);
    hide Sees;
    if j <= limit {
      assert [page][1..] == [];
      assert all[0..j] == all[..j];
    } else {
      var rest := ts[1..];
      assert Grown(t0, ts[1], roomId) && rest[0] == ts[1];
      CursorSees(t0, rest[0], roomId, j - limit);
      FollowFrom(t0, rest, roomId, limit, page.nextCursor, j - limit);
      var tail := Follow(rest, roomId, limit, page.nextCursor);
      assert ([page] + tail)[1..] == tail;
      assert all[..j - limit] + all[j - limit..j] == all[..j];
    }
  }

  // From no cursor to a null one takes max(1, ceil(n / limit)) requests, and the pages put together are the room as it
  // was at the first request, in order and each message once; newer messages and soft deletes in
  // between change nothing.
  lemma WalkIsComplete(ts: seq<Messages>, roomId: string, limit: nat)
    requires limit >= 1 && ts != [] && Valid(ts[0])
    requires forall i :: 0 <= i < |ts| ==> Grown(ts[0], ts[i], roomId)
    requires var n := |RoomKeys(ts[0], roomId)|; |ts| >= if n == 0 then 1 else (n + limit - 1) / limit
    ensures var pages := Follow(ts, roomId, limit, None);
            var n := |RoomKeys(ts[0], roomId)|;
            && |pages| == (if n == 0 then 1 else (n + limit - 1) / limit)
            && pages[|pages| - 1].nextCursor.None?
            && Joined(pages) == Ascending(RoomKeys(ts[0], roomId))
  {
    var room := RoomKeys(ts[0], roomId);
    AscendingLists(room);
    RequestsAreCeiling(|room|, limit);
    var all := Ascending(room);
    assert all[..|all|] == all;
    hide Ascending, Grown;
    FollowFrom(ts[0], ts, roomId, limit, None, |all|);
  }

  // Posting later messages and deleting any are ways to grow.
  lemma ChangesGrow(t0: Messages, t: Messages, roomId: string, m: Message, id: MessageId)
    requires Valid(t0) && Grown(t0, t, roomId)
    ensures Grown(t0, SoftDeleted(t, id), roomId)
    ensures m.id !in t && (m.roomId == roomId ==> forall k :: k in RoomKeys(t0, roomId) ==> Before(k, KeyOf(m))) ==>
              Grown(t0, Created(t, m), roomId)
    ensures Grown(t0, t0, roomId)
  {
    assert RoomKeys(SoftDeleted(t, id), roomId) == RoomKeys(t, roomId);
  }

  // A deleted message keeps its row and place, nothing of its text is left, and no other row is touched.
  lemma TextIsGone(t: Messages, id: MessageId, text: string, other: MessageId)
    requires id in t
    ensures var gone := SoftDeleted(t, id);
            && gone.Keys == t.Keys && (other in t && other != id ==> gone[other] == t[other])
            && gone[id].isDeleted && KeyOf(gone[id]) == KeyOf(t[id]) && gone[id].roomId == t[id].roomId
            && SoftDeleted(t[id := t[id].(cipherText := text)], id) == gone
  {
    var rewritten := t[id := t[id].(cipherText := text)];
    assert SoftDeleted(rewritten, id) == rewritten[id := SoftDeleted(t, id)[id]];
  }
}
