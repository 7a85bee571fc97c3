/** The Sidebar's computations over the room directory: which rooms the user has joined,
    the search filter, the room lookup on join and the id removal on leave. */
module Rooms {
  import opened Wrappers
  import opened Text
  import opened Entities

  /** `a` is `b` with some elements left out, the rest kept in order. */
  predicate IsSubsequence<T(==)>(a: seq<T>, b: seq<T>) {
    if a == [] then true
    else if b == [] then false
    else (a[0] == b[0] && IsSubsequence(a[1..], b[1..])) || IsSubsequence(a, b[1..])
  }

  lemma {:induction false} SubsequenceOfSelf<T>(a: seq<T>)
    ensures IsSubsequence(a, a)
  {
    if a != [] {
      SubsequenceOfSelf(a[1..]);
    }
  }

  function RoomIds(rooms: seq<Room>): (ids: seq<RoomId>)
    ensures |ids| == |rooms|
    ensures forall i :: 0 <= i < |rooms| ==> ids[i] == rooms[i].id
  {
    if rooms == [] then [] else [rooms[0].id] + RoomIds(rooms[1..])
  }

  /** `room.members.some(member => member._id === uid)` */
  predicate HasMember(room: Room, uid: UserId) {
    exists i :: 0 <= i < |room.members| && room.members[i].id == uid
  }

  /** The rooms listing the user as a member, each as often as the list has it. */
  function MemberRooms(rooms: seq<Room>, uid: UserId): (r: seq<Room>)
    ensures IsSubsequence(r, rooms)
    ensures forall y :: multiset(r)[y] == if HasMember(y, uid) then multiset(rooms)[y] else 0
  {
    if rooms == [] then []
    else
      var rest := MemberRooms(rooms[1..], uid);
      assert rooms == [rooms[0]] + rooms[1..];
      if HasMember(rooms[0], uid) then [rooms[0]] + rest else rest
  }

  /** The `joinedRooms` computation of `fetchRooms`: the ids of the rooms listing the user as a
      member, in room-list order, one per such room. */
  function JoinedRoomIds(rooms: seq<Room>, uid: UserId): (ids: seq<RoomId>)
    ensures IsSubsequence(ids, RoomIds(rooms))
    ensures forall i :: 0 <= i < |rooms| && HasMember(rooms[i], uid) ==> rooms[i].id in ids
    ensures forall x :: x in ids ==> exists i :: 0 <= i < |rooms| && rooms[i].id == x && HasMember(rooms[i], uid)
  {
    if rooms == [] then []
    else
      var rest := JoinedRoomIds(rooms[1..], uid);
      assert RoomIds(rooms)[1..] == RoomIds(rooms[1..]);
      assert forall i :: 1 <= i < |rooms| ==> rooms[1..][i - 1] == rooms[i];
      if HasMember(rooms[0], uid) then [rooms[0].id] + rest else rest
  }

  /** The joined ids are exactly the ids of the member rooms, so each joined room contributes
      its id as many times as the list holds that room, and no other id appears. */
  lemma {:induction false} JoinedAreMemberRoomIds(rooms: seq<Room>, uid: UserId)
    ensures JoinedRoomIds(rooms, uid) == RoomIds(MemberRooms(rooms, uid))
  {
    if rooms != [] {
      JoinedAreMemberRoomIds(rooms[1..], uid);
      if HasMember(rooms[0], uid) {
        var rest := MemberRooms(rooms[1..], uid);
        assert RoomIds([rooms[0]] + rest) == [rooms[0].id] + RoomIds(rest);
      }
    }
  }

  /** The search test: the lower-cased name contains the lower-cased, untrimmed query. */
  predicate NameMatches(room: Room, query: string) {
    Contains(ToLower(room.name), ToLower(query))
  }

  /** `rooms.filter(room => room.name.toLowerCase().includes(query.toLowerCase()))` */
  function MatchingRooms(rooms: seq<Room>, query: string): (r: seq<Room>)
    ensures IsSubsequence(r, rooms)
    ensures forall x :: x in r ==> NameMatches(x, query)
    ensures forall i :: 0 <= i < |rooms| && NameMatches(rooms[i], query) ==> rooms[i] in r
    ensures forall y :: multiset(r)[y] == if NameMatches(y, query) then multiset(rooms)[y] else 0
  {
    if rooms == [] then []
    else
      var rest := MatchingRooms(rooms[1..], query);
      assert rooms == [rooms[0]] + rooms[1..];
      assert forall i :: 1 <= i < |rooms| ==> rooms[1..][i - 1] == rooms[i];
      if NameMatches(rooms[0], query) then [rooms[0]] + rest else rest
  }

  /** The search effect: a query that is blank after trimming shows every room. */
  function FilterRooms(rooms: seq<Room>, query: string): (r: seq<Room>)
    ensures IsBlank(query) ==> r == rooms
    ensures !IsBlank(query) ==> r == MatchingRooms(rooms, query)
  {
    if IsBlank(query) then rooms else MatchingRooms(rooms, query)
  }

  /** Whatever the query, the search shows rooms of the list, in list order. */
  lemma FilterIsSubsequence(rooms: seq<Room>, query: string)
    ensures IsSubsequence(FilterRooms(rooms, query), rooms)
  {
    SubsequenceOfSelf(rooms);
  }

  /** The search ignores the case of the query. */
  lemma FilterIgnoresQueryCase(rooms: seq<Room>, query: string)
    ensures FilterRooms(rooms, ToUpper(query)) == FilterRooms(rooms, query)
  {
    LowerForgetsCase(query);
    UpperKeepsBlank(query);
    MatchingIgnoresQueryCase(rooms, query);
  }

  lemma {:induction false} MatchingIgnoresQueryCase(rooms: seq<Room>, query: string)
    requires ToLower(ToUpper(query)) == ToLower(query)
    ensures MatchingRooms(rooms, ToUpper(query)) == MatchingRooms(rooms, query)
  {
    if rooms != [] {
      MatchingIgnoresQueryCase(rooms[1..], query);
    }
  }

  /** `room` is the first room of the list with id `id`. */
  predicate FirstWithId(rooms: seq<Room>, id: RoomId, room: Room) {
    exists i :: 0 <= i < |rooms| && rooms[i] == room && room.id == id
                && forall j :: 0 <= j < i ==> rooms[j].id != id
  }

  lemma FirstWithIdBehindOther(rooms: seq<Room>, id: RoomId, room: Room)
    requires rooms != [] && rooms[0].id != id && FirstWithId(rooms[1..], id, room)
    ensures FirstWithId(rooms, id, room)
  {
    var i :| 0 <= i < |rooms[1..]| && rooms[1..][i] == room && room.id == id
             && forall j :: 0 <= j < i ==> rooms[1..][j].id != id;
    assert forall j :: 1 <= j < i + 1 ==> rooms[j] == rooms[1..][j - 1];
  }

  /** `rooms.find(room => room._id === id)`: the first room with that id, if any. */
  function FindRoom(rooms: seq<Room>, id: RoomId): (r: Option<Room>)
    ensures r.None? <==> forall i :: 0 <= i < |rooms| ==> rooms[i].id != id
    ensures r.Some? ==> FirstWithId(rooms, id, r.value)
  {
    if rooms == [] then None
    else if rooms[0].id == id then Some(rooms[0])
    else
      var r := FindRoom(rooms[1..], id);
      assert forall i :: 1 <= i < |rooms| ==> rooms[1..][i - 1] == rooms[i];
      if r.Some? then FirstWithIdBehindOther(rooms, id, r.value); r else r
  }

  /** `ids.filter(id => id !== x)`: every occurrence of `x` goes, every other id keeps its
      place and its number of occurrences. */
  function Without(ids: seq<RoomId>, x: RoomId): (r: seq<RoomId>)
    ensures x !in r
    ensures IsSubsequence(r, ids)
    ensures forall y :: y != x ==> multiset(r)[y] == multiset(ids)[y]
  {
    if ids == [] then []
    else
      var rest := Without(ids[1..], x);
      assert ids == [ids[0]] + ids[1..];
      if ids[0] == x then rest else [ids[0]] + rest
  }

  /** Leaving keeps every other joined room. */
  lemma WithoutKeepsOthers(ids: seq<RoomId>, x: RoomId, y: RoomId)
    requires y != x
    ensures y in Without(ids, x) <==> y in ids
  {
    assert y in Without(ids, x) <==> multiset(Without(ids, x))[y] > 0;
    assert y in ids <==> multiset(ids)[y] > 0;
  }
}
