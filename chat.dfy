/** ChatService: the chat rooms between a customer and an office owner, the
    per-viewer projections of rooms and messages, room creation and sending. */
module Chat {
  import opened Errors

  /** A customer or an office owner as a chat room refers to them. */
  datatype Person = Person(id: int, name: string)

  /** Times are LocalDateTime values, ordered; isAfter is `>`. */
  datatype ChatRoom = ChatRoom(
    uid: string,
    customer: Person,
    owner: Person,
    lastSeenCustomer: int,
    lastSeenOwner: int)

  /** Exactly one of customerId and ownerId is set by send: the side that wrote it. */
  datatype ChatMessage = ChatMessage(
    roomUid: string,
    customerId: Option<int>,
    ownerId: Option<int>,
    message: string,
    createdAt: int)

  datatype ChatRoomStatus = ChatRoomStatus(
    roomUid: string,
    roomName: string,
    userName: string,
    lastMessage: string,
    lastMessageTime: int,
    newMessage: bool)

  datatype ChatMessageResponse = ChatMessageResponse(
    message: string,
    isMyMessage: bool,
    sender: string,
    createdAt: int)

  /** Whose side of the conversation the caller is on. */
  datatype Viewer = CustomerView | OwnerView

  /** The user type from the token: "customer", and every other value is treated as an owner. */
  function ViewerOf(userType: string): (v: Viewer)
    ensures v == CustomerView <==> userType == "customer"
  {
    if userType == "customer" then CustomerView else OwnerView
  }

  /* ---------------- the last message of each room ---------------- */

  /** The position of the last message for a room, or -1 when the room has none:
      it is that room's, and no message after it is. */
  function LastIndexFor(ms: seq<ChatMessage>, uid: string): (k: int)
    ensures -1 <= k < |ms|
    ensures k >= 0 ==> ms[k].roomUid == uid
    ensures forall j :: k < j < |ms| ==> ms[j].roomUid != uid
  {
    if ms == [] then -1
    else if ms[|ms| - 1].roomUid == uid then |ms| - 1
    else
      var k := LastIndexFor(ms[..|ms| - 1], uid);
      assert forall j :: k < j < |ms| - 1 ==> ms[..|ms| - 1][j] == ms[j];
      k
  }

  /** The last message for a room in the given order, if any. */
  function LastMessageFor(ms: seq<ChatMessage>, uid: string): Option<ChatMessage> {
    var k := LastIndexFor(ms, uid);
    if k < 0 then None else Some(ms[k])
  }

  /* ---------------- the newest message of a set of rooms ---------------- */

  /** The uids of a list of rooms. */
  function Uids(rooms: seq<ChatRoom>): set<string> {
    set room | room in rooms :: room.uid
  }

  /** The position of the newest message among those of the given rooms, or -1 when they
      have none. Of equally new messages the first stored is taken. */
  function NewestIndexIn(ms: seq<ChatMessage>, uids: set<string>): (k: int)
    ensures -1 <= k < |ms|
    ensures k == -1 <==> forall j :: 0 <= j < |ms| ==> ms[j].roomUid !in uids
    ensures k >= 0 ==> ms[k].roomUid in uids
    ensures k >= 0 ==> forall j :: 0 <= j < |ms| && ms[j].roomUid in uids ==> ms[j].createdAt <= ms[k].createdAt
  {
    if ms == [] then -1
    else
      var n := |ms| - 1;
      var k := NewestIndexIn(ms[..n], uids);
      assert forall j :: 0 <= j < n ==> ms[..n][j] == ms[j];
      if ms[n].roomUid in uids && (k < 0 || ms[n].createdAt > ms[k].createdAt) then n else k
  }

  /** findTopByChatRoomInOrderByCreatedAtDesc: a derived query whose bare Top limits it to
      one row, so it returns the newest message of all the given rooms together, or nothing. */
  function TopByCreatedAtDesc(ms: seq<ChatMessage>, uids: set<string>): (top: seq<ChatMessage>)
    ensures |top| <= 1
    ensures top == [] <==> forall m :: m in ms ==> m.roomUid !in uids
    ensures top != [] ==> top[0] in ms && top[0].roomUid in uids
    ensures top != [] ==> forall m :: m in ms && m.roomUid in uids ==> m.createdAt <= top[0].createdAt
  {
    var k := NewestIndexIn(ms, uids);
    if k < 0 then [] else [ms[k]]
  }

  /** As written, at most one room of a list shows a last message: whatever the rooms hold,
      the one row the query returns belongs to a single room. */
  lemma AtMostOneRoomShowsAMessage(ms: seq<ChatMessage>, mine: seq<ChatRoom>, i: int, j: int)
    requires 0 <= i < |mine| && 0 <= j < |mine| && mine[i].uid != mine[j].uid
    ensures var top := TopByCreatedAtDesc(ms, Uids(mine));
            LastMessageFor(top, mine[i].uid).None? || LastMessageFor(top, mine[j].uid).None?
  {
  }

  /** Two rooms of one customer, each with a message the customer has not seen: as written,
      the room with the older message shows no message and no news; per room, it shows both. */
  lemma OlderUnreadRoomHidden()
    ensures var a := ChatRoom("a", Person(1, "kim"), Person(2, "lee"), 0, 0);
            var b := ChatRoom("b", Person(1, "kim"), Person(3, "park"), 0, 0);
            var ms := [ChatMessage("a", None, Some(2), "hi", 5), ChatMessage("b", None, Some(3), "yo", 6)];
            var top := TopByCreatedAtDesc(ms, Uids([a, b]));
            && RoomStatus(a, LastMessageFor(top, "a"), CustomerView) == ChatRoomStatus("a", "lee", "kim", "", 0, false)
            && RoomStatus(a, NewestMessage(ms, "a"), CustomerView) == ChatRoomStatus("a", "lee", "kim", "hi", 5, true)
  {
    var a := ChatRoom("a", Person(1, "kim"), Person(2, "lee"), 0, 0);
    var b := ChatRoom("b", Person(1, "kim"), Person(3, "park"), 0, 0);
    var ms := [ChatMessage("a", None, Some(2), "hi", 5), ChatMessage("b", None, Some(3), "yo", 6)];
    assert Uids([a, b]) == {"a", "b"};
    assert TopByCreatedAtDesc(ms, {"a", "b"}) == [ms[1]];
    assert TopByCreatedAtDesc(ms, {"a"}) == [ms[0]];
  }

  /** The newest message of one room, if it has any. */
  function NewestMessage(ms: seq<ChatMessage>, uid: string): (last: Option<ChatMessage>)
    ensures last.None? <==> forall m :: m in ms ==> m.roomUid != uid
    ensures last.Some? ==> last.value in ms && last.value.roomUid == uid
    ensures last.Some? ==> forall m :: m in ms && m.roomUid == uid ==> m.createdAt <= last.value.createdAt
  {
    var top := TopByCreatedAtDesc(ms, {uid});
    if top == [] then None else Some(top[0])
  }

  /** The query as intended: the newest message of each room, one row per room that has any. */
  function NewestPerRoom(ms: seq<ChatMessage>, rooms: seq<ChatRoom>): seq<ChatMessage> {
    if rooms == [] then []
    else NewestPerRoom(ms, rooms[..|rooms| - 1]) + TopByCreatedAtDesc(ms, {rooms[|rooms| - 1].uid})
  }

  /** The last message for a room after a row of another room is the one before that row. */
  lemma LastMessageForOther(ms: seq<ChatMessage>, extra: seq<ChatMessage>, uid: string)
    requires forall m :: m in extra ==> m.roomUid != uid
    requires |extra| <= 1
    ensures LastMessageFor(ms + extra, uid) == LastMessageFor(ms, uid)
  {
    if extra != [] {
      assert (ms + extra)[..|ms|] == ms;
    } else {
      assert ms + extra == ms;
    }
  }

  lemma UidsSnoc(pre: seq<ChatRoom>, room: ChatRoom)
    ensures Uids(pre + [room]) == Uids(pre) + {room.uid}
  {
    assert forall r :: r in pre + [room] <==> r in pre || r == room;
  }

  /** The last message for a room after its own newest row is that row. */
  lemma LastMessageForOwn(ms: seq<ChatMessage>, m: ChatMessage)
    ensures LastMessageFor(ms + [m], m.roomUid) == Some(m)
  {
    assert (ms + [m])[|ms|] == m;
  }

  /** Feeding the per-room rows through the map loop leaves every listed room with its own
      newest message, and no entry for any other room. */
  lemma {:induction false} NewestPerRoomLast(ms: seq<ChatMessage>, rooms: seq<ChatRoom>, uid: string)
    ensures LastMessageFor(NewestPerRoom(ms, rooms), uid) == if uid in Uids(rooms) then NewestMessage(ms, uid) else None
  {
    if rooms != [] {
      var n := |rooms| - 1;
      var pre := rooms[..n];
      var rest := NewestPerRoom(ms, pre);
      var top := TopByCreatedAtDesc(ms, {rooms[n].uid});
      assert NewestPerRoom(ms, rooms) == rest + top;
      NewestPerRoomLast(ms, pre, uid);
      assert rooms == pre + [rooms[n]];
      UidsSnoc(pre, rooms[n]);
      if rooms[n].uid == uid {
        assert uid in Uids(rooms);
        if top != [] {
          assert top == [top[0]];
          LastMessageForOwn(rest, top[0]);
        } else {
          assert rest + top == rest;
        }
      } else {
        assert uid in Uids(rooms) <==> uid in Uids(pre);
        LastMessageForOther(rest, top, uid);
      }
    }
  }

  /** The room holds a message newer than the viewer's last visit. */
  predicate HasUnread(ms: seq<ChatMessage>, room: ChatRoom, v: Viewer) {
    exists m :: m in ms && m.roomUid == room.uid && m.createdAt > LastSeen(room, v)
  }

  /** Per room, the list shows news exactly when the room holds a message newer than the
      viewer's last visit. */
  lemma NewsIffUnread(ms: seq<ChatMessage>, room: ChatRoom, v: Viewer)
    ensures RoomStatus(room, NewestMessage(ms, room.uid), v).newMessage <==> HasUnread(ms, room, v)
  {
  }

  /* ---------------- per-viewer projections ---------------- */

  /** The rooms of one user in repository order: findByCustomer or findByOfficeOwner. */
  function RoomsOf(rooms: seq<ChatRoom>, userId: int, v: Viewer): (mine: seq<ChatRoom>)
    ensures forall room :: room in mine <==> room in rooms && Party(room, v).id == userId
    ensures |mine| <= |rooms|
  {
    if rooms == [] then []
    else (if Party(rooms[0], v).id == userId then [rooms[0]] else []) + RoomsOf(rooms[1..], userId, v)
  }

  /** The room list keeps every room of the user as often as the repository holds it,
      and no other room. */
  lemma {:induction false} RoomsOfCounts(rooms: seq<ChatRoom>, userId: int, v: Viewer)
    ensures forall room :: multiset(RoomsOf(rooms, userId, v))[room]
                           == if Party(room, v).id == userId then multiset(rooms)[room] else 0
  {
    if rooms != [] {
      RoomsOfCounts(rooms[1..], userId, v);
      assert rooms == [rooms[0]] + rooms[1..];
      assert multiset(rooms) == multiset{rooms[0]} + multiset(rooms[1..]);
    }
  }

  /** The viewer's own side of a room, and the other side. */
  function Party(room: ChatRoom, v: Viewer): Person {
    if v == CustomerView then room.customer else room.owner
  }

  function OtherParty(room: ChatRoom, v: Viewer): Person {
    if v == CustomerView then room.owner else room.customer
  }

  function LastSeen(room: ChatRoom, v: Viewer): int {
    if v == CustomerView then room.lastSeenCustomer else room.lastSeenOwner
  }

  /** One line of the room list: named after the other side; the last message and
      whether it came after the viewer last looked, or "" and no news for an empty room
      (whose time is the customer's last-seen time in both views). */
  function RoomStatus(room: ChatRoom, last: Option<ChatMessage>, v: Viewer): (st: ChatRoomStatus)
    ensures st.roomUid == room.uid
    ensures st.roomName == OtherParty(room, v).name && st.userName == Party(room, v).name
    ensures st.newMessage <==> last.Some? && last.value.createdAt > LastSeen(room, v)
    ensures last.Some? ==> st.lastMessage == last.value.message && st.lastMessageTime == last.value.createdAt
    ensures last.None? ==> st.lastMessage == "" && st.lastMessageTime == room.lastSeenCustomer
  {
    match last
    case Some(m) =>
      ChatRoomStatus(room.uid, OtherParty(room, v).name, Party(room, v).name, m.message, m.createdAt,
                     m.createdAt > LastSeen(room, v))
    case None =>
      ChatRoomStatus(room.uid, OtherParty(room, v).name, Party(room, v).name, "", room.lastSeenCustomer, false)
  }

  /** Who wrote a message, as seen from the viewer's side. */
  predicate WrittenBy(m: ChatMessage, v: Viewer) {
    if v == CustomerView then m.customerId.Some? else m.ownerId.Some?
  }

  /** One line of a room's transcript: mine when my side's id is set on it, and the
      sender is my name then, the other side's name otherwise. */
  function MessageView(m: ChatMessage, room: ChatRoom, v: Viewer): (r: ChatMessageResponse)
    ensures r.message == m.message && r.createdAt == m.createdAt
    ensures r.isMyMessage <==> WrittenBy(m, v)
    ensures r.sender == if WrittenBy(m, v) then Party(room, v).name else OtherParty(room, v).name
  {
    var mine := WrittenBy(m, v);
    ChatMessageResponse(m.message, mine, if mine then Party(room, v).name else OtherParty(room, v).name, m.createdAt)
  }

  /** A message attributed to exactly one side reads the same in both views: both name the
      same sender, and exactly one of the two calls it its own. */
  lemma ViewsAgree(m: ChatMessage, room: ChatRoom)
    requires m.customerId.Some? != m.ownerId.Some?
    ensures MessageView(m, room, CustomerView).sender == MessageView(m, room, OwnerView).sender
    ensures MessageView(m, room, CustomerView).isMyMessage != MessageView(m, room, OwnerView).isMyMessage
  {
  }

  /** The messages of one room, in repository order: findByChatRoom. */
  function RoomMessages(ms: seq<ChatMessage>, uid: string): (r: seq<ChatMessage>)
    ensures forall m :: m in r <==> m in ms && m.roomUid == uid
    ensures |r| <= |ms|
  {
    if ms == [] then []
    else (if ms[0].roomUid == uid then [ms[0]] else []) + RoomMessages(ms[1..], uid)
  }

  /** The transcript keeps every message of the room as often as the repository holds it,
      and no other message. */
  lemma {:induction false} RoomMessagesCounts(ms: seq<ChatMessage>, uid: string)
    ensures forall m :: multiset(RoomMessages(ms, uid))[m] == if m.roomUid == uid then multiset(ms)[m] else 0
  {
    if ms != [] {
      RoomMessagesCounts(ms[1..], uid);
      assert ms == [ms[0]] + ms[1..];
      assert multiset(ms) == multiset{ms[0]} + multiset(ms[1..]);
    }
  }

  function FindRoom(rooms: seq<ChatRoom>, uid: string): (r: Option<ChatRoom>)
    ensures r.None? <==> forall room :: room in rooms ==> room.uid != uid
    ensures r.Some? ==> r.value in rooms && r.value.uid == uid
  {
    if rooms == [] then None
    else if rooms[0].uid == uid then Some(rooms[0])
    else FindRoom(rooms[1..], uid)
  }

  /** The message send stores: written by the customer exactly when the sender's name is
      the customer's name, otherwise by the owner; the time is when it is saved. */
  function Attribute(room: ChatRoom, sender: string, text: string, now: int): (m: ChatMessage)
    ensures m.roomUid == room.uid && m.message == text && m.createdAt == now
    ensures m.customerId.Some? <==> sender == room.customer.name
    ensures m.customerId.Some? != m.ownerId.Some?
    ensures m.customerId.Some? ==> m.customerId.value == room.customer.id
    ensures m.ownerId.Some? ==> m.ownerId.value == room.owner.id
  {
    if sender == room.customer.name then ChatMessage(room.uid, Some(room.customer.id), None, text, now)
    else ChatMessage(room.uid, None, Some(room.owner.id), text, now)
  }

  /** Attribution is by display name: when the owner has the same name as the customer,
      the owner's messages are stored as the customer's. */
  lemma SameNameSendsAsCustomer(room: ChatRoom, text: string, now: int)
    requires room.owner.name == room.customer.name
    ensures var m := Attribute(room, room.owner.name, text, now);
            m.customerId.Some? && MessageView(m, room, OwnerView).isMyMessage == false
  {
  }

  /** existsByCustomerAndOfficeOwner: a scan of the rooms that answers whether some room
      joins this customer and this owner. */
  function HasRoom(rooms: seq<ChatRoom>, customerId: int, ownerId: int): (b: bool)
    ensures b <==> exists room :: room in rooms && room.customer.id == customerId && room.owner.id == ownerId
  {
    if rooms == [] then false
    else if rooms[0].customer.id == customerId && rooms[0].owner.id == ownerId then true
    else
      assert forall room :: room in rooms <==> room == rooms[0] || room in rooms[1..];
      HasRoom(rooms[1..], customerId, ownerId)
  }

  /* ---------------- the service ---------------- */

  class ChatService {
    var rooms: seq<ChatRoom>
    var messages: seq<ChatMessage>
    /** Customer and office-owner names by id. */
    var customers: map<int, string>
    var owners: map<int, string>
    /** The owner id of each office. */
    var offices: map<int, int>

    /** Room uids are unique, there is at most one room per customer and owner, and
        every office's owner is a known owner. */
    ghost predicate Valid()
      reads this
    {
      && (forall i, j :: 0 <= i < j < |rooms| ==> rooms[i].uid != rooms[j].uid)
      && (forall i, j :: 0 <= i < j < |rooms| ==>
            rooms[i].customer.id != rooms[j].customer.id || rooms[i].owner.id != rooms[j].owner.id)
      && (forall o :: o in offices ==> offices[o] in owners)
    }

    /** getChatMessageHashMap: put every message under its room in turn, so each room
        keeps the last of its messages. */
    method ChatMessageMap(ms: seq<ChatMessage>) returns (chatMap: map<string, ChatMessage>)
      ensures forall uid :: uid in chatMap <==> LastMessageFor(ms, uid).Some?
      ensures forall uid :: uid in chatMap ==> chatMap[uid] == LastMessageFor(ms, uid).value
    {
      chatMap := map[];
      for i := 0 to |ms|
        invariant forall uid :: uid in chatMap <==> LastMessageFor(ms[..i], uid).Some?
        invariant forall uid :: uid in chatMap ==> chatMap[uid] == LastMessageFor(ms[..i], uid).value
      {
        assert ms[..i + 1][..i] == ms[..i];
        chatMap := chatMap[ms[i].roomUid := ms[i]];
      }
      assert ms[..|ms|] == ms;
    }

    /** findAllRoom: the caller must exist on their side; one status per room of theirs,
        in room order, each built from that room's newest message. */
    method FindAllRoom(userId: int, userType: string) returns (r: Result<seq<ChatRoomStatus>>)
      ensures var v := ViewerOf(userType);
              r.Err? <==> userId !in (if v == CustomerView then customers else owners)
      ensures r.Err? ==> r.error == USER_NOT_FOUND
      ensures r.Ok? ==>
                var v := ViewerOf(userType);
                var mine := RoomsOf(rooms, userId, v);
                && |r.value| == |mine|
                && forall i :: 0 <= i < |mine| ==> r.value[i] == RoomStatus(mine[i], NewestMessage(messages, mine[i].uid), v)
    {
      var v := ViewerOf(userType);
      if v == CustomerView && userId !in customers {
        return Err(USER_NOT_FOUND);
      }
      if v == OwnerView && userId !in owners {
        return Err(USER_NOT_FOUND);
      }
      var mine := RoomsOf(rooms, userId, v);
      var rows := NewestPerRoom(messages, mine);
      var chatMap := ChatMessageMap(rows);
      var result: seq<ChatRoomStatus> := [];
      for i := 0 to |mine|
        invariant |result| == i
        invariant forall k :: 0 <= k < i ==> result[k] == RoomStatus(mine[k], LastMessageFor(rows, mine[k].uid), v)
      {
        var room := mine[i];
        var status;
        if room.uid in chatMap {
          var last := chatMap[room.uid];
          status := ChatRoomStatus(room.uid, OtherParty(room, v).name, Party(room, v).name,
                                   last.message, last.createdAt, last.createdAt > LastSeen(room, v));
        } else {
          status := ChatRoomStatus(room.uid, OtherParty(room, v).name, Party(room, v).name,
                                   "", room.lastSeenCustomer, false);
        }
        result := result + [status];
      }
      forall k | 0 <= k < |mine|
        ensures result[k] == RoomStatus(mine[k], NewestMessage(messages, mine[k].uid), v)
      {
        assert mine[k].uid in Uids(mine);
        NewestPerRoomLast(messages, mine, mine[k].uid);
      }
      return Ok(result);
    }

    /** roomInfo: the room must exist; one response per message of the room, in order. */
    method RoomInfo(roomUid: string, userType: string) returns (r: Result<seq<ChatMessageResponse>>)
      ensures r.Err? <==> FindRoom(rooms, roomUid).None?
      ensures r.Err? ==> r.error == CHAT_ROOM_NOT_FOUND
      ensures r.Ok? ==>
                var room := FindRoom(rooms, roomUid).value;
                var ms := RoomMessages(messages, roomUid);
                && |r.value| == |ms|
                && forall i :: 0 <= i < |ms| ==> r.value[i] == MessageView(ms[i], room, ViewerOf(userType))
    {
      var v := ViewerOf(userType);
      var found := FindRoom(rooms, roomUid);
      if found.None? {
        return Err(CHAT_ROOM_NOT_FOUND);
      }
      var room := found.value;
      var ms := RoomMessages(messages, roomUid);
      var result: seq<ChatMessageResponse> := [];
      for i := 0 to |ms|
        invariant |result| == i
        invariant forall k :: 0 <= k < i ==> result[k] == MessageView(ms[k], room, v)
      {
        var m := ms[i];
        var sender;
        var isMine := false;
        if WrittenBy(m, v) {
          sender := Party(room, v).name;
          isMine := true;
        } else {
          sender := OtherParty(room, v).name;
        }
        result := result + [ChatMessageResponse(m.message, isMine, sender, m.createdAt)];
      }
      return Ok(result);
    }

    /** createRoom: the customer and the office must exist, and the customer may not
        already have a room with the office's owner; the new room is appended. The room's
        uid and creation time come from outside (a random UUID and the clock). */
    method CreateRoom(customerId: int, officeId: int, uid: string, now: int) returns (r: Result<ChatRoom>)
      requires Valid()
      requires forall room :: room in rooms ==> room.uid != uid
      modifies this
      ensures Valid()
      ensures messages == old(messages) && customers == old(customers)
      ensures owners == old(owners) && offices == old(offices)
      ensures customerId !in customers ==> r == Err(USER_NOT_FOUND)
      ensures customerId in customers && officeId !in offices ==> r == Err(INVALID_OFFICE_ID)
      ensures customerId in customers && officeId in offices
              && HasRoom(old(rooms), customerId, offices[officeId])
              ==> r == Err(CHAT_ROOM_ALREADY_EXISTS)
      ensures r.Ok? <==> customerId in customers && officeId in offices
                         && !HasRoom(old(rooms), customerId, offices[officeId])
      ensures r.Err? ==> rooms == old(rooms)
      ensures r.Ok? ==>
                var ownerId := offices[officeId];
                && r.value == ChatRoom(uid, Person(customerId, customers[customerId]),
                                       Person(ownerId, owners[ownerId]), now, now)
                && rooms == old(rooms) + [r.value]
    {
      if customerId !in customers {
        return Err(USER_NOT_FOUND);
      }
      if officeId !in offices {
        return Err(INVALID_OFFICE_ID);
      }
      var ownerId := offices[officeId];
      if HasRoom(rooms, customerId, ownerId) {
        return Err(CHAT_ROOM_ALREADY_EXISTS);
      }
      var room := ChatRoom(uid, Person(customerId, customers[customerId]), Person(ownerId, owners[ownerId]), now, now);
      rooms := rooms + [room];
      return Ok(room);
    }

    /** send: the room must exist; exactly one message is appended, attributed by name. */
    method Send(roomUid: string, sender: string, text: string, now: int) returns (r: Outcome)
      modifies this
      ensures rooms == old(rooms) && customers == old(customers)
      ensures owners == old(owners) && offices == old(offices)
      ensures r.Fail? <==> FindRoom(rooms, roomUid).None?
      ensures r.Fail? ==> r.error == CHAT_ROOM_NOT_FOUND && messages == old(messages)
      ensures r.Pass? ==> messages == old(messages) + [Attribute(FindRoom(rooms, roomUid).value, sender, text, now)]
    {
      var found := FindRoom(rooms, roomUid);
      if found.None? {
        return Fail(CHAT_ROOM_NOT_FOUND);
      }
      var room := found.value;
      var m;
      if sender == room.customer.name {
        m := ChatMessage(room.uid, Some(room.customer.id), None, text, now);
      } else {
        m := ChatMessage(room.uid, None, Some(room.owner.id), text, now);
      }
      messages := messages + [m];
      return Pass;
    }
  }

  /** After a send at a time later than every earlier message of the room, the sent message
      is the room's newest message, and it shows as news to the side that did not write it
      if they last looked before it was sent. */
  lemma SentMessageIsLast(ms: seq<ChatMessage>, room: ChatRoom, sender: string, text: string, now: int, v: Viewer)
    requires forall x :: x in ms && x.roomUid == room.uid ==> x.createdAt < now
    requires !WrittenBy(Attribute(room, sender, text, now), v) && LastSeen(room, v) < now
    ensures var m := Attribute(room, sender, text, now);
            var last := NewestMessage(ms + [m], room.uid);
            last == Some(m) && RoomStatus(room, last, v).newMessage && RoomStatus(room, last, v).lastMessage == text
  {
    var m := Attribute(room, sender, text, now);
    assert m in ms + [m];
  }

}
