/**
 * The message service: the two parties of a mission chat, each message
 * addressed to the other party; reading a mission's messages marks those
 * addressed to the reader as read; the unread count is per receiver.
 */
module MessageService {
  import opened Records
  import opened Store

  const NoProviderYet := AppError(400, "Mission has no provider yet")

  /** The message push throws: the receiver has a token and delivery failed. */
  predicate MessagePushFails(users: seq<User>, receiverId: nat, pushOk: bool) {
    receiverId < |users| && TruthyText(users[receiverId].fcmToken) && !pushOk
  }

  /**
   * sendMessage: 404 for an unknown mission, 403 when the sender is not a
   * party, 400 when the mission has no provider yet; nothing is written on
   * any of these. Otherwise an unread message to the other party is
   * appended, whatever the mission's status.
   */
  method SendMessage(db: Db, senderId: nat, missionId: nat, content: string, now: nat, pushOk: bool)
    returns (r: Result<Message>)
    requires db.Valid() && content != ""
    modifies db`messages
    ensures db.Valid()
    ensures missionId >= |db.missions| ==> r == Failure(MissionNotFound) && unchanged(db)
    ensures missionId < |db.missions| && db.missions[missionId].clientId != senderId
            && db.missions[missionId].providerId != Some(senderId) ==>
      r == Failure(AccessDenied) && unchanged(db)
    ensures missionId < |db.missions|
            && (db.missions[missionId].clientId == senderId || db.missions[missionId].providerId == Some(senderId))
            && OtherParty(db.missions[missionId], senderId).None? ==>
      r == Failure(NoProviderYet) && unchanged(db)
    ensures missionId < |db.missions|
            && (db.missions[missionId].clientId == senderId || db.missions[missionId].providerId == Some(senderId))
            && OtherParty(db.missions[missionId], senderId).Some? ==>
      var receiverId := OtherParty(db.missions[missionId], senderId).value;
      var msg := Message(missionId, senderId, receiverId, content, false, now);
      && db.messages == old(db.messages) + [msg]
      && r == (if MessagePushFails(db.users, receiverId, pushOk) then Failure(PushFailed) else Success(msg))
  {
    if missionId >= |db.missions| {
      return Failure(MissionNotFound);
    }
    var m := db.missions[missionId];
    if m.clientId != senderId && m.providerId != Some(senderId) {
      return Failure(AccessDenied);
    }
    var receiver := OtherParty(m, senderId);
    if receiver.None? {
      return Failure(NoProviderYet);
    }
    assert MissionOk(m, |db.users|);
    var msg := Message(missionId, senderId, receiver.value, content, false, now);
    db.messages := db.messages + [msg];
    r := if MessagePushFails(db.users, receiver.value, pushOk) then Failure(PushFailed) else Success(msg);
  }

  /** The messages of a mission, in table order (the order they were sent). */
  function MissionMessages(ms: seq<Message>, missionId: nat): seq<Message> {
    if ms == [] then []
    else
      MissionMessages(ms[..|ms| - 1], missionId)
        + (if ms[|ms| - 1].missionId == missionId then [ms[|ms| - 1]] else [])
  }

  /** Exactly the messages of the mission are listed. */
  lemma {:induction false} MissionMessagesCorrect(ms: seq<Message>, missionId: nat)
    ensures forall x :: x in MissionMessages(ms, missionId) <==> x in ms && x.missionId == missionId
    ensures |MissionMessages(ms, missionId)| <= |ms|
  {
    if ms != [] {
      MissionMessagesCorrect(ms[..|ms| - 1], missionId);
      assert ms == ms[..|ms| - 1] + [ms[|ms| - 1]];
    }
  }

  /** The positions in the table of the mission's messages, ascending. */
  function MissionMessageIndices(ms: seq<Message>, missionId: nat): (idx: seq<nat>)
    ensures forall k :: 0 <= k < |idx| ==> idx[k] < |ms|
  {
    if ms == [] then []
    else
      MissionMessageIndices(ms[..|ms| - 1], missionId)
        + (if ms[|ms| - 1].missionId == missionId then [|ms| - 1] else [])
  }

  /**
   * The listed messages are the table's messages of the mission, each once,
   * in table (sending) order: the k-th listed message is the one at the
   * k-th of strictly increasing positions, and these positions are exactly
   * those holding a message of the mission.
   */
  lemma MissionMessagesInOrder(ms: seq<Message>, missionId: nat)
    ensures var idx := MissionMessageIndices(ms, missionId);
      && |MissionMessages(ms, missionId)| == |idx|
      && (forall k :: 0 <= k < |idx| ==> MissionMessages(ms, missionId)[k] == ms[idx[k]])
      && Ascending(idx)
      && (forall i :: 0 <= i < |ms| ==> (ms[i].missionId == missionId <==> i in idx))
  {
    MissionMessagesAt(ms, missionId);
    IndicesAscending(ms, missionId);
    IndicesExact(ms, missionId);
  }

  /** The k-th listed message is the message at the k-th listed position. */
  lemma {:induction false} MissionMessagesAt(ms: seq<Message>, missionId: nat)
    ensures var idx := MissionMessageIndices(ms, missionId);
      && |MissionMessages(ms, missionId)| == |idx|
      && (forall k :: 0 <= k < |idx| ==> MissionMessages(ms, missionId)[k] == ms[idx[k]])
  {
    if ms != [] {
      var init := ms[..|ms| - 1];
      MissionMessagesAt(init, missionId);
      var prev := MissionMessageIndices(init, missionId);
      forall k | 0 <= k < |prev| ensures ms[prev[k]] == init[prev[k]] {
      }
    }
  }

  /** Strictly increasing positions. */
  predicate Ascending(idx: seq<nat>) {
    forall k, l :: 0 <= k < l < |idx| ==> idx[k] < idx[l]
  }

  /** The listed positions strictly increase. */
  lemma {:induction false} IndicesAscending(ms: seq<Message>, missionId: nat)
    ensures Ascending(MissionMessageIndices(ms, missionId))
  {
    if ms != [] {
      var init := ms[..|ms| - 1];
      IndicesAscending(init, missionId);
      var prev := MissionMessageIndices(init, missionId);
      var idx := MissionMessageIndices(ms, missionId);
      forall k, l | 0 <= k < l < |idx| ensures idx[k] < idx[l] {
        assert idx[k] == prev[k] && prev[k] < |init|;
        if l < |prev| {
          assert idx[l] == prev[l];
        }
      }
    }
  }

  /** The listed positions are exactly those of the mission's messages. */
  lemma {:induction false} IndicesExact(ms: seq<Message>, missionId: nat)
    ensures var idx := MissionMessageIndices(ms, missionId);
      forall i :: 0 <= i < |ms| ==> (ms[i].missionId == missionId <==> i in idx)
  {
    if ms != [] {
      var init := ms[..|ms| - 1];
      IndicesExact(init, missionId);
      assert forall i :: 0 <= i < |init| ==> ms[i] == init[i];
    }
  }

  /** The messages getMissionMessages marks: of the mission, to the reader, unread. */
  predicate ToMark(x: Message, missionId: nat, userId: nat) {
    x.missionId == missionId && x.receiverId == userId && !x.isRead
  }

  /** One message after marking: read when it is to be marked, unchanged otherwise. */
  function Marked(x: Message, missionId: nat, userId: nat): Message {
    if ToMark(x, missionId, userId) then x.(isRead := true) else x
  }

  /** The messages table after updateMany marks the reader's unread messages of the mission. */
  function MarkRead(ms: seq<Message>, missionId: nat, userId: nat): (r: seq<Message>)
    ensures |r| == |ms|
  {
    if ms == [] then []
    else MarkRead(ms[..|ms| - 1], missionId, userId) + [Marked(ms[|ms| - 1], missionId, userId)]
  }

  /**
   * Marking touches exactly the reader's unread messages of the mission:
   * those become read, every other message is unchanged.
   */
  lemma {:induction false} MarkReadEffect(ms: seq<Message>, missionId: nat, userId: nat)
    ensures forall i :: 0 <= i < |ms| ==> MarkRead(ms, missionId, userId)[i] == Marked(ms[i], missionId, userId)
    ensures forall i :: 0 <= i < |ms| && ms[i].missionId == missionId && ms[i].receiverId == userId ==>
      MarkRead(ms, missionId, userId)[i].isRead
  {
    if ms != [] {
      MarkReadEffect(ms[..|ms| - 1], missionId, userId);
    }
  }

  /**
   * getMissionMessages: 404 for an unknown mission, 403 for a caller who is
   * not a party; otherwise the mission's messages as they were before
   * marking, after which the caller's unread messages of the mission are
   * marked read in place.
   */
  method GetMissionMessages(db: Db, missionId: nat, userId: nat) returns (r: Result<seq<Message>>)
    requires db.Valid()
    modifies db`messages
    ensures db.Valid()
    ensures missionId >= |db.missions| ==> r == Failure(MissionNotFound) && unchanged(db)
    ensures missionId < |db.missions| && db.missions[missionId].clientId != userId
            && db.missions[missionId].providerId != Some(userId) ==>
      r == Failure(AccessDenied) && unchanged(db)
    ensures missionId < |db.missions|
            && (db.missions[missionId].clientId == userId || db.missions[missionId].providerId == Some(userId)) ==>
      && r == Success(MissionMessages(old(db.messages), missionId))
      && db.messages == MarkRead(old(db.messages), missionId, userId)
  {
    if missionId >= |db.missions| {
      return Failure(MissionNotFound);
    }
    var m := db.missions[missionId];
    if m.clientId != userId && m.providerId != Some(userId) {
      return Failure(AccessDenied);
    }
    r := Success(MissionMessages(db.messages, missionId));
    var marked := MarkMessages(db.messages, missionId, userId);
    MarkReadKeepsMessagesOk(|db.users|, |db.missions|, db.messages, missionId, userId);
    db.messages := marked;
  }

  /** The in-place marking loop of updateMany, over a copy of the messages table. */
  method MarkMessages(ms: seq<Message>, missionId: nat, userId: nat) returns (marked: seq<Message>)
    ensures marked == MarkRead(ms, missionId, userId)
  {
    marked := ms;
    var i := 0;
    while i < |ms|
      invariant 0 <= i <= |ms| == |marked|
      invariant marked[..i] == MarkRead(ms[..i], missionId, userId)
      invariant forall k :: i <= k < |ms| ==> marked[k] == ms[k]
    {
      if ToMark(marked[i], missionId, userId) {
        marked := marked[i := marked[i].(isRead := true)];
      }
      assert ms[..i + 1][..i] == ms[..i];
      assert marked[..i + 1] == marked[..i] + [Marked(ms[i], missionId, userId)];
      i := i + 1;
    }
    assert ms[..|ms|] == ms;
    assert marked[..|ms|] == marked;
  }

  /** Marking keeps the messages of a valid store valid. */
  lemma MarkReadKeepsMessagesOk(userCount: nat, missionCount: nat, ms: seq<Message>, missionId: nat, userId: nat)
    requires MessagesOk(userCount, missionCount, ms)
    ensures MessagesOk(userCount, missionCount, MarkRead(ms, missionId, userId))
  {
    MarkReadEffect(ms, missionId, userId);
  }

  /** getUnreadCount: the number of unread messages addressed to the user. */
  function UnreadCount(ms: seq<Message>, userId: nat): (r: nat)
    ensures r <= |ms|
    ensures r == 0 <==> forall i :: 0 <= i < |ms| ==> ms[i].receiverId != userId || ms[i].isRead
  {
    if ms == [] then 0
    else UnreadCount(ms[..|ms| - 1], userId) + (if ms[|ms| - 1].receiverId == userId && !ms[|ms| - 1].isRead then 1 else 0)
  }

  /** The number of unread messages of the mission addressed to the user. */
  function UnreadIn(ms: seq<Message>, missionId: nat, userId: nat): nat {
    if ms == [] then 0
    else UnreadIn(ms[..|ms| - 1], missionId, userId) + (if ToMark(ms[|ms| - 1], missionId, userId) then 1 else 0)
  }

  /**
   * Reading a mission's messages lowers the reader's unread count by
   * exactly their unread messages of that mission, and leaves every other
   * user's unread count unchanged.
   */
  lemma {:induction false} MarkReadUnreadCount(ms: seq<Message>, missionId: nat, userId: nat, other: nat)
    requires other != userId
    ensures UnreadCount(MarkRead(ms, missionId, userId), userId) == UnreadCount(ms, userId) - UnreadIn(ms, missionId, userId)
    ensures UnreadCount(MarkRead(ms, missionId, userId), other) == UnreadCount(ms, other)
  {
    if ms != [] {
      var init := ms[..|ms| - 1];
      MarkReadUnreadCount(init, missionId, userId, other);
      var marked := MarkRead(ms, missionId, userId);
      assert marked[..|marked| - 1] == MarkRead(init, missionId, userId);
      UnreadInBound(init, missionId, userId);
    }
  }

  /** The reader's unread messages of one mission are among their unread messages. */
  lemma {:induction false} UnreadInBound(ms: seq<Message>, missionId: nat, userId: nat)
    ensures UnreadIn(ms, missionId, userId) <= UnreadCount(ms, userId)
  {
    if ms != [] {
      UnreadInBound(ms[..|ms| - 1], missionId, userId);
    }
  }
}
