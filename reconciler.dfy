/** The body of the realtime insert callback on `messages` (App.tsx:272-287):
    the state updater that folds one new message into the chat cache. The
    subscription that delivers the message is not part of this model. */
module Reconciler {
  import opened Entities
  import opened Sorting

  /** The message comparator: oldest first. */
  function ByTimestamp(a: Message, b: Message): int {
    a.timestamp - b.timestamp
  }

  predicate NotLater(a: Message, b: Message) {
    a.timestamp <= b.timestamp
  }

  /** The chat key of the re-sort: the timestamp of the chat's last message,
      or 0 when it has none. */
  function LastActivity(c: Chat): int {
    if |c.messages| > 0 then c.messages[|c.messages| - 1].timestamp else 0
  }

  /** The chat comparator: most recent last activity first. */
  function ByLastActivity(a: Chat, b: Chat): int {
    LastActivity(b) - LastActivity(a)
  }

  predicate NotOlder(a: Chat, b: Chat) {
    LastActivity(a) >= LastActivity(b)
  }

  ghost predicate HasChat(cs: seq<Chat>, id: string) {
    exists c :: c in cs && c.id == id
  }

  ghost predicate OldestFirst(ms: seq<Message>) {
    forall i, j :: 0 <= i < j < |ms| ==> ms[i].timestamp <= ms[j].timestamp
  }

  ghost predicate MostRecentFirst(cs: seq<Chat>) {
    forall i, j :: 0 <= i < j < |cs| ==> LastActivity(cs[i]) >= LastActivity(cs[j])
  }

  lemma SortMessagesOldestFirst(ms: seq<Message>)
    ensures OldestFirst(SortWith(ms, ByTimestamp))
  {
    SortOrdered(ms, ByTimestamp, NotLater);
    var r := SortWith(ms, ByTimestamp);
    forall i, j | 0 <= i < j < |r| ensures r[i].timestamp <= r[j].timestamp {
      assert NotLater(r[i], r[j]);
    }
  }

  lemma SortChatsMostRecentFirst(cs: seq<Chat>)
    ensures MostRecentFirst(SortWith(cs, ByLastActivity))
  {
    SortOrdered(cs, ByLastActivity, NotOlder);
    var r := SortWith(cs, ByLastActivity);
    forall i, j | 0 <= i < j < |r| ensures LastActivity(r[i]) >= LastActivity(r[j]) {
      assert NotOlder(r[i], r[j]);
    }
  }

  /** The per-chat callback of the `map`: the chat the message belongs to
      gets it among its messages, oldest first, and shows its text as the
      last message and `shown` (the formatted time of the message) as its
      time; every other chat is returned as it is. */
  function AddMessage(chat: Chat, m: Message, shown: string): (r: Chat)
    ensures chat.id == m.chatId ==>
      && multiset(r.messages) == multiset(chat.messages + [m])
      && OldestFirst(r.messages)
      && r.lastMessage == m.text
      && r.timestamp == shown
      && r == chat.(messages := r.messages, lastMessage := m.text, timestamp := shown)
    ensures chat.id != m.chatId ==> r == chat
    ensures r.id == chat.id
  {
    if chat.id == m.chatId then
      SortMessagesOldestFirst(chat.messages + [m]);
      chat.(messages := SortWith(chat.messages + [m], ByTimestamp),
            lastMessage := m.text,
            timestamp := shown)
    else
      chat
  }

  /** `currentChats.map(...)` with `AddMessage` as the callback. */
  function AddToMatching(chats: seq<Chat>, m: Message, shown: string): (r: seq<Chat>)
    ensures |r| == |chats|
    ensures forall i :: 0 <= i < |chats| ==> r[i] == AddMessage(chats[i], m, shown)
  {
    if chats == [] then [] else [AddMessage(chats[0], m, shown)] + AddToMatching(chats[1..], m, shown)
  }

  /** The whole updater: add the message, then re-sort the chats by last
      activity, most recent first. No chat is created, none is dropped and
      nothing is deduplicated. */
  function ReconcileInsert(chats: seq<Chat>, m: Message, shown: string): (r: seq<Chat>)
    ensures |r| == |chats|
    ensures multiset(r) == multiset(AddToMatching(chats, m, shown))
    ensures MostRecentFirst(r)
  {
    var touched := AddToMatching(chats, m, shown);
    SortChatsMostRecentFirst(touched);
    SortWith(touched, ByLastActivity)
  }

  /** What the chats look like after the insert: every chat the message does
      not belong to is still there unchanged; the chats it belongs to now hold
      it, oldest first, and show its text; and the set of chat ids is the
      same as before. */
  lemma ReconcileInsertChats(chats: seq<Chat>, m: Message, shown: string)
    ensures forall c :: c in chats && c.id != m.chatId ==> c in ReconcileInsert(chats, m, shown)
    ensures forall d :: d in ReconcileInsert(chats, m, shown) && d.id == m.chatId ==>
      && m in d.messages
      && OldestFirst(d.messages)
      && d.lastMessage == m.text
      && d.timestamp == shown
    ensures forall id :: HasChat(ReconcileInsert(chats, m, shown), id) <==> HasChat(chats, id)
  {
    ReconcileInsertSameChats(chats, m, shown);
    ReconcileInsertKeepsOthers(chats, m, shown);
    ReconcileInsertUpdatesTarget(chats, m, shown);
    ReconcileInsertKeepsIds(chats, m, shown);
  }

  /** The re-sort holds the chats the `map` produced. */
  lemma ReconcileInsertSameChats(chats: seq<Chat>, m: Message, shown: string)
    ensures forall d :: d in ReconcileInsert(chats, m, shown) <==> d in AddToMatching(chats, m, shown)
  {
    var touched := AddToMatching(chats, m, shown);
    var r := ReconcileInsert(chats, m, shown);
    forall d ensures d in r <==> d in touched {
      assert d in r <==> d in multiset(r);
      assert d in touched <==> d in multiset(touched);
    }
  }

  lemma ReconcileInsertKeepsOthers(chats: seq<Chat>, m: Message, shown: string)
    requires forall d :: d in ReconcileInsert(chats, m, shown) <==> d in AddToMatching(chats, m, shown)
    ensures forall c :: c in chats && c.id != m.chatId ==> c in ReconcileInsert(chats, m, shown)
  {
    var touched := AddToMatching(chats, m, shown);
    forall c | c in chats && c.id != m.chatId ensures c in touched {
      var i :| 0 <= i < |chats| && chats[i] == c;
      assert touched[i] == c;
    }
  }

  lemma ReconcileInsertUpdatesTarget(chats: seq<Chat>, m: Message, shown: string)
    requires forall d :: d in ReconcileInsert(chats, m, shown) <==> d in AddToMatching(chats, m, shown)
    ensures forall d :: d in ReconcileInsert(chats, m, shown) && d.id == m.chatId ==>
      && m in d.messages
      && OldestFirst(d.messages)
      && d.lastMessage == m.text
      && d.timestamp == shown
  {
    var touched := AddToMatching(chats, m, shown);
    forall d | d in touched && d.id == m.chatId
      ensures m in d.messages && OldestFirst(d.messages) && d.lastMessage == m.text && d.timestamp == shown
    {
      var i :| 0 <= i < |touched| && touched[i] == d;
      assert m in multiset(d.messages);
    }
  }

  lemma ReconcileInsertKeepsIds(chats: seq<Chat>, m: Message, shown: string)
    requires forall d :: d in ReconcileInsert(chats, m, shown) <==> d in AddToMatching(chats, m, shown)
    ensures forall id :: HasChat(ReconcileInsert(chats, m, shown), id) <==> HasChat(chats, id)
  {
    var touched := AddToMatching(chats, m, shown);
    forall id ensures HasChat(touched, id) <==> HasChat(chats, id) {
      MatchingKeepsId(chats, m, shown, id);
    }
  }

  /** The `map` keeps every chat's id in place. */
  lemma MatchingKeepsId(chats: seq<Chat>, m: Message, shown: string, id: string)
    ensures HasChat(AddToMatching(chats, m, shown), id) <==> HasChat(chats, id)
  {
    var touched := AddToMatching(chats, m, shown);
    if d :| d in touched && d.id == id {
      var i :| 0 <= i < |touched| && touched[i] == d;
      assert chats[i] in chats && chats[i].id == id;
    }
    if c :| c in chats && c.id == id {
      var i :| 0 <= i < |chats| && chats[i] == c;
      assert touched[i] in touched && touched[i].id == id;
    }
  }

  /** A message for a chat the client does not have adds nothing: the
      chats are only re-sorted. */
  lemma ReconcileInsertUnknownChat(chats: seq<Chat>, m: Message, shown: string)
    requires forall c :: c in chats ==> c.id != m.chatId
    ensures ReconcileInsert(chats, m, shown) == SortWith(chats, ByLastActivity)
    ensures multiset(ReconcileInsert(chats, m, shown)) == multiset(chats)
  {
    var touched := AddToMatching(chats, m, shown);
    assert touched == chats by {
      forall i | 0 <= i < |chats| ensures touched[i] == chats[i] {
        assert chats[i] in chats;
      }
    }
  }

  /** A message delivered late lands in front of the newer ones it follows. */
  lemma LateMessageSortsFirst(chat: Chat, m0: Message, m1: Message, m2: Message, shown: string)
    requires chat.messages == [m1, m2] && m0.chatId == chat.id
    requires m0.timestamp < m1.timestamp <= m2.timestamp
    ensures AddMessage(chat, m0, shown).messages == [m0, m1, m2]
  {
    var ms := chat.messages + [m0];
    assert ms == [m1, m2, m0];
    SortThreeLate(m0, m1, m2);
    assert AddMessage(chat, m0, shown).messages == SortWith(ms, ByTimestamp);
  }

  lemma SortThreeLate(m0: Message, m1: Message, m2: Message)
    requires m0.timestamp < m1.timestamp <= m2.timestamp
    ensures SortWith([m1, m2, m0], ByTimestamp) == [m0, m1, m2]
  {
    var ms := [m1, m2, m0];
    assert ms[0] == m1 && ms[1..] == [m2, m0];
    assert SortWith(ms, ByTimestamp) == Insert(m1, SortWith([m2, m0], ByTimestamp), ByTimestamp);
    SortTwoLate(m0, m2);
    InsertBetween(m0, m1, m2);
  }

  lemma InsertBetween(m0: Message, m1: Message, m2: Message)
    requires m0.timestamp < m1.timestamp <= m2.timestamp
    ensures Insert(m1, [m0, m2], ByTimestamp) == [m0, m1, m2]
  {
    var t := [m0, m2];
    assert ByTimestamp(m1, t[0]) > 0;
    assert t[1..] == [m2];
    assert ByTimestamp(m1, m2) <= 0;
    assert Insert(m1, [m2], ByTimestamp) == [m1, m2];
    assert Insert(m1, t, ByTimestamp) == [m0] + Insert(m1, [m2], ByTimestamp);
  }

  lemma SortTwoLate(m0: Message, m2: Message)
    requires m0.timestamp < m2.timestamp
    ensures SortWith([m2, m0], ByTimestamp) == [m0, m2]
  {
    assert [m2, m0][1..] == [m0] && [m0][1..] == [];
    assert SortWith([m0], ByTimestamp) == [m0];
    assert Insert(m2, [m0], ByTimestamp) == [m0] + Insert(m2, [], ByTimestamp);
  }
}
