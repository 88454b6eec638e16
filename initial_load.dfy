/** The order the chat cache gets when the bulk load arrives
    (App.tsx:248-258). The backend returns each chat's messages newest
    first, so the comparator keys a chat by `messages[0]`. That is not the
    key the realtime reconciler uses (its last message), and the comparator
    answers 1 for two chats without messages whichever comes first; nothing
    below depends on the order it leaves such chats in. */
module InitialLoad {
  import opened Optional
  import opened Entities
  import opened Sorting

  /** The comparator of App.tsx:251-257. */
  function ByFirstMessage(a: Chat, b: Chat): int {
    if |a.messages| == 0 then 1
    else if |b.messages| == 0 then -1
    else b.messages[0].timestamp - a.messages[0].timestamp
  }

  /** `a` may be listed before `b`: if `b` has messages, so has `a`, and
      `a`'s first message is no older than `b`'s. */
  predicate LoadsBefore(a: Chat, b: Chat) {
    |b.messages| > 0 ==> |a.messages| > 0 && a.messages[0].timestamp >= b.messages[0].timestamp
  }

  /** `(chatsData || []).sort(...)`. */
  function LoadOrder(fetched: Option<seq<Chat>>): (r: seq<Chat>)
    ensures fetched.None? ==> r == []
    ensures multiset(r) == multiset(fetched.GetOr([]))
    ensures forall i, j :: 0 <= i < j < |r| && |r[j].messages| > 0 ==> |r[i].messages| > 0
    ensures forall i, j :: 0 <= i < j < |r| && |r[i].messages| > 0 && |r[j].messages| > 0 ==>
      r[i].messages[0].timestamp >= r[j].messages[0].timestamp
  {
    var chats := fetched.GetOr([]);
    SortOrdered(chats, ByFirstMessage, LoadsBefore);
    var r := SortWith(chats, ByFirstMessage);
    assert forall i, j :: 0 <= i < j < |r| ==> LoadsBefore(r[i], r[j]);
    r
  }
}
