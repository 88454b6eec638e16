/** The state updaters the command handlers of App.tsx hand to their
    setters (`prev => prev.filter(...)`, `current => current.map(...)`,
    `[newChat, ...currentChats]`), as functions of the cache they replace. */
module CacheUpdates {
  import opened Optional
  import opened Entities
  import opened Seqs
  import Projections
  import Effects

  /** Placeholder text of a chat created from the CRM before any message. */
  const NewChatText: string := "Inicie a conversa!"

  /** The `find` callback of handleNavigateToChat. */
  function OfContact(contactId: string): Chat -> bool {
    (c: Chat) => c.contactId == contactId
  }

  /** `currentUser?.id || 'bot'`: an absent user, or one with an empty id,
      leaves the chat with the bot. */
  function HandlerOf(current: Option<User>): (h: string)
    ensures current.Some? && current.value.id != "" ==> h == current.value.id
    ensures current.None? || current.value.id == "" ==> h == Bot
  {
    if current.Some? && current.value.id != "" then current.value.id else Bot
  }

  /** Where handleNavigateToChat leaves the chat cache and which chat it
      activates. */
  datatype Navigation = Navigation(chats: seq<Chat>, activeChatId: string)

  /** handleNavigateToChat: open the first chat with the contact, or create
      one (id `freshId`, shown time `shown`) in front of the others. */
  function Navigate(chats: seq<Chat>, contact: Contact, current: Option<User>, freshId: string, shown: string): (r: Navigation)
    ensures (exists c :: c in chats && c.contactId == contact.id) ==>
      && r.chats == chats
      && exists i :: 0 <= i < |chats| && chats[i].contactId == contact.id && chats[i].id == r.activeChatId
                     && forall j :: 0 <= j < i ==> chats[j].contactId != contact.id
    ensures !(exists c :: c in chats && c.contactId == contact.id) ==>
      && |r.chats| == |chats| + 1
      && r.chats[1..] == chats
      && r.chats[0] == Chat(freshId, contact.id, contact.name, contact.avatarUrl, NewChatText, shown, 0, [], HandlerOf(current))
      && r.activeChatId == freshId
    ensures exists c :: c in r.chats && c.contactId == contact.id && c.id == r.activeChatId
  {
    match FindFirst(chats, OfContact(contact.id))
    case Some(i) =>
      Navigation(chats, chats[i].id)
    case None =>
      var created := Chat(freshId, contact.id, contact.name, contact.avatarUrl, NewChatText, shown, 0, [], HandlerOf(current));
      var r := Navigation([created] + chats, freshId);
      assert r.chats[0] == created && r.chats[1..] == chats;
      r
  }

  /** Navigating to the same contact a second time adds no second chat and
      opens the same one, whoever is logged in and whatever id and time the
      second call would have used. */
  lemma {:induction false} NavigateAgain(chats: seq<Chat>, contact: Contact, current: Option<User>, freshId: string, shown: string,
                                         current2: Option<User>, freshId2: string, shown2: string)
    ensures Navigate(Navigate(chats, contact, current, freshId, shown).chats, contact, current2, freshId2, shown2)
         == Navigate(chats, contact, current, freshId, shown)
  {
    var first := Navigate(chats, contact, current, freshId, shown);
    if !(exists c :: c in chats && c.contactId == contact.id) {
      assert first.chats[0].contactId == contact.id;
      assert FindFirst(first.chats, OfContact(contact.id)) == Some(0);
    } else {
      var k := FindFirst(chats, OfContact(contact.id)).value;
      assert chats[k].id == first.activeChatId by {
        var i :| 0 <= i < |chats| && chats[i].contactId == contact.id && chats[i].id == first.activeChatId
                 && forall j :: 0 <= j < i ==> chats[j].contactId != contact.id;
        assert !(i < k) && !(k < i);
      }
    }
  }

  /** A chat created by handleNavigateToChat is visible to the operator
      who opened it, so the active-chat effect keeps it open. */
  lemma NavigateCreatedIsVisible(chats: seq<Chat>, contact: Contact, u: User, freshId: string, shown: string)
    requires !(exists c :: c in chats && c.contactId == contact.id)
    ensures Effects.Shown(Projections.VisibleChats(Navigate(chats, contact, Some(u), freshId, shown).chats, Some(u)),
                          Navigate(chats, contact, Some(u), freshId, shown).activeChatId)
  {
    var r := Navigate(chats, contact, Some(u), freshId, shown);
    assert Projections.SeesChat(u, r.chats[0]);
    assert r.chats[0] in Projections.VisibleChats(r.chats, Some(u));
  }

  /** handleTakeOverChat's updater: `uid` handles the chats with id `chatId`;
      no other chat and no other field changes. */
  function TakeOver(chats: seq<Chat>, chatId: string, uid: string): (r: seq<Chat>)
    ensures |r| == |chats|
    ensures forall i :: 0 <= i < |chats| ==>
      && r[i].handledBy == (if chats[i].id == chatId then uid else chats[i].handledBy)
      && r[i] == chats[i].(handledBy := r[i].handledBy)
  {
    if chats == [] then []
    else [if chats[0].id == chatId then chats[0].(handledBy := uid) else chats[0]] + TakeOver(chats[1..], chatId, uid)
  }

  /** Once an operator takes a chat over, that operator sees it. */
  lemma TakeOverMakesVisible(chats: seq<Chat>, chatId: string, u: User)
    ensures forall c :: c in TakeOver(chats, chatId, u.id) && c.id == chatId ==>
      c in Projections.VisibleChats(TakeOver(chats, chatId, u.id), Some(u))
  {
    var r := TakeOver(chats, chatId, u.id);
    forall c | c in r && c.id == chatId ensures Projections.SeesChat(u, c) {
      var i :| 0 <= i < |r| && r[i] == c;
    }
  }

  /** handleDeleteContact's updater of the contacts. */
  function RemoveContact(contacts: seq<Contact>, contactId: string): (r: seq<Contact>)
    ensures forall c :: c in r <==> c in contacts && c.id != contactId
    ensures forall c: Contact :: c.id != contactId ==> multiset(r)[c] == multiset(contacts)[c]
    ensures IsSubsequence(r, contacts)
  {
    Filter(contacts, (c: Contact) => c.id != contactId)
  }

  /** handleDeleteContact's updater of the chats: the chats with the contact go. */
  function RemoveChatsOf(chats: seq<Chat>, contactId: string): (r: seq<Chat>)
    ensures forall c :: c in r <==> c in chats && c.contactId != contactId
    ensures forall c: Chat :: c.contactId != contactId ==> multiset(r)[c] == multiset(chats)[c]
    ensures IsSubsequence(r, chats)
  {
    Filter(chats, (c: Chat) => c.contactId != contactId)
  }

  /** handleDeleteUser's updater. */
  function RemoveUser(users: seq<User>, userId: string): (r: seq<User>)
    ensures forall u :: u in r <==> u in users && u.id != userId
    ensures forall u: User :: u.id != userId ==> multiset(r)[u] == multiset(users)[u]
    ensures IsSubsequence(r, users)
  {
    Filter(users, (u: User) => u.id != userId)
  }

  /** handleUpdateContact's updater: every contact with the id of `updated`
      becomes `updated`, every other one stays, in place. */
  function ReplaceContact(contacts: seq<Contact>, updated: Contact): (r: seq<Contact>)
    ensures |r| == |contacts|
    ensures forall i :: 0 <= i < |contacts| && contacts[i].id == updated.id ==> r[i] == updated
    ensures forall i :: 0 <= i < |contacts| && contacts[i].id != updated.id ==> r[i] == contacts[i]
  {
    if contacts == [] then []
    else [if contacts[0].id == updated.id then updated else contacts[0]] + ReplaceContact(contacts[1..], updated)
  }

  /** handleUpdateUser's updater: every user with the id of the returned row
      becomes that row, every other one stays, in place. */
  function ReplaceUser(users: seq<User>, row: User): (r: seq<User>)
    ensures |r| == |users|
    ensures forall i :: 0 <= i < |users| && users[i].id == row.id ==> r[i] == row
    ensures forall i :: 0 <= i < |users| && users[i].id != row.id ==> r[i] == users[i]
  {
    if users == [] then []
    else [if users[0].id == row.id then row else users[0]] + ReplaceUser(users[1..], row)
  }
}
