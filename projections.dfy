/** The role-scoped views the console derives from the full caches
    (`visibleCrmContacts` and `visibleChats` in App.tsx). Both are pure:
    they return a new sequence and leave the caches as they are. */
module Projections {
  import opened Optional
  import opened Entities
  import opened Seqs

  /** Operator `u` may see contact `c`: a manager sees every contact, any
      other role only the contacts it owns. */
  predicate SeesContact(u: User, c: Contact) {
    u.role == Manager || c.ownerId == u.id
  }

  /** Operator `u` may see chat `c`: a manager sees every chat, any other
      role the chats it handles and the chats still with the bot. */
  predicate SeesChat(u: User, c: Chat) {
    u.role == Manager || c.handledBy == u.id || c.handledBy == Bot
  }

  /** `SeesContact` and `SeesChat` as filter callbacks. */
  function ContactPolicy(u: User): Contact -> bool { (c: Contact) => SeesContact(u, c) }

  function ChatPolicy(u: User): Chat -> bool { (c: Chat) => SeesChat(u, c) }

  /** The contacts `current` may see, in cache order. */
  function VisibleContacts(contacts: seq<Contact>, current: Option<User>): (r: seq<Contact>)
    ensures current.None? ==> r == []
    ensures current.Some? && current.value.role == Manager ==> r == contacts
    ensures forall c :: c in r <==> current.Some? && c in contacts && SeesContact(current.value, c)
    ensures current.Some? ==>
      forall c :: multiset(r)[c] == if SeesContact(current.value, c) then multiset(contacts)[c] else 0
    ensures IsSubsequence(r, contacts)
  {
    match current
    case None => []
    case Some(u) =>
      if u.role == Manager then SubsequenceOfItself(contacts); contacts
      else Filter(contacts, ContactPolicy(u))
  }

  /** The chats `current` may see, in cache order. */
  function VisibleChats(chats: seq<Chat>, current: Option<User>): (r: seq<Chat>)
    ensures current.None? ==> r == []
    ensures current.Some? && current.value.role == Manager ==> r == chats
    ensures forall c :: c in r <==> current.Some? && c in chats && SeesChat(current.value, c)
    ensures current.Some? ==>
      forall c :: multiset(r)[c] == if SeesChat(current.value, c) then multiset(chats)[c] else 0
    ensures IsSubsequence(r, chats)
  {
    match current
    case None => []
    case Some(u) =>
      if u.role == Manager then SubsequenceOfItself(chats); chats
      else Filter(chats, ChatPolicy(u))
  }

  /** Projecting an already projected list changes nothing. */
  lemma VisibleChatsIdempotent(chats: seq<Chat>, current: Option<User>)
    ensures VisibleChats(VisibleChats(chats, current), current) == VisibleChats(chats, current)
  {
    if current.Some? && current.value.role != Manager {
      FilterIdempotent(chats, ChatPolicy(current.value));
    }
  }

  /** Projecting an already projected list changes nothing. */
  lemma VisibleContactsIdempotent(contacts: seq<Contact>, current: Option<User>)
    ensures VisibleContacts(VisibleContacts(contacts, current), current) == VisibleContacts(contacts, current)
  {
    if current.Some? && current.value.role != Manager {
      FilterIdempotent(contacts, ContactPolicy(current.value));
    }
  }
}
