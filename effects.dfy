/** The two self-healing effects of App.tsx:216-226, as the value each one
    writes back (or leaves) in its state field. */
module Effects {
  import opened Optional
  import opened Entities

  predicate Listed(users: seq<User>, id: string) {
    exists u :: u in users && u.id == id
  }

  predicate Shown(visible: seq<Chat>, id: string) {
    exists c :: c in visible && c.id == id
  }

  /** The operator effect: an operator missing from the roster is replaced by
      the first operator of the roster, or by nobody when it is empty. */
  function SettleCurrentUser(users: seq<User>, current: Option<User>): (r: Option<User>)
    ensures current.None? ==> r.None?
    ensures current.Some? && Listed(users, current.value.id) ==> r == current
    ensures current.Some? && !Listed(users, current.value.id) ==>
      r == if |users| > 0 then Some(users[0]) else None
    ensures r.Some? ==> Listed(users, r.value.id)
  {
    if current.Some? && !Listed(users, current.value.id) then
      if |users| > 0 then
        assert users[0] in users;
        Some(users[0])
      else None
    else current
  }

  /** The active-chat effect: an active chat id that names no visible chat is
      dropped. The guard is JavaScript truthiness, so an empty id is left
      alone. */
  function SettleActiveChat(visible: seq<Chat>, active: Option<string>): (r: Option<string>)
    ensures r == active || r.None?
    ensures active.Some? && (active.value == "" || Shown(visible, active.value)) ==> r == active
    ensures r.Some? ==> r.value == "" || Shown(visible, r.value)
  {
    if active.Some? && active.value != "" && !Shown(visible, active.value) then None else active
  }

  /** Running the operator effect again on what it wrote changes nothing,
      so the render its update causes does not fire it a third time. */
  lemma SettleCurrentUserStable(users: seq<User>, current: Option<User>)
    ensures SettleCurrentUser(users, SettleCurrentUser(users, current)) == SettleCurrentUser(users, current)
  {
  }

  /** The same for the active-chat effect, over an unchanged projection. */
  lemma SettleActiveChatStable(visible: seq<Chat>, active: Option<string>)
    ensures SettleActiveChat(visible, SettleActiveChat(visible, active)) == SettleActiveChat(visible, active)
  {
  }
}
