/** The state of the App component (App.tsx) and the handlers and effects
    that reassign it. Every backend call is replaced by a parameter carrying
    its outcome; the bulk load is one step. */
module App {
  import opened Optional
  import opened Entities
  import Projections
  import Reconciler
  import InitialLoad
  import CacheUpdates
  import Effects

  /** The error object the backend client returns. */
  datatype DbError = DbError(message: string, details: string)

  /** `{ data, error }` of an insert or update followed by `.select().single()`. */
  datatype Reply<T> = Reply(error: Option<DbError>, data: Option<T>) {
    /** The handlers' `!error && data`. */
    predicate Ok() {
      error.None? && data.Some?
    }
  }

  /** What the login and signup handlers return to the form:
      `{ success, error? }`. */
  datatype AuthResult = AuthResult(success: bool, error: Option<string>)

  /** Outcome of the backend signup call. */
  datatype SignUpOutcome =
    | SignUpError(message: string)   // `authError` is set
    | NoAccount                      // no error, but no `authData.user`
    | SignedUp(userId: string)       // the account that was created

  /** The row handleSendMessage inserts into `messages`. */
  datatype MessagePayload = MessagePayload(
    chatId: string,
    sender: string,
    text: string,
    avatarUrl: string,
    kind: MessageKind,
    status: DeliveryStatus,
    timestamp: int)

  const InvalidCredentials: string := "Login ou senha inválidos."
  const ProfileUnavailable: string := "Não foi possível carregar o perfil do usuário."
  const AccountNotCreated: string := "Não foi possível criar a conta."
  const ManagersOnly: string := "Apenas gerentes podem remover contatos."
  const DeleteContactFailed: string := "Falha ao remover o contato."
  const UnknownError: string := "Ocorreu um erro desconhecido."
  const AddUserFailed: string := "Falha ao adicionar usuário."
  const UpdateUserFailed: string := "Falha ao atualizar usuário."
  const DeleteUserFailed: string := "Falha ao remover usuário."

  /** The alert of a failed handleAddContact: the error's message (or a
      generic one), then its details on a line of their own when there are
      any. */
  function AddContactAlert(error: Option<DbError>): (a: string)
    ensures error.Some? && error.value.message != "" ==>
      "Falha ao adicionar o contato: " + error.value.message + " " <= a
    ensures error.None? || error.value.message == "" ==>
      "Falha ao adicionar o contato: " + UnknownError + " " <= a
    ensures error.Some? && error.value.details != "" ==>
      && |a| > |"\nDetalhes: " + error.value.details|
      && a[|a| - |"\nDetalhes: " + error.value.details|..] == "\nDetalhes: " + error.value.details
    ensures error.None? || error.value.details == "" ==> a[|a| - 1] == ' '
    ensures |a| == |"Falha ao adicionar o contato: "|
                   + |if error.Some? && error.value.message != "" then error.value.message else UnknownError| + 1
                   + (if error.Some? && error.value.details != "" then |"\nDetalhes: " + error.value.details| else 0)
  {
    var message := if error.Some? && error.value.message != "" then error.value.message else UnknownError;
    var details := if error.Some? then error.value.details else "";
    var head := "Falha ao adicionar o contato: " + message + " ";
    var a := head + (if details != "" then "\nDetalhes: " + details else "");
    assert head <= a;
    a
  }

  /** The roster with `u` on it: unchanged when an operator with `u`'s id
      is already listed, `u` appended otherwise. */
  function WithOperator(users: seq<User>, u: User): (r: seq<User>)
    ensures Effects.Listed(r, u.id)
    ensures users <= r && |r| <= |users| + 1
    ensures Effects.Listed(users, u.id) ==> r == users
    ensures !Effects.Listed(users, u.id) ==> r == users + [u]
  {
    if Effects.Listed(users, u.id) then users
    else
      assert u in users + [u];
      users + [u]
  }

  /** handleLogin sets the operator and leaves the roster alone, and so
      does handleSignUp when it falls back to an operator built without a
      profile row. An operator the roster does not list is replaced by the
      operator effect in the very commit the login causes: by the first
      operator of the roster, someone else, or by nobody when the roster is
      still empty, as before the first bulk load of a session. */
  lemma LoginUndoneByOperatorEffect(users: seq<User>, u: User)
    requires !Effects.Listed(users, u.id)
    ensures Effects.SettleCurrentUser(users, Some(u)) != Some(u)
    ensures users == [] ==> Effects.SettleCurrentUser(users, Some(u)) == None
    ensures users != [] ==> Effects.SettleCurrentUser(users, Some(u)) == Some(users[0]) && users[0].id != u.id
  {
  }

  /** With the operator put on the roster, the operator effect keeps it. */
  lemma LoginKeptOnRoster(users: seq<User>, u: User)
    ensures Effects.SettleCurrentUser(WithOperator(users, u), Some(u)) == Some(u)
  {
  }

  class AppState {
    var activeView: string
    var users: seq<User>
    var currentUser: Option<User>
    var chats: seq<Chat>
    var activeChatId: Option<string>
    var crmContacts: seq<Contact>
    var quickReplies: seq<QuickReply>
    var knowledgeBase: seq<KnowledgeBaseItem>

    /** The initial values of the `useState` hooks. */
    constructor ()
      ensures activeView == DashboardView
      ensures users == [] && currentUser == None && chats == [] && activeChatId == None
      ensures crmContacts == [] && quickReplies == [] && knowledgeBase == []
    {
      activeView := DashboardView;
      users := [];
      currentUser := None;
      chats := [];
      activeChatId := None;
      crmContacts := [];
      quickReplies := [];
      knowledgeBase := [];
    }

    /** `visibleChats`. */
    function VisibleChats(): seq<Chat>
      reads this
    {
      Projections.VisibleChats(chats, currentUser)
    }

    /** The references the effects repair are sound: the operator is on the
        roster and the active chat is visible (or has the empty id, which
        the effect's truthiness test lets through). */
    ghost predicate Settled()
      reads this
    {
      && (currentUser.None? || Effects.Listed(users, currentUser.value.id))
      && (activeChatId.None? || activeChatId.value == "" || Effects.Shown(VisibleChats(), activeChatId.value))
    }

    /** handleLogin: `authUserId` is the account the credentials open (None
        when the backend reports an error or no user), `profile` the row read
        for it (None when that read fails). */
    method HandleLogin(authUserId: Option<string>, profile: Option<User>) returns (result: AuthResult)
      modifies this`currentUser
      ensures authUserId.None? ==> result == AuthResult(false, Some(InvalidCredentials))
      ensures authUserId.Some? && profile.None? ==> result == AuthResult(false, Some(ProfileUnavailable))
      ensures !result.success ==> currentUser == old(currentUser)
      ensures authUserId.Some? && profile.Some? ==> result == AuthResult(true, None) && currentUser == profile
    {
      if authUserId.None? {
        return AuthResult(false, Some(InvalidCredentials));
      }
      if profile.None? {
        return AuthResult(false, Some(ProfileUnavailable));
      }
      currentUser := profile;
      result := AuthResult(true, None);
    }

    /** handleLogin as it evidently means to work: as `HandleLogin`, and on
        success the operator is also put on the roster, so the operator
        effect leaves the login in place. */
    method HandleLoginOnRoster(authUserId: Option<string>, profile: Option<User>) returns (result: AuthResult)
      modifies this`users, this`currentUser
      ensures authUserId.None? ==> result == AuthResult(false, Some(InvalidCredentials))
      ensures authUserId.Some? && profile.None? ==> result == AuthResult(false, Some(ProfileUnavailable))
      ensures !result.success ==> currentUser == old(currentUser) && users == old(users)
      ensures authUserId.Some? && profile.Some? ==>
        && result == AuthResult(true, None)
        && currentUser == profile
        && users == WithOperator(old(users), profile.value)
      ensures result.success ==> Effects.SettleCurrentUser(users, currentUser) == currentUser
    {
      if authUserId.None? {
        return AuthResult(false, Some(InvalidCredentials));
      }
      if profile.None? {
        return AuthResult(false, Some(ProfileUnavailable));
      }
      users := WithOperator(users, profile.value);
      currentUser := profile;
      LoginKeptOnRoster(old(users), profile.value);
      result := AuthResult(true, None);
    }

    /** handleSignUp: `profile` is the row the backend's trigger created for
        the new account (None when reading it fails). */
    method HandleSignUp(name: string, login: string, outcome: SignUpOutcome, profile: Option<User>) returns (result: AuthResult)
      modifies this`users, this`currentUser
      ensures outcome.SignUpError? ==>
        result == AuthResult(false, Some(outcome.message)) && users == old(users) && currentUser == old(currentUser)
      ensures outcome.NoAccount? ==>
        result == AuthResult(false, Some(AccountNotCreated)) && users == old(users) && currentUser == old(currentUser)
      ensures outcome.SignedUp? && profile.None? ==>
        && result == AuthResult(true, None)
        && users == old(users)
        && currentUser == Some(User(outcome.userId, name, login, Agent, ""))
      ensures outcome.SignedUp? && profile.Some? ==>
        && result == AuthResult(true, None)
        && users == old(users) + [profile.value]
        && currentUser == profile
    {
      match outcome
      case SignUpError(message) =>
        return AuthResult(false, Some(message));
      case NoAccount =>
        return AuthResult(false, Some(AccountNotCreated));
      case SignedUp(userId) =>
        if profile.None? {
          currentUser := Some(User(userId, name, login, Agent, ""));
          return AuthResult(true, None);
        }
        users := users + [profile.value];
        currentUser := profile;
        result := AuthResult(true, None);
    }

    /** handleSignUp as it evidently means to work: as `HandleSignUp`, and
        the operator built without a profile row is also put on the roster,
        so the operator effect lets the new account in as promised. */
    method HandleSignUpOnRoster(name: string, login: string, outcome: SignUpOutcome, profile: Option<User>) returns (result: AuthResult)
      modifies this`users, this`currentUser
      ensures outcome.SignUpError? ==>
        result == AuthResult(false, Some(outcome.message)) && users == old(users) && currentUser == old(currentUser)
      ensures outcome.NoAccount? ==>
        result == AuthResult(false, Some(AccountNotCreated)) && users == old(users) && currentUser == old(currentUser)
      ensures outcome.SignedUp? && profile.None? ==>
        && result == AuthResult(true, None)
        && users == WithOperator(old(users), User(outcome.userId, name, login, Agent, ""))
        && currentUser == Some(User(outcome.userId, name, login, Agent, ""))
      ensures outcome.SignedUp? && profile.Some? ==>
        && result == AuthResult(true, None)
        && users == old(users) + [profile.value]
        && currentUser == profile
      ensures result.success ==> Effects.SettleCurrentUser(users, currentUser) == currentUser
    {
      match outcome
      case SignUpError(message) =>
        return AuthResult(false, Some(message));
      case NoAccount =>
        return AuthResult(false, Some(AccountNotCreated));
      case SignedUp(userId) =>
        if profile.None? {
          users := WithOperator(users, User(userId, name, login, Agent, ""));
          currentUser := Some(User(userId, name, login, Agent, ""));
          return AuthResult(true, None);
        }
        users := users + [profile.value];
        currentUser := profile;
        assert profile.value in users;
        result := AuthResult(true, None);
    }

    /** The two self-healing effects, run until neither has anything left to
        repair. In the commit that fires them both read the values of the
        same render: the active-chat effect filters against the projection
        of the operator as it was before the operator effect replaced it.
        When the operator changed, the next render recomputes the projection
        and fires the active-chat effect once more; after that neither
        effect changes anything (`Effects.SettleCurrentUserStable`,
        `Effects.SettleActiveChatStable`). */
    method SettleEffects()
      modifies this`currentUser, this`activeChatId
      ensures currentUser == Effects.SettleCurrentUser(users, old(currentUser))
      ensures activeChatId == Effects.SettleActiveChat(VisibleChats(),
                                Effects.SettleActiveChat(Projections.VisibleChats(chats, old(currentUser)), old(activeChatId)))
      ensures activeChatId == old(activeChatId) || activeChatId.None?
      ensures old(activeChatId).Some? && old(activeChatId).value != ""
              && !Effects.Shown(Projections.VisibleChats(chats, old(currentUser)), old(activeChatId).value)
              ==> activeChatId.None?
      ensures Settled()
    {
      var seen := VisibleChats();
      currentUser := Effects.SettleCurrentUser(users, currentUser);
      activeChatId := Effects.SettleActiveChat(seen, activeChatId);
      activeChatId := Effects.SettleActiveChat(VisibleChats(), activeChatId);
    }

    /** The state updates of the bulk load, each missing result read as an
        empty list and the chats put in load order. */
    method LoadInitialData(usersData: Option<seq<User>>, contactsData: Option<seq<Contact>>, chatsData: Option<seq<Chat>>,
                           qrData: Option<seq<QuickReply>>, kbData: Option<seq<KnowledgeBaseItem>>)
      modifies this`users, this`crmContacts, this`chats, this`quickReplies, this`knowledgeBase
      ensures users == usersData.GetOr([]) && crmContacts == contactsData.GetOr([])
      ensures quickReplies == qrData.GetOr([]) && knowledgeBase == kbData.GetOr([])
      ensures chats == InitialLoad.LoadOrder(chatsData)
      ensures multiset(chats) == multiset(chatsData.GetOr([]))
    {
      users := usersData.GetOr([]);
      crmContacts := contactsData.GetOr([]);
      chats := InitialLoad.LoadOrder(chatsData);
      quickReplies := qrData.GetOr([]);
      knowledgeBase := kbData.GetOr([]);
    }

    /** The realtime insert callback; `shown` is the message's formatted time. */
    method OnMessageInserted(m: Message, shown: string)
      modifies this`chats
      ensures chats == Reconciler.ReconcileInsert(old(chats), m, shown)
      ensures Reconciler.MostRecentFirst(chats) && |chats| == |old(chats)|
    {
      chats := Reconciler.ReconcileInsert(chats, m, shown);
    }

    /** handleNavigateToChat; `freshId` and `shown` stand for the id and the
        formatted time a new chat would get from the clock. */
    method NavigateToChat(contact: Contact, freshId: string, shown: string)
      modifies this`chats, this`activeChatId, this`activeView
      ensures chats == CacheUpdates.Navigate(old(chats), contact, currentUser, freshId, shown).chats
      ensures activeChatId == Some(CacheUpdates.Navigate(old(chats), contact, currentUser, freshId, shown).activeChatId)
      ensures activeView == WhatsAppView
      ensures exists c :: c in chats && c.contactId == contact.id && Some(c.id) == activeChatId
    {
      var nav := CacheUpdates.Navigate(chats, contact, currentUser, freshId, shown);
      chats := nav.chats;
      activeChatId := Some(nav.activeChatId);
      activeView := WhatsAppView;
    }

    /** handleSendMessage: the row it would insert, or None when nobody is
        logged in. `now` is the clock; whether the insert fails only decides
        what is logged, so no state changes either way. */
    method SendMessage(chatId: string, text: string, now: int, insertFails: bool) returns (payload: Option<MessagePayload>)
      ensures currentUser.None? <==> payload.None?
      ensures payload.Some? ==>
        && payload.value.sender == currentUser.value.id
        && payload.value.avatarUrl == currentUser.value.avatarUrl
        && payload.value.chatId == chatId && payload.value.text == text
        && payload.value.kind == Text && payload.value.status == Sent
        && payload.value.timestamp == now
    {
      if currentUser.None? {
        return None;
      }
      payload := Some(MessagePayload(chatId, currentUser.value.id, text, currentUser.value.avatarUrl, Text, Sent, now));
    }

    /** handleTakeOverChat: applied locally before, and whatever the outcome
        of, the backend update. */
    method TakeOverChat(chatId: string)
      modifies this`chats
      ensures currentUser.None? ==> chats == old(chats)
      ensures currentUser.Some? ==> chats == CacheUpdates.TakeOver(old(chats), chatId, currentUser.value.id)
    {
      if currentUser.None? {
        return;
      }
      chats := CacheUpdates.TakeOver(chats, chatId, currentUser.value.id);
    }

    /** handleDeleteContact; `error` is the outcome of the backend delete,
        which is only issued for a manager. Returns the alert shown, if any. */
    method DeleteContact(contactId: string, error: Option<DbError>) returns (alert: Option<string>)
      modifies this`crmContacts, this`chats
      ensures !(currentUser.Some? && currentUser.value.role == Manager) ==>
        alert == Some(ManagersOnly) && crmContacts == old(crmContacts) && chats == old(chats)
      ensures currentUser.Some? && currentUser.value.role == Manager && error.Some? ==>
        alert == Some(DeleteContactFailed) && crmContacts == old(crmContacts) && chats == old(chats)
      ensures currentUser.Some? && currentUser.value.role == Manager && error.None? ==>
        && alert.None?
        && crmContacts == CacheUpdates.RemoveContact(old(crmContacts), contactId)
        && chats == CacheUpdates.RemoveChatsOf(old(chats), contactId)
    {
      if !(currentUser.Some? && currentUser.value.role == Manager) {
        return Some(ManagersOnly);
      }
      if error.Some? {
        return Some(DeleteContactFailed);
      }
      crmContacts := CacheUpdates.RemoveContact(crmContacts, contactId);
      chats := CacheUpdates.RemoveChatsOf(chats, contactId);
      alert := None;
    }

    /** handleUpdateContact; a failure is only logged. */
    method UpdateContact(updated: Contact, error: Option<DbError>)
      modifies this`crmContacts
      ensures error.Some? ==> crmContacts == old(crmContacts)
      ensures error.None? ==> crmContacts == CacheUpdates.ReplaceContact(old(crmContacts), updated)
    {
      if error.None? {
        crmContacts := CacheUpdates.ReplaceContact(crmContacts, updated);
      }
    }

    /** handleAddContact: the stored row goes in front. */
    method AddContact(reply: Reply<Contact>) returns (alert: Option<string>)
      modifies this`crmContacts
      ensures reply.Ok() ==> alert.None? && crmContacts == [reply.data.value] + old(crmContacts)
      ensures !reply.Ok() ==> alert == Some(AddContactAlert(reply.error)) && crmContacts == old(crmContacts)
    {
      if reply.Ok() {
        crmContacts := [reply.data.value] + crmContacts;
        alert := None;
      } else {
        alert := Some(AddContactAlert(reply.error));
      }
    }

    /** handleAddUser: the stored row goes at the end. */
    method AddUser(reply: Reply<User>) returns (alert: Option<string>)
      modifies this`users
      ensures reply.Ok() ==> alert.None? && users == old(users) + [reply.data.value]
      ensures !reply.Ok() ==> alert == Some(AddUserFailed) && users == old(users)
    {
      if reply.Ok() {
        users := users + [reply.data.value];
        alert := None;
      } else {
        alert := Some(AddUserFailed);
      }
    }

    /** handleUpdateUser: the returned row replaces the rows with its id, and
        the operator too when it is that row. */
    method UpdateUser(reply: Reply<User>) returns (alert: Option<string>)
      modifies this`users, this`currentUser
      ensures !reply.Ok() ==> alert == Some(UpdateUserFailed) && users == old(users) && currentUser == old(currentUser)
      ensures reply.Ok() ==>
        && alert.None?
        && users == CacheUpdates.ReplaceUser(old(users), reply.data.value)
        && currentUser == if old(currentUser).Some? && old(currentUser).value.id == reply.data.value.id
                          then reply.data else old(currentUser)
    {
      if !reply.Ok() {
        return Some(UpdateUserFailed);
      }
      var row := reply.data.value;
      users := CacheUpdates.ReplaceUser(users, row);
      if currentUser.Some? && currentUser.value.id == row.id {
        currentUser := Some(row);
      }
      alert := None;
    }

    /** handleDeleteUser. */
    method DeleteUser(userId: string, error: Option<DbError>) returns (alert: Option<string>)
      modifies this`users
      ensures error.Some? ==> alert == Some(DeleteUserFailed) && users == old(users)
      ensures error.None? ==> alert.None? && users == CacheUpdates.RemoveUser(old(users), userId)
    {
      if error.Some? {
        return Some(DeleteUserFailed);
      }
      users := CacheUpdates.RemoveUser(users, userId);
      alert := None;
    }
  }
}
