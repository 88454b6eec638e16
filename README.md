# Client-side state of the CRM/chat console, in Dafny

This project models the in-browser state of a CRM and WhatsApp-style chat
console whose persistence, authentication and realtime feed live in a hosted
backend. What is left on the client is modelled here:

- the application state of the `App` component: the operator roster
  (`users`), the logged-in operator (`currentUser`), the contact and chat
  caches (`crmContacts`, `chats`), quick replies, knowledge-base items, the
  active chat and the active screen (class `App.AppState`);
- the role-based projections `visibleCrmContacts` and `visibleChats`
  (module `Projections`);
- the realtime reconciler that folds a newly inserted message into the chat
  cache and re-sorts it (module `Reconciler`);
- the order the chat cache gets at the bulk load (module `InitialLoad`);
- the command handlers (navigate to a contact's chat, send a message, take a
  chat over, add/update/delete contacts and operators, log in, sign up) and
  the two self-healing effects (methods of `App.AppState`, with the list
  updates they apply in modules `CacheUpdates` and `Effects`);
- the login form and its handlers (class `Login.LoginForm`).

Every backend call is a parameter carrying its outcome: an error or not, and
the row the backend returns. Timestamps are integers. The formatted time a chat
shows and the clock-based id of a chat created from the CRM are parameters
too (`shown`, `freshId`). `Array.prototype.sort` is modelled by a stable
insertion sort driven by the source's own comparators (module `Sorting`).
Its stability is a lemma (`Sorting.SortStable`). When a comparator is
consistent, a stable sort has exactly one possible output, so the model's
order is the browser's; that uniqueness is a general fact about sorting and
is not itself proved here. `filter` and `find` (through the index `FindFirst` returns) are the functions of module `Seqs`.

The model follows the code, including these details that may surprise:

- A chat created from the CRM is handled by `currentUser?.id || 'bot'`. It
  stays with the bot when nobody is logged in or the operator's id is empty.
- During the realtime re-sort a chat without messages has key 0, so it is
  not necessarily last: it sorts after chats with later messages but before
  chats whose last message has a negative timestamp.
- The load-time comparator keys a chat by `messages[0]`. The backend
  delivers messages newest first, so that is the newest message. The
  reconciler keys a chat by its last message, which for a chat untouched
  since the load is its oldest. The load comparator also answers 1 for two
  chats without messages, whichever comes first, so nothing is promised
  about their order.
- Adding, updating and deleting operators is not restricted to managers.
  Only deleting a contact is.
- The active-chat effect tests `activeChatId` for truthiness, so an empty
  chat id is never reset.

## Model

| member | source | states |
|---|---|---|
| `Seqs.Filter` | App.tsx:181 | `filter`: the result holds exactly the elements satisfying the predicate, each as often as in the input, in input order (a subsequence) |
| `Seqs.FindFirst` | App.tsx:322 | `find`: the index returned is the first whose element satisfies the predicate; None exactly when no element does |
| `Seqs.FilterIdempotent` | App.tsx:181 | filtering twice by one predicate equals filtering once |
| `Sorting.SortWith` | App.tsx:251 | `sort` returns a permutation of its input (same length, same multiset) |
| `Sorting.SortStable` | App.tsx:277 | the sort is stable: elements the comparator ties with one another come out in their input order |
| `Sorting.SortOrdered` | App.tsx:283-287 | sorting with a comparator that never contradicts a transitive relation leaves every element related to every later one |
| `Projections.VisibleContacts` | App.tsx:176-182 | no operator: empty; a manager: all contacts; otherwise exactly the contacts the operator owns, with their multiplicity, in cache order |
| `Projections.VisibleChats` | App.tsx:184-190 | no operator: empty; a manager: all chats; otherwise exactly the chats handled by the operator or by the bot, with their multiplicity, in cache order |
| `Projections.VisibleChatsIdempotent` | App.tsx:184-190 | projecting the projected chats again changes nothing |
| `Projections.VisibleContactsIdempotent` | App.tsx:176-182 | projecting the projected contacts again changes nothing |
| `Reconciler.SortMessagesOldestFirst` | App.tsx:277 | the message sort leaves messages in non-decreasing timestamp order |
| `Reconciler.SortChatsMostRecentFirst` | App.tsx:283-287 | the chat re-sort leaves chats in non-increasing order of last-message timestamp (0 without messages) |
| `Reconciler.AddMessage` | App.tsx:274-282 | the chat the message belongs to gets messages that are a permutation of its old ones plus the new one, oldest first, and shows the new text and time; no other field changes; any other chat is returned unchanged |
| `Reconciler.AddToMatching` | App.tsx:273-282 | the `map` applies the per-chat update to every chat, in place |
| `Reconciler.ReconcileInsert` | App.tsx:272-287 | the new chat list has the old length, is a permutation of the updated chats, and is sorted most recent first |
| `Reconciler.ReconcileInsertChats` | App.tsx:272-287 | chats the message does not belong to survive unchanged; the ones it belongs to contain it, oldest first, and show its text and time; the set of chat ids is unchanged |
| `Reconciler.ReconcileInsertUnknownChat` | App.tsx:273-287 | a message for no known chat adds nothing: the result is the old chats re-sorted, a permutation of them |
| `Reconciler.SortThreeLate` | App.tsx:277 | sorting messages [T1, T2, T0] with T0 < T1 <= T2 gives [T0, T1, T2] |
| `Reconciler.LateMessageSortsFirst` | App.tsx:274-282 | a late message with timestamp T0 delivered to a chat with messages [T1, T2] ends up first: [T0, T1, T2] |
| `InitialLoad.LoadOrder` | App.tsx:251-258 | the loaded chats are a permutation of the fetched ones (empty when nothing was fetched); chats with messages precede chats without; chats with messages are non-increasing by the timestamp of `messages[0]` |
| `CacheUpdates.Navigate` | App.tsx:321-340 | when the full chat list has a chat with the contact, the list is unchanged and the first such chat is activated; otherwise exactly one chat is prepended (fresh id, the contact's name and avatar, placeholder text, no messages, unread 0, handled by the operator, or by the bot when there is no operator or its id is empty) and activated; either way the active chat is a chat with that contact |
| `CacheUpdates.NavigateCreatedIsVisible` | App.tsx:327-339 | a chat created from the CRM is in the visible chats of the operator who opened it, so the active-chat effect keeps it open |
| `CacheUpdates.NavigateAgain` | App.tsx:321-340 | navigating to the same contact a second time changes neither the chat list nor the chat activated |
| `CacheUpdates.TakeOver` | App.tsx:368 | only the chats with the given id change, and of them only `handled_by`, which becomes the operator |
| `CacheUpdates.TakeOverMakesVisible` | App.tsx:368 | a chat an operator has taken over is in that operator's visible chats |
| `CacheUpdates.RemoveContact` | App.tsx:379 | the contacts with the id are gone; every other contact stays, with its multiplicity, in order |
| `CacheUpdates.RemoveChatsOf` | App.tsx:380 | the chats of the contact are gone; every other chat stays, with its multiplicity, in order |
| `CacheUpdates.RemoveUser` | App.tsx:436 | the operators with the id are gone; every other one stays, with its multiplicity, in order |
| `CacheUpdates.ReplaceContact` | App.tsx:391 | every contact with the updated contact's id becomes it; every other contact stays in place |
| `CacheUpdates.ReplaceUser` | App.tsx:423 | every operator with the returned row's id becomes that row; every other one stays in place |
| `Effects.SettleCurrentUser` | App.tsx:216-220 | an operator on the roster, or no operator, is kept; a missing one becomes the first of the roster, or nobody when it is empty; the result is always on the roster or absent |
| `Effects.SettleActiveChat` | App.tsx:222-226 | the active chat id is kept when it names a visible chat (or is empty), dropped otherwise; the result names a visible chat, is empty, or is absent |
| `App.AddContactAlert` | App.tsx:401-405 | the alert begins with the error's message, or the generic one when there is none, and a space; it ends with the details line when there are details, with that space otherwise; its length is exactly that head plus the details line, so nothing else is in it |
| `App.AppState.constructor` | App.tsx:95-102 | the start state: dashboard screen, nobody logged in, every cache empty, no active chat |
| `App.AppState.HandleLogin` | App.tsx:110-134 | an auth failure or a missing profile returns failure with its message and leaves the operator as it was; otherwise the profile becomes the operator and success is returned |
| `App.LoginUndoneByOperatorEffect` | App.tsx:131-133 | an operator set by `handleLogin`, or by the profile-less fallback of `handleSignUp`, whom the roster does not list is replaced by the operator effect: by the first operator of the roster, who is someone else, or by nobody when the roster is empty, as in a fresh session |
| `App.WithOperator` | App.tsx:131-133 | the roster with the operator on it: unchanged when already listed, the operator appended otherwise |
| `App.LoginKeptOnRoster` | App.tsx:216-220 | an operator put on the roster survives the operator effect |
| `App.AppState.HandleLoginOnRoster` | App.tsx:110-134 | as `HandleLogin`, and on success the operator is put on the roster, so the operator effect keeps the login |
| `App.AppState.HandleSignUp` | App.tsx:136-174 | an auth error returns its message; no account returns the generic message; a failed profile read still succeeds, with a fallback operator of role 'Atendente'; otherwise the profile is appended to the roster and becomes the operator |
| `App.AppState.HandleSignUpOnRoster` | App.tsx:136-174 | as `HandleSignUp`, and the profile-less fallback operator is also put on the roster, so on every success the operator effect keeps the new account logged in |
| `Effects.SettleCurrentUserStable` | App.tsx:216-220 | running the operator effect again on what it wrote changes nothing |
| `Effects.SettleActiveChatStable` | App.tsx:222-226 | running the active-chat effect again over the same projection changes nothing |
| `App.AppState.SettleEffects` | App.tsx:216-226 | the commit runs both effects on the same render's values, then the next render re-runs the active-chat effect on the new operator's projection: an active chat the old operator could not see is dropped even when the new one sees it; afterwards the operator is on the roster or absent, and the active chat is visible, empty or absent |
| `App.AppState.LoadInitialData` | App.tsx:248-260 | every missing result becomes an empty list; the chats take the load order and are a permutation of those fetched |
| `App.AppState.OnMessageInserted` | App.tsx:272-288 | the chat cache becomes the reconciled list, sorted most recent first, of the same length |
| `App.AppState.NavigateToChat` | App.tsx:321-342 | chats and active chat as `Navigate` gives them; the screen becomes 'whatsapp'; the active chat is a chat with the contact |
| `App.AppState.SendMessage` | App.tsx:344-364 | with no operator nothing is sent; otherwise the row sent has the operator as sender and avatar, type text, status sent, the clock's time; no state changes on either outcome |
| `App.AppState.TakeOverChat` | App.tsx:366-370 | with no operator nothing changes; otherwise the chats become `TakeOver` of the old ones, whatever the backend answers |
| `App.AppState.DeleteContact` | App.tsx:372-384 | a non-manager gets the managers-only alert and nothing changes; a failed delete gets the failure alert and nothing changes; otherwise the contact and all its chats are removed |
| `App.AppState.UpdateContact` | App.tsx:386-395 | on error nothing changes; otherwise the contact is replaced by id |
| `App.AppState.AddContact` | App.tsx:397-407 | on success the stored row is prepended; otherwise the alert is raised and nothing changes |
| `App.AppState.AddUser` | App.tsx:409-417 | on success the stored row is appended; otherwise the alert is raised and nothing changes |
| `App.AppState.UpdateUser` | App.tsx:419-431 | on success the row replaces the roster entries with its id and, when it is the operator's own row, the operator; otherwise the alert is raised and nothing changes |
| `App.AppState.DeleteUser` | App.tsx:433-441 | on success the operator is removed by id; otherwise the alert is raised and nothing changes |
| `Login.ErrorOr` | components/Login.tsx:34 | `result.error || fallback`: a present, non-empty message wins, otherwise the fallback; never empty when the fallback is not |
| `Login.LoginForm.constructor` | components/Login.tsx:15-25 | the form starts in the login view with every field, the error and the reset message empty |
| `Login.LoginForm.SetLogin` | components/Login.tsx:119 | the login field takes the typed value |
| `Login.LoginForm.SetPassword` | components/Login.tsx:123 | the password field takes the typed value |
| `Login.LoginForm.SetName` | components/Login.tsx:166 | the name field takes the typed value |
| `Login.LoginForm.SetConfirmPassword` | components/Login.tsx:178 | the confirmation field takes the typed value |
| `Login.LoginForm.SubmitLogin` | components/Login.tsx:27-36 | `onLogin` is called with the login and password; success leaves the error empty; failure shows the returned message, or 'Login ou senha inválidos.' |
| `Login.LoginForm.SubmitSignUp` | components/Login.tsx:38-51 | differing passwords show 'As senhas não coincidem.' and `onSignUp` is never called; otherwise it is called with name, login and password, and a failure shows the returned message, or 'Não foi possível criar a conta.' |
| `Login.LoginForm.PasswordReset` | components/Login.tsx:53-71 | an empty login shows an error and requests nothing; otherwise a reset is requested for the login, and exactly one of error and reset message ends up non-empty, by outcome |
| `Login.LoginForm.ToggleView` | components/Login.tsx:88-96 | the view flips; name, login, password, confirmation and error are emptied; the reset message is untouched |

## Left out

- The database reset and seeding (`resetAndCreatePrimaryUser`, `initializeApp`, App.tsx:29-88 and 298-319): remote I/O with hard-coded data.
- The backend client itself: authentication, queries, the realtime subscription and its teardown, and the `Promise.all` of the bulk load. Each call is replaced by its outcome, and the bulk load's state update is one step (`LoadInitialData`). The effect that starts the load when the operator changes, and the `isLoading`/`isInitializing` flags, are not modelled.
- The theme effect (App.tsx:192-214): DOM, `localStorage` and `matchMedia`.
- `handleSendEmail` and the email modal (App.tsx:443-461): a dynamically imported external service.
- Google sign-in (components/Login.tsx:73-86): a redirect to an external provider.
- Time formatting (`toLocaleTimeString`) and date parsing: timestamps are integers and the formatted time is an opaque string parameter. The `Date.now()` chat id is the parameter `freshId`.
- Rendering, `lazy`/`Suspense`, the sidebar, view-mode and channel state, and the setters passed down to child components (their code is not part of this model). `handleLogout` is referenced but never defined in App.tsx.
- Logging and `alert` side effects: alerts are returned as strings, logs are dropped.
- Message deduplication: the reconciler does not deduplicate, and neither does the model.
- Browser form validation (`required` inputs), and the intermediate states while a handler awaits its callback. The model gives the state once the handler has finished.
- The operator's password, which `handleUpdateUser` strips before the update. In the model the update takes the row the backend returns; the `updatedUser` argument only shapes the request.
- The contact's monetary value, a JavaScript number, is an integer here.
- The order among chats without messages at load time: the comparator is inconsistent for them, and the model fixes one order without promising it.
- React's scheduler itself: `SettleEffects` fixes the effect runs a change of operator triggers as one commit, in which both effects read that render's values, followed by the active-chat effect on the next render; further renders change nothing (`Effects.SettleCurrentUserStable`, `Effects.SettleActiveChatStable`). The effects are not interleaved with other updates.

## Findings

| source | as written | input that shows it | evidently intended | confidence | as-written member | corrected member |
|---|---|---|---|---|---|---|
| App.tsx:131-133 | `handleLogin`, and `handleSignUp` when the profile read fails (App.tsx:164-168), set the operator but not the roster, and the operator effect (App.tsx:216-220) replaces an operator the roster does not list with `users[0]` or with nobody | the first login of a session: roster `[]`, profile `u`, and the operator becomes null in the same commit while the bulk load it started fills the roster; a login with profile `b` onto a roster `[m]` loaded earlier, and the operator becomes `m`, someone else; a sign-up whose profile read fails, and its fallback 'Atendente' operator is replaced the same way despite the promise to let the new account in | the operator stays logged in, as after a `handleSignUp` that reads its profile, which appends it to the roster | medium, not executed | `App.LoginUndoneByOperatorEffect` (with `App.AppState.HandleLogin` and `App.AppState.HandleSignUp`) | `App.AppState.HandleLoginOnRoster` and `App.AppState.HandleSignUpOnRoster` (with `App.WithOperator` and `App.LoginKeptOnRoster`) |
