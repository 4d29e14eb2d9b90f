# ChamaConnect core, modelled in Dafny

ChamaConnect is a web application for chamas, the savings groups common in
Kenya. Members pool contributions, hold meetings, chat and trade on a small
marketplace. This project models the parts of it that make decisions:

- the real-time chat server (`server/websocket.ts`). It keeps a registry
  from user id to connection and a `userId` slot per connection. Its
  `message` handler serves `auth` and `chat` frames, its `close` handler
  empties the registry entry, and `broadcastNotification` pushes
  notifications;
- the in-memory store (`server/storage.ts`, class `MemStorage`). It holds
  one id-keyed table per entity with its own auto-increment counter;
- the decision logic of the HTTP routes (`server/routes.ts`):
  - the guards for chama membership, chama admin and application admin;
  - the POST handlers for transactions, chamas, members, batches of
    contributions, contribution payment, meetings and chama rules;
  - the rule-based assistant;
- the pure logic and the socket handlers of five client pages: chat,
  marketplace, learning hub, settings and dashboard.

How each part is modelled:

- **The store.** `MemStorage` is a class. Its fields are `map`s and counters.
  Each `create*` is a method that states the whole new table and counter.
  Each query is a function specified by exactly which stored rows it returns,
  and in which order. A JavaScript `Map` iterates in insertion order. Rows
  are never deleted and ids come from the counter, so that order is the
  order of the ids (`Storage.Rows`). An unsorted query lists its rows by
  strictly increasing id. A sorted query lists them newest first, and rows
  with equal timestamps stay in id order, because `Array.prototype.sort` is
  stable. Either order, together with the set of rows, fixes the result
  completely (`Seqs.IncreasingByIsUnique`, `Seqs.SortedDescThenByIsUnique`).
  A lookup that `find`s one row returns the matching row with the smallest
  id. `getChamasByUser` gives one chama per member row of the user, in
  member-id order, so a chama named by two rows appears twice.
- **The routes.** Each handler is a method over the store. It returns an
  `Outcome`: a status with a payload, or a status with a message.
- **The chat server.** The server is a class. It holds the registry, the
  per-connection slots, the set of open connections and an outbox that
  records every `send`.
- **The chat page.** Its state is a class. The frames it sends are values
  of the server's inbound type. The frames it receives are the server's
  outbound envelopes. This lets lemmas relate the page to the server.
- **The other pages.** Marketplace, learning, settings and dashboard are
  functions with lemmas.

The chat server is modelled as the code behaves on frames whose ids are
integers and whose content is a string, including these
cases:

- `close` deletes the registry entry of the connection's user, even when a
  newer connection now owns that entry. See `ChatServerFacts.StaleCloseScenario`.
- A second `auth` on the same connection with another id keeps the old
  registry entry. See `ChatServerFacts.ReauthScenario`.
- A chat frame with both `recipientId` and `chamaId` is a direct message.
- Empty chat content is accepted.

## Model

| member | source | states |
|---|---|---|
| Text.Initials | client/src/pages/user/Chat.tsx:180-187 | `getInitials` (the same in client/src/pages/user/Settings.tsx:140-147) yields the upper-cased first characters of the space-separated words, at most two, and no lower-case letter |
| Text.FirstLettersAreWordStarts | client/src/pages/user/Chat.tsx:181-184 | the first characters of the pieces of `split(' ')` are exactly the characters that start a word |
| Text.DoubledSpaceAddsNoWord | client/src/pages/user/Settings.tsx:141-144 | the empty pieces that consecutive spaces produce contribute no initial |
| Text.JoinSplitRoundTrip | client/src/pages/user/Chat.tsx:182 | joining the pieces of `split(' ')` with spaces gives the name back |
| Text.SplitPiecesHaveNoSpace | client/src/pages/user/Chat.tsx:182 | no piece of `split(' ')` contains a space |
| Seqs.Filter | server/storage.ts:247-250 | `filter` keeps exactly the elements satisfying the predicate |
| Seqs.FilterMultiplicity | server/storage.ts:247-250 | `filter` keeps every copy of a kept element and drops every copy of the others |
| Seqs.FilterKeepsIncreasing | server/storage.ts:247-250 | filtering rows listed by increasing id keeps them by increasing id |
| Seqs.FilterIsSubsequence | server/storage.ts:247-250 | `filter` keeps the original order |
| Seqs.Find | server/storage.ts:224-228 | `find` returns a match iff one exists |
| Seqs.FindIsFirst | server/storage.ts:224-228 | `find` returns the earliest match |
| Seqs.Take | client/src/pages/user/Dashboard.tsx:82-83 | `slice(0, n)` is the prefix of length min(n, length) |
| Seqs.SortDescBy | server/storage.ts:302-309 | the newest-first sort yields a permutation ordered by decreasing key |
| Seqs.SortIsStable | server/storage.ts:302-309 | the sort is stable: from input ordered by id, equal keys come out in id order |
| Seqs.SortedDescThenByIsUnique | server/storage.ts:302-309 | newest-first order with ties by id leaves one possible list for a set of rows |
| Seqs.IncreasingByIsUnique | server/storage.ts:247-250 | increasing id order leaves one possible list for a set of rows |
| Seqs.SortKeepsMembers | server/storage.ts:302-309 | sorting keeps exactly the same elements |
| Seqs.Distinct | client/src/pages/user/Marketplace.tsx:48 | `new Set(...)` keeps each element exactly once and loses none |
| Seqs.DistinctKeepsFirstAppearanceOrder | client/src/pages/user/Marketplace.tsx:48 | the distinct elements come in order of first appearance |
| Storage.Rows | server/storage.ts:247-250 | `Array.from(map.values())` lists the rows by increasing id |
| Storage.RowsAreValues | server/storage.ts:247-250 | the listed rows are exactly the stored rows |
| Storage.RowsAfterInsert | server/storage.ts:257-262 | inserting under the fresh id appends one row at the end |
| Storage.RowsAfterUpdate | server/storage.ts:264-271 | replacing a row under an existing id keeps its position |
| Storage.MemberFromFinds | server/storage.ts:224-228 | the scan over member rows finds a row of that chama and user iff one is stored |
| Storage.FindInRowsIsFirst | server/storage.ts:139-143 | `find` over the rows of a table returns the match with the smallest id |
| Storage.MemberFromIsFirst | server/storage.ts:224-228 | the row the scan finds has the smallest id among the matching rows |
| Storage.PairWithUsers | server/storage.ts:217-221 | every member is paired with its user in order; the first member without a user throws `User not found for member <id>` |
| Storage.MemStorage.constructor | server/storage.ts:100-127 | every table starts empty and every counter starts at 1 |
| Storage.MemStorage.GetUser | server/storage.ts:135-137 | the user under that id, or none |
| Storage.MemStorage.GetUserByUsername | server/storage.ts:139-143 | a stored user with that username iff one exists, and of those the one with the smallest id |
| Storage.MemStorage.GetUserByEmail | server/storage.ts:145-149 | a stored user with that e-mail iff one exists, and of those the one with the smallest id |
| Storage.MemStorage.CreateUser | server/storage.ts:151-156 | the row takes the current counter as id, the counter goes up by one, and the id exceeds every earlier id |
| Storage.MemStorage.UpdateUser | server/storage.ts:158-165 | a missing id changes nothing and returns none; otherwise only that row is replaced by the patched one |
| Storage.MemStorage.GetWallet | server/storage.ts:168-172 | a stored wallet of that user iff one exists, and of those the one with the smallest id |
| Storage.MemStorage.CreateWallet | server/storage.ts:174-179 | fresh increasing id, counter plus one, the table gains that one row |
| Storage.MemStorage.UpdateWalletBalance | server/storage.ts:181-189 | the user's first wallet gets `amount` added to its balance; no wallet changes nothing |
| Storage.MemStorage.GetChama | server/storage.ts:192-194 | the chama under that id, or none |
| Storage.MemStorage.GetChamasByUser | server/storage.ts:196-203 | exactly the existing chamas of the user's member rows; element i is the chama of the i-th such row by increasing id, repeats included |
| Storage.MemStorage.ChamasOf | server/storage.ts:200-202 | element i is the chama of the i-th member row whose chama exists; rows whose chama is missing are skipped |
| Storage.MemStorage.CreateChama | server/storage.ts:205-210 | fresh increasing id, `founded` set to now, counter plus one |
| Storage.MemStorage.ChamaMembersAreRowsWithUsers | server/storage.ts:213-222 | `getChamaMembers` succeeds iff every member row of the chama has its user, and then lists exactly those rows with their users |
| Storage.MemStorage.MembersOf | server/storage.ts:214-215 | exactly the member rows of that chama, by increasing id |
| Storage.MemStorage.GetChamaMember | server/storage.ts:224-228 | a member row of that chama and user is returned iff one is stored, and it is the matching row with the smallest id |
| Storage.MemStorage.AddChamaMember | server/storage.ts:230-235 | a new member row under a fresh id, with no duplicate check |
| Storage.MemStorage.UpdateChamaMemberRole | server/storage.ts:237-244 | the first matching member row gets the new role; no row changes nothing |
| Storage.MemStorage.GetContributions | server/storage.ts:247-250 | exactly the contributions of that chama, by increasing id |
| Storage.MemStorage.GetUserContributions | server/storage.ts:252-255 | exactly the contributions of that user, by increasing id |
| Storage.MemStorage.CreateContribution | server/storage.ts:257-262 | fresh increasing id, no `paidAt`, counter plus one |
| Storage.MemStorage.UpdateContributionStatus | server/storage.ts:264-271 | a missing id changes nothing; otherwise only that row gets the status and `paidAt` |
| Storage.MemStorage.GetUserTransactions | server/storage.ts:274-278 | exactly the user's transactions, newest first, equal timestamps in id order |
| Storage.MemStorage.CreateTransaction | server/storage.ts:280-285 | fresh increasing id, `createdAt` set to now, counter plus one |
| Storage.MemStorage.GetChamaMeetings | server/storage.ts:288-292 | exactly the chama's meetings, latest scheduled first, equal times in id order |
| Storage.MemStorage.CreateMeeting | server/storage.ts:294-299 | fresh increasing id, counter plus one |
| Storage.MemStorage.GetUserMessages | server/storage.ts:302-309 | exactly the messages the user sent or received directly, newest first, equal timestamps in id order |
| Storage.MemStorage.GetChamaMessages | server/storage.ts:311-315 | exactly the chama's messages, newest first, equal timestamps in id order |
| Storage.MemStorage.CreateMessage | server/storage.ts:317-322 | the message is stored unread under a fresh increasing id |
| Storage.MemStorage.MarkMessageAsRead | server/storage.ts:324-331 | a missing id changes nothing; otherwise only that message becomes read |
| Storage.MemStorage.GetChamaRules | server/storage.ts:334-337 | a rule row of that chama iff one is stored, and of those the one with the smallest id |
| Storage.MemStorage.CreateChamaRules | server/storage.ts:339-345 | fresh increasing id, both timestamps set to now |
| Storage.MemStorage.UpdateChamaRules | server/storage.ts:347-354 | the chama's first rule row is patched and re-stamped; no row changes nothing |
| Storage.MemStorage.GetUserNotifications | server/storage.ts:357-361 | exactly the user's notifications, newest first, equal timestamps in id order |
| Storage.MemStorage.CreateNotification | server/storage.ts:363-373 | stored unread under a fresh increasing id, `createdAt` set to now |
| Storage.MemStorage.MarkNotificationAsRead | server/storage.ts:375-382 | a missing id changes nothing; otherwise only that notification becomes read |
| Storage.MemStorage.GetProducts | server/storage.ts:385-389 | exactly the available products, newest first, equal timestamps in id order |
| Storage.MemStorage.GetUserProducts | server/storage.ts:391-395 | exactly the seller's products, newest first, equal timestamps in id order |
| Storage.MemStorage.GetProduct | server/storage.ts:397-399 | the product under that id, or none |
| Storage.MemStorage.CreateProduct | server/storage.ts:401-406 | fresh increasing id, `createdAt` set to now |
| Storage.MemStorage.UpdateProductStatus | server/storage.ts:408-415 | a missing id changes nothing; otherwise only that product gets the status |
| Storage.MemStorage.GetUserLearningProgress | server/storage.ts:418-421 | exactly the user's progress rows, by increasing id |
| Storage.MemStorage.UpdateLearningProgress | server/storage.ts:423-449 | upsert: an existing (user, module) row keeps its id and takes the new values; otherwise exactly one row is added under a fresh id; at most one row per (user, module) is kept |
| ChatServer.AuthTarget | server/websocket.ts:45-52 | an `auth` frame binds a user iff its `userId` is truthy |
| ChatServer.RouteOf | server/websocket.ts:71-81 | a truthy `recipientId` makes the chat direct even when `chamaId` is set; else a truthy `chamaId` makes it a group chat; else there is no target |
| ChatServer.Server.constructor | server/websocket.ts:31 | the registry starts empty |
| ChatServer.Server.Connect | server/websocket.ts:33-34 | a new open connection with no `userId` |
| ChatServer.Server.OnMessage | server/websocket.ts:36-139 | the outbox gains what `Reply` says; an `auth` frame with a truthy id sets the slot and the registry entry and keeps any earlier entry; exactly one message is stored iff the chat is accepted |
| ChatServer.Server.Relay | server/websocket.ts:93-129 | an accepted chat is stored once under a fresh id before it is fanned out |
| ChatServer.Server.Deliver | server/websocket.ts:111-129 | the sends of an accepted chat, or a format error when `getChamaMembers` throws |
| ChatServer.Server.FanOut | server/websocket.ts:123-128 | the loop sends one copy per member registered on an open connection, in member order |
| ChatServer.Server.OnClose | server/websocket.ts:141-146 | the connection closes and the registry entry of its user is deleted unconditionally |
| ChatServer.Server.BroadcastNotification | server/websocket.ts:150-155 | exactly one send iff the user is registered on an open connection, else nothing |
| ChatServerFacts.DirectCopies | server/websocket.ts:112-119 | the recipient's open connection gets exactly one copy, the sender exactly one echo, and nobody else gets one |
| ChatServerFacts.GroupDeliveriesExact | server/websocket.ts:121-128 | one send per reachable member, all with the same envelope, and no send to anyone else |
| ChatServerFacts.GroupCopies | server/websocket.ts:123-128 | a connection gets one copy per member whose entry points at it |
| ChatServerFacts.SenderInGroupGetsItsCopy | server/websocket.ts:121-128 | a sender who is a member gets the group chat back through the fan-out, with no special case |
| ChatServerFacts.RejectedFramesAnswerOnlyTheSender | server/websocket.ts:54-91 | a frame that is not an accepted chat sends at most one error, only to its own connection |
| ChatServerFacts.RejectionReasons | server/websocket.ts:45-91 | which error each rejected frame gets, in the handler's order, including none for `auth` and for unknown types after sign-in |
| ChatServerFacts.AcceptedEnvelope | server/websocket.ts:101-109 | every copy carries the sender's id and full name, the unchanged content and exactly one target |
| ChatServerFacts.StaleCloseScenario | server/websocket.ts:141-146 | closing a superseded connection removes the newer connection's registry entry |
| ChatServerFacts.ReauthScenario | server/websocket.ts:45-52 | re-authenticating as another user leaves the connection registered under both ids |
| Routes.RequireAuth | server/routes.ts:19-24 | no session user gives 401, otherwise the user |
| Routes.VerifyChamaMembership | server/routes.ts:27-40 | a non-numeric id gives 400; a caller who is not a member gives 403; otherwise the caller's member row of that chama |
| Routes.VerifyChamaAdmin | server/routes.ts:43-54 | passes iff the attached role is chairperson, treasurer or secretary; 500 without a member row, 403 for another role |
| Routes.VerifyAppAdmin | server/routes.ts:57-62 | passes iff the role is `admin`, otherwise 403 |
| Routes.ChamaAdminGate | server/routes.ts:200 | the two chama guards chained: passes iff the caller's member row has an admin role; otherwise 400 `Invalid chama ID` for a non-numeric id, 403 `Not a member of this chama` without a member row, 403 `Insufficient permissions` for another role |
| Routes.WalletDelta | server/routes.ts:101-112 | plus the amount for a deposit, minus it for a withdrawal or transfer, zero for every other type |
| Routes.PostTransaction | server/routes.ts:87-127 | a bad body gives 400 and another user's transaction 403, both changing nothing; otherwise one transaction is stored and only a completed one moves the wallet |
| Routes.PostChama | server/routes.ts:139-163 | the chama is stored with the caller as creator and the caller becomes its chairperson; no member or contribution row of chama 0 appears |
| Routes.PostMember | server/routes.ts:200-230 | guard failures are passed on; a bad body gives 400, an unknown user 404, an existing member 400, all changing nothing; otherwise exactly one member row is added; no member or contribution row of chama 0 appears |
| Routes.BatchStop | server/routes.ts:261-273 | where the batch stops: every item before it parsed |
| Routes.BatchStopAcceptsBefore | server/routes.ts:261-273 | every item before the stop parses and names a member |
| Routes.BatchStopRefusesAt | server/routes.ts:261-273 | the item at the stop, if any, is unparsable or names a non-member |
| Routes.DueRows | server/routes.ts:275-276 | one created row per accepted item |
| Routes.DueRowsAreItems | server/routes.ts:262-276 | the j-th created row is item j, in chama `cid`, under id c0+j, unpaid |
| Routes.BatchRowsExtend | server/routes.ts:275 | the contributions table gains exactly the created rows under consecutive fresh ids |
| Routes.BatchNoticesKeepEarlier | server/routes.ts:279-285 | notifications stored before the batch are untouched |
| Routes.BatchRowsOfChama | server/routes.ts:262-275 | every contribution after a batch is an earlier row or belongs to the path chama |
| Routes.BatchNoticeOfItem | server/routes.ts:279-285 | each created contribution has exactly one `contribution_due` notification, naming its row |
| Routes.CreateDue | server/routes.ts:275-285 | one loop step stores one contribution and its notification |
| Routes.PostContributions | server/routes.ts:252-296 | guard failures change nothing; otherwise items are handled in order, the first refused item ends with 400, and the earlier items stay created with their notifications; no member or contribution row of chama 0 appears |
| Routes.CreateBatch | server/routes.ts:259-288 | the loop leaves exactly the rows and notifications of the items before the stop, and replies 400 for the refused item or 201 with all rows |
| Routes.MeetingNotices | server/routes.ts:371-379 | one notification per member row |
| Routes.MeetingNoticesPerMember | server/routes.ts:371-379 | the j-th notification goes to the j-th member, names the meeting and has id n0+j |
| Routes.MeetingNoticesStep | server/routes.ts:371-379 | notifying member i adds exactly its notice under the i-th fresh id |
| Routes.NotifyMembers | server/routes.ts:371-379 | the loop appends exactly those notifications under consecutive fresh ids |
| Routes.PostMeeting | server/routes.ts:357-389 | a guard failure sends the guard's own reply, and guard or body failures change nothing; otherwise the meeting is stored, then one notification per member, or 500 with the meeting kept when `getChamaMembers` throws |
| Routes.ScheduleMeeting | server/routes.ts:367-381 | the meeting is stored before the members are read |
| Routes.PayLookupAsWritten | server/routes.ts:306-307 | the lookup finds a row iff chama 0 holds a contribution with that id |
| Routes.PayLookupAsWrittenMissesEveryChama | server/routes.ts:306-307 | while no member or contribution row names chama 0, which the three creating routes keep true, the lookup as written finds nothing, although the row is stored |
| Routes.PayLookup | server/routes.ts:306 | the whole-table lookup finds the row iff the id is stored |
| Routes.PayLookupFindsStoredRow | server/routes.ts:306 | the whole-table lookup finds exactly the stored row with that id |
| Routes.Settle | server/routes.ts:309-340 | checks in order: 404, then 403 for another owner, then 400 if already paid, all changing nothing; otherwise the row becomes paid and one completed `contribution` transaction is added, with no wallet change |
| Routes.PayContributionAsWritten | server/routes.ts:298-344 | a non-numeric id gives 400 and a failed chama-0 lookup 404; a row the chama-0 lookup finds is refused with 403 for another owner or 400 `Contribution already paid`, otherwise paid with `paidAt` now and one completed `contribution` transaction; every refusal changes nothing |
| Routes.PayContribution | server/routes.ts:298-344 | with the whole-table lookup: 400 for a bad id, then 404, 403 and 400 `Contribution already paid`, each changing nothing; otherwise the owner's unpaid contribution becomes `paid` with `paidAt` now, and one completed `contribution` transaction is stored under the next id |
| Routes.PostRules | server/routes.ts:407-433 | a guard failure sends the guard's own reply; existing rules give 400 before the body is checked; otherwise a bad body gives 400, or exactly one rule row is created for that chama |
| Routes.AssistantReply | server/routes.ts:523-551 | a missing, empty or non-string message gives 400; otherwise 200 with one of the five answers |
| Routes.AssistantKeywordPrecedence | server/routes.ts:532-542 | the answer belongs to the first keyword the lower-cased message contains, in the handler's order; with none, the default answer |
| Routes.AssistantIgnoresCase | server/routes.ts:534-540 | a message and its lower-cased form get the same answer |
| ChatPage.AuthFrame | client/src/pages/user/Chat.tsx:57-62 | the sign-in frame binds the user at the server iff the id is non-zero |
| ChatPage.ChatFrame | client/src/pages/user/Chat.tsx:152-160 | the untrimmed draft with exactly one target, which the server routes to that user or chama |
| ChatPage.Received | client/src/pages/user/Chat.tsx:65-84 | exactly one unread message for a chat envelope; nothing for other envelopes or for a frame that does not parse |
| ChatPage.ServerChatShowsUnread | client/src/pages/user/Chat.tsx:69-78 | a chat the server fans out shows unread, with the sender's name, the typed text and the server's route |
| ChatPage.DirectMessages | client/src/pages/user/Chat.tsx:107-111 | exactly the messages between me and the selected user, in order |
| ChatPage.DirectMessagesSymmetric | client/src/pages/user/Chat.tsx:108-111 | both participants see the same history, and it holds no group message |
| ChatPage.FilteredContacts | client/src/pages/user/Chat.tsx:172-174 | exactly the contacts whose name contains the query, ignoring case, in order |
| ChatPage.FilteredChamas | client/src/pages/user/Chat.tsx:176-178 | exactly the chamas whose name contains the query, ignoring case, in order |
| ChatPage.EmptySearchKeepsEverything | client/src/pages/user/Chat.tsx:172-178 | an empty query keeps every contact and every chama |
| ChatPage.ChatView.constructor | client/src/pages/user/Chat.tsx:31-36 | nothing listed, typed or selected, and not connected |
| ChatPage.ChatView.Connect | client/src/pages/user/Chat.tsx:50 | the socket object exists |
| ChatPage.ChatView.OnOpen | client/src/pages/user/Chat.tsx:52-63 | connected, and exactly one sign-in frame is sent when the socket is open |
| ChatPage.ChatView.OnMessage | client/src/pages/user/Chat.tsx:65-84 | the list gains at most one message, at the end |
| ChatPage.ChatView.OnClose | client/src/pages/user/Chat.tsx:86-89 | no longer connected |
| ChatPage.ChatView.SendMessage | client/src/pages/user/Chat.tsx:149-163 | with a non-blank draft, a selected chat, a connection and a socket, one chat frame is sent and the draft is cleared; otherwise nothing is sent and the draft stays |
| Marketplace.FilteredProductsAsWritten | client/src/pages/user/Marketplace.tsx:38-45 | kept iff the query is in the title or a non-empty description, ignoring case, and the filter is `all` or equals the product's category; order kept |
| Marketplace.CategoryOf | client/src/pages/user/Marketplace.tsx:48 | a truthy category, else `uncategorized` |
| Marketplace.FilteredProducts | client/src/pages/user/Marketplace.tsx:38-45 | as above, with a missing category read as `uncategorized` |
| Marketplace.FiltersDifferOnlyOnMissingCategories | client/src/pages/user/Marketplace.tsx:44 | the two filters agree for every category the drop-down can offer except `uncategorized` |
| Marketplace.EmptyQueryAllShowsEverything | client/src/pages/user/Marketplace.tsx:38-45 | an empty query with `all` shows every product |
| Marketplace.CategoriesOf | client/src/pages/user/Marketplace.tsx:48 | the category of each product, in order |
| Marketplace.Categories | client/src/pages/user/Marketplace.tsx:48 | `all` first, then each product category once, and nothing else |
| Marketplace.CategoriesInFirstAppearanceOrder | client/src/pages/user/Marketplace.tsx:48 | the categories after `all` come in order of first appearance |
| Marketplace.EveryOfferedCategoryShowsAProduct | client/src/pages/user/Marketplace.tsx:48 | with the corrected filter, every offered category shows a product |
| Marketplace.UncategorizedShowsNothingAsWritten | client/src/pages/user/Marketplace.tsx:44 | as written, `uncategorized` is offered for a product without a category, yet choosing it shows nothing |
| Marketplace.CategoryLabel | client/src/pages/user/Marketplace.tsx:87-89 | `All Categories` for `all`, otherwise the category with its first letter upper-cased |
| Learning.FilteredModules | client/src/pages/user/Learning.tsx:36-46 | per tab, exactly the search matches with progress and not completed, the completed ones, or all; order kept |
| Learning.UnknownTabIsAll | client/src/pages/user/Learning.tsx:41-45 | an unknown tab shows exactly what `all` shows |
| Learning.InProgressAndCompletedAreDisjoint | client/src/pages/user/Learning.tsx:42-43 | no module is in both tabs, and both show only search matches |
| Learning.EmptyQueryShowsAll | client/src/pages/user/Learning.tsx:37-41 | an empty query on `all` shows every module |
| Learning.ActionLabel | client/src/pages/user/Learning.tsx:240-244 | `Review` iff completed, `Continue` iff not completed with progress above 0, else `Start` |
| Learning.LabelAgreesWithTabs | client/src/pages/user/Learning.tsx:42-43 | among matches, `completed` shows exactly the `Review` modules and `in-progress` exactly the `Continue` ones |
| Settings.MinLength | client/src/pages/user/Settings.tsx:36 | a `min(n)` rule fails iff the value is shorter than n, with its message |
| Settings.PasswordErrors | client/src/pages/user/Settings.tsx:43-50 | no error iff all three fields have at least 6 characters and the new password equals the confirmation; `Passwords don't match` on `confirmPassword` iff they differ |
| Settings.SubmitPassword | client/src/pages/user/Settings.tsx:129-134 | a valid form sends the current and the new password only, and the new one equals the confirmation |
| Settings.ProfileErrors | client/src/pages/user/Settings.tsx:35-40 | no error iff the name has 2 characters, the e-mail is valid and the username has 3; each rule has its own message; the phone number is never an error |
| Settings.SubmitProfile | client/src/pages/user/Settings.tsx:125-127 | a valid form is sent whole |
| Dashboard.ChamasWithStats | client/src/pages/user/Dashboard.tsx:53-79 | one card per chama in order; even id: chairperson, pending, a last payout; odd id: member, paid, none |
| Dashboard.SameParitySameCard | client/src/pages/user/Dashboard.tsx:53-79 | the card depends on the chama only through the parity of its id |
| Dashboard.KnownType | client/src/pages/user/Dashboard.tsx:85-119 | the four known types and their fixed titles |
| Dashboard.TypeInfoOf | client/src/pages/user/Dashboard.tsx:121-126 | an unknown type is titled with itself, first letter upper-cased |
| Dashboard.ActivityOf | client/src/pages/user/Dashboard.tsx:128-138 | the description, or `Transaction of KES <amount>` when it is missing or empty; the amount reads `KES <amount>` |
| Dashboard.RecentActivities | client/src/pages/user/Dashboard.tsx:82-84 | the first four transactions at most, in order, each mapped |

## Left out

- The transport: JSON text, the `ws` library and `readyState`. An open
  connection is membership of a set, and a send is an entry appended to an
  outbox. Inbound frames are given already parsed.
- Concurrency. Each socket event and each request is one atomic step over
  the store.
- Clocks. `new Date()` and `Date.now()` are integer arguments. Date
  rendering (`toISOString`, `toLocaleDateString`, `toLocaleString`,
  `formatDistanceToNow`) is a caller-supplied function from integer to
  string.
- Decimal amounts. Amounts are integers, so the balance arithmetic of
  `updateWalletBalance` and the text `KES <amount>` use integers rather
  than decimal strings. The pending-contribution sum and `toFixed` on the
  dashboard are not modelled.
- Storage.MemStorage.UpdateWalletBalance: adds integers. It does not model
  `parseFloat` on the stored decimal string or the re-rendering with
  `toString`.
- Schema.UserPatch and Schema.RulePatch: a `Partial<User>` or
  `Partial<ChamaRule>` could also carry `id`, `createdAt` (and for rules
  `chamaId`, `updatedAt`), which the spread would overwrite. No route sends
  them, so the patch types leave them out.
- Request bodies. Schema validation of a request body (the `insert*Schema`
  parsers) is not modelled field by field. A body either parses (`Some`) or
  throws a validation error (`None`). A path id that `parseInt` rejects is
  `None`.
- Express wiring, these routes and the session store:
  - the authentication setup;
  - the GET routes, which only call the queries modelled above;
  - the admin routes that query the database directly;
  - the API-key routes, whose storage methods `MemStorage` lacks.
- The chat page:
  - it assumes a signed-in user (the effect returns early otherwise);
  - it does not model loading of the chat history into the list (fixed
    sender name `User`, timestamp text);
  - it does not model the closing of the socket on unmount.
- ChatServer.Inbound: the server reads frame fields without checking their
  types. The model gives every frame integer ids and string content, and
  reads a missing `content` as empty. A string `userId` such as `"7"`, which
  the server would register under a string key and then fail to find as a
  user, and a chat with `content` undefined are not modelled.
- ChatPage.ChatView.OnMessage: assumes the parsed data has the field
  types of the server's envelopes. Other JSON is modelled only as "does not
  parse".
- Text case mapping and white space. `toLowerCase`, `toUpperCase` and
  `trim` are modelled on ASCII only. String lengths count characters, not
  UTF-16 code units.
- Settings.ProfileErrors: the e-mail rule is a caller-supplied predicate
  `isEmail`, not the regular expression of the validation library. All
  failed rules are listed, although the form shows only the first error of
  each field.
- Dashboard.KnownType: a transaction type that names an inherited object
  property (such as `constructor`) finds that property in the lookup table.
  The model gives it the fallback instead.
- Learning.ActionLabel: progress is an integer. Fractional progress values
  are not modelled.
- The placeholder numbers of the dashboard (`mockStats`) and the static
  pages hold no logic and are not modelled.

## Findings

| source | as written | input that shows it | evidently intended | confidence | as-written member | corrected member |
|---|---|---|---|---|---|---|
| server/routes.ts:306-307 | the pay route searches only `getContributions(0)`, the contributions of chama 0; chama ids start at 1, and the routes that create member and contribution rows never create one for chama 0 (`Routes.PostChama`, `Routes.PostMember`, `Routes.PostContributions`), so the lookup finds nothing (`Routes.PayLookupAsWrittenMissesEveryChama`) | contribution 1 of chama 1, owned by the caller and pending: the reply is 404 `Contribution not found` | to look the id up among all contributions, as the comment beside the call says (`Routes.PayLookupFindsStoredRow`) | not executed | Routes.PayContributionAsWritten | Routes.PayContribution |
| client/src/pages/user/Marketplace.tsx:44 | the category filter compares with the product's own category, while the drop-down lists a product without one under `uncategorized` (`Marketplace.UncategorizedShowsNothingAsWritten`) | one product with no category, empty query, filter `uncategorized`: the list is empty | the filter shows the products listed under the chosen category (`Marketplace.EveryOfferedCategoryShowsAProduct`) | not executed | Marketplace.FilteredProductsAsWritten | Marketplace.FilteredProducts |
