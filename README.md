# GoChatroom in Dafny

This project models GoChatroom, a one-to-one and group chat application. It has a Go backend (Gin, GORM, Redis) and a React front end. The model covers:

- **The call-signalling state machine of the browser client** (`WebRTCService`, `webrtc.ts`).
  - Its call flags, remote party, early ICE-candidate queue, 30-second unanswered-call timer and ICE-restart counter.
  - The seven signalling envelope kinds and the user intents: initiate, accept, reject and end.
  - It is a pure transition system (`CallMachine`). A class (`WebRTC.WebRTCService`) has the same fields as the TypeScript class. Each of its handlers is one atomic method whose new state is the machine's transition.
- **The chat WebSocket client** (`websocket.ts`).
  - The connect guard, the bounded reconnect with capped exponential back-off, and disconnect.
  - `sendMessage` and handler subscription.
  - It is modelled as a transition system (`ChatChannel`) and a class (`ChatSocket.WebSocketService`).
- **The Redux slices** for sessions, contacts, auth and theme, as classes whose methods are the reducers.
  - The browser socket and `localStorage` they use are abstract objects (`BrowserSocket`, `BrowserStorage`).
- **The backend services over their tables:**
  - group membership, the friend-request life-cycle, sessions and unread counters;
  - messages with their display text and the in-place reversal of a page;
  - user registration and login.
  - Every GORM table is one `seq` field of `Schema.Db`, in insertion order.
    - `First` is the earliest matching row.
    - `Create` appends a row.
    - `Where(..).Update(..)` patches every matching row.
  - Each service has a pure rules module (`…Rules`): one function per operation, over a snapshot of the tables. The service method is proved to equal that function.
- **The chat hub and the signalling hub.**
  - Their client registries and bounded send buffers: 256 slots for a signalling client; the chat client's capacity is a parameter.
  - Message routing; the signalling hub also overwrites `From` with the sender's identity.
- **The HTTP layer:**
  - the response envelope;
  - the JWT middleware's header parsing and its outcomes;
  - the auth, user, message and ICE-server handlers;
  - configuration loading with environment defaults;
  - CORS origin splitting;
  - the database DSN and dialect choice.

Outside code the model does not see is passed in as a parameter:
- Password hashing and checking: `hashed`, `matches`.
- Token signing and parsing: `signed` (None when signing fails), `verify`.
- Identifier generation: an 11-character `suffix` after the type prefix.
- The clock: `now`.
- Failures of a database or Redis step: `lookupFails`, `createFails`, `deleteFails`, `fault`, `openError` and the transaction's `TxFault`, in the places listed under "## Left out".
- Request binding (`Response.Bind`, bound or failed with a reason).

## Model

| member | source | states |
|---|---|---|
| Response.Success | backend/pkg/response/response.go:17-23 | Status 200, code 0, message "success" and the data. |
| Response.Created | backend/pkg/response/response.go:26-32 | Status 201, code 0, message "created" and the data. |
| Response.Error | backend/pkg/response/response.go:35-40 | The given status and message, code -1 and no data. |
| Response.BadRequest | backend/pkg/response/response.go:43-45 | An error with status 400 and the given message. |
| Response.Unauthorized | backend/pkg/response/response.go:48-50 | An error with status 401 and the given message. |
| Response.Forbidden | backend/pkg/response/response.go:53-55 | An error with status 403 and the given message. |
| Response.NotFound | backend/pkg/response/response.go:58-60 | An error with status 404 and the given message. |
| Response.InternalError | backend/pkg/response/response.go:63-65 | An error with status 500 and the given message. |
| Response.EnvelopeConsistent | backend/pkg/response/response.go:17-65 | Success and Created report success. No error does, whatever its status. The five helpers use 400/401/403/404/500. |
| AuthMiddleware.ParseBearer | backend/internal/middleware/auth.go:22-27 | A header is accepted exactly when splitting it on single spaces gives two parts, the first being "Bearer". The token is then the second part and has no space. |
| AuthMiddleware.BearerRoundTrip | backend/internal/middleware/auth.go:22-27 | "Bearer " + token parses back to the token, for any token without a space. |
| AuthMiddleware.BearerOnlyForm | backend/internal/middleware/auth.go:22-27 | Every accepted header is exactly "Bearer " + its token. Together with BearerRoundTrip this describes the accepted headers completely. |
| AuthMiddleware.DoubleSpaceRefused | backend/internal/middleware/auth.go:22-27 | A doubled space after "Bearer" is refused, whatever token follows. This is stricter than section 2.1 of RFC 6750. |
| AuthMiddleware.Auth | backend/internal/middleware/auth.go:12-48 | An empty header gives 401 "No authorization header". A malformed one gives 401 "Invalid authorization format". An expired token gives "Token has expired", any other parse failure "Invalid token". The chain continues exactly when the token verifies. The context then holds the claims' user id, nickname and admin flag. |
| AuthMiddleware.AdminOnly | backend/internal/middleware/auth.go:51-61 | The chain continues exactly when isAdmin is present and true, with the context unchanged. Otherwise 403 "Admin access required". |
| AuthMiddleware.AdminBehindAuth | backend/internal/middleware/auth.go:42-58 | Behind Auth, AdminOnly admits exactly the tokens whose claims say admin. |
| AuthHandler.Register | backend/internal/handler/auth.go:13-31 | A bind failure gives 400 "Invalid request: …" and writes nothing. An existing email gives 400 "Email already registered". Every other service error gives 500 "Registration failed": a failed lookup, bcrypt refusing the password, a failed insert or a failed signing. Whenever one of those steps fails, the status is not 201. Success gives 201 with the service's response. The tables and sessions are exactly those the service leaves. |
| AuthHandler.HashRefusalIsInternalError | backend/internal/service/user/user.go:66-70 | For a new email, a password bcrypt refuses (one longer than 72 bytes, say) is answered with 500 "Registration failed", and nothing is written. |
| AuthHandler.LoginFailure | backend/internal/handler/auth.go:42-56 | User not found and invalid password give 401, a disabled account 403, and everything else 500 "Login failed". |
| AuthHandler.Login | backend/internal/handler/auth.go:34-60 | A bind failure gives 400. Otherwise the handler gives the service's result: 200 with the token and profile, or the failure mapped by LoginFailure, which includes 500 "Login failed" for a failed lookup or a failed signing. |
| AuthHandler.LoginRefusals | backend/internal/handler/auth.go:42-52 | An unknown email, or a wrong password on an enabled account, gives 401. When the lookup itself fails the answer is 500 instead. None of these changes the tables or the sessions. |
| AuthHandler.LoginInternalErrors | backend/internal/handler/auth.go:41-56 | A failed lookup gives 500 "Login failed" and writes nothing. A signing failure for correct credentials also gives 500 "Login failed" and opens no session. |
| AuthHandler.Logout | backend/internal/handler/auth.go:63-85 | An empty header gives 401 "No token provided". A malformed one gives 401 "Invalid authorization format". For a valid one whose delete fails, the reply is 500 "Logout failed" and the store is unchanged. Otherwise the token's session is deleted and the reply is "Logged out successfully". |
| AuthHandler.LogoutWithIssuedToken | backend/internal/handler/auth.go:72-84 | Logging out with the header built from a token answers 200 exactly when the delete succeeds, and then that token's session is gone. A failed delete answers 500 "Logout failed" and changes nothing. |
| AuthHandler.GetCurrentUser | backend/internal/handler/auth.go:88-118 | No user id in the context gives 401 "Not authenticated". A lookup error other than not-found gives 500 "Failed to get user". An unknown user gives 404 "User not found". The status is 200 exactly when the lookup succeeds and finds the user, and the reply then carries that user's public fields. |
| UserRules.SessionKey | backend/internal/service/user/user.go:97 | The Redis key is "session:" followed by the token. |
| UserRules.SessionKeyInjective | backend/internal/service/user/user.go:97 | Distinct tokens never share a session key. |
| UserRules.ToUserProfile | backend/internal/service/user/user.go:161-172 | Every public field is copied unchanged. |
| UserRules.FindByEmail | backend/internal/service/user/user.go:59-64 | The first row with that email, or none exactly when no row has it. |
| UserRules.FindUser | backend/internal/service/user/user.go:149-158 | The first row with that UUID, or none exactly when no row has it. |
| UserRules.GetByUuid | backend/internal/service/user/user.go:149-158 | ErrUserNotFound exactly when no row has the UUID, otherwise the first such row. |
| UserRules.NewUser | backend/internal/service/user/user.go:73-84 | The new row has a "U"-prefixed 12-character UUID, an avatar seeded by that UUID, status Active, no admin flag, the hashed password, and the request's email and nickname. |
| UserRules.Register | backend/internal/service/user/user.go:57-103 | A failed email lookup gives a database error. An existing email gives ErrEmailExists. A bcrypt refusal gives a hashing error. A failed insert or a uuid collision gives a database error. None of these writes anything. A signing failure comes after the insert, so the user row stays but no session is written. The call succeeds exactly when none of these happens. Success appends the new row, stores the token's session under the new UUID, and returns the token with the profile. |
| UserRules.Login | backend/internal/service/user/user.go:106-141 | A failed lookup gives a database error. An unknown email gives ErrUserNotFound. A disabled account gives ErrUserDisabled before the password is checked. A wrong password gives ErrInvalidPassword. These write nothing. Past them last_online_at is set. A signing failure then gives a token error with no session; otherwise the session is stored and the profile returned. |
| UserRules.Logout | backend/internal/service/user/user.go:144-146 | The flag is true exactly when the delete succeeds. A failed delete leaves the store unchanged. A successful one removes the token's session key and keeps every other entry. |
| UserRules.RegisterThenLogin | backend/internal/service/user/user.go:57-141 | After a successful registration, logging in with the same password succeeds exactly when its lookup and its signing succeed. It logs in as the same user, and the new session names that user. |
| UserRules.LoginThenLogout | backend/internal/service/user/user.go:135-145 | A successful logout undoes exactly the session entry that Login wrote. A failed one leaves that entry in place. |
| UserService.Register | backend/internal/service/user/user.go:57-103 | The database and the key-value store end in the state that UserRules.Register gives, with the same fault parameters, and the method returns its result. |
| UserService.Login | backend/internal/service/user/user.go:106-141 | The database and the key-value store end in the state that UserRules.Login gives, with the same fault parameters, and the method returns its result. |
| UserService.Logout | backend/internal/service/user/user.go:144-146 | The key-value store and the answer are those of UserRules.Logout: the answer says whether the delete succeeded. |
| ContactRules.FindUserContact | backend/internal/service/contact/contact.go:58-60 | The first user-type row from the caller to the contact, or none exactly when no row matches. |
| ContactRules.FindApply | backend/internal/service/contact/contact.go:105-111 | The request with that UUID, or none exactly when there is none. |
| ContactRules.SendFriendRequest | backend/internal/service/contact/contact.go:52-101 | Adding oneself gives ErrCannotAddSelf before any lookup. A Normal row gives ErrAlreadyFriends. A pending request in the same direction gives ErrPendingRequest. Otherwise one Pending user-type request is appended, with an "A"-prefixed 12-character UUID and the message. Once the three checks pass, it succeeds exactly when the new UUID is unused; a collision is the only database error. Errors write nothing. |
| ContactRules.CheckAddressed | backend/internal/service/contact/contact.go:105-120 | The request passes exactly when it exists, is addressed to the caller and is still pending. A missing request, or one addressed to someone else, gives ErrRequestNotFound; otherwise the error is already-processed. |
| ContactRules.AcceptFriendRequest | backend/internal/service/contact/contact.go:104-169 | A failed check is returned and nothing is written. A failing transaction writes nothing either. Otherwise the request becomes Approved and both directed Normal contact rows are appended. |
| ContactRules.RejectFriendRequest | backend/internal/service/contact/contact.go:172-191 | The same checks as accept. Success only marks the request Rejected. |
| ContactRules.DeleteContact | backend/internal/service/contact/contact.go:308-321 | The caller's row becomes Deleted and the reverse row DeletedBy. Every other row is unchanged. |
| ContactRules.BlockContact | backend/internal/service/contact/contact.go:324-328 | Only the caller→contact rows become Blacklisted. No other table changes. |
| ContactRules.UnblockContact | backend/internal/service/contact/contact.go:331-335 | Only the caller→contact rows become Normal. No other table changes. |
| ContactRules.SetContactStatusTwice | backend/internal/service/contact/contact.go:324-335 | A later status update of the same rows overrides an earlier one. |
| ContactRules.BlockThenUnblock | backend/internal/service/contact/contact.go:324-335 | Unblocking after blocking is the same as unblocking alone. |
| ContactRules.SendTwice | backend/internal/service/contact/contact.go:67-85 | Right after a request is sent, a second one in the same direction gives ErrPendingRequest and writes nothing. |
| ContactRules.ProcessedOnce | backend/internal/service/contact/contact.go:118-120 | Once a request has been accepted or rejected, a second accept or reject gives already-processed and changes nothing. |
| ContactRules.AcceptMakesFriends | backend/internal/service/contact/contact.go:58-64 | After an accept between two strangers, a new request in either direction gives ErrAlreadyFriends. |
| ContactRules.PendingApplies | backend/internal/service/contact/contact.go:196-198 | The query returns only Pending requests addressed to the caller, and all of them. |
| ContactRules.ProfileOf | backend/internal/service/contact/contact.go:215-218 | For a requester with no row, the profile map has empty nickname and avatar. When the last loaded row has the id, that row wins. |
| ContactRules.PendingRequests | backend/internal/service/contact/contact.go:194-237 | There is one response per pending request, in query order. Each carries the request's UUID, requester and Pending status, and the requester's nickname and avatar from the map. |
| ContactService.SendFriendRequest | backend/internal/service/contact/contact.go:52-101 | The database ends in the state that ContactRules.SendFriendRequest gives, and the method returns its result. On success only the addressee, if online, is offered a "friend_request" frame with the request's uuid, both user ids and the message. On failure nobody is sent anything. |
| ContactService.AcceptFriendRequest | backend/internal/service/contact/contact.go:104-169 | The transaction is written into scratch copies that are committed only when every step succeeds. The final state and error are those of ContactRules.AcceptFriendRequest. After a commit only the requester, if online, is offered a "friend_request_accepted" frame with the request's uuid and both user ids. On failure nobody is sent anything. |
| ContactService.FriendRequestNotice | backend/internal/service/contact/contact.go:88-98 | The frame of type "friend_request" carrying the request's uuid, the sender, the addressee and the message. It has no contract; ContactService.SendFriendRequest states who receives it. |
| ContactService.AcceptedNotice | backend/internal/service/contact/contact.go:156-166 | The frame of type "friend_request_accepted" carrying the request's uuid and both user ids. It has no contract; ContactService.AcceptFriendRequest states who receives it. |
| ContactService.RejectFriendRequest | backend/internal/service/contact/contact.go:172-191 | The database ends in the state that ContactRules.RejectFriendRequest gives, and the method returns its error. |
| ContactService.DeleteContact | backend/internal/service/contact/contact.go:308-321 | The database becomes ContactRules.DeleteContact of the old state. |
| ContactService.BlockContact | backend/internal/service/contact/contact.go:324-328 | The database becomes ContactRules.BlockContact of the old state. |
| ContactService.UnblockContact | backend/internal/service/contact/contact.go:331-335 | The database becomes ContactRules.UnblockContact of the old state. |
| ContactService.UsersIn | backend/internal/service/contact/contact.go:212-213 | The loaded rows are only users whose id is among the requesters. |
| ContactService.ProfileOfUsersIn | backend/internal/service/contact/contact.go:212-218 | Looking a requester up among the loaded rows gives the same profile as looking it up among all users. |
| ContactService.RequesterIds | backend/internal/service/contact/contact.go:207-210 | The id list holds the requester of each request, in order. |
| ContactService.ProfileMap | backend/internal/service/contact/contact.go:215-218 | Every id in the map maps to the profile ProfileOf gives. Every id not in it has the empty profile. |
| ContactService.MapProfileIsProfile | backend/internal/service/contact/contact.go:220-227 | `userMap[a.UserID]` gives every requester the nickname and avatar that a lookup in the whole user table gives, empty when the requester has no row. |
| ContactService.Responses | backend/internal/service/contact/contact.go:219-232 | One response per request, in order, each carrying the request's fields and the nickname and avatar the lookup map holds for its requester. |
| ContactService.GetPendingRequests | backend/internal/service/contact/contact.go:194-237 | The three loops return exactly ContactRules.PendingRequests of the current tables. |
| SessionRules.FindByPair | backend/internal/service/session/session.go:36-39 | The first session from the user to the receiver, or none exactly when there is none. |
| SessionRules.FindSession | backend/internal/service/session/session.go:62-71 | The first session with that UUID, or none exactly when there is none. |
| SessionRules.GetByUuid | backend/internal/service/session/session.go:62-71 | ErrSessionNotFound exactly when no row has the UUID, otherwise a row with it. |
| SessionRules.GetOrCreate | backend/internal/service/session/session.go:32-59 | An existing session for the pair is returned and nothing is written. Otherwise one is appended: it has an "S"-prefixed 12-character UUID, the given receiver name and avatar, no last message and no unread messages. It fails exactly when there is no pair session and the new UUID is taken, and then it writes nothing. |
| SessionRules.GetOrCreateIdempotent | backend/internal/service/session/session.go:36-39 | Asking again for the same pair returns the same session and writes nothing, whatever name, avatar or id is offered. |
| SessionRules.PatchWhere | backend/internal/service/session/session.go:103-124 | Every row with the UUID is patched. Every other row is unchanged. |
| SessionRules.UpdateLastMessage | backend/internal/service/session/session.go:103-110 | The matching rows get the content as last message and a valid last-message time. Nothing else changes. |
| SessionRules.IncrementUnread | backend/internal/service/session/session.go:113-117 | The matching rows' unread count grows by exactly 1. Nothing else changes. |
| SessionRules.ClearUnread | backend/internal/service/session/session.go:120-124 | The matching rows' unread count becomes 0. Nothing else changes. |
| SessionRules.ClearAfterIncrement | backend/internal/service/session/session.go:113-124 | Clearing forgets every earlier increment. |
| SessionRules.IncrementTimesCounts | backend/internal/service/session/session.go:113-117 | n increments add exactly n to each matching counter and leave every other row alone. |
| SessionRules.Delete | backend/internal/service/session/session.go:127-130 | Exactly the rows with the UUID whose sender is the caller disappear. |
| SessionRules.DeleteOthersSession | backend/internal/service/session/session.go:127-130 | A session sent by someone else is never deleted. |
| SessionRules.UserSessions | backend/internal/service/session/session.go:76-78 | Exactly the caller's sessions. |
| SessionRules.ToResponse | backend/internal/service/session/session.go:83-96 | Copies the public fields. LastMessageAt is empty when no time is recorded. |
| SessionService.GetOrCreate | backend/internal/service/session/session.go:32-59 | The database ends in the state that SessionRules.GetOrCreate gives, and the method returns its result. |
| SessionService.GetByUuid | backend/internal/service/session/session.go:62-71 | Returns SessionRules.GetByUuid of the sessions table. |
| SessionService.GetUserSessions | backend/internal/service/session/session.go:74-100 | The loop returns one response per caller session, each being SessionRules.ToResponse of that row. |
| SessionService.UpdateLastMessage | backend/internal/service/session/session.go:103-110 | Only the sessions table changes, to SessionRules.UpdateLastMessage. |
| SessionService.IncrementUnread | backend/internal/service/session/session.go:113-117 | Only the sessions table changes, to SessionRules.IncrementUnread. |
| SessionService.ClearUnread | backend/internal/service/session/session.go:120-124 | Only the sessions table changes, to SessionRules.ClearUnread. |
| SessionService.Delete | backend/internal/service/session/session.go:127-130 | Only the sessions table changes, to SessionRules.Delete. |
| MessageRules.DisplayContent | backend/internal/service/message/message.go:74-84 | Voice gives "[Voice message]", File "[File: name]", Image "[Image]" and VideoCall "[Video call]". Text and any other type give the content itself. |
| MessageRules.DisplayIgnoresMediaContent | backend/internal/service/message/message.go:74-84 | For media types the displayed text depends only on the type and the file name, never on the content, and it starts with '['. |
| MessageRules.FindMessage | backend/internal/service/message/message.go:52-67 | Some row with that UUID, or none exactly when there is none. This is the unique-index check on insert. |
| MessageRules.Create | backend/internal/service/message/message.go:51-88 | The new row has the UUID "M" + the 11 generated characters, status Sent, the sender's id, name and avatar, and every field of the request: session, type, content, URL, receiver, file type, file name and file size. The session's last message becomes the display text. A UUID already in the table makes the insert fail, and then nothing is written. |
| MessageRules.EffectiveLimit | backend/internal/service/message/message.go:92-94 | A positive limit is kept. Otherwise the limit is 50. |
| MessageRules.Conversation | backend/internal/service/message/message.go:104-107 | Exactly the messages between the session's two participants, in either direction. |
| MessageRules.ConversationSymmetric | backend/internal/service/message/message.go:104-107 | The conversation does not depend on which participant asks. |
| MessageRules.Page | backend/internal/service/message/message.go:108-110 | SQL LIMIT/OFFSET. At most limit rows, taken consecutively after the skipped ones; an offset that is not positive skips nothing. Its exact length is given. |
| MessageRules.ToResponses | backend/internal/service/message/message.go:116-118 | One response per row, in order. |
| MessageRules.GetBySessionId | backend/internal/service/message/message.go:91-126 | An unknown session gives ErrSessionNotFound. Otherwise the result has at most EffectiveLimit rows: the newest-first page, turned back into chronological order. |
| MessageRules.ReverseReverse | backend/internal/service/message/message.go:120-123 | Reversing twice gives back the sequence. |
| MessageRules.FirstPageIsLatest | backend/internal/service/message/message.go:91-126 | At offset 0 the result is the latest limit messages of the conversation, oldest of them first. |
| MessageRules.LatestPage | backend/internal/service/message/message.go:108-123 | Taking the first `limit` of the newest-first order and reversing them gives the last `limit` elements, oldest first. |
| MessageRules.FirstPage | backend/internal/service/message/message.go:109-110 | With no offset, a page is the first `limit` elements, or all of them when there are fewer. |
| MessageRules.ReverseOfFront | backend/internal/service/message/message.go:108-123 | The front n of the reversal, reversed back, is the last n in their order. |
| MessageRules.ReverseOfFrontAt | backend/internal/service/message/message.go:108-123 | Position i of the front n of the reversal, reversed back, holds the element n - i places from the end. |
| MessageRules.MarkRead | backend/internal/service/message/message.go:156-158 | Exactly the session's messages addressed to the user with status below Read become Read. |
| MessageRules.MarkAsRead | backend/internal/service/message/message.go:141-145 | The message with that UUID becomes Read and the others are unchanged. |
| MessageRules.MarkAllAsRead | backend/internal/service/message/message.go:148-162 | An unknown session gives ErrSessionNotFound. Otherwise the session's unread messages to the user become Read and the session's unread counter is cleared. |
| MessageRules.UnreadCount | backend/internal/service/message/message.go:165-173 | The count is 0 exactly when no message to the user is unread. It never exceeds the number of messages. |
| MessageRules.UnreadInSessionCount | backend/internal/service/message/message.go:156-158 | The number of the session's unread messages to the user, at most the number of messages. |
| MessageRules.MarkReadCount | backend/internal/service/message/message.go:148-173 | Marking a session read lowers the user's unread count by exactly that session's unread messages, and leaves none of them unread. |
| MessageRules.MarkReadOthers | backend/internal/service/message/message.go:148-173 | Other users' unread counts are untouched. |
| MessageService.Create | backend/internal/service/message/message.go:51-88 | The database ends in the state that MessageRules.Create gives, and the method returns its result. |
| MessageService.ReverseInPlace | backend/internal/service/message/message.go:120-123 | The swap-from-both-ends loop leaves the array holding the exact reverse of its old contents. |
| MessageService.GetBySessionId | backend/internal/service/message/message.go:91-126 | The limit defaulting, the query, the response loop and the in-place reversal give exactly MessageRules.GetBySessionId. |
| MessageService.ToResponseArray | backend/internal/service/message/message.go:115-118 | The fresh array holds MessageRules.ToResponses of the rows. |
| MessageService.ResponsesReverse | backend/internal/service/message/message.go:115-123 | Reversing the responses equals the responses of the reversed rows. |
| MessageService.MarkAsRead | backend/internal/service/message/message.go:141-145 | Only the messages table changes, to MessageRules.MarkAsRead. |
| MessageService.MarkAllAsRead | backend/internal/service/message/message.go:148-162 | On success the database becomes MessageRules.MarkAllAsRead of the old state. On error it is unchanged and the error is returned. |
| MessageService.GetUnreadCount | backend/internal/service/message/message.go:165-173 | Returns MessageRules.UnreadCount of the messages table. |
| GroupRules.FindGroup | backend/internal/service/group/group.go:87-99 | The earliest group with that UUID, or none exactly when there is none. |
| GroupRules.GetByUuid | backend/internal/service/group/group.go:87-99 | ErrGroupNotFound exactly when the group is missing. ErrGroupDissolved exactly when it is dissolved. Otherwise the row itself. |
| GroupRules.Edited | backend/internal/service/group/group.go:112-124 | Name and avatar change only when present and non-empty. Notice and add mode change whenever present. Members, count, owner and status are kept. |
| GroupRules.EditedNothing | backend/internal/service/group/group.go:112-124 | An update with every field absent changes nothing. |
| GroupRules.PatchWhere | backend/internal/service/group/group.go:126-130 | Every row with the UUID is patched and every other row is kept. |
| GroupRules.PatchKeepsFind | backend/internal/service/group/group.go:126-130 | A patch never moves a lookup to another row. |
| GroupRules.Create | backend/internal/service/group/group.go:51-84 | The group has a "G"-prefixed 12-character UUID, members [owner], count 1, status Active and an avatar seeded by the UUID. An owner group-contact row is added. A UUID already in the table makes the insert fail, and then nothing is written. |
| GroupRules.Update | backend/internal/service/group/group.go:102-135 | Lookup errors are returned. A caller who is not the owner gets ErrNotGroupOwner. Both write nothing. The owner's edit patches the group and returns the edited row. |
| GroupRules.Dissolve | backend/internal/service/group/group.go:138-159 | Owner only. The group becomes Dissolved and every group-contact row for it becomes LeftGroup. Errors write nothing. |
| GroupRules.AddMember | backend/internal/service/group/group.go:162-199 | An existing member gives ErrAlreadyInGroup with no change. Otherwise the user is appended at the end, the count becomes the list's length, and a Normal group-contact row is added. |
| GroupRules.IndexOf | backend/internal/service/group/group.go:222-228 | The first occurrence of the user, or none exactly when absent. |
| GroupRules.RemoveAt | backend/internal/service/group/group.go:224 | The list without position k. |
| GroupRules.RemovalStatus | backend/internal/service/group/group.go:245-248 | Kicked exactly when someone else removed the user. LeftGroup exactly when the user left. |
| GroupRules.RemoveMember | backend/internal/service/group/group.go:202-254 | A non-owner may remove only themself. The owner can never be removed. An absent user gives ErrNotInGroup. Otherwise the first occurrence is removed, and the user's contact row takes the removal status. It succeeds exactly when the group is live, the remover is the owner or the user, the user is not the owner, and the user is a member. |
| GroupRules.SearchUpTo | backend/internal/service/group/group.go:287-300 | At most limit rows, each an Active group whose name contains the query. Fewer than limit means every match was returned. |
| GroupRules.Search | backend/internal/service/group/group.go:287-300 | At most 20 groups, all Active. |
| GroupRules.DissolveIsFinal | backend/internal/service/group/group.go:87-99 | After Dissolve the group is reported dissolved, and add, remove and dissolve stop at the lookup with no change. |
| GroupRules.AddMemberTwice | backend/internal/service/group/group.go:169-175 | A second add of the same user is refused and writes nothing. |
| GroupRules.AddThenLeave | backend/internal/service/group/group.go:162-254 | Joining and then leaving restores the member list. |
| GroupRules.PatchWherePreserves | backend/internal/service/group/group.go:126-130 | A patch that keeps the patched row well formed keeps the table well formed: the count matches the list, the owner is on it, nobody is on it twice, and UUIDs are unique. |
| GroupRules.CreatePreserves | backend/internal/service/group/group.go:51-84 | Create keeps the groups table well formed. |
| GroupRules.AddMemberPreserves | backend/internal/service/group/group.go:162-199 | AddMember keeps the groups table well formed. |
| GroupRules.RemoveAtKeepsOthers | backend/internal/service/group/group.go:224 | Removing one position from a distinct list keeps every other member and distinctness. |
| GroupRules.RemoveMemberPreserves | backend/internal/service/group/group.go:202-254 | RemoveMember keeps the groups table well formed. |
| GroupRules.UpdateAndDissolvePreserve | backend/internal/service/group/group.go:102-159 | Update and Dissolve keep the groups table well formed. |
| GroupService.Create | backend/internal/service/group/group.go:51-84 | The database ends in the state that GroupRules.Create gives, and the method returns its result. |
| GroupService.Update | backend/internal/service/group/group.go:102-135 | The database ends in the state that GroupRules.Update gives, and the method returns its result. |
| GroupService.Dissolve | backend/internal/service/group/group.go:138-159 | The database ends in the state that GroupRules.Dissolve gives, and the method returns its error. |
| GroupService.AddMember | backend/internal/service/group/group.go:162-199 | The duplicate-scan loop and the update give exactly GroupRules.AddMember. |
| GroupService.RemoveMember | backend/internal/service/group/group.go:202-254 | The index-scan loop, the splice and the updates give exactly GroupRules.RemoveMember. |
| SendQueue.Offer | backend/internal/service/chat/hub.go:170-175 | A non-blocking channel send: the frame is appended when the buffer has room. When it is full the buffer is unchanged. |
| SendQueue.OfferAllKeepsPrefix | backend/internal/service/chat/hub.go:170-175 | A run of sends keeps everything already buffered, then as many of the new frames, in order, as fit. The rest are lost. |
| SendQueue.OfferAllBounded | backend/internal/service/chat/hub.go:170-175 | A buffer that starts within its capacity stays within it, and keeps its old contents as a prefix. |
| SendQueue.OfferAllAppend | backend/internal/service/chat/hub.go:170-175 | Sending xs and then ys is the same as sending xs + ys. |
| SendQueue.Repeat | backend/internal/service/chat/hub.go:206-210 | n copies of one frame. |
| SendQueue.OfferTimesIsOfferAll | backend/internal/service/chat/hub.go:206-210 | Sending one frame n times buffers it as a run of n copies would be. |
| ChatHub.Int8 | backend/internal/service/chat/hub.go:95 | Go's int8 conversion: the result is in -128..127, equal to the input modulo 256, and equal to the input when it already fits. |
| ChatHub.Welcome | backend/internal/service/chat/hub.go:62-66 | The "system" frame with the message "Connected to chat server". It has no contract; ChatHub.Hub.Register states that it is offered to the new client. |
| ChatHub.StoredRow | backend/internal/service/chat/hub.go:92-108 | The stored row has an "M"-prefixed 12-character UUID, status Sent, the type narrowed to int8, and the frame's session, parties, content and AV data. |
| ChatHub.Saved | backend/internal/service/chat/hub.go:92-128 | The row is appended unless its UUID is taken. The session's last message becomes the display text of the type as sent, and only when a session id is given. No other table changes. |
| ChatHub.SaveMessage | backend/internal/service/chat/hub.go:92-128 | The tables become ChatHub.Saved of the old ones. The uuid used for the frame is "M" followed by the 11-character suffix. |
| ChatHub.Recipients | backend/internal/service/chat/hub.go:152-159 | A direct message goes to the sender and the receiver. A group message goes to the group's member list. |
| ChatHub.DirectMessageRecipients | backend/internal/service/chat/hub.go:152-159 | A direct message reaches a user exactly when the user is its sender or its receiver. |
| ChatHub.Client.constructor | backend/internal/service/chat/hub.go:170-175 | A new client has its user id, nickname and buffer capacity, an empty buffer, and is open. |
| ChatHub.Hub.constructor | backend/internal/service/chat/hub.go:40-50 | The registry starts empty. |
| ChatHub.Hub.SendToClient | backend/internal/service/chat/hub.go:163-176 | The client's buffer becomes SendQueue.Offer of the response. The channel is not closed. |
| ChatHub.Hub.Register | backend/internal/service/chat/hub.go:56-67 | The user's entry becomes this client, replacing any earlier one, and the client is offered the welcome frame. |
| ChatHub.Hub.Unregister | backend/internal/service/chat/hub.go:69-81 | As written: whatever entry the user id holds is removed, and this client is closed, when the key is present. The user's last_offline_at is set either way. |
| ChatHub.Hub.UnregisterCurrent | backend/internal/service/chat/hub.go:69-81 | Corrected: the entry is removed and the client closed only when the entry is this very client. Every other entry is kept. |
| ChatHub.Hub.SendToUser | backend/internal/service/chat/hub.go:179-187 | Only the named user's connection, when online, is offered the frame. Every other buffer is unchanged. |
| ChatHub.Hub.BroadcastToGroup | backend/internal/service/chat/hub.go:190-212 | Each online user is offered the frame once per occurrence in the member list. |
| ChatHub.BroadcastStep | backend/internal/service/chat/hub.go:206-210 | One more pass of the member loop offers the frame to that member's buffer only. Every buffer then holds the frame offered once per occurrence of its user among the members seen so far. |
| ChatHub.Hub.HandleMessage | backend/internal/service/chat/hub.go:90-160 | The database becomes ChatHub.Saved of the old state. Each online user is offered the outgoing frame once per occurrence among the recipients. |
| ChatHub.Hub.Route | backend/internal/service/chat/hub.go:152-159 | Each client's buffer is offered the frame once per occurrence of its user among the recipients: the group's members, or the sender and then the receiver. |
| ChatHub.Hub.IsOnline | backend/internal/service/chat/hub.go:215-220 | True exactly when the user has an entry. |
| ChatHub.Hub.GetOnlineUsers | backend/internal/service/chat/hub.go:223-232 | Every connected user exactly once. |
| ChatHub.SetLastOffline | backend/internal/service/chat/hub.go:79-81 | The user's rows get last_offline_at = now. Every other row is unchanged. |
| ChatHub.ReplacedConnectionGoesOffline | backend/internal/service/chat/hub.go:69-74 | Counterexample to the as-written unregister: after a second login replaces the first connection, unregistering the first leaves the user offline although the second connection is still open. |
| ChatHub.ReplacedConnectionStaysOnline | backend/internal/service/chat/hub.go:69-74 | With the corrected unregister, the same scenario leaves the user online on the second connection. |
| SignalingHub.Relayed | backend/internal/service/webrtc/signaling.go:119-145 | Each decodable frame is relayed with From set to the connection's own user id, and undecodable frames are skipped. |
| SignalingHub.RelayedKeepsContent | backend/internal/service/webrtc/signaling.go:134-143 | Exactly the decoded messages are relayed, in order, each unchanged apart from From. |
| SignalingHub.AddressedTo | backend/internal/service/webrtc/signaling.go:80-88 | Exactly the messages addressed to the user. |
| SignalingHub.SignalingClient.constructor | backend/internal/service/webrtc/signaling.go:104-116 | A new client has its user id and a 256-slot buffer, is empty and open. |
| SignalingHub.Hub.constructor | backend/internal/service/webrtc/signaling.go:42-52 | The registry starts empty. |
| SignalingHub.Hub.Register | backend/internal/service/webrtc/signaling.go:58-62 | The user's entry becomes this client, replacing any earlier one. |
| SignalingHub.Hub.Unregister | backend/internal/service/webrtc/signaling.go:64-71 | As written: whatever entry the user id holds is removed and this client is closed, when the key is present. |
| SignalingHub.Hub.UnregisterCurrent | backend/internal/service/webrtc/signaling.go:64-71 | Corrected: only this very client's entry is removed. Every other entry is kept. |
| SignalingHub.Hub.RelayMessage | backend/internal/service/webrtc/signaling.go:80-101 | Only the addressee's connection is offered the message. It is dropped when the addressee is offline or its buffer is full. |
| SignalingHub.Hub.ReadPump | backend/internal/service/webrtc/signaling.go:119-145 | Each online user's buffer receives, in order and as far as there is room, the relayed messages addressed to them. |
| SignalingHub.ReplacedConnectionGoesOffline | backend/internal/service/webrtc/signaling.go:64-69 | Counterexample to the as-written unregister: the replaced connection's departure removes the live replacement. |
| SignalingHub.ReplacedConnectionStaysOnline | backend/internal/service/webrtc/signaling.go:64-69 | With the corrected unregister the replacement stays registered. |
| Schema.SetContactStatus | backend/internal/service/contact/contact.go:310-318 | The selected contact rows take the status. Every other row is unchanged. |
| Strings.CountChar | backend/internal/middleware/cors.go:17 | The count is 0 exactly when the character does not occur. |
| Strings.Join | backend/internal/middleware/cors.go:17 | The pieces joined by the separator, the inverse of Split. It has no contract; Strings.JoinSplit and Strings.SplitJoin state the round trips. |
| Strings.Split | backend/internal/middleware/cors.go:17 | Go's strings.Split on one character: one piece more than there are separators, empty pieces included, none holding the separator. |
| Strings.JoinSplit | backend/internal/middleware/cors.go:17 | Joining the pieces of a split with the same separator gives the input back. |
| Strings.SplitJoin | backend/internal/middleware/cors.go:17 | Splitting a join of separator-free pieces gives the pieces back. |
| Strings.SplitNoSep | backend/internal/middleware/cors.go:17 | A string without the separator is a single piece. |
| Strings.SplitAppend | backend/internal/middleware/cors.go:17 | A separator-free prefix followed by the separator is the first piece. |
| Strings.TrimLeft | backend/internal/middleware/cors.go:19 | Removes exactly the leading white space. |
| Strings.IsSpace | backend/internal/middleware/cors.go:19 | The white-space set of Go's unicode.IsSpace. It has no contract; Strings.TrimSpace is defined over it. |
| Strings.TrimRight | backend/internal/middleware/cors.go:19 | Removes exactly the trailing white space. |
| Strings.TrimSpace | backend/internal/middleware/cors.go:19 | Go's strings.TrimSpace: a slice of the input, with only white space removed on each side, and no white space left at either end. |
| Strings.TrimSpaceIdempotent | backend/internal/middleware/cors.go:19 | Trimming twice is trimming once. |
| Strings.TrimSpaceUnchanged | backend/internal/middleware/cors.go:19 | A string with no white space at either end is its own trim. |
| Strings.ContainsAt | backend/internal/service/group/group.go:289 | A string contains every substring it is built around. |
| Strings.Contains | backend/internal/service/group/group.go:289 | SQL LIKE '%q%': the string has the query as a substring somewhere. It has no contract; Strings.ContainsAt states it for the substrings a string is built around. |
| Strings.Atoi | backend/internal/handler/message.go:48-57 | Go's strconv.Atoi: an optional sign and decimal digits within the int64 range. The empty string and a non-digit start are errors. |
| Strings.NatToString | backend/internal/handler/message.go:48-57 | Decimal digits whose value is the number. |
| Strings.AtoiItoa | backend/internal/handler/message.go:48-57 | Atoi reads back what Itoa writes, over the whole int64 range. |
| Strings.Itoa | backend/internal/handler/message.go:48-57 | Decimal text of an integer, with a leading minus sign for negatives. It has no contract; Strings.AtoiItoa states that Atoi reads it back. |
| Seqs.Filter | frontend/src/store/contactSlice.ts:156 | Array.prototype.filter: only kept elements, and every kept element. Their order is stated by Seqs.FilterAppend. |
| Seqs.FilterAppend | frontend/src/store/contactSlice.ts:156 | Filtering distributes over concatenation, so the kept elements keep their relative order. |
| Seqs.FilterIdempotent | frontend/src/store/contactSlice.ts:156-160 | Filtering twice by the same predicate changes nothing more. |
| Seqs.Reverse | backend/internal/service/message/message.go:120-123 | Element i of the result is element n-1-i of the input. |
| BrowserStorage.LocalStorage.constructor | frontend/src/store/authSlice.ts:15 | Storage starts with the given items. |
| BrowserStorage.LocalStorage.GetItem | frontend/src/store/authSlice.ts:15 | null exactly when the key is absent, otherwise the stored value. |
| BrowserStorage.LocalStorage.SetItem | frontend/src/store/authSlice.ts:115 | The key maps to the value and nothing else changes. |
| BrowserStorage.LocalStorage.RemoveItem | frontend/src/store/authSlice.ts:94 | The key is gone and nothing else changes. |
| ThemeStore.InitialTheme | frontend/src/store/themeSlice.ts:12-15 | The stored value when present and non-empty, which is not validated. Otherwise cyberpunk. |
| ThemeStore.Toggled | frontend/src/store/themeSlice.ts:29-31 | The result is always a valid mode. It is light exactly when the mode was cyberpunk. |
| ThemeStore.ToggleTwice | frontend/src/store/themeSlice.ts:29-31 | Two toggles restore a valid mode. |
| ThemeStore.ToggleTwiceInvalid | frontend/src/store/themeSlice.ts:12-15 | An unvalidated stored mode is not restored by two toggles: the first lands on cyberpunk, the second on light. |
| ThemeStore.ThemeSlice.constructor | frontend/src/store/themeSlice.ts:17-19 | The initial mode is InitialTheme of what is stored under "gochatroom-theme". |
| ThemeStore.ThemeSlice.SetTheme | frontend/src/store/themeSlice.ts:25-28 | The mode becomes the payload and is stored under "gochatroom-theme". Nothing else is stored. |
| ThemeStore.ThemeSlice.ToggleTheme | frontend/src/store/themeSlice.ts:29-33 | The mode becomes Toggled of the old one, and the new mode is stored under "gochatroom-theme". |
| AuthStore.Settle | frontend/src/store/authSlice.ts:31-37 | The thunk resolves exactly when the server answered with code 0, and then with its data. A non-zero code rejects with the server's message. A thrown fetch rejects with the fallback text. |
| AuthStore.LoginThunk | frontend/src/store/authSlice.ts:22-40 | A thrown fetch rejects with "Login failed". The thunk resolves exactly when the reply's code is 0. |
| AuthStore.RegisterThunk | frontend/src/store/authSlice.ts:42-60 | A thrown fetch rejects with "Registration failed". The thunk resolves exactly when the reply's code is 0. |
| AuthStore.FetchCurrentUserThunk | frontend/src/store/authSlice.ts:62-83 | No token rejects with "No token". A thrown fetch rejects with "Failed to fetch user". The thunk resolves exactly when there is a token and the server answers with code 0. |
| AuthStore.NoTokenNoRequest | frontend/src/store/authSlice.ts:67-69 | Without a token the server is never consulted: every server gives "No token". |
| AuthStore.AuthSlice.constructor | frontend/src/store/authSlice.ts:13-19 | No user, not loading, no error. The token is the stored one, and the slice is authenticated exactly when a non-empty token is stored. |
| AuthStore.AuthSlice.Logout | frontend/src/store/authSlice.ts:89-95 | User and token are null, not authenticated, no error, and the stored token is removed. |
| AuthStore.AuthSlice.ClearError | frontend/src/store/authSlice.ts:96-98 | The error is null, and user, token and flags are kept. |
| AuthStore.AuthSlice.SetUser | frontend/src/store/authSlice.ts:99-101 | The user becomes the payload. Everything else is kept. |
| AuthStore.AuthSlice.AuthPending | frontend/src/store/authSlice.ts:106-109 | Loading, no error, and the user and token are kept. (It covers both loginAsync.pending and registerAsync.pending, at lines 106-109 and 122-125.) |
| AuthStore.AuthSlice.AuthFulfilled | frontend/src/store/authSlice.ts:110-116 | Not loading, the payload's user and token, authenticated, and the token stored. (It covers login and register, at lines 110-116 and 126-132.) |
| AuthStore.AuthSlice.AuthRejected | frontend/src/store/authSlice.ts:117-120 | Not loading and the error recorded. User, token and authentication are kept. (It covers login and register, at lines 117-120 and 133-136.) |
| AuthStore.AuthSlice.FetchCurrentUserPending | frontend/src/store/authSlice.ts:138-140 | Loading, with everything else kept. The error is not cleared. |
| AuthStore.AuthSlice.FetchCurrentUserFulfilled | frontend/src/store/authSlice.ts:141-145 | Not loading, the payload user, and authenticated. The token and error are kept. |
| AuthStore.AuthSlice.FetchCurrentUserRejected | frontend/src/store/authSlice.ts:146-152 | Fully de-authenticated: no user, no token, not authenticated, and the stored token removed. The error is kept. |
| AuthStore.AuthSlice.DispatchAuth | frontend/src/store/authSlice.ts:22-40 | A whole login or register dispatch. On success: the payload's user and token, authenticated, no error, the token stored. On failure: the error recorded and the session as it was. |
| AuthStore.AuthSlice.DispatchFetchCurrentUser | frontend/src/store/authSlice.ts:62-83 | A whole fetchCurrentUser dispatch. Whenever the thunk rejects (no token, a server reply with a non-zero code such as an expired token, or a thrown fetch), it ends de-authenticated, with the stored token removed and the error kept. When the thunk succeeds, the user is set and the token kept. |
| SessionStore.FindSession | frontend/src/store/sessionSlice.ts:96 | The first session with that uuid (Array.find), or none exactly when there is none. |
| SessionStore.WithoutSession | frontend/src/store/sessionSlice.ts:101 | Exactly the sessions whose uuid differs. |
| SessionStore.WithoutAbsent | frontend/src/store/sessionSlice.ts:101 | Filtering drops nothing when the uuid is absent. |
| SessionStore.WithoutSessionAt | frontend/src/store/sessionSlice.ts:101 | With distinct uuids, filtering out the session at index k keeps the others in their order. |
| SessionStore.WithoutAppend | frontend/src/store/sessionSlice.ts:101 | Filtering a uuid out of two joined lists is filtering each and joining. |
| SessionStore.WithoutOnlyAt | frontend/src/store/sessionSlice.ts:101 | When only index k holds the uuid, filtering it out removes exactly that entry. |
| SessionStore.WithoutMiddle | frontend/src/store/sessionSlice.ts:101 | Filtering out the only holder of a uuid that sits between two lists without it leaves the two lists joined. |
| SessionStore.TouchSession | frontend/src/store/sessionSlice.ts:95-102 | An unknown session id leaves the list alone. A known one puts that session, with the message's content and time, at index 0, followed by the filtered rest. |
| SessionStore.TouchSessionMovesToFront | frontend/src/store/sessionSlice.ts:95-102 | With distinct uuids the length is unchanged. The other sessions keep their relative order, and uuids stay distinct. |
| SessionStore.RemoveAtDistinct | frontend/src/store/sessionSlice.ts:101 | Removing one session keeps the rest distinct and free of its uuid. |
| SessionStore.DistinctCons | frontend/src/store/sessionSlice.ts:130-131 | Prepending a session with a fresh uuid keeps uuids distinct. |
| SessionStore.PrependIfAbsent | frontend/src/store/sessionSlice.ts:127-141 | The session is prepended exactly when its uuid is absent, so no duplicate uuid is introduced. |
| SessionStore.FilterIgnoresEqualKey | frontend/src/store/sessionSlice.ts:97-101 | Updating the found session in place does not change what the filter on its uuid keeps. |
| SessionStore.SessionSlice.constructor | frontend/src/store/sessionSlice.ts:15-22 | No sessions, no current session, no messages, not loading, no error. |
| SessionStore.SessionSlice.SetCurrentSession | frontend/src/store/sessionSlice.ts:89-92 | The current session is the payload, messages are empty, and everything else is kept. |
| SessionStore.SessionSlice.AddMessage | frontend/src/store/sessionSlice.ts:93-103 | The message is appended at the end of messages, and the session list becomes TouchSession of the old list. |
| SessionStore.SessionSlice.ClearMessages | frontend/src/store/sessionSlice.ts:104-106 | Messages are empty and everything else is kept. |
| SessionStore.SessionSlice.ClearError | frontend/src/store/sessionSlice.ts:107-109 | The error is null and everything else is kept. |
| SessionStore.SessionSlice.FetchSessionsPending | frontend/src/store/sessionSlice.ts:114-117 | Loading and no error. The lists are kept. |
| SessionStore.SessionSlice.FetchSessionsFulfilled | frontend/src/store/sessionSlice.ts:118-121 | Not loading, and the sessions are replaced by the payload. |
| SessionStore.SessionSlice.FetchSessionsRejected | frontend/src/store/sessionSlice.ts:122-125 | Not loading, and the error is recorded. |
| SessionStore.SessionSlice.CreateSessionFulfilled | frontend/src/store/sessionSlice.ts:127-141 | The sessions become PrependIfAbsent, and the current session is always the payload. The same reducer serves private and group sessions. |
| SessionStore.SessionSlice.FetchMessagesPending | frontend/src/store/sessionSlice.ts:143-145 | Messages are loading. Everything else is kept. |
| SessionStore.SessionSlice.FetchMessagesFulfilled | frontend/src/store/sessionSlice.ts:146-149 | Not loading messages, and the messages are replaced by the payload. |
| SessionStore.SessionSlice.FetchMessagesRejected | frontend/src/store/sessionSlice.ts:150-153 | Not loading messages, and the error is recorded. |
| SessionStore.SessionSlice.DeleteSessionFulfilled | frontend/src/store/sessionSlice.ts:155-161 | Every session with the uuid is removed. The current session and messages are cleared exactly when the current session matched. |
| ContactStore.WithoutRequest | frontend/src/store/contactSlice.ts:155-161 | Exactly the requests whose id differs from the payload. |
| ContactStore.WithoutRequestAppend | frontend/src/store/contactSlice.ts:155-161 | The filter works piece by piece, so the surviving requests keep their relative order. |
| ContactStore.WithoutRequestNoMatch | frontend/src/store/contactSlice.ts:155-161 | Without a matching id the list is unchanged. |
| ContactStore.WithoutContact | frontend/src/store/contactSlice.ts:163-165 | Exactly the contacts whose contact_uuid differs from the payload. |
| ContactStore.WithoutContactAppend | frontend/src/store/contactSlice.ts:163-165 | The surviving contacts keep their relative order. |
| ContactStore.WithoutContactNoMatch | frontend/src/store/contactSlice.ts:163-165 | Without a matching contact_uuid the list is unchanged. |
| ContactStore.ContactSlice.constructor | frontend/src/store/contactSlice.ts:14-20 | Empty lists, not loading, no error. |
| ContactStore.ContactSlice.ClearSearchResults | frontend/src/store/contactSlice.ts:104-106 | The search results are empty and everything else is kept. |
| ContactStore.ContactSlice.ClearError | frontend/src/store/contactSlice.ts:107-109 | The error is null and everything else is kept. |
| ContactStore.ContactSlice.FetchContactsPending | frontend/src/store/contactSlice.ts:114-117 | Loading, and the error is cleared. This is the only pending case that clears it. |
| ContactStore.ContactSlice.ListPending | frontend/src/store/contactSlice.ts:127-141 | Loading, with the error kept. (It covers fetchFriendRequests.pending and searchUsers.pending, at lines 127-129 and 139-141.) |
| ContactStore.ContactSlice.FetchContactsFulfilled | frontend/src/store/contactSlice.ts:118-121 | Not loading, and the contacts are replaced. |
| ContactStore.ContactSlice.FetchFriendRequestsFulfilled | frontend/src/store/contactSlice.ts:130-133 | Not loading, and the friend requests are replaced. |
| ContactStore.ContactSlice.SearchUsersFulfilled | frontend/src/store/contactSlice.ts:142-145 | Not loading, and the search results are replaced. |
| ContactStore.ContactSlice.ListRejected | frontend/src/store/contactSlice.ts:122-149 | Not loading, the error is recorded, and the lists are kept. (It is the rejected case of all three fetches, at lines 122-125, 134-137 and 146-149.) |
| ContactStore.ContactSlice.SendFriendRequestFulfilled | frontend/src/store/contactSlice.ts:151-153 | The search results are emptied and everything else is kept. |
| ContactStore.ContactSlice.RequestSettled | frontend/src/store/contactSlice.ts:155-161 | The friend requests become WithoutRequest of the payload, and everything else is kept. |
| ContactStore.ContactSlice.DeleteContactFulfilled | frontend/src/store/contactSlice.ts:163-165 | The contacts become WithoutContact of the payload, and everything else is kept. |
| ChatChannel.ReconnectDelay | frontend/src/services/websocket.ts:64 | min(1000·2^attempts, 30000): never above 30 s, at least 2 s from the first attempt on, and either the cap or exactly 1000·2^attempts. |
| ChatChannel.Pow2 | frontend/src/services/websocket.ts:64 | Math.pow(2, n) on naturals: at least 1, greater than n, and even from n = 1 on. |
| ChatChannel.Pow2Monotone | frontend/src/services/websocket.ts:64 | 2^a ≤ 2^b when a ≤ b. |
| ChatChannel.ReconnectDelaySchedule | frontend/src/services/websocket.ts:57-70 | The delay never shrinks as the attempts grow. The five delays used are 2, 4, 8, 16 and 30 seconds. |
| ChatChannel.Connect | frontend/src/services/websocket.ts:20-55 | Nothing happens while the socket is OPEN. Otherwise a new socket for this token is connecting, and nothing else changes. |
| ChatChannel.Opened | frontend/src/services/websocket.ts:28-32 | On open the attempt counter is reset to 0 and every connect handler runs once. |
| ChatChannel.DeliveriesOf | frontend/src/services/websocket.ts:36-40 | Each message handler receives the frame's data once, in subscription order. |
| ChatChannel.Received | frontend/src/services/websocket.ts:34-44 | Message handlers fire only for a parsed frame of type 'message'. Any other frame changes nothing. |
| ChatChannel.AttemptReconnect | frontend/src/services/websocket.ts:57-70 | At 5 attempts nothing is armed. Otherwise the counter grows by one and a new timer is armed for ReconnectDelay of the new count, with the socket's token. The field now holds the new timer, and every earlier live timer stays live. |
| ChatChannel.ClosedEvent | frontend/src/services/websocket.ts:46-50 | Every disconnect handler runs. At the ceiling no timer is armed. |
| ChatChannel.ReconnectFires | frontend/src/services/websocket.ts:64-69 | A live timer that fires is no longer pending, and it calls connect with the token it captured. Without such a timer nothing happens. |
| ChatChannel.Cleared | frontend/src/services/websocket.ts:73-76 | clearTimeout: exactly the live timers with another id stay live. |
| ChatChannel.CancelHeld | frontend/src/services/websocket.ts:73-76 | Exactly the live timers whose id the field does not hold stay live. |
| ChatChannel.Disconnect | frontend/src/services/websocket.ts:72-82 | Only the timer the field holds is cleared, and the field is emptied. The counter is pinned at the ceiling and the socket is dropped. Nothing else changes. |
| ChatChannel.DisconnectStopsReconnect | frontend/src/services/websocket.ts:46-82 | After disconnect, the close that follows arms no timer and the field holds none. The live timers are exactly the old ones whose id the field did not hold, so a timer from an earlier close survives. |
| ChatChannel.OrphanedTimerReconnects | frontend/src/services/websocket.ts:57-82 | A counterexample. Take a close, then a connect, then a second close, then disconnect. The timer from the first close is still live, and when it fires the channel connects again. |
| ChatChannel.CloseArms | frontend/src/services/websocket.ts:46-70 | Below the ceiling a close arms exactly one more timer, and the field holds it. |
| ChatChannel.ClearLast | frontend/src/services/websocket.ts:73-76 | Clearing the id of the newest timer keeps every older one, in order. |
| ChatChannel.AttemptReconnectClearing | frontend/src/services/websocket.ts:57-70 | The corrected attemptReconnect clears the timer the field holds before it arms the new one. |
| ChatChannel.HeldCancelledLeavesNone | frontend/src/services/websocket.ts:72-76 | While only the held timer is live, clearing it leaves no live timer. |
| ChatChannel.StepClearingKeepsOnlyHeld | frontend/src/services/websocket.ts:20-82 | With the corrected reconnect, every event keeps at most one live timer, the held one. |
| ChatChannel.RunClearingKeepsOnlyHeld | frontend/src/services/websocket.ts:20-82 | The same holds over any run, by induction. |
| ChatChannel.DisconnectStopsReconnectClearing | frontend/src/services/websocket.ts:46-82 | With the corrected reconnect, after any run from the initial state, disconnect leaves no live timer. The close that follows arms none, so no timer can reconnect. |
| ChatChannel.SendMessage | frontend/src/services/websocket.ts:84-99 | Returns true exactly when the socket is OPEN. It then sends exactly one frame with the given fields; otherwise nothing changes. A caller that omits the message type passes DefaultMessageType, which is 0. |
| ChatChannel.Subscribe | frontend/src/services/websocket.ts:101-106 | The handler is added at the end. |
| ChatChannel.Unsubscribe | frontend/src/services/websocket.ts:101-106 | The handler is gone and every other handler stays. |
| ChatChannel.SubscribeUnsubscribe | frontend/src/services/websocket.ts:101-106 | Unsubscribing a handler just subscribed gives back the earlier list. |
| ChatChannel.IsConnected | frontend/src/services/websocket.ts:122-124 | True exactly when the socket is OPEN. |
| ChatChannel.RunInv | frontend/src/services/websocket.ts:57-82 | From a state where it holds, any sequence of events keeps the invariant: the counter stays within 5, and every live timer waits between 2 and 30 seconds and has an id below the next one. |
| ChatChannel.ClosesWithoutOpen | frontend/src/services/websocket.ts:46-70 | Take k rounds, each a close followed by the firing of the timer it armed, with no successful open. Afterwards the counter is the smaller of its start plus k and 5, so at most five reconnects are scheduled. |
| ChatChannel.DeliveriesAppend | frontend/src/services/websocket.ts:36-40 | Deliveries to a concatenation of handler lists are the deliveries to each, in order. |
| ChatSocket.WebSocketService.constructor | frontend/src/services/websocket.ts:12-18 | The service starts in the channel's initial state: no socket, no timer, no handlers. |
| ChatSocket.WebSocketService.Connect | frontend/src/services/websocket.ts:20-55 | The new state is ChatChannel.Connect of the old. |
| ChatSocket.WebSocketService.OnOpen | frontend/src/services/websocket.ts:28-32 | The new state is ChatChannel.Opened of the old. |
| ChatSocket.WebSocketService.OnMessage | frontend/src/services/websocket.ts:34-44 | The handler loop gives ChatChannel.Received of the old state. |
| ChatSocket.WebSocketService.AttemptReconnect | frontend/src/services/websocket.ts:57-70 | The new state is ChatChannel.AttemptReconnect of the old: the new timer is appended to the live timers, and the earlier ones stay. |
| ChatSocket.WebSocketService.OnClose | frontend/src/services/websocket.ts:46-50 | The new state is ChatChannel.ClosedEvent of the old. |
| ChatSocket.WebSocketService.ReconnectTimerFires | frontend/src/services/websocket.ts:64-69 | The new state is ChatChannel.ReconnectFires of the old, for the timer at the given position. |
| ChatSocket.WebSocketService.Disconnect | frontend/src/services/websocket.ts:72-82 | The new state is ChatChannel.Disconnect of the old: only the held timer is cleared. |
| ChatSocket.WebSocketService.SendMessage | frontend/src/services/websocket.ts:84-99 | The new state and the answer are those of ChatChannel.SendMessage. |
| ChatSocket.WebSocketService.OnMessageHandler | frontend/src/services/websocket.ts:101-106 | Only the message-handler list changes, to Subscribe. |
| ChatSocket.WebSocketService.RemoveMessageHandler | frontend/src/services/websocket.ts:101-106 | Only the message-handler list changes, to Unsubscribe. |
| ChatSocket.WebSocketService.OnConnectHandler | frontend/src/services/websocket.ts:108-113 | Only the connect-handler list changes, to Subscribe. |
| ChatSocket.WebSocketService.RemoveConnectHandler | frontend/src/services/websocket.ts:108-113 | Only the connect-handler list changes, to Unsubscribe. |
| ChatSocket.WebSocketService.OnDisconnectHandler | frontend/src/services/websocket.ts:115-120 | Only the disconnect-handler list changes, to Subscribe. |
| ChatSocket.WebSocketService.RemoveDisconnectHandler | frontend/src/services/websocket.ts:115-120 | Only the disconnect-handler list changes, to Unsubscribe. |
| ChatSocket.WebSocketService.IsConnected | frontend/src/services/websocket.ts:122-124 | Returns ChatChannel.IsConnected of the state. |
| CallMachine.Send | frontend/src/services/webrtc.ts:711-729 | An envelope is appended to what was sent exactly when the socket is OPEN. Nothing else changes. |
| CallMachine.ClearCallTimeout | frontend/src/services/webrtc.ts:220-226 | The unanswered-call timer is cleared and nothing else changes. |
| CallMachine.Cleanup | frontend/src/services/webrtc.ts:731-769 | The service is Idle: no flag is set, and there is no remote user, stream, peer connection, pending candidate or timer; the restart counter is 0. Nothing is sent, and the connection and identity are kept. |
| CallMachine.CleanupIdle | frontend/src/services/webrtc.ts:731-769 | Cleaning up an idle service changes nothing. |
| CallMachine.Flush | frontend/src/services/webrtc.ts:697-709 | Without a peer connection nothing happens. Otherwise the queued candidates the browser accepts are applied in arrival order, failures are skipped, and the queue is emptied. |
| CallMachine.AcceptedOf | frontend/src/services/webrtc.ts:697-709 | The accepted candidates of the queue, in order. |
| CallMachine.AcceptedOfAppend | frontend/src/services/webrtc.ts:697-709 | The accepted candidates of a concatenation are those of each part, in order. |
| CallMachine.AcceptedOfSnoc | frontend/src/services/webrtc.ts:697-709 | Offering one more queued candidate adds it to the accepted ones exactly when the peer connection accepts it. |
| CallMachine.InitiateCall | frontend/src/services/webrtc.ts:162-207 | With the socket not OPEN or any call flag set, nothing changes and nothing is sent. Otherwise, with media, the service is calling the target: exactly one call-request is sent and the 30 s timer is armed. The remote stream and the ICE restart counter are kept. If media acquisition fails, the service cleans up and sends nothing. |
| CallMachine.StartCallTimeout | frontend/src/services/webrtc.ts:209-218 | The timer is armed and nothing else changes. |
| CallMachine.AcceptCall | frontend/src/services/webrtc.ts:339-407 | With the socket not OPEN the service cleans up. When no call is ringing nothing changes. Without a remote user it cleans up. Otherwise, with media, ringing stops, the local stream is the new one, and exactly one call-accepted goes to the caller. Nothing else changes: the call flags, the remote user, the peer connection, the queued candidates and the call timer stay as they were. A media failure cleans up. |
| CallMachine.RejectCall | frontend/src/services/webrtc.ts:424-445 | It ends Idle, having sent exactly one call-rejected when there was a remote user and the socket was OPEN, and nothing otherwise. |
| CallMachine.EndCall | frontend/src/services/webrtc.ts:447-459 | It ends Idle, having sent exactly one call-ended when there was a remote user and the socket was OPEN, and nothing otherwise. |
| CallMachine.EndCallTwice | frontend/src/services/webrtc.ts:447-459 | A second consecutive endCall sends nothing and changes nothing. |
| CallMachine.RemoteCallEnded | frontend/src/services/webrtc.ts:462-466 | It cleans up to Idle without sending anything. |
| CallMachine.StartCall | frontend/src/services/webrtc.ts:468-553 | Without media, or if local setup fails, it cleans up and sends nothing. Otherwise it is in the call, no longer calling, with a fresh peer connection in have-local-offer, and one offer is sent when the socket is OPEN. The queue, the timer, the remote stream and the ICE restart counter are kept. |
| CallMachine.OfferCall | frontend/src/services/webrtc.ts:484-553 | Once there is local media: if creating the local offer fails, the service is idle with nothing sent. Otherwise it is in the call, not calling, with a new peer connection in have-local-offer and the same media. The queue, the timer, the remote stream and the ICE restart counter are kept. The offer is sent exactly when the socket is OPEN. |
| CallMachine.HandleOffer | frontend/src/services/webrtc.ts:555-658 | Without media, and with none to be had, nothing changes. Otherwise media and a peer connection are first made present (Prepared). An offer outside stable and have-local-offer, or one whose remote description fails, stops there. With the remote description set but the answer failing, the connection is in have-remote-offer, the queued candidates are applied and the queue is empty. When both succeed the offer is answered: the call is entered, the connection is stable with the remote description and the accepted candidates, the queue is empty, and exactly one answer goes to the remote user over an OPEN socket. No other call flag, the remote user and the call timer never change. |
| CallMachine.Prepared | frontend/src/services/webrtc.ts:564-622 | The state before the offer is looked at: local media is present (the existing stream is kept) and the peer connection is the existing one or a new one. Nothing else changes. |
| CallMachine.AnswerOffer | frontend/src/services/webrtc.ts:624-658 | Outside stable and have-local-offer, or when the remote description fails, nothing changes. When only the answer fails, the connection is in have-remote-offer with the queued candidates applied and the queue empty. When both succeed, the call is entered on a stable connection with the remote description and the accepted candidates, the queue is empty, and one answer is sent over an OPEN socket. Nothing else changes in either case. |
| CallMachine.AcceptThenOfferAnswers | frontend/src/services/webrtc.ts:339-658 | On the callee's side, accepting a ringing call with no peer connection and then taking the caller's offer, with every step succeeding, enters the call on a new stable connection that has applied the accepted queued candidates. Exactly a call-accepted and then an answer are sent. |
| CallMachine.HandleAnswer | frontend/src/services/webrtc.ts:660-681 | Only in have-local-offer, and only when the remote description succeeds: the connection becomes stable with a remote description, the accepted queued candidates are appended in arrival order to those it has applied, and the queue is emptied. Everything else is unchanged, so nothing is sent and no call flag, stream or timer changes. Otherwise nothing changes. |
| CallMachine.HandleIceCandidate | frontend/src/services/webrtc.ts:683-695 | With no peer connection or no remote description the candidate is queued at the end. Otherwise it is applied directly if accepted. Nothing else changes. |
| CallMachine.HandleSignalingMessage | frontend/src/services/webrtc.ts:111-160 | A call-request sets the ringing flag and overwrites the remote user, even while busy. A call-accepted always clears the unanswered-call timer. When media is present or obtained and the offer is set, the call is entered on a new have-local-offer connection and one offer goes to the remote user; otherwise it cleans up to Idle without sending. A call-rejected or call-ended cleans up to Idle without sending. An offer, an answer and an ice-candidate go to handleOffer, handleAnswer and handleIceCandidate. A candidate is queued while there is no connection with a remote description. An unknown kind changes nothing. The connection is never touched. |
| CallMachine.CallTimeoutFires | frontend/src/services/webrtc.ts:209-240 | Only an armed timer fires. It ends the call only while still calling, and otherwise just expires. |
| CallMachine.AttemptIceRestart | frontend/src/services/webrtc.ts:262-298 | With no peer connection or no call it is a no-op. At 3 attempts it ends the call instead. Otherwise the counter grows by one. A successful restart puts the connection in have-local-offer and sends a restart offer over an OPEN socket; nothing else changes. A failed attempt below the ceiling schedules a retry. A failed attempt that reaches the ceiling is endCall: one call-ended to the peer over an OPEN socket, then Idle. |
| CallMachine.IceStateChanged | frontend/src/services/webrtc.ts:301-337 | With no peer connection nothing changes. Otherwise the new ICE state is recorded and then: disconnected schedules one 2 s recheck; failed runs attemptIceRestart; connected and completed reset the restart counter to 0; new, checking and closed change nothing more. |
| CallMachine.IceFailureRestartsOrEnds | frontend/src/services/webrtc.ts:262-298 | During a call, below 3 attempts a failure with a successful restart keeps the call, raises the counter, puts the connection in have-local-offer and sends one restart offer over an OPEN socket. At 3 attempts a failure ends the call. |
| CallMachine.FailTimesIdle | frontend/src/services/webrtc.ts:301-302 | Without a peer connection, ICE failures change nothing. |
| CallMachine.RepeatedIceFailuresEndCall | frontend/src/services/webrtc.ts:262-331 | Without the connection recovering in between, a call survives at most three ICE failures: the following one ends it, and the service is then idle. |
| CallMachine.IceRecheckFires | frontend/src/services/webrtc.ts:312-317 | With no recheck pending nothing happens. A recheck restarts exactly when the current connection is still disconnected: it is then attemptIceRestart of the state with the recheck retired. Otherwise it just retires. |
| CallMachine.RestartRetryFires | frontend/src/services/webrtc.ts:293 | A scheduled retry runs attemptIceRestart again. |
| CallMachine.ConnectionStateChanged | frontend/src/services/webrtc.ts:512-518 | With a peer connection, disconnected, failed and closed are endCall: one call-ended to the remote user over an OPEN socket, then Idle. Every other state, and any state without a peer connection, changes nothing. |
| CallMachine.LocalCandidate | frontend/src/services/webrtc.ts:498-510 | A gathered candidate is sent to the remote user when there is one. The end-of-gathering null is not sent. |
| CallMachine.RemoteTrack | frontend/src/services/webrtc.ts:492-496 | The remote stream becomes available. |
| CallMachine.TrackEnded | frontend/src/services/webrtc.ts:243-259 | When the event ends the last live local track, it is endCall: one call-ended to the remote user over an OPEN socket, then Idle. Otherwise only that track's ended flag is recorded. Without a local stream nothing changes. |
| CallMachine.MarkEnded | frontend/src/services/webrtc.ts:245-248 | Only the ended flag of the given track is set. All tracks have ended afterwards exactly when the other track had already ended. |
| CallMachine.BothTracksEndCall | frontend/src/services/webrtc.ts:243-259 | With both tracks live, ending the video track keeps the call and sends nothing. Ending the audio track after it leaves the service Idle, having sent what endCall sends. |
| CallMachine.ToggleAudio | frontend/src/services/webrtc.ts:808-812 | Only the local stream's audio flag changes. |
| CallMachine.ToggleVideo | frontend/src/services/webrtc.ts:814-818 | Only the local stream's video flag changes. |
| CallMachine.Connect | frontend/src/services/webrtc.ts:48-101 | It records the user, takes the fetched ICE servers (the defaults stay when the fetch fails) and opens a new socket. Nothing else changes. |
| CallMachine.SocketOpened | frontend/src/services/webrtc.ts:79-81 | A connecting socket becomes OPEN. |
| CallMachine.SocketClosed | frontend/src/services/webrtc.ts:97-100 | The call is cleaned up to Idle without sending. The socket becomes closed, or stays absent. Apart from the socket, the new state is exactly cleanup's, so the identity, ICE servers and ICE timers are kept. |
| CallMachine.Disconnect | frontend/src/services/webrtc.ts:103-109 | It cleans up to Idle without sending and drops the socket. Apart from the socket, the new state is exactly cleanup's. |
| CallMachine.Receive | frontend/src/services/webrtc.ts:83-91 | An unparseable frame is ignored. A parsed one is handled by HandleSignalingMessage. |
| CallMachine.GetState | frontend/src/services/webrtc.ts:797-806 | The snapshot holds the three flags, the remote user and which streams exist. |
| CallMachine.InitialIdle | frontend/src/services/webrtc.ts:26-46 | The initial service is Idle, keeps the invariant, has no socket and has sent nothing. |
| CallMachine.IdleInv | frontend/src/services/webrtc.ts:731-769 | Every Idle state keeps the invariant. |
| CallMachine.AttemptIceRestartInv | frontend/src/services/webrtc.ts:262-298 | The restart keeps the invariant. |
| CallMachine.StartCallInv | frontend/src/services/webrtc.ts:128-132 | The call-accepted path keeps the invariant. |
| CallMachine.HandleOfferInv | frontend/src/services/webrtc.ts:555-658 | handleOffer keeps the invariant. |
| CallMachine.HandleIceCandidateInv | frontend/src/services/webrtc.ts:683-695 | handleIceCandidate keeps the invariant. |
| CallMachine.HandleAnswerInv | frontend/src/services/webrtc.ts:660-681 | handleAnswer keeps the invariant. |
| CallMachine.HandleSignalingMessageInv | frontend/src/services/webrtc.ts:111-160 | Every signalling message keeps the invariant. |
| CallMachine.IceStateChangedInv | frontend/src/services/webrtc.ts:301-337 | Every ICE state change keeps the invariant. |
| CallMachine.CallSideInv | frontend/src/services/webrtc.ts:162-466 | The user intents and the timer keep the invariant. |
| CallMachine.BrowserSideInv | frontend/src/services/webrtc.ts:243-259 | The peer-connection and track callbacks keep the invariant. |
| CallMachine.SocketSideInv | frontend/src/services/webrtc.ts:48-109 | Connect, open, close and disconnect keep the invariant. |
| CallMachine.StepInv | frontend/src/services/webrtc.ts:111-818 | Every handler keeps the invariant. The invariant says: the restart counter is at most 3; an armed timer means the call is still outgoing; an outgoing or ringing call knows its remote user; in a call there is a peer connection and local media; no candidate waits once the remote description is set. |
| CallMachine.RunInv | frontend/src/services/webrtc.ts:262-331 | The invariant holds after any run of events, so the ICE-restart counter never exceeds 3. |
| CallMachine.CallRequestWhileCalling | frontend/src/services/webrtc.ts:121-126 | While calling, an incoming call-request is not refused. Both flags end up set and the remote user becomes the new caller, so the timer's call-ended goes to the new caller, not to the callee. |
| WebRTC.WebRTCService.constructor | frontend/src/services/webrtc.ts:26-46 | The service starts in CallMachine.Initial: idle, no socket, default ICE servers. |
| WebRTC.WebRTCService.SendSignaling | frontend/src/services/webrtc.ts:711-729 | The new state is CallMachine.Send of the old. |
| WebRTC.WebRTCService.ClearCallTimeout | frontend/src/services/webrtc.ts:220-226 | The new state is CallMachine.ClearCallTimeout of the old. |
| WebRTC.WebRTCService.StartCallTimeout | frontend/src/services/webrtc.ts:209-218 | The new state is CallMachine.StartCallTimeout of the old. |
| WebRTC.WebRTCService.Cleanup | frontend/src/services/webrtc.ts:731-769 | The new state is CallMachine.Cleanup of the old, so the service is Idle. |
| WebRTC.WebRTCService.FlushPendingIceCandidates | frontend/src/services/webrtc.ts:697-709 | The loop over the queue gives CallMachine.Flush of the old state. |
| WebRTC.WebRTCService.Connect | frontend/src/services/webrtc.ts:48-101 | The new state is CallMachine.Connect of the old. |
| WebRTC.WebRTCService.OnOpen | frontend/src/services/webrtc.ts:79-81 | The new state is CallMachine.SocketOpened of the old. |
| WebRTC.WebRTCService.OnClose | frontend/src/services/webrtc.ts:97-100 | The new state is CallMachine.SocketClosed of the old. |
| WebRTC.WebRTCService.Disconnect | frontend/src/services/webrtc.ts:103-109 | The new state is CallMachine.Disconnect of the old. |
| WebRTC.WebRTCService.OnMessage | frontend/src/services/webrtc.ts:83-91 | The new state is CallMachine.Receive of the old. |
| WebRTC.WebRTCService.HandleSignalingMessage | frontend/src/services/webrtc.ts:111-160 | The new state is CallMachine.HandleSignalingMessage of the old. |
| WebRTC.WebRTCService.InitiateCall | frontend/src/services/webrtc.ts:162-207 | The new state is CallMachine.InitiateCall of the old. |
| WebRTC.WebRTCService.AcceptCall | frontend/src/services/webrtc.ts:339-407 | The new state is CallMachine.AcceptCall of the old: on success only the ringing flag, the local stream and the sent envelopes change. |
| WebRTC.WebRTCService.RejectCall | frontend/src/services/webrtc.ts:424-445 | The new state is CallMachine.RejectCall of the old. |
| WebRTC.WebRTCService.EndCall | frontend/src/services/webrtc.ts:447-459 | The new state is CallMachine.EndCall of the old. |
| WebRTC.WebRTCService.HandleCallTimeout | frontend/src/services/webrtc.ts:228-240 | The timeout handler has the same effect as CallMachine.EndCall. |
| WebRTC.WebRTCService.HandleRemoteCallEnded | frontend/src/services/webrtc.ts:462-466 | The new state is CallMachine.RemoteCallEnded of the old. |
| WebRTC.WebRTCService.StartCall | frontend/src/services/webrtc.ts:468-553 | The new state is CallMachine.StartCall of the old. |
| WebRTC.WebRTCService.OfferCall | frontend/src/services/webrtc.ts:484-553 | With local media present, the new state is CallMachine.OfferCall of the old. |
| WebRTC.WebRTCService.HandleOffer | frontend/src/services/webrtc.ts:555-658 | The new state is CallMachine.HandleOffer of the old, so an offer taken with both descriptions succeeding is answered and the call entered. |
| WebRTC.WebRTCService.AnswerOffer | frontend/src/services/webrtc.ts:624-658 | With a peer connection present, the new state is CallMachine.AnswerOffer of the old, including the answer sent on success. |
| WebRTC.WebRTCService.HandleAnswer | frontend/src/services/webrtc.ts:660-681 | The new state is CallMachine.HandleAnswer of the old. |
| WebRTC.WebRTCService.HandleIceCandidate | frontend/src/services/webrtc.ts:683-695 | The new state is CallMachine.HandleIceCandidate of the old. |
| WebRTC.WebRTCService.CallTimeoutFires | frontend/src/services/webrtc.ts:212-217 | The new state is CallMachine.CallTimeoutFires of the old. |
| WebRTC.WebRTCService.AttemptIceRestart | frontend/src/services/webrtc.ts:262-298 | The new state is CallMachine.AttemptIceRestart of the old, including the have-local-offer state after a successful restart. |
| WebRTC.WebRTCService.HandleIceConnectionStateChange | frontend/src/services/webrtc.ts:301-337 | The new state is CallMachine.IceStateChanged of the old, so a failed state runs the restart. |
| WebRTC.WebRTCService.IceRecheckFires | frontend/src/services/webrtc.ts:312-317 | The new state is CallMachine.IceRecheckFires of the old, so a recheck that finds the connection still disconnected restarts. |
| WebRTC.WebRTCService.RestartRetryFires | frontend/src/services/webrtc.ts:293 | The new state is CallMachine.RestartRetryFires of the old. |
| WebRTC.WebRTCService.OnConnectionStateChange | frontend/src/services/webrtc.ts:512-518 | The new state is CallMachine.ConnectionStateChanged of the old. |
| WebRTC.WebRTCService.OnIceCandidate | frontend/src/services/webrtc.ts:498-510 | The new state is CallMachine.LocalCandidate of the old. |
| WebRTC.WebRTCService.OnTrack | frontend/src/services/webrtc.ts:492-496 | The new state is CallMachine.RemoteTrack of the old. |
| WebRTC.WebRTCService.OnTrackEnded | frontend/src/services/webrtc.ts:243-259 | The new state is CallMachine.TrackEnded of the old. |
| WebRTC.WebRTCService.ToggleAudio | frontend/src/services/webrtc.ts:808-812 | The new state is CallMachine.ToggleAudio of the old. |
| WebRTC.WebRTCService.ToggleVideo | frontend/src/services/webrtc.ts:814-818 | The new state is CallMachine.ToggleVideo of the old. |
| WebRTC.WebRTCService.GetState | frontend/src/services/webrtc.ts:797-806 | Returns CallMachine.GetState of the state. |
| UserHandlerRules.Updates | backend/internal/handler/user.go:69-84 | Nickname and avatar are in the map exactly when given and non-empty. Gender, signature and birthday are in it exactly when given, even when empty. Each holds the request's value, and there are no other keys. |
| UserHandlerRules.NoFieldsToUpdate | backend/internal/handler/user.go:69-89 | The map is empty exactly when the request changes nothing. |
| UserHandlerRules.Patched | backend/internal/handler/user.go:92-95 | A patched row keeps its identity, email, admin flag and online times, and everything the patch does not name. |
| UserHandlerRules.PatchWhere | backend/internal/handler/user.go:92-95 | Every row with the UUID is patched and every other row is left alone. |
| UserHandlerRules.PatchNothing | backend/internal/handler/user.go:232-240 | An update that matches no row changes nothing. |
| UserHandlerRules.PatchKeepsLookups | backend/internal/handler/user.go:92-108 | Patching never moves a user: lookups by UUID and by email find the same position afterwards. |
| UserHandlerRules.RowsMatched | backend/internal/handler/user.go:237-240 | RowsAffected is 0 exactly when no user has the UUID. |
| UserHandlerRules.ToProfileView | backend/internal/handler/user.go:98-108 | The reloaded profile carries the row's public fields. |
| UserHandlerRules.UpdateProfile | backend/internal/handler/user.go:59-109 | A bind failure gives 400. An empty map gives 400 "No fields to update". A database failure gives 500. All three write nothing. Otherwise the caller's rows are patched with the map. The handler crashes exactly when the caller has no row to reload. |
| UserHandlerRules.UpdateProfileReflectsRequest | backend/internal/handler/user.go:59-109 | A successful update replies 200 with the requested values where given (nickname and avatar only when non-empty), the old values elsewhere, and the same email. Nobody else's row changes. |
| UserHandlerRules.UpdateProfileIdempotent | backend/internal/handler/user.go:59-109 | Sending the same update twice leaves the tables as sending it once does. |
| UserHandlerRules.UpdatePassword | backend/internal/handler/user.go:112-148 | Checked in source order: bind, then user lookup (500), then old password (400 "Current password is incorrect"), then hashing (500), then the write (500). Every refusal writes nothing. Success stores the new hash and replies "Password updated successfully". |
| UserHandlerRules.PasswordChangeThenLogin | backend/internal/handler/user.go:112-148 | After a password change, logging in with the new password succeeds exactly when the lookup and the signing succeed. |
| UserHandlerRules.Matching | backend/internal/handler/user.go:161-165 | Exactly the rows other than the caller whose nickname or email contains the query. |
| UserHandlerRules.SearchQuery | backend/internal/handler/user.go:161-168 | At most 20 matching rows. All matches are returned when there are at most 20. |
| UserHandlerRules.ToSearchResults | backend/internal/handler/user.go:170-178 | One result per row, in order. |
| UserHandlerRules.SearchUsers | backend/internal/handler/user.go:151-181 | An empty q gives 400 "Search query is required". A database failure gives 500. Otherwise 200 with the results of the query. |
| UserHandlerRules.SearchResults | backend/internal/handler/user.go:151-181 | A successful search returns at most 20 users, none of them the caller, each a user matching the query. With at most 20 matches it lists all of them. |
| UserHandlerRules.BindStatusAsWritten | backend/internal/handler/user.go:217-223 | As written: the binding succeeds exactly when status is present, fits int8 and is not 0. The required rule treats 0 as missing. |
| UserHandlerRules.BindStatus | backend/internal/handler/user.go:217-223 | Corrected: the binding succeeds exactly when status is present and fits int8, 0 included. |
| UserHandlerRules.StatusUpdate | backend/internal/handler/user.go:210-243 | Checked in order: an empty UUID gives 400 "User UUID is required"; a failed bind 400 "Invalid request"; a status other than 0 or 1 400 "Invalid status value"; a database failure 500; a UUID matching no row 404 "User not found". Success patches the status. Only a 200 writes. |
| UserHandlerRules.AdminUpdateUserStatusAsWritten | backend/internal/handler/user.go:210-243 | The handler with the binding as written can only ever set Disabled: every status is kept or becomes Disabled. |
| UserHandlerRules.ActivationRefusedAsWritten | backend/internal/handler/user.go:217-223 | As written, a request to set Active(0) is refused as "Invalid request", so a disabled account stays disabled whatever is sent. |
| UserHandlerRules.AdminUpdateUserStatus | backend/internal/handler/user.go:210-243 | The handler with the corrected binding: every status is kept or becomes Active or Disabled. |
| UserHandlerRules.DisableThenEnable | backend/internal/handler/user.go:210-243 | With the corrected binding, disabling an active account and enabling it again both reply 200 and restore the tables exactly. |
| UserHandlerRules.DisableEnableRows | backend/internal/handler/user.go:232-240 | Setting the matching rows to Disabled and then back to Active leaves a table whose matching rows were Active as it was. |
| UserHandler.BuildUpdates | backend/internal/handler/user.go:69-84 | The conditional inserts give exactly UserHandlerRules.Updates. |
| UserHandler.UpdateProfile | backend/internal/handler/user.go:59-109 | The database and the reply are those of UserHandlerRules.UpdateProfile. |
| UserHandler.UpdatePassword | backend/internal/handler/user.go:112-148 | The database and the reply are those of UserHandlerRules.UpdatePassword. |
| UserHandler.SearchUsers | backend/internal/handler/user.go:151-181 | The append loop gives exactly UserHandlerRules.SearchUsers. |
| UserHandler.AdminUpdateUserStatusCorrected | backend/internal/handler/user.go:210-243 | The database and the reply are those of UserHandlerRules.AdminUpdateUserStatus, with the corrected binding. The code as written is UserHandlerRules.AdminUpdateUserStatusAsWritten. |
| MessageHandlerRules.ParseLimit | backend/internal/handler/message.go:46-52 | The parsed value when it is an integer above 0, otherwise 50. |
| MessageHandlerRules.ParseOffset | backend/internal/handler/message.go:47-57 | The parsed value when it is an integer of at least 0, otherwise 0. |
| MessageHandlerRules.QueryValuesRoundTrip | backend/internal/handler/message.go:46-57 | A page size and offset written in decimal are read back exactly. A limit of 0 or below falls back to 50. |
| MessageHandlerRules.GetMessages | backend/internal/handler/message.go:39-66 | A missing sessionId gives 400 "Session ID is required". Otherwise the service's page with the parsed limit and offset, or 500 "Failed to get messages". A 200 holds at most the parsed limit of messages. |
| MessageHandlerRules.DefaultPageSize | backend/internal/handler/message.go:46-52 | Without a limit a page holds at most 50 messages. |
| MessageHandlerRules.SenderAvatar | backend/internal/handler/message.go:24-27 | The sender's avatar, or "" when the sender cannot be found. |
| MessageHandlerRules.SendMessage | backend/internal/handler/message.go:13-36 | A bind failure gives 400. Otherwise the service creates the message with SenderAvatar, and the reply is 201 with the message or 500 "Failed to send message". |
| MessageHandlerRules.UnknownSenderStillSends | backend/internal/handler/message.go:24-35 | A sender with no user row still sends with status 201: the message is stored with an empty avatar. |
| MessageHandler.GetMessages | backend/internal/handler/message.go:39-66 | Defaults, then conditional reassignment after parsing, give exactly MessageHandlerRules.GetMessages. |
| MessageHandler.SendMessage | backend/internal/handler/message.go:13-36 | The database and the reply are those of MessageHandlerRules.SendMessage. |
| Config.GetEnv | backend/internal/config/config.go:110-116 | The variable when it is set and non-empty, the default otherwise. |
| Config.EmptyCountsAsUnset | backend/internal/config/config.go:110-116 | A variable set to "" reads the same as an unset one: the default. |
| Config.GetEnvInt | backend/internal/config/config.go:118-126 | The variable's integer value when it is set and parses, the default otherwise. |
| Config.GetEnvIntRoundTrip | backend/internal/config/config.go:118-126 | Any int64 written in decimal is read back as itself. |
| Config.Load | backend/internal/config/config.go:74-108 | Every setting with a non-empty default is never empty. DATABASE_URL and TURN_SERVER_URL are taken as given. |
| Config.LoadDefaults | backend/internal/config/config.go:74-108 | With nothing set, the configuration is exactly the development defaults: port 8080, a local MySQL on 3306, a local Redis on 6379, a 24-hour JWT, the Vite origin, and no TURN server. |
| Config.ModesExclusive | backend/internal/config/config.go:128-136 | No loaded configuration is both development and production. APP_ENV alone decides: production exactly when it is "production", development exactly when it is unset, empty or "development". |
| Config.IsDevelopment | backend/internal/config/config.go:128-131 | True exactly when APP_ENV is "development". It has no contract; Config.ModesExclusive states its properties. |
| Config.IsProduction | backend/internal/config/config.go:133-136 | True exactly when APP_ENV is "production". It has no contract; Config.ModesExclusive states its properties. |
| Config.Holder.constructor | backend/internal/config/config.go:62-72 | Nothing loaded yet. |
| Config.Holder.Get | backend/internal/config/config.go:66-72 | The first call loads and keeps the configuration. Every later call returns the kept one. |
| Config.GetTwice | backend/internal/config/config.go:66-72 | Two calls with different environments both see the configuration the first call loaded. |
| Cors.OriginList | backend/internal/middleware/cors.go:17-20 | One origin per comma-separated piece, in order, each trimmed of white space. |
| Cors.TrimEach | backend/internal/middleware/cors.go:18-20 | Each element trimmed, in place of the original. |
| Cors.OriginListRoundTrip | backend/internal/middleware/cors.go:17-20 | A list of origins without commas or surrounding white space, joined by commas, is read back as that list. |
| Cors.TrimInPlace | backend/internal/middleware/cors.go:18-20 | After the loop the array holds each original element trimmed. |
| Cors.Cors | backend/internal/middleware/cors.go:13-30 | The allowed origins are the configured list. The methods, headers and exposed headers are fixed. Credentials are allowed, and preflight answers are cached for twelve hours. |
| Cors.SingleOrigin | backend/internal/middleware/cors.go:17-20 | A single origin with no comma and no surrounding white space is the whole list. |
| Database.SelectDsn | backend/internal/database/database.go:26-54 | A DATABASE_URL wins and is PostgreSQL exactly when it starts with postgres:// or postgresql://. Without one, port 5432 selects a local PostgreSQL and any other port MySQL. |
| Database.MySqlDsnShape | backend/internal/database/database.go:44-54 | The MySQL DSN names the user, password, host, port and database in that order. |
| Database.PostgresDsn | backend/internal/database/database.go:36-42 | The key=value form: host, port, user, password and dbname, then sslmode=disable. It has no contract; Database.SelectDsn states when it is chosen. |
| Database.MySqlDsn | backend/internal/database/database.go:46-52 | The go-sql-driver form user:password@tcp(host:port)/name with utf8mb4, parseTime and the local time zone. Its shape is stated by Database.MySqlDsnShape. |
| Database.DefaultIsLocalMySql | backend/internal/database/database.go:26-54 | The default configuration selects MySQL. |
| Database.LogLevelFor | backend/internal/database/database.go:57-61 | Info exactly in development, Warn otherwise. |
| Database.Handle.constructor | backend/internal/database/database.go:17 | No connection yet. |
| Database.Handle.Init | backend/internal/database/database.go:20-95 | An open failure leaves the handle unchanged and returns the driver-specific "failed to connect to … database: " error. A pool failure keeps the opened connection unpooled with its error. Success stores the connection with 10 idle, 100 open connections and a one-hour lifetime. |
| Database.Handle.Migrate | backend/internal/database/database.go:97-117 | Before Init, "database not initialized". Otherwise the migration's error, wrapped as "failed to run migrations: …", or none. |
| Database.Handle.Close | backend/internal/database/database.go:119-131 | Before Init, no error. Otherwise the pool lookup's error first, then the close's. |
| Database.GuardsBeforeInit | backend/internal/database/database.go:97-131 | On a fresh handle, migrating fails with "database not initialized" and closing succeeds. |
| WebRtcHandler.IceServerList | backend/internal/handler/webrtc.go:17-42 | The public STUN pair first, always. A TURN entry with the configured username and password follows exactly when a TURN URL is set. |
| WebRtcHandler.OnlyKnownServers | backend/internal/handler/webrtc.go:17-42 | Every entry points at the STUN pair or at the configured TURN server. |
| WebRtcHandler.GetIceServers | backend/internal/handler/webrtc.go:17-42 | 200 with exactly IceServerList of the configuration. |

## Left out

- Concurrency: the hubs' goroutines, channels and mutexes, and the browser's asynchronous interleavings, are not modelled. Each register, unregister, broadcast or handler call is one atomic step.
- Logging, the router, main.go and the server start-up are not part of this model. They only wire the modelled operations together.
- The group, contact, session and websocket HTTP handlers are not part of this model. They only map service errors to status codes. The services they call are modelled.
- The GetUser and AdminGetUsers handlers, and the MarkAsRead, MarkAllAsRead and GetUnreadCount handlers, are not part of this model. The service functions behind them are modelled.
- bcrypt, JWT signing and checking, uuid generation and the clock are parameters: `matches`/`hashed`, `signed`/`verify`, an 11-character `suffix`, and `now`. A failing step is a parameter only in these places:
  - the account chain (UserRules.Register, UserRules.Login, UserRules.Logout and AuthHandler.GetCurrentUser): a failed lookup, bcrypt, the insert, signing and the Redis delete;
  - ContactRules.AcceptFriendRequest's transaction: the status update and the two contact inserts;
  - UserHandlerRules.UpdateProfile, UpdatePassword, SearchUsers and StatusUpdate;
  - Database.Handle.Init;
  - a uuid collision on every Create.
- Elsewhere the database is assumed not to fail. Each of the following returns an error the code passes on, and the model leaves it out:
  - ContactRules: the accept and reject lookups, the reject update, DeleteContact's updates, and the pending-requests query;
  - SessionRules: GetOrCreate's lookup, GetByUuid, and the Update calls;
  - MessageRules: GetBySessionId's query, MarkAsRead, and UnreadCount's count;
  - GroupRules: GetByUuid, the Updates writes, and Search.
- UserRules.Register, UserRules.Login: the code ignores the error of the session write (redis.Set), and in Login also the error of the last_online_at update. The model always performs both.
- UserRules.Logout: a failed delete is modelled as leaving the store unchanged.
- Request binding is a parameter (bound or failed with a reason). The validator's rules (required, min=6, email) are not modelled, except the status binding described under Findings. JSON marshalling failures are left out.
- ORDER BY on timestamps is not modelled. The message table is chronological, so DESC is its reverse. Sessions ordered by updated_at are kept in table order. A search without ORDER BY returns rows in table order.
- ContactRules.PendingRequests: only membership of the pending list is stated, not its created_at order.
- SQL LIKE wildcards in the search query and the case-insensitive collation of MySQL are not modelled. Matching is plain substring containment.
- UserHandlerRules.RowsMatched: RowsAffected counts matched rows. MySQL by default counts changed rows, so an update that sets a status to its current value is a 200 here but can be a 404 there.
- UserHandlerRules.UpdateProfile: the nil dereference after a failed reload is modelled as a Panicked reply rather than a crash of the goroutine.
- The int8 range of gender in a profile update is not checked. Go's json decoder refuses out-of-range values during binding, which is a parameter here.
- Time formatting of CreatedAt and UpdatedAt in responses is not modelled. The responses carry the stored integers.
- omitempty on the ICE server username and credential is not modelled. An empty string stands for an absent field.
- Database.Handle.Init: what gorm.Open leaves in the global DB after a failed open is not modelled. The handle is kept unchanged.
- Database.Handle.Close does not model the pool's closed state after a successful close.
- The chat client's send-buffer capacity is a parameter, because client.go is not part of this model.
- Subscriber fan-out and notifyStateChange in the browser services are not modelled. The state they would publish is the model.
- Browser APIs are abstract values: the socket state, the peer connection and the media stream. The sound service, the UI components, the theme tokens and the REST API modules are not part of this model. Timers are explicit fire events.
- The slice reducers for login and register share AuthPending/AuthFulfilled/AuthRejected, and several list fetches share ListPending/ListRejected, because their bodies are identical. HandleCallTimeout is the same transition as EndCall.
- The contact slice's filters compare the optional fields as the code does. Absent values never match.
- CallMachine.CallRequestWhileCalling follows the code at frontend/src/services/webrtc.ts:121-126. The code has no busy check, so a call request that arrives during a call replaces the current call: the newer request wins.
- ChatChannel.Subscribe: its ensures restates its body. Its partner is the lemma ChatChannel.SubscribeUnsubscribe.

## Findings

| source | as written | input that shows it | evidently intended | confidence | as-written member | corrected member |
|---|---|---|---|---|---|---|
| backend/internal/service/chat/hub.go:69-74 | Unregister deletes the map entry for the client's user id without checking that the entry is this client. | A user connects twice. The first connection's read pump ends after the second registered, and the second, still open, connection is dropped from the registry. The user shows as offline. | Remove the entry only when it still holds the client being unregistered. | high, not executed | ChatHub.Hub.Unregister, ChatHub.ReplacedConnectionGoesOffline | ChatHub.Hub.UnregisterCurrent, ChatHub.ReplacedConnectionStaysOnline |
| backend/internal/service/webrtc/signaling.go:64-69 | The signaling hub's unregister has the same missing identity check. | A user opens a second signaling socket, then the first closes. The second stops receiving offers, answers and ICE candidates. | Remove the entry only when it still holds the client being unregistered. | high, not executed | SignalingHub.Hub.Unregister, SignalingHub.ReplacedConnectionGoesOffline | SignalingHub.Hub.UnregisterCurrent, SignalingHub.ReplacedConnectionStaysOnline |
| frontend/src/services/websocket.ts:57-82 | attemptReconnect overwrites `reconnectTimeout` without clearing the timer it held, and disconnect clears only the timer the field holds. | A socket closes and arms a first timer. `connect` is called again before that timer fires, and the new socket closes too, arming a second timer. The user logs out and disconnect clears the second timer. The first timer then fires and opens a new socket after the logout. | Clear the pending timer before arming a new one, so that disconnect stops every reconnect. | medium, not executed | ChatChannel.AttemptReconnect, ChatChannel.DisconnectStopsReconnect, ChatChannel.OrphanedTimerReconnects | ChatChannel.AttemptReconnectClearing, ChatChannel.DisconnectStopsReconnectClearing |
| backend/internal/handler/user.go:217-223 | `Status int8 binding:"required"` makes the validator reject the zero value, so {"status": 0} fails binding. | PUT /admin/users/:uuid/status with {"status": 0} answers 400 "Invalid request", so a disabled account can never be re-enabled. | Accept 0 (Active) as well as 1 (Disabled), for example by binding into *int8. | high, not executed | UserHandlerRules.BindStatusAsWritten, UserHandlerRules.AdminUpdateUserStatusAsWritten, UserHandlerRules.ActivationRefusedAsWritten | UserHandlerRules.BindStatus, UserHandlerRules.AdminUpdateUserStatus, UserHandlerRules.DisableThenEnable |
