# Chatheon core in Dafny

A model of the Go chat backend *chatheon* across four layers, with proofs of what each layer promises.

- **In-memory stores** (package `memory`). A message list, a conversation list and a username-keyed user map. They are modelled as classes whose fields are a `seq` or a `map`. Each mutating method states the whole new state. Each query has no `modifies` clause, so Dafny checks that it changes nothing.
- **Application services** (package `application`). They check their inputs and then delegate. Each is a class holding a reference to its store.
- **Bearer-token gate** (`internal/auth` middleware). It is a pure decision over the `Authorization` header. The token verifier is a function parameter.
- **HTTP handlers** (package `http`). Each maps the caller's identity from the request context, the decoded request and the service's result to a reply. A reply gives the status code, the service call made (or none) and the body value. Handlers that loop in Go (`GetMessages`, `CreateConversation` via `contains`) are read-only methods with loop invariants. The others are functions, and lemmas state their properties.

Code from outside the repository gets one of three treatments:
- It becomes a parameter: `uuid.New` (`freshId`, required non-nil), `time.Now` (`now`), `bcrypt.GenerateFromPassword` (`hashOutcome`; bcrypt salts, so it is not a function of the password) and the verifier.
- It becomes a function-valued field: `bcrypt.CompareHashAndPassword` (`matches`), `TokenGenerator.Generate` (`generate`), `uuid.Parse` (`parseUuid`) and `uuid.UUID.String` (`uuidText`).
- It is modelled after Go's documented behaviour on a 64-bit platform: `strconv.Atoi` (called at `adapters/http/message_handler.go:83` and `:96`) and `strings.TrimPrefix`. The repository never calls `strconv.Itoa`. The model defines `Itoa` only to state the round trip `Strconv.AtoiItoa`.

Points where the code decides what the model says:
- `internal/auth/middleware.go:29` puts the verifier's error text in the 401 body. The model states only the uniform 401 status, so nothing is claimed about what that body reveals.
- `application/ports/message_service.go` and `application/ports/message_repository.go` do not declare `SetMessageStatus`. Yet `adapters/http/message_handler.go:62` and `application/message_service.go:59` call it through those interfaces. The model gives the service and the store that method, with the signatures of the concrete types.
- The user's fields are the ones `application/user_service.go:51-55` sets: ID, username and password hash. `MessageStatus` is the three-valued `Domain.Status` (sent, delivered, read). The message's `CreatedAt` and `Status` are the fields `adapters/memory/message_repository.go:28-29` stamps.

Files: `wrappers.dfy`, `domain.dfy`, `sequences.dfy` (order-preserving filter), `goint.dfy` (64-bit `int`), `strconv.dfy`, `pagination.dfy`, `message_repository.dfy`, `conversation_repository.dfy`, `user_repository.dfy`, `message_service.dfy`, `conversation_service.dfy`, `user_service.dfy`, `middleware.dfy`, `http.dfy`, `message_handler.dfy`, `conversation_handler.dfy`, `user_handler.dfy`, `scenarios.dfy` (the repository's tests replayed).

## Model

| member | source | states |
|---|---|---|
| Sequences.Filter | adapters/memory/message_repository.go:38-44 | the filtered list is never longer than the stored list |
| Sequences.FilterAppend | adapters/memory/message_repository.go:39-43 | filtering distributes over concatenation, so kept elements keep their insertion order |
| Sequences.FilterMembership | adapters/memory/conversation_repository.go:36-43 | an element is returned if and only if it is stored and matches |
| Sequences.FilterCount | adapters/memory/conversation_repository.go:36-43 | each matching element appears exactly as often as it is stored; non-matching ones never |
| Sequences.FilterKeepsAll | adapters/memory/message_repository.go:52-56 | when every stored element matches, the query returns the whole list |
| Sequences.FilterDropsAll | adapters/memory/message_repository.go:39-44 | when no stored element matches (an unknown user), the result is empty |
| GoInt.Add | adapters/memory/message_repository.go:63 | Go's `+` on `int`: the result is in the 64-bit range, differs from the true sum by a multiple of 2^64, and equals it when the sum fits |
| Strconv.Atoi | adapters/http/message_handler.go:83 | a parsed value is a 64-bit integer and came from text starting with a digit or a sign |
| Strconv.AtoiItoa | adapters/http/message_handler.go:83 | parsing the decimal text of any 64-bit integer gives it back |
| Strconv.AtoiRejectsNonDigits | adapters/http/message_handler_test.go:115 | any non-digit after the optional sign is a syntax error |
| Strconv.AtoiExamples | adapters/http/message_handler.go:96 | "abc", "" and "-" are refused; "2", "-1", "+7" and "007" parse to 2, -1, 7 and 7 |
| Pagination.AsWrittenInRange | adapters/memory/message_repository.go:59-68 | as written, the slice expression is in range if and only if limit >= 0, offset >= 0 and `start + limit` does not overflow |
| Pagination.BoundsAsWritten | adapters/memory/message_repository.go:59-66 | the clamp as written: start = min(offset, n) and end <= n. When `start + limit` fits in `int`, end = min(start + limit, n). Its overflow is stated in AsWrittenInRange and AsWrittenOverflowPanics |
| Pagination.AsWrittenOverflowPanics | adapters/memory/message_repository.go:63-68 | one message, offset 1 and limit MaxInt give bounds (1, MinInt): the slice expression panics |
| Pagination.PageBounds | adapters/memory/message_repository.go:59-66 | the intended bounds: start = min(offset, n), start <= end <= n, and end - start = min(limit, n - start) |
| Pagination.PageBoundsFitInt | adapters/memory/message_repository.go:59-66 | every intermediate value of the corrected clamp fits in Go's `int` |
| Pagination.CorrectedAgreesWithAsWritten | adapters/memory/message_repository.go:59-66 | wherever the written clamp does not overflow, the corrected clamp computes the same bounds |
| Pagination.Page | adapters/memory/message_repository.go:59-68 | a page has min(limit, n - min(offset, n)) elements (so at most limit and at most n, and none when offset >= n), and element i is element offset + i |
| Pagination.PagesTile | adapters/memory/message_repository.go:59-68 | the page of size a at offset o followed by the page of size b at o + a is the page of size a + b at o |
| Pagination.PageSizesForTen | adapters/memory/message_repository_test.go:101-114 | for 10 matches, (limit 5, offset 0), (3, 7) and (5, 10) give 5, 3 and 0 |
| MessageStore.IndexOfId | adapters/memory/message_repository.go:74-80 | the result is the first position holding the ID, or the length when no message has it |
| MessageStore.StatusSetTouchesOne | adapters/memory/message_repository.go:74-80 | a status update keeps the length and every other message. It changes no field except the status. It succeeds if and only if some message has the ID |
| MessageStore.MessageRepository.constructor | adapters/memory/message_repository.go:18-22 | a new store is empty |
| MessageStore.MessageRepository.Create | adapters/memory/message_repository.go:24-31 | appends the message stamped with the time and status Sent, whatever its incoming status; never fails |
| MessageStore.MessageRepository.GetMessagesBySender | adapters/memory/message_repository.go:34-45 | returns exactly the sender's messages in insertion order, without changing the store |
| MessageStore.MessageRepository.GetMessagesByReceiver | adapters/memory/message_repository.go:47-69 | returns the page at (limit, offset) of the receiver's messages in insertion order, without changing the store |
| MessageStore.MessageRepository.SetMessageStatus | adapters/memory/message_repository.go:71-81 | sets the status of the first message with the ID and changes nothing else; with no such message, returns "message not found" and leaves the store as it was |
| ConversationStore.ParticipantListedOnce | adapters/memory/conversation_repository.go:37-41 | a conversation naming the user several times is still listed once per stored copy; one not naming the user is never listed |
| ConversationStore.ConversationRepository.constructor | adapters/memory/conversation_repository.go:16-20 | a new store is empty |
| ConversationStore.ConversationRepository.Create | adapters/memory/conversation_repository.go:23-28 | appends the conversation, keeps the earlier ones, never fails |
| ConversationStore.ConversationRepository.FindByParticipant | adapters/memory/conversation_repository.go:31-45 | returns exactly the conversations listing the user, in insertion order, without changing the store |
| UserStore.UserRepository.constructor | adapters/memory/user_repository.go:15-19 | a new store is empty, so every user is trivially filed under its own name |
| UserStore.UserRepository.Create | adapters/memory/user_repository.go:21-31 | a taken username gives "user already exists" and no change. Otherwise the user is stored under its username and no other entry changes |
| UserStore.UserRepository.FindByUsername | adapters/memory/user_repository.go:33-42 | succeeds if and only if the name is a key, and then gives that entry; it does not change the store |
| MessageApp.MessageService.constructor | application/message_service.go:27-29 | the service keeps the given store and UUID parser |
| MessageApp.MessageService.CreateMessage | application/message_service.go:31-44 | empty content gives the content-required error and no store call. Otherwise exactly one message is stored, with the given sender, receiver and content and a non-nil fresh ID |
| MessageApp.MessageService.GetMessages | application/message_service.go:46-48 | returns the store's list of the sender's messages |
| MessageApp.MessageService.GetMessagesByReceiver | application/message_service.go:50-52 | forwards receiver, limit and offset unchanged and returns the store's page |
| MessageApp.MessageService.SetMessageStatus | application/message_service.go:54-60 | an unparsable ID gives a wrapped parse error and no store call. A parsable one is forwarded with the status, and the store's result is returned |
| ConversationApp.ConversationService.constructor | application/conversation_service.go:24-26 | the service keeps the given store |
| ConversationApp.ConversationService.CreateConversation | application/conversation_service.go:30-45 | fewer than 2 IDs gives too-few-participants and no change. Otherwise the conversation with exactly those IDs is stored and returned |
| ConversationApp.ConversationService.GetConversationsForUser | application/conversation_service.go:49-51 | returns the store's conversations listing the user |
| ConversationApp.NewConversationVisibleToParticipants | application/conversation_service_test.go:28-42 | after a create, a user's listing gains the new conversation exactly when the user is one of its participants |
| UserApp.RegisterValidationOrder | application/user_service.go:34-39 | an empty username is reported before an empty password; neither result depends on the store |
| UserApp.LoginFailuresCollapse | application/user_service.go:61-68 | an unknown user and a wrong password both give invalid-credentials |
| UserApp.LoginNamesTheCaller | application/user_service.go:70 | in a store that files each user under its own name, a successful login hands the generator the username the caller typed, with the stored ID |
| UserApp.UserService.constructor | application/user_service.go:29-31 | the service keeps its store, hash comparison, token generator and UUID formatting |
| UserApp.UserService.Register | application/user_service.go:33-58 | checks run in order: username, password, uniqueness, hash. Any failure leaves the store unchanged. Success stores the username with the hash and a fresh non-nil ID |
| UserApp.UserService.Login | application/user_service.go:60-71 | unknown user or hash mismatch gives invalid-credentials. Otherwise the result is the generator's answer for the stored username and ID |
| Auth.TrimPrefix | internal/auth/middleware.go:25 | with the prefix present, prefix + result is the input; otherwise the input is returned unchanged |
| Auth.HasPrefix | internal/auth/middleware.go:20 | true if and only if the prefix is no longer than the header and matches it character by character |
| Auth.Gate | internal/auth/middleware.go:19-37 | every refusal is 401, and forwarding happens only for a header carrying the "Bearer " prefix |
| Auth.GateRefusesBadHeader | internal/auth/middleware.go:19-23 | a missing or unprefixed header gives 401 whatever the verifier does, so no token is verified and the wrapped handler never runs |
| Auth.GateVerifiesStrippedToken | internal/auth/middleware.go:25-37 | the verifier sees the header minus one prefix. The gate forwards exactly when that token verifies, and the context holds the claims' user ID and username |
| Auth.GateRefusalsAreUniform | internal/auth/middleware.go:20-31 | any two refusals are the same 401 decision, whatever the cause |
| Auth.GateExamples | internal/auth/middleware.go:20-25 | "Bearer Bearer t" verifies "Bearer t"; "bearer t" and "Bearer" are refused |
| MessageHttp.LimitValue | adapters/http/message_handler.go:78-92 | an accepted limit is positive and fits in `int`. An absent one is 10; a present one is the value `Atoi` parses |
| MessageHttp.OffsetValue | adapters/http/message_handler.go:79-105 | an accepted offset is non-negative and fits in `int`. An absent one is 0; a present one is the value `Atoi` parses |
| MessageHttp.GetMessages | adapters/http/message_handler.go:70-133 | no identity gives 401 and no call. A bad limit or offset gives 400 and no call. Otherwise the service is called with (user, limit, offset), where limit > 0 and offset >= 0. A service error gives 500; success gives 200 and the responses in the service's order |
| MessageHttp.CreateMessageRequiresIdentity | adapters/http/message_handler.go:30-34 | without an identity, POST /messages answers 401 whatever the body, without calling the service |
| MessageHttp.CreateMessage | adapters/http/message_handler.go:29-48 | the body is always empty. Without an identity the answer is 401. With one, an undecodable body gives 400 and no call. The service is called if and only if there is an identity and the body decodes. 201 exactly when it is called and succeeds, otherwise 400. CreateMessageRequiresIdentity, CreateMessageMapsOutcome and CreateMessageThroughService state the call's arguments and the outcome mapping |
| MessageHttp.CreateMessageMapsOutcome | adapters/http/message_handler.go:42-47 | the service gets the context's sender and the body's receiver and content; 201 on success, 400 on an error |
| MessageHttp.CreateMessageThroughService | application/message_service.go:32-34 | with the service's rule in place, empty content ends in 400 and other content in 201 |
| MessageHttp.UpdateStatusMapsOutcome | adapters/http/message_handler.go:57-67 | an undecodable body gives 400 and no call. Otherwise the path ID and status are forwarded: 204 on success, 400 on an error |
| MessageHttp.UpdateStatus | adapters/http/message_handler.go:50-68 | the body is always empty. The service is called if and only if the body decodes. 204 exactly when it is called and succeeds, otherwise 400. UpdateStatusMapsOutcome states the call's arguments |
| MessageHttp.DefaultPagination | adapters/http/message_handler.go:78-79 | no query parameters mean limit 10 and offset 0 |
| MessageHttp.PaginationParamExamples | adapters/http/message_handler.go:82-104 | "abc", "0", "-3" are refused as limit, "-1" and "x1" as offset; "0" is a valid offset and "2" a valid limit |
| MessageHttp.MaxIntLimitAccepted | adapters/http/message_handler.go:82-92 | limit=9223372036854775807 is accepted and forwarded as MaxInt |
| ConversationHttp.Contains | adapters/http/conversation_handler.go:91-98 | true if and only if some element equals the item |
| ConversationHttp.WithCaller | adapters/http/conversation_handler.go:39-41 | the result contains the caller. It is the request's list, with the caller appended only if absent |
| ConversationHttp.CreateConversation | adapters/http/conversation_handler.go:23-58 | no identity gives 401; an undecodable body gives 400. Fewer than 2 entries after adding the caller give 400 and no call. Otherwise the normalised list is passed on: 400 on an error, 201 with the conversation on success |
| ConversationHttp.GetConversationsMapsOutcome | adapters/http/conversation_handler.go:66-83 | no identity gives 401 and no call; otherwise the caller's ID is passed on: 500 on an error, 200 with the service's list on success |
| ConversationHttp.GetConversations | adapters/http/conversation_handler.go:66-88 | the service is called if and only if there is an identity. 200 exactly when it is called and succeeds, and only then a body, which is the service's list. GetConversationsMapsOutcome states the other statuses |
| ConversationHttp.CallerAloneIsTooFew | adapters/http/conversation_handler_test.go:72-81 | a request of just the caller, or an empty one, normalises to one entry and is refused |
| ConversationHttp.DuplicatesPassTheCheck | adapters/http/conversation_handler.go:39-47 | the check counts entries, not distinct IDs: [caller, caller] passes unchanged |
| ConversationHttp.HandlerCheckImpliesServiceCheck | application/conversation_service.go:31-39 | what passes the handler's check also passes the service's, so the service creates it |
| UserHttp.RegisterUserChecksInputFirst | adapters/http/user_handler.go:41-44 | an empty username or password gives 400 whatever the service would say, and no call |
| UserHttp.RegisterUser | adapters/http/user_handler.go:33-57 | the body is always empty. An undecodable body gives 400 and no call. The service is called if and only if the body decodes with both fields filled in. 201 exactly when it succeeds. 500 exactly when it fails with an error other than the taken-username sentinel. RegisterUserChecksInputFirst, RegisterUserMapsOutcome and RegisterUserThroughService state the remaining 400 cases |
| UserHttp.RegisterUserMapsOutcome | adapters/http/user_handler.go:46-56 | success gives 201, exactly the taken-username error 400, anything else 500, a wrapped taken-username error included |
| UserHttp.RegisterUserThroughService | application/user_service.go:41-49 | through the service: a taken name gives 400, a failed hash 500, otherwise 201 |
| UserHttp.LoginUser | adapters/http/user_handler.go:59-78 | an undecodable body gives 400 and no call. The service is called if and only if the body decodes. 200 exactly when it succeeds, and only then a body, which is the token. LoginUserMapsOutcome and LoginUserHidesCause state the 401 case |
| UserHttp.LoginUserMapsOutcome | adapters/http/user_handler.go:66-73 | the service is always called with the credentials; a failure gives 401 and no token, success 200 and the service's token |
| UserHttp.LoginUserHidesCause | application/user_service.go:61-68 | through the service, a wrong password and an unknown user get the same 401 reply |
| Scenarios.MessagesBySender | adapters/memory/message_repository_test.go:13-59 | the sender test's counts are 2, 1 and 0 |
| Scenarios.MessagesByReceiverPaged | adapters/memory/message_repository_test.go:88-114 | the pagination test's counts are 5, 3 and 0 |
| Scenarios.ConversationsByParticipant | adapters/memory/conversation_repository_test.go:13-55 | bob has conv1 and conv2, alice only conv1, an unknown user none |
| Scenarios.UsersCreateAndFind | adapters/memory/user_repository_test.go:12-38 | the first create succeeds, the duplicate fails, the user is found by name, an unknown name is not |
| Scenarios.ConversationServiceCreateAndList | application/conversation_service_test.go:12-42 | one participant is too few; the new conversation is listed for alice and for bob, and not for charlie |

## Left out

- The JWT codec (`Generate`, `Verify`) is not modelled. `Verify` is a function parameter of `Auth.Gate`, and the generator is a function field of `UserService`. Token round trips, tampering and expiry are not modelled.
- Claims: only the user ID and username are modelled. The registered time claims are not read by the gate.
- bcrypt: hashing is the `hashOutcome` parameter and comparison is the `matches` field. No link between them is assumed.
- uuid: `New` is the `freshId` parameter, required non-nil. `Parse` and `String` are function fields. The 16 bytes are modelled as one number below 2^128.
- `time.Now`, the `CreatedAt` values and RFC 3339 formatting: times are opaque numbers passed in as `now`.
- `MessageStatus`'s text form and JSON (un)marshalling: a status body is either decoded or malformed.
- `sync.RWMutex`: the stores are modelled sequentially. One race is therefore not modelled: two `Register` calls can both pass the lookup, and the second `Create` then fails.
- JSON decoding and encoding, and `http.Error` message texts. A body is decoded or malformed; a reply records a value, not the bytes.
- An encoding failure after `WriteHeader` is not modelled.
- Go encodes a nil slice as `null` and an empty one as `[]`. The model does not distinguish them. `GET /conversations` for a user with no conversations sends `null`.
- The mux router and `cmd/chatheon/main.go` wiring: not modelled.
- Pointer aliasing. The stores hold message and conversation values, not pointers. So these are not captured:
  - `MessageRepository.Create` also writes `CreatedAt` and `Status` into the caller's struct.
  - A pointer stored twice shares one status update.
  - Returned lists share pointers with the store.
- Error propagation from the memory stores. The message and conversation stores never fail, so a service returning their error appears only as "returns what the store gave". The user store's `Create` fails only on a taken username. `Register`'s lookup has already ruled that out, so in the sequential model `Register` never sees that error. The mock-based tests with failing stores have no counterpart.
- `tokenGen.Generate` errors: `Login` passes them through unmodelled. They are part of the `generate` field's result.
- Not modelled:
  - `adapters/postgres/user_repository.go` (SQL against a live database).
  - `adapters/notification/console_notifier.go` (prints only).
  - The stale `application/chat_service.go`, `adapters/http/handler.go`, `ports/message_repository.go` and `tests/user_service_test.go`, which do not match the current domain types or constructors.
  - Mocks and the ports interfaces.
- Message ownership in `PUT /messages/{id}/status`: `MessageHttp.UpdateStatus` reads no identity from the context, as `adapters/http/message_handler.go:50-68` does not. Any caller who passes the gate can change any message's status.
- MessageStore.MessageRepository.GetMessagesByReceiver: it models the clamp as intended, not as written. The written `start + limit` can overflow 64-bit `int` (see Findings). Negative `limit` or `offset`, for which the Go slice expression panics, are excluded by the `nat` parameter types.
- MessageApp.MessageService.CreateMessage: the status the Go code leaves at its zero value is filled in as Sent, which the store overwrites anyway. The zero value of `MessageStatus` is not modelled.

## Findings

| source | as written | input that shows it | evidently intended | confidence | as-written member | corrected member |
|---|---|---|---|---|---|---|
| adapters/memory/message_repository.go:63 | `end := start + limit` on 64-bit `int`, then capped at `len(result)` only from above | one message to the caller, then `GET /messages?limit=9223372036854775807&offset=1`: the handler accepts the limit, `end` wraps to -9223372036854775808, and `result[1:end]` panics | `end` capped at the list length, giving an empty page | medium, not executed | Pagination.AsWrittenOverflowPanics | Pagination.PageBounds |
