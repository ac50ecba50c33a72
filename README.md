# lenshub bot: a Dafny model of the dialogue engine

lenshub is a Telegram bot that puts customers in touch with photographers
and videographers ("providers"). There are three conversations:

- A customer signs up.
- A provider signs up with a portfolio link and a specialization.
- A customer creates an order through a short dialogue. The order is stored
  and every provider of the requested specialization is notified. A provider
  presses "respond" on the notification, the response is recorded, and the
  customer is sent the provider's card.

This project models the bot's core, `internal/bot/bot.go`: the per-chat
stage machine, the order dispatch, and the Markdown escaping. It proves what
each update does and what the three conversations achieve.

The model has two layers:

- **`Dialogue`** holds pure functions. Each one maps a `State` and one event
  to the state after the event, plus an `Outcome`. A `State` holds:
  - the three per-chat maps of the Go struct (stage, user draft, order
    draft);
  - an abstract `Store` of users, orders and responses;
  - an outbox of every message the bot tried to send.
- **`Bot.TgBot`** is the bot object. Its fields are the same maps, the store
  and the outbox, and its methods update them in place. The
  `notifyExecutors` loop is kept as a loop. Every method is proved to leave
  the object in exactly the state the matching `Dialogue` function computes.
  The two entry points also keep the state invariant `Valid()`, and they are
  proved never to reach a missing draft.

Collaborators are inputs to the model:

- **Database and send failures.** The set `faults` names which collaborator
  calls fail during the event.
- **Lookups.** A lookup that finds nothing is the store's own answer, not a
  fault.
- **Panics.** The Go program panics at four nil dereferences. Each becomes
  an explicit `Crashed` outcome:
  - portfolio text with no user draft (bot.go:342);
  - title, description or location text with no order draft (bot.go:370,
    389, 405-406);
  - a location step whose user lookup returns no record (bot.go:416);
  - a response whose user lookup returns no record (bot.go:504).

  In the program a panic ends the process: the three per-chat maps are lost
  and only the database survives. The model stops the event at the panic and
  keeps its state, so whatever a later event does in the model is what a
  restarted bot would do only for the store, not for the maps.

The model keeps these behaviours of the code:

- Buttons never look at the chat's stage.
- `/start` hands its own text to the input handler of the stage read on
  entry.
- The location step moves the chat to `idle` before the order is stored,
  whether storing succeeds or not.
- `completeExecutorRegistration` runs as a goroutine in the code. The model
  runs it to completion before the next update.
- A failed order insert leaves the chat idle, not in the location stage,
  because the stage is set before the insert (bot.go:417-427).
- A button is honoured in every stage, because `handleCallbackQuery`
  never reads the stage (bot.go:180-268).

Modules:

| module | what it holds |
|---|---|
| `Model` | the `User` and `Order` records and the stage enumeration |
| `Strconv` | decimal formatting and parsing as Go's `strconv` does it |
| `Markdown` | `escapeMarkdown` |
| `Tags` | button tags and the respond-tag round trip |
| `Storage` | the database as the bot sees it |
| `Messages` | outbound messages, kept abstract |
| `Dialogue` | the event functions |
| `DialogueProps` | the invariant and per-chat frame lemmas |
| `HandlerFacts` | what one update does |
| `Flows` | the three conversations end to end |
| `Bot` | the class |

## Model

| member | source | states |
|---|---|---|
| Model.StageNamesDistinct | internal/bot/bot.go:41-50 | the eight stage constants are pairwise distinct strings and none is empty, so only an unseen chat reads as the zero value "" |
| Strconv.FormatInt | internal/bot/bot.go:88 | a chat id renders as an optional leading minus sign, present exactly for negative ids, followed by decimal digits |
| Strconv.ParseInt | internal/bot/bot.go:536 | the value returned beside any error lies in the signed 64-bit range; a successful parse had an optional sign followed by one or more digits; empty text is a syntax error |
| Strconv.FormatIntRoundTrip | internal/bot/bot.go:455 | parsing a 64-bit integer rendered in decimal gives back that integer without error |
| Strconv.FormatIntInjective | internal/bot/bot.go:88 | distinct 64-bit chat ids give distinct user keys |
| Markdown.Escape | internal/bot/bot.go:610-622 | the output is the input's length plus one per formatting character, and it never starts with a formatting character |
| Markdown.UnescapeEscape | internal/bot/bot.go:610-622 | a left-to-right unescape (backslash before a formatting character) recovers the input exactly, existing backslashes included |
| Markdown.EscapeConcat | internal/bot/bot.go:612-621 | escaping works character by character: escaping a concatenation is the concatenation of the escapes |
| Markdown.EscapePlain | internal/bot/bot.go:612-621 | text with none of the seven characters is left unchanged |
| Markdown.EscapedSpecialsArePrefixed | internal/bot/bot.go:612-621 | in escaped text every formatting character directly follows a backslash |
| Tags.SpecLabelsAgree | internal/bot/bot.go:254-257 | provider and order tags of the same kind map to the same label ("Видеооператор", "Фотограф"), and the two labels differ |
| Tags.SplitFieldCount | internal/bot/bot.go:263 | text splits on ':' into two or more fields exactly when it holds a ':' |
| Tags.JoinSplit | internal/bot/bot.go:263 | splitting and joining on the same separator gives the text back |
| Tags.SplitWithoutSeparator | internal/bot/bot.go:263 | text without the separator is a single field |
| Tags.SplitAtSeparator | internal/bot/bot.go:263 | a separator between two texts splits them into the fields of the first followed by the fields of the second |
| Tags.RespondTag | internal/bot/bot.go:474 | a notification's tag starts with "respond_to_order:" |
| Tags.RespondTagRoundTrip | internal/bot/bot.go:262-263 | field 1 of the tag built for an order id is that id in decimal, and it parses back to that id |
| Storage.UserByChatId | internal/repository/user_repository.go:30-57 | a found user is a stored row with that chat id; "not found" means no row has it |
| Storage.UserById | internal/service/order_service.go:47 | the join finds a stored row with the owner's id, or no row has that id |
| Storage.ProvidersFor | internal/repository/user_repository.go:59-89 | every row returned has the provider role and the requested specialization, and has id 0 because the query does not select the id column |
| Storage.ProvidersComplete | internal/repository/user_repository.go:59-89 | every stored provider of the specialization is returned |
| Storage.InsertUser | internal/repository/user_repository.go:17-28 | the row is appended under the next id; orders and responses are unchanged; valid stores stay valid |
| Storage.InsertOrder | internal/service/order_service.go:19-82 | the insert succeeds exactly when the owner's id names a user row; the order is appended under the next id, joined with that row, all other fields as given |
| Storage.OrderWithId | internal/service/order_service.go:106-107 | a found order is a stored row with that id; otherwise no row has it |
| Storage.OrderById | internal/service/order_service.go:84-137 | a found order is stored, and the id text parses as an integer equal to its id (a non-integer id fails before the query) |
| Storage.InsertResponse | internal/service/response_service.go:16-32 | exactly one response row is appended; users and orders are unchanged |
| Storage.FoundUserJoinsBack | internal/service/order_service.go:47 | in a valid store the user found by chat id is the row its own id names |
| Storage.StoredOrderRetrievable | internal/service/order_service.go:84-137 | in a valid store every order row is found again by its id in decimal |
| Storage.CreatedOrderRetrievable | internal/service/order_service.go:19-82 | an order just created is what the lookup returns for its id in decimal |
| Messages.ProfileCard | internal/bot/bot.go:137-178 | a customer's card carries name and username and offers `create_order`; any other role gets the provider card whose only button links to the portfolio |
| Messages.NewOrderNotice | internal/bot/bot.go:472-481 | a notification goes to the given chat and its only button carries the order's respond tag |
| Dialogue.Dispatch | internal/bot/bot.go:454-486 | one notification per provider, in the providers' order, each to the chat parsed from that provider's stored chat id |
| DialogueProps.SendKeeps | internal/bot/bot.go:119 | an attempted send appends exactly that message to the outbox; maps and tables are unchanged |
| DialogueProps.PortfolioKeeps | internal/bot/bot.go:340-364 | the portfolio step keeps the invariant and changes only its own chat's entries |
| DialogueProps.TitleKeeps | internal/bot/bot.go:366-383 | the title step keeps the invariant and changes only its own chat's entries |
| DialogueProps.DescriptionKeeps | internal/bot/bot.go:385-399 | the description step keeps the invariant and changes only its own chat's entries |
| DialogueProps.LocationKeeps | internal/bot/bot.go:401-444 | the location step keeps the invariant and changes only its own chat's entries; the tables and the outbox only grow |
| DialogueProps.NotifyKeeps | internal/bot/bot.go:446-487 | notifying providers keeps every map and table as it was and only adds messages |
| DialogueProps.StartOrderCreationKeeps | internal/bot/bot.go:270-292 | starting an order keeps the invariant (the draft exists before the stage that reads it) |
| DialogueProps.RegistrationKeeps | internal/bot/bot.go:295-338 | provider registration keeps the invariant and changes only its own chat's entries |
| DialogueProps.OrderSpecKeeps | internal/bot/bot.go:582-608 | choosing the order kind keeps the invariant and changes only its own chat's entries |
| DialogueProps.ResponseKeeps | internal/bot/bot.go:489-579 | a response changes no map, leaves users and orders as they were, and adds at most one response row, for the pressed order id, besides messages |
| DialogueProps.CustomerChoiceKeeps | internal/bot/bot.go:205-232 | customer registration keeps the invariant and changes only its own chat's entries |
| DialogueProps.HandleMessageKeeps | internal/bot/bot.go:86-135 | any text message keeps the invariant, changes only the sender's chat entries, never drops a draft, and only appends to the tables and the outbox |
| DialogueProps.HandleMessageOutcome | internal/bot/bot.go:86-135 | from a valid state a text message never reaches a missing draft; it panics exactly when it is a location step whose user lookup succeeds with no record |
| DialogueProps.HandleCallbackQueryKeeps | internal/bot/bot.go:180-268 | any button press keeps the invariant, changes only the sender's chat entries, never drops a draft, and only appends to the tables and the outbox |
| DialogueProps.HandleCallbackQueryOutcome | internal/bot/bot.go:180-268 | no button reaches a missing draft; a button panics exactly when it carries a respond tag and the chat's user lookup succeeds with no record |
| HandlerFacts.StartShowsKnownProfile | internal/bot/bot.go:94-98 | `/start` from a known chat only sends that user's profile card; no map changes |
| HandlerFacts.StartGreetsNewChat | internal/bot/bot.go:99-119 | `/start` outside the four text-input stages, with no record or with a failed lookup, sets the stage to `choosing_role` and sends the role menu |
| HandlerFacts.StartFallsThroughToInput | internal/bot/bot.go:91-134 | `/start` typed in the title stage also becomes the order title, and the stage moves on to the description |
| HandlerFacts.TextIgnoredOutsideInput | internal/bot/bot.go:122-134 | other text changes nothing outside the four text-input stages |
| HandlerFacts.PortfolioStored | internal/bot/bot.go:340-364 | the portfolio is stored verbatim; the stage becomes `choosing_specialization`; the specialization menu is sent |
| HandlerFacts.TitleStored | internal/bot/bot.go:366-383 | the title alone is set from the text verbatim, and the stage advances to the description |
| HandlerFacts.DescriptionStored | internal/bot/bot.go:385-399 | the description alone is set from the text verbatim, and the stage advances to the location |
| HandlerFacts.LocationLookupFailure | internal/bot/bot.go:404-415 | location and time are written into the draft; with a failed lookup the stage is unchanged and the failure notice is sent |
| HandlerFacts.LocationIdleBeforeInsert | internal/bot/bot.go:416-427 | once the owner is found the chat is idle whether or not the insert succeeds; a failed insert stores nothing and notifies no provider |
| HandlerFacts.LocationPlacesOrder | internal/bot/bot.go:416-443 | on success the draft is stored under the next id with its owner; the confirmation is followed by the provider notifications unless the provider query fails |
| HandlerFacts.RecipientIsRegisteredChat | internal/bot/bot.go:455 | a notification goes to the chat the provider registered from |
| HandlerFacts.NotifyReachesEveryProvider | internal/bot/bot.go:446-487 | every stored provider of the order's kind is sent the notice, whose tag parses back to the order id |
| HandlerFacts.DispatchReaches | internal/bot/bot.go:454-486 | the notifications include one to every provider of the order's kind |
| HandlerFacts.NotifyOnlyProviders | internal/bot/bot.go:446-487 | exactly one notice per returned provider row, in order, none other; a failed query sends nothing |
| HandlerFacts.CustomerChosen | internal/bot/bot.go:205-232 | `role_customer` stores a customer with the sender's names and the chat id as text; the stage becomes `idle`; confirmation and card are sent |
| HandlerFacts.CustomerInsertFails | internal/bot/bot.go:209-213 | a failed customer insert leaves stages, drafts and store unchanged and sends the error |
| HandlerFacts.ExecutorChosen | internal/bot/bot.go:234-251 | `role_executor` stores a provider draft keyed by the chat, with the sender's names only when a draft already existed (empty names otherwise); the stage becomes `entering_portfolio`; nothing is stored |
| HandlerFacts.SpecializationChosen | internal/bot/bot.go:253-259 | a specialization button stores the draft with the mapped label and makes the chat idle; the card follows only if the confirmation was sent |
| HandlerFacts.ProviderInsertFails | internal/bot/bot.go:298-308 | a failed provider insert leaves stage and draft unchanged and only sends the error |
| HandlerFacts.OrderCreationStarted | internal/bot/bot.go:270-292 | `create_order` installs an empty draft and the stage `choosing_order_specialization`, from any stage |
| HandlerFacts.OrderSpecializationChosen | internal/bot/bot.go:582-608 | without a draft only the restart notice is sent; with one the label is set and the stage becomes `entering_order_title` |
| HandlerFacts.PortfolioWithoutDraft | internal/bot/bot.go:342 | portfolio text for a chat without a user draft panics and changes nothing |
| HandlerFacts.OrderTextWithoutDraft | internal/bot/bot.go:366-406 | title, description or location text for a chat without an order draft panics and changes nothing |
| HandlerFacts.LocationWithoutRecord | internal/bot/bot.go:404-416 | a location step whose user lookup succeeds with no record panics after writing location and time into the draft, with the stage and store unchanged |
| HandlerFacts.ResponseWithoutRecord | internal/bot/bot.go:494-505 | a response whose user lookup succeeds with no record panics before anything is recorded or sent |
| HandlerFacts.UnknownTagIgnored | internal/bot/bot.go:204-267 | a tag matching no case changes nothing |
| HandlerFacts.ButtonsIgnoreStage | internal/bot/bot.go:204-267 | states differing only in their stages give the same outcome, drafts, store and outbox for every button |
| HandlerFacts.ResponseIgnoresStage | internal/bot/bot.go:489-579 | the response chain neither reads nor writes stages |
| HandlerFacts.ResponseLookupFails | internal/bot/bot.go:494-500 | a failed lookup of the responding user records nothing and only sends an error |
| HandlerFacts.ResponseSaveFails | internal/bot/bot.go:505-510 | a failed insert of the response records nothing and sends only the error: no order lookup, no customer message |
| HandlerFacts.ResponseStored | internal/bot/bot.go:505-540 | the response row is appended once and confirmed; a failed confirmation, a failed or empty order lookup, or an unparsable customer chat id leaves the customer untold |
| HandlerFacts.ResponseNotifiesCustomer | internal/bot/bot.go:527-577 | when every step succeeds the provider's card is sent to the customer in the chat parsed from the order's record |
| HandlerFacts.RepeatedResponsesRecordedTwice | internal/bot/bot.go:505 | pressing the same button twice records two identical response rows |
| HandlerFacts.RepeatedResponsesNotifyTwice | internal/bot/bot.go:489-579 | with no failures, pressing the same respond button twice stores two identical rows and sends the confirmation and the provider's card to the customer twice, in that order |
| HandlerFacts.NoticeFieldsRecoverable | internal/bot/bot.go:548-566 | title, role, name, username and specialization are escaped, so they read back exactly; the portfolio goes unescaped into the link button |
| Flows.ProviderPortfolioEntered | internal/bot/bot.go:234-251 | `role_executor` then the portfolio text leaves a provider draft holding that portfolio, waiting for the specialization, with nothing stored |
| Flows.ProviderKindChosen | internal/bot/bot.go:253-259 | a specialization button on a provider draft stores the provider with the sender's names, the portfolio and the kind; the chat is idle |
| Flows.ProviderSignup | internal/bot/bot.go:234-338 | the three provider sign-up updates store the provider with the sender's names, the verbatim portfolio and the chosen kind under the next id, and send the expected four messages |
| Flows.OrderKindChosen | internal/bot/bot.go:260-266 | `create_order` then an order kind button (routed at bot.go:265-266, handled at 582-608) gives a draft carrying only that kind, waiting for the title |
| Flows.OrderTextsEntered | internal/bot/bot.go:366-399 | title then description text fill exactly those fields and leave the chat waiting for the location |
| Flows.OrderDraftFilled | internal/bot/bot.go:270-399 | the four order-creation updates give a draft with exactly that kind, title and description, in the location stage, with nothing stored |
| Flows.OrderPlaced | internal/bot/bot.go:401-444 | the location text stores the order with its owner under the next id and makes the chat idle; it notifies every provider of its kind; the order is found again by its id |
| Flows.RespondTagDispatched | internal/bot/bot.go:262-264 | the button of an order's notification reaches the response handler with that order's id in decimal |
| Flows.ResponseReachesCustomer | internal/bot/bot.go:489-579 | pressing it records the response and sends the provider's card to the chat the order's customer registered from |
| Flows.ProviderHearsOfOrder | internal/bot/bot.go:443 | a provider of the draft's kind is sent the new order in their own chat, with a button that answers for it |
| Bot.TgBot.constructor | internal/bot/bot.go:52-66 | a new bot has empty maps and outbox over a valid database, and is valid |
| Bot.TgBot.ShowUserProfile | internal/bot/bot.go:137-178 | sends the profile card and changes nothing else |
| Bot.TgBot.HandleMessage | internal/bot/bot.go:86-135 | updates the fields as `Dialogue.HandleMessage` computes; keeps `Valid()`; ends normally or panics only on a missing customer record |
| Bot.TgBot.RouteMessage | internal/bot/bot.go:94-134 | the `/start` branch and the stage switch update the fields as `Dialogue.HandleMessage` computes |
| Bot.TgBot.HandleCallbackQuery | internal/bot/bot.go:180-268 | updates the fields as `Dialogue.HandleCallbackQuery` computes; keeps `Valid()`; ends normally or panics only on a missing executor record |
| Bot.TgBot.RouteButton | internal/bot/bot.go:186-267 | the tag switch updates the fields as `Dialogue.HandleCallbackQuery` computes |
| Bot.TgBot.StartOrderCreation | internal/bot/bot.go:270-292 | the fields become what `Dialogue.StartOrderCreation` computes |
| Bot.TgBot.CompleteExecutorRegistration | internal/bot/bot.go:295-338 | the fields become what `Dialogue.CompleteExecutorRegistration` computes |
| Bot.TgBot.HandlePortfolioInput | internal/bot/bot.go:340-364 | fields and outcome as `Dialogue.HandlePortfolioInput`, including the panic without a draft |
| Bot.TgBot.HandleOrderTitleInput | internal/bot/bot.go:366-383 | fields and outcome as `Dialogue.HandleOrderTitleInput` |
| Bot.TgBot.HandleOrderDescriptionInput | internal/bot/bot.go:385-399 | fields and outcome as `Dialogue.HandleOrderDescriptionInput` |
| Bot.TgBot.HandleOrderLocationInput | internal/bot/bot.go:401-444 | updates the draft in place step by step and ends as `Dialogue.HandleOrderLocationInput` computes |
| Bot.TgBot.NotifyExecutors | internal/bot/bot.go:446-487 | the loop appends exactly `Dispatch` of the provider rows to the outbox and changes nothing else |
| Bot.TgBot.HandleOrderResponse | internal/bot/bot.go:489-579 | fields and outcome as `Dialogue.HandleOrderResponse` |
| Bot.TgBot.HandleOrderSpecializationSelection | internal/bot/bot.go:582-608 | the fields become what `Dialogue.HandleOrderSpecializationSelection` computes |

## Left out

- Transport. The Telegram API, `Start` and its update loop (bot.go:68-84) are not modelled. Neither are the token handling of `NewTgBot` and its panic on a bad token (bot.go:53-56). Updates arrive as method calls, and sends are appended to an outbox.
- Message texts. The wording, emoji and Markdown parse mode of each message are not modelled. A message is its recipient, its kind with the data it carries, and its buttons.
- Send failures. The code checks a send's result at bot.go:305, 330, 483, 519 and 574. Only the checks at 330 and 519 change what happens next, so only those two sends are faults. Every other send is recorded in the outbox as attempted; whether Telegram accepts it is not modelled (unescaped user text in the Markdown notices and cards at bot.go:142-175 and 457-481 can make it refuse).
- Concurrency. `stateMutex` is not modelled, and neither is the lock left held on the early return at bot.go:404-415. The `go` statement at bot.go:259 is run synchronously, so its interleaving with later updates is not modelled.
- Time. `time.Now()` is the parameter `now`, and the date formatting at bot.go:470 is dropped (a notice carries the instant).
- SQL. Queries, connections and error texts are not modelled. A database error is a `Fault`, and the store is three in-memory tables.
- Storage.Valid: ids are assumed to be dense and to start at 1. A serial column can skip values after a failed insert. `State.Valid()` includes this assumption, so it is required by `Bot.TgBot.constructor` and kept by `Bot.TgBot.HandleMessage` and `Bot.TgBot.HandleCallbackQuery`. The lemmas that rely on it are `FoundUserJoinsBack`, `StoredOrderRetrievable`, `CreatedOrderRetrievable`, `LocationPlacesOrder`, `OrderPlaced`, `ResponseReachesCustomer` and `ProviderHearsOfOrder`.
- Storage.ProvidersFor: returns the matching rows in table order, where the query at user_repository.go:60-64 has no ORDER BY, so the program's order is unspecified; `Dispatch`, `NotifyOnlyProviders` and `LocationPlacesOrder` speak of that fixed order.
- Storage.ProvidersFor: a failure partway through the rows is not modelled. The loop at user_repository.go:73-88 never checks `rows.Err()`, so the program can return a shorter list without an error; the model only has the all-or-nothing `ProviderQuery` fault. `ProvidersComplete`, `NotifyReachesEveryProvider`, `DispatchReaches` and `ProviderHearsOfOrder` therefore hold only for a complete read.
- Storage.UserByChatId: several rows with one chat id are not prevented by the code; the model returns the first in table order, where the SQL query returns an unspecified one.
- `main.go` (configuration, database connection, wiring), `user_service.go` (pure delegation to the repository) and the logging calls are not part of this model.
- The customer card's `my_orders` button (bot.go:153) has no case in `handleCallbackQuery`. The model ignores it as the code does (`UnknownTagIgnored`).
