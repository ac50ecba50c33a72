/** What one update does, handler by handler: the `/start` command, free text
    in each input stage, each button, the location step with its failure
    points, the provider notifications and the response chain. */
module HandlerFacts {
  import opened Model
  import opened Storage
  import opened Tags
  import opened Messages
  import opened Dialogue
  import Strconv
  import Markdown

  // ---------------------------------------------------------------------
  // Text messages

  /** `/start` from a chat with a user record shows that user's profile card
      and changes nothing else; the stage is left as it was. */
  lemma StartShowsKnownProfile(s: State, chat: ChatId, now: int, faults: set<Fault>, u: User)
    requires StartLookup !in faults && UserByChatId(s.store.users, ChatKey(chat)) == Some(u)
    ensures HandleMessage(s, chat, "/start", now, faults).outcome == Done
    ensures HandleMessage(s, chat, "/start", now, faults).state == s.(outbox := s.outbox + [ProfileCard(chat, u)])
    ensures u.chatId == ChatKey(chat)
  {
  }

  /** `/start` from a chat with no user record, or whose lookup fails, moves
      it to role choice and sends the role menu, when the chat was not in an
      input stage. */
  lemma StartGreetsNewChat(s: State, chat: ChatId, now: int, faults: set<Fault>)
    requires StartLookup in faults || UserByChatId(s.store.users, ChatKey(chat)).None?
    requires !s.StageOf(chat).TakesText()
    ensures HandleMessage(s, chat, "/start", now, faults) ==
      Step(s.(userStates := s.userStates[chat := ChoosingRole], outbox := s.outbox + [RoleMenuMsg(chat)]), Done)
    ensures HandleMessage(s, chat, "/start", now, faults).state.StageOf(chat) == ChoosingRole
  {
  }

  /** `/start` does not cancel an input stage: after the role menu the text
      "/start" is still handed to the handler of the stage the chat was in,
      which overwrites the stage just set. Here it becomes an order title. */
  lemma StartFallsThroughToInput(s: State, chat: ChatId, now: int, faults: set<Fault>)
    requires StartLookup in faults || UserByChatId(s.store.users, ChatKey(chat)).None?
    requires s.StageOf(chat) == EnteringOrderTitle && chat in s.orderData
    ensures var r := HandleMessage(s, chat, "/start", now, faults);
      && r.outcome == Done
      && chat in r.state.orderData && r.state.orderData[chat] == s.orderData[chat].(title := "/start")
      && r.state.StageOf(chat) == EnteringOrderDescription
      && r.state.outbox == s.outbox + [RoleMenuMsg(chat), Plain(chat, DescriptionPrompt)]
  {
  }

  /** Text other than `/start` is ignored unless the chat is in an input stage. */
  lemma TextIgnoredOutsideInput(s: State, chat: ChatId, text: string, now: int, faults: set<Fault>)
    requires text != "/start" && !s.StageOf(chat).TakesText()
    ensures HandleMessage(s, chat, text, now, faults) == Step(s, Done)
  {
  }

  /** In the portfolio stage the text is stored verbatim as the portfolio and
      the specialization menu follows. */
  lemma PortfolioStored(s: State, chat: ChatId, text: string, now: int, faults: set<Fault>)
    requires text != "/start" && s.StageOf(chat) == EnteringPortfolio && chat in s.userData
    ensures var r := HandleMessage(s, chat, text, now, faults);
      && r.outcome == Done
      && r.state.userData == s.userData[chat := s.userData[chat].(portfolio := text)]
      && r.state.StageOf(chat) == ChoosingSpecialization
      && r.state.orderData == s.orderData && r.state.store == s.store
      && r.state.outbox == s.outbox + [SpecializationMenuMsg(chat)]
  {
  }

  /** In the title stage the text becomes the draft's title, nothing else. */
  lemma TitleStored(s: State, chat: ChatId, text: string, now: int, faults: set<Fault>)
    requires text != "/start" && s.StageOf(chat) == EnteringOrderTitle && chat in s.orderData
    ensures var r := HandleMessage(s, chat, text, now, faults);
      && r.outcome == Done
      && r.state.orderData == s.orderData[chat := s.orderData[chat].(title := text)]
      && r.state.StageOf(chat) == EnteringOrderDescription
      && r.state.userData == s.userData && r.state.store == s.store
      && r.state.outbox == s.outbox + [Plain(chat, DescriptionPrompt)]
  {
  }

  /** In the description stage the text becomes the draft's description. */
  lemma DescriptionStored(s: State, chat: ChatId, text: string, now: int, faults: set<Fault>)
    requires text != "/start" && s.StageOf(chat) == EnteringOrderDescription && chat in s.orderData
    ensures var r := HandleMessage(s, chat, text, now, faults);
      && r.outcome == Done
      && r.state.orderData == s.orderData[chat := s.orderData[chat].(description := text)]
      && r.state.StageOf(chat) == EnteringOrderLocation
      && r.state.userData == s.userData && r.state.store == s.store
      && r.state.outbox == s.outbox + [Plain(chat, LocationPrompt)]
  {
  }

  // ---------------------------------------------------------------------
  // The location step

  /** The location and the time are written into the draft before anything
      can fail. When the owner lookup fails, that is all: the chat stays in
      the location stage and is told that creation failed. */
  lemma LocationLookupFailure(s: State, chat: ChatId, text: string, now: int, faults: set<Fault>)
    requires chat in s.orderData && OwnerLookup in faults
    ensures var r := HandleOrderLocationInput(s, chat, text, now, faults);
      && r.outcome == Done
      && r.state.orderData == s.orderData[chat := s.orderData[chat].(location := text, createdAt := now)]
      && r.state.userStates == s.userStates && r.state.store == s.store
      && r.state.outbox == s.outbox + [Plain(chat, OrderFailed)]
  {
  }

  /** Once the owner is found the chat is idle whatever storing the order
      does; a failed insert sends the failure notice and no notifications. */
  lemma LocationIdleBeforeInsert(s: State, chat: ChatId, text: string, now: int, faults: set<Fault>, owner: User)
    requires chat in s.orderData && OwnerLookup !in faults
    requires UserByChatId(s.store.users, ChatKey(chat)) == Some(owner)
    ensures var r := HandleOrderLocationInput(s, chat, text, now, faults);
      && r.outcome == Done
      && r.state.StageOf(chat) == Idle
      && r.state.orderData == s.orderData[chat := s.orderData[chat].(location := text, createdAt := now, user := owner)]
    ensures OrderInsert in faults ==>
      HandleOrderLocationInput(s, chat, text, now, faults).state.store == s.store &&
      HandleOrderLocationInput(s, chat, text, now, faults).state.outbox == s.outbox + [Plain(chat, OrderFailed)]
  {
  }

  /** In a valid store the order is stored under the next id with its owner,
      the customer is told, and the providers of its specialization are
      notified (unless the provider query fails). */
  lemma LocationPlacesOrder(s: State, chat: ChatId, text: string, now: int, faults: set<Fault>, owner: User)
    requires s.store.Valid() && chat in s.orderData && OwnerLookup !in faults && OrderInsert !in faults
    requires UserByChatId(s.store.users, ChatKey(chat)) == Some(owner)
    ensures var r := HandleOrderLocationInput(s, chat, text, now, faults);
      var draft := s.orderData[chat];
      var created := draft.(id := |s.store.orders| + 1, location := text, createdAt := now, user := owner);
      && r.outcome == Done
      && r.state.store.orders == s.store.orders + [created]
      && r.state.store.users == s.store.users
      && r.state.outbox == s.outbox + [Plain(chat, OrderCreated(draft.title, draft.description, text))]
                         + (if ProviderQuery in faults then [] else Dispatch(created, ProvidersFor(s.store.users, draft.specialization)))
  {
    FoundUserJoinsBack(s.store, ChatKey(chat));
  }

  // ---------------------------------------------------------------------
  // Notifications

  /** The chat a notification goes to is the chat the provider registered
      from. */
  lemma RecipientIsRegisteredChat(u: User, chat: ChatId)
    requires u.chatId == ChatKey(chat)
    ensures RecipientOf(u) == chat
  {
    Strconv.FormatIntRoundTrip(chat);
  }

  /** Every provider of the order's specialization is sent the notification
      in the chat it registered from, with a button whose tag reads back as
      the order's id. */
  lemma NotifyReachesEveryProvider(s: State, order: Order, faults: set<Fault>, u: User, pchat: ChatId)
    requires ProviderQuery !in faults
    requires u in s.store.users && u.role == ProviderRole && u.specialization == order.specialization
    requires u.chatId == ChatKey(pchat)
    requires MinInt64 <= order.id <= MaxInt64
    ensures NewOrderNotice(pchat, order) in NotifyExecutors(s, order, faults).outbox[|s.outbox|..]
    ensures Strconv.ParseInt(OrderIdField(RespondTag(order.id))) == Strconv.Parsed(order.id)
  {
    DispatchReaches(order, s.store.users, u, pchat);
    assert NotifyExecutors(s, order, faults).outbox[|s.outbox|..] == Dispatch(order, ProvidersFor(s.store.users, order.specialization));
    RespondTagRoundTrip(order.id);
  }

  /** The notifications for an order include one to the registered chat of
      every provider of its specialization. */
  lemma DispatchReaches(order: Order, users: seq<User>, u: User, pchat: ChatId)
    requires u in users && u.role == ProviderRole && u.specialization == order.specialization
    requires u.chatId == ChatKey(pchat)
    ensures NewOrderNotice(pchat, order) in Dispatch(order, ProvidersFor(users, order.specialization))
  {
    var providers := ProvidersFor(users, order.specialization);
    ProvidersComplete(users, order.specialization, u);
    var k :| 0 <= k < |providers| && providers[k] == u.(id := 0);
    RecipientIsRegisteredChat(u, pchat);
    assert Dispatch(order, providers)[k] == NewOrderNotice(pchat, order);
  }

  /** Notifications go only to providers of the order's specialization, one
      per provider row; a failed provider query sends none. */
  lemma NotifyOnlyProviders(s: State, order: Order, faults: set<Fault>)
    ensures var sent := NotifyExecutors(s, order, faults).outbox[|s.outbox|..];
      var providers := ProvidersFor(s.store.users, order.specialization);
      && s.outbox <= NotifyExecutors(s, order, faults).outbox
      && (ProviderQuery in faults ==> sent == [])
      && (ProviderQuery !in faults ==>
            |sent| == |providers| &&
            forall k | 0 <= k < |sent| ::
              providers[k].role == ProviderRole && providers[k].specialization == order.specialization &&
              sent[k] == NewOrderNotice(RecipientOf(providers[k]), order))
  {
  }

  // ---------------------------------------------------------------------
  // Buttons

  /** `role_customer`: the customer is stored and the chat goes idle, from
      whatever stage it was in. The record keeps a portfolio and
      specialization left in an earlier draft. */
  lemma CustomerChosen(s: State, chat: ChatId, from: Sender, faults: set<Fault>)
    requires CustomerInsert !in faults
    ensures var r := HandleCallbackQuery(s, chat, from, RoleCustomer, faults);
      var u := User(0, from.firstName, from.userName, ChatKey(chat), CustomerRole,
                    if chat in s.userData then s.userData[chat].portfolio else "",
                    if chat in s.userData then s.userData[chat].specialization else "");
      && r.outcome == Done
      && r.state.StageOf(chat) == Idle
      && r.state.userData == s.userData[chat := u]
      && r.state.store.users == s.store.users + [u.(id := |s.store.users| + 1)]
      && r.state.outbox == s.outbox + [Plain(chat, CustomerRegistered(from.firstName)), ProfileCard(chat, u)]
      && Callback(CreateOrder) in ProfileCard(chat, u).buttons
  {
  }

  /** A failed customer insert only sends the failure notice. */
  lemma CustomerInsertFails(s: State, chat: ChatId, from: Sender, faults: set<Fault>)
    requires CustomerInsert in faults
    ensures HandleCallbackQuery(s, chat, from, RoleCustomer, faults) ==
      Step(s.(outbox := s.outbox + [Plain(chat, RegistrationFailed)]), Done)
  {
  }

  /** `role_executor`: the draft becomes a provider draft with the chat's
      id, and the portfolio is asked for. The sender's names are copied only
      when the chat already had a draft; a fresh draft has empty names.
      Nothing is stored. */
  lemma ExecutorChosen(s: State, chat: ChatId, from: Sender, faults: set<Fault>)
    ensures var r := HandleCallbackQuery(s, chat, from, RoleExecutor, faults);
      && r.outcome == Done
      && r.state.StageOf(chat) == EnteringPortfolio
      && chat in r.state.userData
      && r.state.userData[chat].role == ProviderRole
      && r.state.userData[chat].chatId == ChatKey(chat)
      && (chat in s.userData ==>
            && r.state.userData[chat].name == from.firstName
            && r.state.userData[chat].userName == from.userName
            && r.state.userData[chat].portfolio == s.userData[chat].portfolio)
      && (chat !in s.userData ==> r.state.userData[chat].name == "" && r.state.userData[chat].userName == "")
      && r.state.store == s.store && r.state.orderData == s.orderData
      && r.state.outbox == s.outbox + [Plain(chat, PortfolioPrompt)]
  {
  }

  /** A specialization button registers the draft with that label. On
      success the chat is idle; the profile card follows only if the
      confirmation went out. The button is honoured in any stage, so a chat
      with no draft registers a record with an empty role. */
  lemma SpecializationChosen(s: State, chat: ChatId, from: Sender, data: string, faults: set<Fault>)
    requires data == SpecVideographer || data == SpecPhotographer
    requires ProviderInsert !in faults
    ensures var r := HandleCallbackQuery(s, chat, from, data, faults);
      var u := CallbackDraft(s, chat, from).(specialization := Lookup(ProviderSpecLabels, data));
      && r.outcome == Done
      && u.specialization == (if data == SpecVideographer then Videographer else Photographer)
      && u.role == (if chat in s.userData then s.userData[chat].role else "")
      && r.state.StageOf(chat) == Idle
      && r.state.userData == s.userData[chat := u]
      && r.state.store.users == s.store.users + [u.(id := |s.store.users| + 1)]
      && r.state.outbox == s.outbox + [Plain(chat, ProviderRegistered(u.name, u.specialization))]
                         + (if ProviderWelcomeSend in faults then [] else [ProfileCard(chat, u)])
  {
  }

  /** A failed provider insert only sends the failure notice; the chat stays
      in its stage with its draft. */
  lemma ProviderInsertFails(s: State, chat: ChatId, from: Sender, data: string, faults: set<Fault>)
    requires data == SpecVideographer || data == SpecPhotographer
    requires ProviderInsert in faults
    ensures HandleCallbackQuery(s, chat, from, data, faults) ==
      Step(s.(outbox := s.outbox + [Plain(chat, ProviderRegistrationFailed)]), Done)
  {
  }

  /** `create_order` installs an empty draft, replacing any draft in
      progress, from whatever stage the chat was in. */
  lemma OrderCreationStarted(s: State, chat: ChatId, from: Sender, faults: set<Fault>)
    ensures HandleCallbackQuery(s, chat, from, CreateOrder, faults) ==
      Step(s.(orderData := s.orderData[chat := EmptyOrder],
              userStates := s.userStates[chat := ChoosingOrderSpecialization],
              outbox := s.outbox + [OrderSpecMenuMsg(chat)]), Done)
  {
  }

  /** An order specialization button sets the label on an existing draft and
      asks for the title; without a draft it only asks to start again. */
  lemma OrderSpecializationChosen(s: State, chat: ChatId, from: Sender, data: string, faults: set<Fault>)
    requires data == OrderSpecVideographer || data == OrderSpecPhotographer
    ensures var r := HandleCallbackQuery(s, chat, from, data, faults);
      && r.outcome == Done
      && r.state.store == s.store && r.state.userData == s.userData
      && (chat !in s.orderData ==> r.state == s.(outbox := s.outbox + [Plain(chat, OrderRestart)]))
      && (chat in s.orderData ==>
            && r.state.orderData == s.orderData[chat := s.orderData[chat].(specialization :=
                 if data == OrderSpecVideographer then Videographer else Photographer)]
            && r.state.StageOf(chat) == EnteringOrderTitle
            && r.state.outbox == s.outbox + [Plain(chat, TitlePrompt)])
  {
  }

  /** A tag that matches no case changes nothing. */
  lemma UnknownTagIgnored(s: State, chat: ChatId, from: Sender, data: string, faults: set<Fault>)
    requires data !in {RoleCustomer, RoleExecutor, SpecVideographer, SpecPhotographer, CreateOrder,
                       OrderSpecVideographer, OrderSpecPhotographer}
    requires !(RespondPrefix <= data)
    ensures HandleCallbackQuery(s, chat, from, data, faults) == Step(s, Done)
  {
  }

  /** No button looks at the chat's stage: two states that differ only in
      their stages give the same outcome, outbox, store and drafts. */
  lemma ButtonsIgnoreStage(s: State, stages: map<ChatId, Stage>, chat: ChatId, from: Sender, data: string, faults: set<Fault>)
    ensures var r := HandleCallbackQuery(s, chat, from, data, faults);
      var r' := HandleCallbackQuery(s.(userStates := stages), chat, from, data, faults);
      r'.outcome == r.outcome && r'.state.(userStates := r.state.userStates) == r.state
  {
    var s' := s.(userStates := stages);
    var r := HandleCallbackQuery(s, chat, from, data, faults);
    var r' := HandleCallbackQuery(s', chat, from, data, faults);
    var draft := CallbackDraft(s, chat, from);
    assert CallbackDraft(s', chat, from) == draft;
    if data == RoleCustomer || data == RoleExecutor || data == CreateOrder {
    } else if data == SpecVideographer || data == SpecPhotographer {
      var u := draft.(specialization := Lookup(ProviderSpecLabels, data));
      assert r.state == CompleteExecutorRegistration(s, chat, u, faults);
      assert r'.state == CompleteExecutorRegistration(s', chat, u, faults);
    } else if RespondPrefix <= data {
      assert r == HandleOrderResponse(s, chat, OrderIdField(data), faults);
      assert r' == HandleOrderResponse(s', chat, OrderIdField(data), faults);
      ResponseIgnoresStage(s, stages, chat, OrderIdField(data), faults);
    } else if data == OrderSpecVideographer || data == OrderSpecPhotographer {
      assert r.state == HandleOrderSpecializationSelection(s, chat, data);
      assert r'.state == HandleOrderSpecializationSelection(s', chat, data);
    }
  }

  lemma ResponseIgnoresStage(s: State, stages: map<ChatId, Stage>, chat: ChatId, orderId: string, faults: set<Fault>)
    ensures var r := HandleOrderResponse(s, chat, orderId, faults);
      HandleOrderResponse(s.(userStates := stages), chat, orderId, faults) == Step(r.state.(userStates := stages), r.outcome)
  {
  }

  // ---------------------------------------------------------------------
  // Responses

  /** A failed lookup of the responding user only sends an error notice. */
  lemma ResponseLookupFails(s: State, chat: ChatId, orderId: string, faults: set<Fault>)
    requires ExecutorLookup in faults
    ensures HandleOrderResponse(s, chat, orderId, faults) ==
      Step(s.(outbox := s.outbox + [Plain(chat, ResponseFailed)]), Done)
  {
  }

  /** A failed insert of the response only sends an error notice. */
  lemma ResponseSaveFails(s: State, chat: ChatId, orderId: string, faults: set<Fault>)
    requires ExecutorLookup !in faults && UserByChatId(s.store.users, ChatKey(chat)).Some?
    requires ResponseInsert in faults
    ensures HandleOrderResponse(s, chat, orderId, faults) ==
      Step(s.(outbox := s.outbox + [Plain(chat, ResponseSaveFailed)]), Done)
  {
  }

  /** Once the responding user is found and the insert succeeds, the response
      row is stored with whatever id text the tag carried, and the
      confirmation is sent. Only then may the
      customer be told; nothing else is sent. */
  lemma ResponseStored(s: State, chat: ChatId, orderId: string, faults: set<Fault>, executor: User)
    requires ExecutorLookup !in faults && ResponseInsert !in faults
    requires UserByChatId(s.store.users, ChatKey(chat)) == Some(executor)
    ensures var r := HandleOrderResponse(s, chat, orderId, faults);
      var s1 := s.(store := InsertResponse(s.store, orderId, executor.id),
                   outbox := s.outbox + [Plain(chat, ResponseRecorded)]);
      && r.outcome == Done
      && r.state.store.responses == s.store.responses + [Response(orderId, executor.id)]
      && r.state.userStates == s.userStates && r.state.userData == s.userData && r.state.orderData == s.orderData
      && (r.state == s1 || exists customer: ChatId, order: Order :: r.state == s1.Send(ResponseNoticeFor(customer, order, executor)))
      && (ConfirmationSend in faults || OrderQuery in faults || OrderById(s.store, orderId).None? ==> r.state == s1)
      && (OrderById(s.store, orderId).Some? ==>
            !Strconv.ParseInt(OrderById(s.store, orderId).value.user.chatId).Parsed? ==> r.state == s1)
  {
    var r := HandleOrderResponse(s, chat, orderId, faults);
    var s1 := s.(store := InsertResponse(s.store, orderId, executor.id), outbox := s.outbox + [Plain(chat, ResponseRecorded)]);
    if r.state != s1 {
      var order := OrderById(s1.store, orderId).value;
      var customer := Strconv.ParseInt(order.user.chatId).value;
      assert r.state == s1.Send(ResponseNoticeFor(customer, order, executor));
    }
  }

  /** When every step succeeds and the order is found, its customer is sent
      the responding provider's card in the chat its record names. */
  lemma ResponseNotifiesCustomer(s: State, chat: ChatId, orderId: string, executor: User, order: Order, customer: ChatId)
    requires UserByChatId(s.store.users, ChatKey(chat)) == Some(executor)
    requires OrderById(s.store, orderId) == Some(order)
    requires Strconv.ParseInt(order.user.chatId) == Strconv.Parsed(customer)
    ensures HandleOrderResponse(s, chat, orderId, {}) ==
      Step(s.(store := InsertResponse(s.store, orderId, executor.id),
              outbox := s.outbox + [Plain(chat, ResponseRecorded), ResponseNoticeFor(customer, order, executor)]), Done)
  {
    assert OrderById(InsertResponse(s.store, orderId, executor.id), orderId) == OrderById(s.store, orderId);
  }

  /** Nothing de-duplicates responses: pressing the same button twice stores
      two identical rows. */
  lemma RepeatedResponsesRecordedTwice(s: State, chat: ChatId, orderId: string, faults: set<Fault>, executor: User)
    requires ExecutorLookup !in faults && ResponseInsert !in faults
    requires UserByChatId(s.store.users, ChatKey(chat)) == Some(executor)
    ensures var t := HandleOrderResponse(HandleOrderResponse(s, chat, orderId, faults).state, chat, orderId, faults).state;
      t.store.responses == s.store.responses + [Response(orderId, executor.id), Response(orderId, executor.id)]
  {
    ResponseStored(s, chat, orderId, faults, executor);
    var t1 := HandleOrderResponse(s, chat, orderId, faults).state;
    assert t1.store.users == s.store.users;
    ResponseStored(t1, chat, orderId, faults, executor);
  }

  /** With no failures, pressing the same button twice tells the customer
      twice: each press sends the confirmation and the provider's card. */
  lemma RepeatedResponsesNotifyTwice(s: State, chat: ChatId, orderId: string, executor: User, order: Order, customer: ChatId)
    requires UserByChatId(s.store.users, ChatKey(chat)) == Some(executor)
    requires OrderById(s.store, orderId) == Some(order)
    requires Strconv.ParseInt(order.user.chatId) == Strconv.Parsed(customer)
    ensures var t := HandleOrderResponse(HandleOrderResponse(s, chat, orderId, {}).state, chat, orderId, {}).state;
      && t.store.responses == s.store.responses + [Response(orderId, executor.id), Response(orderId, executor.id)]
      && t.outbox == s.outbox + [Plain(chat, ResponseRecorded), ResponseNoticeFor(customer, order, executor),
                                 Plain(chat, ResponseRecorded), ResponseNoticeFor(customer, order, executor)]
  {
    ResponseNotifiesCustomer(s, chat, orderId, executor, order, customer);
    var t1 := HandleOrderResponse(s, chat, orderId, {}).state;
    assert OrderById(t1.store, orderId) == OrderById(s.store, orderId);
    ResponseNotifiesCustomer(t1, chat, orderId, executor, order, customer);
  }

  /** The order title and the provider's fields in the customer's notice read
      back as written once the escapes are removed. */
  lemma NoticeFieldsRecoverable(chat: ChatId, order: Order, executor: User)
    ensures var b := ResponseNoticeFor(chat, order, executor).body;
      && Markdown.Unescape(b.title) == order.title
      && Markdown.Unescape(b.role) == executor.role
      && Markdown.Unescape(b.name) == executor.name
      && Markdown.Unescape(b.userName) == executor.userName
      && Markdown.Unescape(b.specialization) == executor.specialization
    ensures ResponseNoticeFor(chat, order, executor).buttons == [Link(executor.portfolio)]
  {
    Markdown.UnescapeEscape(order.title);
    Markdown.UnescapeEscape(executor.role);
    Markdown.UnescapeEscape(executor.name);
    Markdown.UnescapeEscape(executor.userName);
    Markdown.UnescapeEscape(executor.specialization);
  }

  // ---------------------------------------------------------------------
  // Where the program panics

  /** Portfolio text for a chat without a user draft dereferences nil: the
      event stops with nothing changed. */
  lemma PortfolioWithoutDraft(s: State, chat: ChatId, text: string)
    requires chat !in s.userData
    ensures HandlePortfolioInput(s, chat, text) == Step(s, Crashed(NoPortfolioDraft))
  {
  }

  /** Title, description or location text for a chat without an order
      draft dereferences nil: the event stops with nothing changed. */
  lemma OrderTextWithoutDraft(s: State, chat: ChatId, text: string, now: int, faults: set<Fault>)
    requires chat !in s.orderData
    ensures HandleOrderTitleInput(s, chat, text) == Step(s, Crashed(NoOrderDraft))
    ensures HandleOrderDescriptionInput(s, chat, text) == Step(s, Crashed(NoOrderDraft))
    ensures HandleOrderLocationInput(s, chat, text, now, faults) == Step(s, Crashed(NoOrderDraft))
  {
  }

  /** A location step whose user lookup succeeds without a record
      dereferences nil after writing location and time into the draft. */
  lemma LocationWithoutRecord(s: State, chat: ChatId, text: string, now: int, faults: set<Fault>)
    requires chat in s.orderData && OwnerLookup !in faults
    requires UserByChatId(s.store.users, ChatKey(chat)).None?
    ensures HandleOrderLocationInput(s, chat, text, now, faults) ==
      Step(s.(orderData := s.orderData[chat := s.orderData[chat].(location := text, createdAt := now)]),
           Crashed(NoCustomerRecord))
  {
  }

  /** A response from a chat whose user lookup succeeds without a record
      dereferences nil before anything is recorded or sent. */
  lemma ResponseWithoutRecord(s: State, chat: ChatId, orderId: string, faults: set<Fault>)
    requires ExecutorLookup !in faults && UserByChatId(s.store.users, ChatKey(chat)).None?
    ensures HandleOrderResponse(s, chat, orderId, faults) == Step(s, Crashed(NoExecutorRecord))
  {
  }
}
