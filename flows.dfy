/** The three conversations the bot exists for, each as a sequence of updates
    with no collaborator failing: a provider signs up, a customer places an
    order that reaches the providers of its specialization, and a provider's
    response reaches the customer. */
module Flows {
  import opened Model
  import opened Storage
  import opened Tags
  import opened Messages
  import opened Dialogue
  import HandlerFacts
  import Strconv

  /** `role_executor`, then the portfolio text: the chat's draft is a
      provider's, holds the portfolio verbatim and waits for the
      specialization. Nothing is stored yet. */
  lemma ProviderPortfolioEntered(s0: State, chat: ChatId, from: Sender, portfolio: string, now: int)
    requires portfolio != "/start"
    ensures var s1 := HandleCallbackQuery(s0, chat, from, RoleExecutor, {}).state;
      var r2 := HandleMessage(s1, chat, portfolio, now, {});
      && r2.outcome == Done
      && chat in r2.state.userData
      && r2.state.userData[chat].role == ProviderRole
      && r2.state.userData[chat].portfolio == portfolio
      && r2.state.StageOf(chat) == ChoosingSpecialization
      && r2.state.store == s0.store
      && r2.state.outbox == s0.outbox + [Plain(chat, PortfolioPrompt), SpecializationMenuMsg(chat)]
  {
    var s1 := HandleCallbackQuery(s0, chat, from, RoleExecutor, {}).state;
    HandlerFacts.ExecutorChosen(s0, chat, from, {});
    HandlerFacts.PortfolioStored(s1, chat, portfolio, now, {});
  }

  /** A specialization button from a chat holding a provider's draft: the
      provider is stored with the sender's names, the draft's portfolio and
      the chosen kind, confirmed, shown its card, and the chat is idle. */
  lemma ProviderKindChosen(s: State, chat: ChatId, from: Sender, data: string)
    requires data == SpecVideographer || data == SpecPhotographer
    requires chat in s.userData && s.userData[chat].role == ProviderRole
    ensures var r := HandleCallbackQuery(s, chat, from, data, {});
      var kind := if data == SpecVideographer then Videographer else Photographer;
      var u := User(0, from.firstName, from.userName, ChatKey(chat), ProviderRole, s.userData[chat].portfolio, kind);
      && r.outcome == Done
      && r.state.store.users == s.store.users + [u.(id := |s.store.users| + 1)]
      && r.state.store.orders == s.store.orders
      && r.state.StageOf(chat) == Idle
      && r.state.outbox == s.outbox + [Plain(chat, ProviderRegistered(from.firstName, kind)), ProfileCard(chat, u)]
  {
    HandlerFacts.SpecializationChosen(s, chat, from, data, {});
  }

  /** `role_executor`, then the portfolio text, then a specialization button:
      the provider record is stored with the sender's names, the portfolio
      verbatim and the chosen kind, and the chat is idle. The messages are, in
      order, the portfolio prompt, the specialization menu, the confirmation
      and the new provider's card, whose one button links to the portfolio. */
  lemma ProviderSignup(s0: State, chat: ChatId, from: Sender, portfolio: string, data: string, now: int)
    requires portfolio != "/start"
    requires data == SpecVideographer || data == SpecPhotographer
    ensures var s1 := HandleCallbackQuery(s0, chat, from, RoleExecutor, {}).state;
      var r2 := HandleMessage(s1, chat, portfolio, now, {});
      var r3 := HandleCallbackQuery(r2.state, chat, from, data, {});
      var kind := if data == SpecVideographer then Videographer else Photographer;
      var u := User(0, from.firstName, from.userName, ChatKey(chat), ProviderRole, portfolio, kind);
      && r2.outcome == Done && r3.outcome == Done
      && r3.state.store.users == s0.store.users + [u.(id := |s0.store.users| + 1)]
      && r3.state.store.orders == s0.store.orders
      && r3.state.StageOf(chat) == Idle
      && r3.state.outbox == s0.outbox + [Plain(chat, PortfolioPrompt), SpecializationMenuMsg(chat),
                                         Plain(chat, ProviderRegistered(from.firstName, kind)), ProfileCard(chat, u)]
      && ProfileCard(chat, u).buttons == [Link(portfolio)]
  {
    var s1 := HandleCallbackQuery(s0, chat, from, RoleExecutor, {}).state;
    var s2 := HandleMessage(s1, chat, portfolio, now, {}).state;
    ProviderPortfolioEntered(s0, chat, from, portfolio, now);
    ProviderKindChosen(s2, chat, from, data);
  }

  /** `create_order`, then an order specialization button: a fresh draft
      carries only that kind, and the chat waits for the title. */
  lemma OrderKindChosen(s0: State, chat: ChatId, from: Sender, data: string)
    requires data == OrderSpecVideographer || data == OrderSpecPhotographer
    ensures var s1 := HandleCallbackQuery(s0, chat, from, CreateOrder, {}).state;
      var s2 := HandleCallbackQuery(s1, chat, from, data, {}).state;
      var kind := if data == OrderSpecVideographer then Videographer else Photographer;
      && s2.orderData == s0.orderData[chat := EmptyOrder.(specialization := kind)]
      && s2.StageOf(chat) == EnteringOrderTitle
      && s2.userData == s0.userData && s2.store == s0.store
      && s2.outbox == s0.outbox + [OrderSpecMenuMsg(chat), Plain(chat, TitlePrompt)]
  {
    var s1 := HandleCallbackQuery(s0, chat, from, CreateOrder, {}).state;
    HandlerFacts.OrderCreationStarted(s0, chat, from, {});
    HandlerFacts.OrderSpecializationChosen(s1, chat, from, data, {});
  }

  /** The title text, then the description text, from a chat waiting for
      the title: the draft takes both and the chat waits for the location. */
  lemma OrderTextsEntered(s: State, chat: ChatId, title: string, description: string, now: int)
    requires s.StageOf(chat) == EnteringOrderTitle && chat in s.orderData
    requires title != "/start" && description != "/start"
    ensures var s1 := HandleMessage(s, chat, title, now, {}).state;
      var s2 := HandleMessage(s1, chat, description, now, {}).state;
      && s2.orderData == s.orderData[chat := s.orderData[chat].(title := title, description := description)]
      && s2.StageOf(chat) == EnteringOrderLocation
      && s2.store == s.store
      && s2.outbox == s.outbox + [Plain(chat, DescriptionPrompt), Plain(chat, LocationPrompt)]
  {
    HandlerFacts.TitleStored(s, chat, title, now, {});
    var s1 := HandleMessage(s, chat, title, now, {}).state;
    HandlerFacts.DescriptionStored(s1, chat, description, now, {});
  }

  /** `create_order`, an order specialization button, then title and
      description texts: the draft holds exactly those, and the chat waits
      for the location. Nothing is stored yet. */
  lemma OrderDraftFilled(s0: State, chat: ChatId, from: Sender, data: string, title: string, description: string, now: int)
    requires data == OrderSpecVideographer || data == OrderSpecPhotographer
    requires title != "/start" && description != "/start"
    ensures var s1 := HandleCallbackQuery(s0, chat, from, CreateOrder, {}).state;
      var s2 := HandleCallbackQuery(s1, chat, from, data, {}).state;
      var s3 := HandleMessage(s2, chat, title, now, {}).state;
      var s4 := HandleMessage(s3, chat, description, now, {}).state;
      var kind := if data == OrderSpecVideographer then Videographer else Photographer;
      && chat in s4.orderData
      && s4.orderData[chat] == EmptyOrder.(title := title, description := description, specialization := kind)
      && s4.StageOf(chat) == EnteringOrderLocation
      && s4.store == s0.store
      && s4.outbox == s0.outbox + [OrderSpecMenuMsg(chat), Plain(chat, TitlePrompt), Plain(chat, DescriptionPrompt),
                                   Plain(chat, LocationPrompt)]
  {
    var s1 := HandleCallbackQuery(s0, chat, from, CreateOrder, {}).state;
    var s2 := HandleCallbackQuery(s1, chat, from, data, {}).state;
    OrderKindChosen(s0, chat, from, data);
    OrderTextsEntered(s2, chat, title, description, now);
  }

  /** From a chat with a user record waiting for the location: the location
      text stores the draft under the next id with the owner's record and the
      instant of that text, the chat is idle, and each provider of the
      draft's kind gets one notification. The stored order is found again by
      its id. */
  lemma OrderPlaced(s: State, chat: ChatId, location: string, now: int, owner: User)
    requires s.store.Valid() && |s.store.orders| < MaxInt64
    requires UserByChatId(s.store.users, ChatKey(chat)) == Some(owner)
    requires s.StageOf(chat) == EnteringOrderLocation && chat in s.orderData
    requires location != "/start"
    ensures var r := HandleMessage(s, chat, location, now, {});
      var draft := s.orderData[chat];
      var created := draft.(id := |s.store.orders| + 1, location := location, createdAt := now, user := owner);
      && r.outcome == Done
      && r.state.StageOf(chat) == Idle
      && r.state.store.orders == s.store.orders + [created]
      && r.state.outbox == s.outbox + [Plain(chat, OrderCreated(draft.title, draft.description, location))]
                           + Dispatch(created, ProvidersFor(s.store.users, draft.specialization))
      && OrderById(r.state.store, Strconv.FormatInt(created.id)) == Some(created)
  {
    assert HandleMessage(s, chat, location, now, {}) == HandleOrderLocationInput(s, chat, location, now, {});
    HandlerFacts.LocationPlacesOrder(s, chat, location, now, {}, owner);
    FoundUserJoinsBack(s.store, ChatKey(chat));
    var placed := s.orderData[chat].(location := location, createdAt := now, user := owner);
    CreatedOrderRetrievable(s.store, placed);
  }

  /** A respond-to-order tag reaches the response handler with the id
      written into it. */
  lemma RespondTagDispatched(s: State, chat: ChatId, from: Sender, orderId: int, faults: set<Fault>)
    requires MinInt64 <= orderId <= MaxInt64
    ensures HandleCallbackQuery(s, chat, from, RespondTag(orderId), faults) ==
      HandleOrderResponse(s, chat, Strconv.FormatInt(orderId), faults)
  {
    var tag := RespondTag(orderId);
    RespondTagRoundTrip(orderId);
    assert tag[..|RespondPrefix|] == RespondPrefix;
    assert tag != RoleCustomer && tag != RoleExecutor && tag != SpecVideographer && tag != SpecPhotographer
      && tag != CreateOrder by {
      assert |tag| > |RespondPrefix|;
      assert tag[0] == 'r' && tag[1] == 'e';
    }
  }

  /** Pressing the button of an order's notification records the response
      under the order's id and sends the provider's card to the chat the
      order's customer registered from. */
  lemma ResponseReachesCustomer(s: State, chat: ChatId, from: Sender, executor: User, i: nat, customer: ChatId)
    requires s.store.Valid() && i < |s.store.orders| && |s.store.orders| <= MaxInt64
    requires UserByChatId(s.store.users, ChatKey(chat)) == Some(executor)
    requires s.store.orders[i].user.chatId == ChatKey(customer)
    ensures var order := s.store.orders[i];
      HandleCallbackQuery(s, chat, from, RespondTag(order.id), {}) ==
        Step(s.(store := InsertResponse(s.store, Strconv.FormatInt(order.id), executor.id),
                outbox := s.outbox + [Plain(chat, ResponseRecorded), ResponseNoticeFor(customer, order, executor)]), Done)
  {
    var order := s.store.orders[i];
    RespondTagDispatched(s, chat, from, order.id, {});
    StoredOrderRetrievable(s.store, i);
    Strconv.FormatIntRoundTrip(customer);
    HandlerFacts.ResponseNotifiesCustomer(s, chat, Strconv.FormatInt(order.id), executor, order, customer);
  }

  /** A provider registered from chat `pchat` with the draft's kind is sent
      the new order in that chat, with a button that answers for that order. */
  lemma ProviderHearsOfOrder(s: State, chat: ChatId, location: string, now: int, owner: User, u: User, pchat: ChatId)
    requires s.store.Valid() && |s.store.orders| < MaxInt64
    requires UserByChatId(s.store.users, ChatKey(chat)) == Some(owner)
    requires s.StageOf(chat) == EnteringOrderLocation && chat in s.orderData
    requires location != "/start"
    requires u in s.store.users && u.role == ProviderRole && u.specialization == s.orderData[chat].specialization
    requires u.chatId == ChatKey(pchat)
    ensures var r := HandleMessage(s, chat, location, now, {});
      var created := s.orderData[chat].(id := |s.store.orders| + 1, location := location, createdAt := now, user := owner);
      && NewOrderNotice(pchat, created) in r.state.outbox[|s.outbox|..]
      && Callback(RespondTag(|s.store.orders| + 1)) in NewOrderNotice(pchat, created).buttons
  {
    var draft := s.orderData[chat];
    var created := draft.(id := |s.store.orders| + 1, location := location, createdAt := now, user := owner);
    OrderPlaced(s, chat, location, now, owner);
    HandlerFacts.DispatchReaches(created, s.store.users, u, pchat);
    AddedAfter(s.outbox, [Plain(chat, OrderCreated(draft.title, draft.description, location))],
               Dispatch(created, ProvidersFor(s.store.users, draft.specialization)), NewOrderNotice(pchat, created));
  }

  /** What was appended to a sequence is found past its old length. */
  lemma AddedAfter<T>(prefix: seq<T>, head: seq<T>, tail: seq<T>, x: T)
    requires x in tail
    ensures x in (prefix + head + tail)[|prefix|..]
  {
    assert (prefix + head + tail)[|prefix|..] == head + tail;
  }
}
