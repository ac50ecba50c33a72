/** `TgBot`: the bot object whose handlers update its per-chat maps in place.
    Every handler is proved to leave the object in the state the matching
    `Dialogue` function computes from the state it started in, so everything
    proved about those functions holds of the object. */
module Bot {
  import opened Model
  import opened Storage
  import opened Tags
  import opened Messages
  import opened Dialogue
  import DialogueProps
  import Strconv

  class TgBot {
    var userStates: map<ChatId, Stage>
    var userData: map<ChatId, User>
    var orderData: map<ChatId, Order>
    /** The database behind the user, order and response services. */
    var store: Store
    /** Every message the bot has tried to send, oldest first. */
    var outbox: seq<Msg>

    /** The object's fields as a `Dialogue.State` value. */
    function Snapshot(): State
      reads this
    {
      State(userStates, userData, orderData, store, outbox)
    }

    ghost predicate Valid()
      reads this
    {
      Snapshot().Valid()
    }

    /** `NewTgBot`: empty maps over an existing database. */
    constructor (db: Store)
      requires db.Valid()
      ensures Valid()
      ensures Snapshot() == State(map[], map[], map[], db, [])
    {
      userStates := map[];
      userData := map[];
      orderData := map[];
      store := db;
      outbox := [];
    }

    /** `bot.Send`: the message is attempted, whatever becomes of it. */
    method Send(m: Msg)
      modifies this
      ensures Snapshot() == old(Snapshot()).Send(m)
    {
      outbox := outbox + [m];
    }

    /** `showUserProfile`. */
    method ShowUserProfile(chat: ChatId, u: User)
      modifies this
      ensures Snapshot() == old(Snapshot()).Send(ProfileCard(chat, u))
    {
      Send(ProfileCard(chat, u));
    }

    /** `handleMessage`. In a valid state it never reaches a missing draft:
        the only panic left is a location step for a chat with no user. */
    method HandleMessage(chat: ChatId, text: string, now: int, faults: set<Fault>) returns (outcome: Outcome)
      requires Valid()
      modifies this
      ensures Step(Snapshot(), outcome) == Dialogue.HandleMessage(old(Snapshot()), chat, text, now, faults)
      ensures Valid()
      ensures outcome == Done || outcome == Crashed(NoCustomerRecord)
    {
      ghost var before := Snapshot();
      outcome := RouteMessage(chat, text, now, faults);
      DialogueProps.HandleMessageKeeps(before, chat, text, now, faults);
      DialogueProps.HandleMessageOutcome(before, chat, text, now, faults);
    }

    /** The body of `handleMessage`: `/start` first, then the handler of the
        stage read on entry. */
    method RouteMessage(chat: ChatId, text: string, now: int, faults: set<Fault>) returns (outcome: Outcome)
      modifies this
      ensures Step(Snapshot(), outcome) == Dialogue.HandleMessage(old(Snapshot()), chat, text, now, faults)
    {
      var stage := if chat in userStates then userStates[chat] else Unset;
      if text == "/start" {
        var user := if StartLookup in faults then None else UserByChatId(store.users, ChatKey(chat));
        if user.Some? {
          ShowUserProfile(chat, user.value);
          return Done;
        }
        userStates := userStates[chat := ChoosingRole];
        Send(RoleMenuMsg(chat));
      }
      match stage {
        case EnteringPortfolio =>
          outcome := HandlePortfolioInput(chat, text);
        case EnteringOrderTitle =>
          outcome := HandleOrderTitleInput(chat, text);
        case EnteringOrderDescription =>
          outcome := HandleOrderDescriptionInput(chat, text);
        case EnteringOrderLocation =>
          outcome := HandleOrderLocationInput(chat, text, now, faults);
        case _ =>
          outcome := Done;
      }
    }

    /** `handleCallbackQuery`. In a valid state the only panic is a response
        from a chat with no user record. */
    method HandleCallbackQuery(chat: ChatId, from: Sender, data: string, faults: set<Fault>) returns (outcome: Outcome)
      requires Valid()
      modifies this
      ensures Step(Snapshot(), outcome) == Dialogue.HandleCallbackQuery(old(Snapshot()), chat, from, data, faults)
      ensures Valid()
      ensures outcome == Done || outcome == Crashed(NoExecutorRecord)
    {
      ghost var before := Snapshot();
      outcome := RouteButton(chat, from, data, faults);
      DialogueProps.HandleCallbackQueryKeeps(before, chat, from, data, faults);
      DialogueProps.HandleCallbackQueryOutcome(before, chat, from, data, faults);
    }

    /** The body of `handleCallbackQuery`: the branch chosen by the tag. */
    method RouteButton(chat: ChatId, from: Sender, data: string, faults: set<Fault>) returns (outcome: Outcome)
      modifies this
      ensures Step(Snapshot(), outcome) == Dialogue.HandleCallbackQuery(old(Snapshot()), chat, from, data, faults)
    {
      var draft := CallbackDraft(Snapshot(), chat, from);
      outcome := Done;
      if data == RoleCustomer {
        draft := draft.(role := CustomerRole, name := from.firstName, userName := from.userName);
        if CustomerInsert in faults {
          Send(Plain(chat, RegistrationFailed));
          return;
        }
        store := InsertUser(store, draft);
        userStates := userStates[chat := Idle];
        userData := userData[chat := draft];
        Send(Plain(chat, CustomerRegistered(draft.name)));
        ShowUserProfile(chat, draft);
      } else if data == RoleExecutor {
        draft := draft.(role := ProviderRole);
        userStates := userStates[chat := EnteringPortfolio];
        userData := userData[chat := draft];
        Send(Plain(chat, PortfolioPrompt));
      } else if data == SpecVideographer || data == SpecPhotographer {
        draft := draft.(specialization := Lookup(ProviderSpecLabels, data));
        CompleteExecutorRegistration(chat, draft, faults);
      } else if data == CreateOrder {
        StartOrderCreation(chat);
      } else if RespondPrefix <= data {
        outcome := HandleOrderResponse(chat, OrderIdField(data), faults);
      } else if data == OrderSpecVideographer || data == OrderSpecPhotographer {
        HandleOrderSpecializationSelection(chat, data);
      }
    }

    /** `startOrderCreation`. */
    method StartOrderCreation(chat: ChatId)
      modifies this
      ensures Snapshot() == Dialogue.StartOrderCreation(old(Snapshot()), chat)
    {
      orderData := orderData[chat := EmptyOrder];
      userStates := userStates[chat := ChoosingOrderSpecialization];
      Send(OrderSpecMenuMsg(chat));
    }

    /** `completeExecutorRegistration`, run to completion before the next
        update is handled. */
    method CompleteExecutorRegistration(chat: ChatId, u: User, faults: set<Fault>)
      modifies this
      ensures Snapshot() == Dialogue.CompleteExecutorRegistration(old(Snapshot()), chat, u, faults)
    {
      if ProviderInsert in faults {
        Send(Plain(chat, ProviderRegistrationFailed));
        return;
      }
      store := InsertUser(store, u);
      userStates := userStates[chat := Idle];
      userData := userData[chat := u];
      Send(Plain(chat, ProviderRegistered(u.name, u.specialization)));
      if ProviderWelcomeSend in faults {
        return;
      }
      ShowUserProfile(chat, u);
    }

    /** `handlePortfolioInput`. */
    method HandlePortfolioInput(chat: ChatId, text: string) returns (outcome: Outcome)
      modifies this
      ensures Step(Snapshot(), outcome) == Dialogue.HandlePortfolioInput(old(Snapshot()), chat, text)
    {
      if chat !in userData {
        return Crashed(NoPortfolioDraft);
      }
      userData := userData[chat := userData[chat].(portfolio := text)];
      userStates := userStates[chat := ChoosingSpecialization];
      Send(SpecializationMenuMsg(chat));
      outcome := Done;
    }

    /** `handleOrderTitleInput`. */
    method HandleOrderTitleInput(chat: ChatId, text: string) returns (outcome: Outcome)
      modifies this
      ensures Step(Snapshot(), outcome) == Dialogue.HandleOrderTitleInput(old(Snapshot()), chat, text)
    {
      if chat !in orderData {
        return Crashed(NoOrderDraft);
      }
      orderData := orderData[chat := orderData[chat].(title := text)];
      userStates := userStates[chat := EnteringOrderDescription];
      Send(Plain(chat, DescriptionPrompt));
      outcome := Done;
    }

    /** `handleOrderDescriptionInput`. */
    method HandleOrderDescriptionInput(chat: ChatId, text: string) returns (outcome: Outcome)
      modifies this
      ensures Step(Snapshot(), outcome) == Dialogue.HandleOrderDescriptionInput(old(Snapshot()), chat, text)
    {
      if chat !in orderData {
        return Crashed(NoOrderDraft);
      }
      orderData := orderData[chat := orderData[chat].(description := text)];
      userStates := userStates[chat := EnteringOrderLocation];
      Send(Plain(chat, LocationPrompt));
      outcome := Done;
    }

    /** `handleOrderLocationInput`: the draft entry is updated in place at
        each step, as the Go code updates the order it points to. */
    method HandleOrderLocationInput(chat: ChatId, text: string, now: int, faults: set<Fault>) returns (outcome: Outcome)
      modifies this
      ensures Step(Snapshot(), outcome) == Dialogue.HandleOrderLocationInput(old(Snapshot()), chat, text, now, faults)
    {
      if chat !in orderData {
        return Crashed(NoOrderDraft);
      }
      var order := orderData[chat].(location := text, createdAt := now);
      orderData := orderData[chat := order];
      if OwnerLookup in faults {
        Send(Plain(chat, OrderFailed));
        return Done;
      }
      var user := UserByChatId(store.users, ChatKey(chat));
      if user.None? {
        return Crashed(NoCustomerRecord);
      }
      order := order.(user := user.value);
      orderData := orderData[chat := order];
      userStates := userStates[chat := Idle];
      var inserted: Option<(Store, Order)> := if OrderInsert in faults then None else InsertOrder(store, order);
      if inserted.None? {
        Send(Plain(chat, OrderFailed));
        return Done;
      }
      var (db, created) := inserted.value;
      store := db;
      Send(Plain(chat, OrderCreated(order.title, order.description, order.location)));
      NotifyExecutors(created, faults);
      outcome := Done;
    }

    /** `notifyExecutors`: one notification per provider, in the order the
        query returns them. */
    method NotifyExecutors(order: Order, faults: set<Fault>)
      modifies this
      ensures Snapshot() == Dialogue.NotifyExecutors(old(Snapshot()), order, faults)
    {
      if ProviderQuery in faults {
        return;
      }
      var executors := ProvidersFor(store.users, order.specialization);
      var i := 0;
      while i < |executors|
        invariant 0 <= i <= |executors|
        invariant userStates == old(userStates) && userData == old(userData) && orderData == old(orderData)
        invariant store == old(store)
        invariant outbox == old(outbox) + Dispatch(order, executors[..i])
      {
        var recipient := Strconv.ParseInt(executors[i].chatId).Value();
        Send(NewOrderNotice(recipient, order));
        assert executors[..i + 1][..i] == executors[..i];
        assert Dispatch(order, executors[..i + 1]) == Dispatch(order, executors[..i]) + [NewOrderNotice(recipient, order)];
        i := i + 1;
      }
      assert executors[..i] == executors;
    }

    /** `handleOrderResponse`. */
    method HandleOrderResponse(chat: ChatId, orderId: string, faults: set<Fault>) returns (outcome: Outcome)
      modifies this
      ensures Step(Snapshot(), outcome) == Dialogue.HandleOrderResponse(old(Snapshot()), chat, orderId, faults)
    {
      if ExecutorLookup in faults {
        Send(Plain(chat, ResponseFailed));
        return Done;
      }
      var executor := UserByChatId(store.users, ChatKey(chat));
      if executor.None? {
        return Crashed(NoExecutorRecord);
      }
      outcome := Done;
      if ResponseInsert in faults {
        Send(Plain(chat, ResponseSaveFailed));
        return;
      }
      store := InsertResponse(store, orderId, executor.value.id);
      Send(Plain(chat, ResponseRecorded));
      if ConfirmationSend in faults || OrderQuery in faults {
        return;
      }
      var order := OrderById(store, orderId);
      if order.None? {
        return;
      }
      var customer := Strconv.ParseInt(order.value.user.chatId);
      if !customer.Parsed? {
        return;
      }
      Send(ResponseNoticeFor(customer.value, order.value, executor.value));
    }

    /** `handleOrderSpecializationSelection`. */
    method HandleOrderSpecializationSelection(chat: ChatId, data: string)
      modifies this
      ensures Snapshot() == Dialogue.HandleOrderSpecializationSelection(old(Snapshot()), chat, data)
    {
      if chat !in orderData {
        Send(Plain(chat, OrderRestart));
        return;
      }
      orderData := orderData[chat := orderData[chat].(specialization := Lookup(OrderSpecLabels, data))];
      userStates := userStates[chat := EnteringOrderTitle];
      Send(Plain(chat, TitlePrompt));
    }
  }
}
