/** What the dialogue functions guarantee: the state invariant that rules out
    the missing-draft panics, what each event does to the chat it comes from
    and to no other, and the registration, order and response flows. */
module DialogueProps {
  import opened Model
  import opened Storage
  import opened Tags
  import opened Messages
  import opened Dialogue
  import Strconv

  /** Only the entries of `chat` may change; drafts are never dropped; the
      outbox and the three tables only grow. */
  ghost predicate OnlyChatChanged(s: State, t: State, chat: ChatId) {
    && t.userStates - {chat} == s.userStates - {chat}
    && t.userData - {chat} == s.userData - {chat}
    && t.orderData - {chat} == s.orderData - {chat}
    && s.userData.Keys <= t.userData.Keys
    && s.orderData.Keys <= t.orderData.Keys
    && s.outbox <= t.outbox
    && s.store.users <= t.store.users
    && s.store.orders <= t.store.orders
    && s.store.responses <= t.store.responses
  }

  /** Every handler step, whatever its outcome: valid states go to valid
      states, and only the handled chat's entries change. */
  ghost predicate Keeps(s: State, t: State, chat: ChatId) {
    (s.Valid() ==> t.Valid()) && OnlyChatChanged(s, t, chat)
  }

  lemma KeepsTrans(s: State, t: State, u: State, chat: ChatId)
    requires Keeps(s, t, chat) && Keeps(t, u, chat)
    ensures Keeps(s, u, chat)
  {
  }

  /** No chat's entries change and the three tables are untouched: only
      messages are added. */
  ghost predicate OnlyOutboxGrew(s: State, t: State) {
    && t.userStates == s.userStates && t.userData == s.userData && t.orderData == s.orderData
    && t.store == s.store
    && s.outbox <= t.outbox
  }

  // ---------------------------------------------------------------------
  // Each handler keeps the invariant

  lemma SendKeeps(s: State, chat: ChatId, m: Msg)
    ensures Keeps(s, s.Send(m), chat)
    ensures OnlyOutboxGrew(s, s.Send(m)) && s.Send(m).outbox == s.outbox + [m]
  {
  }

  lemma PortfolioKeeps(s: State, chat: ChatId, text: string)
    ensures Keeps(s, HandlePortfolioInput(s, chat, text).state, chat)
  {
  }

  lemma TitleKeeps(s: State, chat: ChatId, text: string)
    ensures Keeps(s, HandleOrderTitleInput(s, chat, text).state, chat)
  {
  }

  lemma DescriptionKeeps(s: State, chat: ChatId, text: string)
    ensures Keeps(s, HandleOrderDescriptionInput(s, chat, text).state, chat)
  {
  }

  lemma NotifyKeeps(s: State, chat: ChatId, order: Order, faults: set<Fault>)
    ensures Keeps(s, NotifyExecutors(s, order, faults), chat)
    ensures OnlyOutboxGrew(s, NotifyExecutors(s, order, faults))
  {
  }

  lemma LocationKeeps(s: State, chat: ChatId, text: string, now: int, faults: set<Fault>)
    ensures Keeps(s, HandleOrderLocationInput(s, chat, text, now, faults).state, chat)
  {
    if chat in s.orderData {
      var order := s.orderData[chat].(location := text, createdAt := now);
      var s1 := s.(orderData := s.orderData[chat := order]);
      assert Keeps(s, s1, chat);
      if OwnerLookup in faults {
        SendKeeps(s1, chat, Plain(chat, OrderFailed));
        KeepsTrans(s, s1, s1.Send(Plain(chat, OrderFailed)), chat);
      } else if UserByChatId(s.store.users, ChatKey(chat)).Some? {
        var placed := order.(user := UserByChatId(s.store.users, ChatKey(chat)).value);
        var s2 := s1.(orderData := s1.orderData[chat := placed]).SetStage(chat, Idle);
        assert Keeps(s1, s2, chat);
        KeepsTrans(s, s1, s2, chat);
        var inserted: Option<(Store, Order)> := if OrderInsert in faults then None else InsertOrder(s2.store, placed);
        if inserted.None? {
          SendKeeps(s2, chat, Plain(chat, OrderFailed));
          KeepsTrans(s, s2, s2.Send(Plain(chat, OrderFailed)), chat);
        } else {
          var (store', created) := inserted.value;
          var s3 := s2.(store := store').Send(Plain(chat, OrderCreated(placed.title, placed.description, placed.location)));
          assert Keeps(s2, s3, chat);
          KeepsTrans(s, s2, s3, chat);
          NotifyKeeps(s3, chat, created, faults);
          KeepsTrans(s, s3, NotifyExecutors(s3, created, faults), chat);
        }
      }
    }
  }

  lemma StartOrderCreationKeeps(s: State, chat: ChatId)
    ensures Keeps(s, StartOrderCreation(s, chat), chat)
  {
  }

  lemma RegistrationKeeps(s: State, chat: ChatId, u: User, faults: set<Fault>)
    ensures Keeps(s, CompleteExecutorRegistration(s, chat, u, faults), chat)
  {
  }

  lemma OrderSpecKeeps(s: State, chat: ChatId, data: string)
    ensures Keeps(s, HandleOrderSpecializationSelection(s, chat, data), chat)
  {
  }

  lemma ResponseKeeps(s: State, chat: ChatId, orderId: string, faults: set<Fault>)
    ensures Keeps(s, HandleOrderResponse(s, chat, orderId, faults).state, chat)
    ensures var t := HandleOrderResponse(s, chat, orderId, faults).state;
      && t.userStates == s.userStates && t.userData == s.userData && t.orderData == s.orderData
      && t.store.users == s.store.users && t.store.orders == s.store.orders
      && |t.store.responses| <= |s.store.responses| + 1
      && (|t.store.responses| > |s.store.responses| ==> t.store.responses[|s.store.responses|].orderId == orderId)
  {
    if ExecutorLookup !in faults && UserByChatId(s.store.users, ChatKey(chat)).Some? && ResponseInsert !in faults {
      var executor := UserByChatId(s.store.users, ChatKey(chat)).value;
      var s1 := s.(store := InsertResponse(s.store, orderId, executor.id)).Send(Plain(chat, ResponseRecorded));
      assert Keeps(s, s1, chat);
      if ConfirmationSend !in faults && OrderQuery !in faults && OrderById(s1.store, orderId).Some? {
        var order := OrderById(s1.store, orderId).value;
        if Strconv.ParseInt(order.user.chatId).Parsed? {
          var m := ResponseNoticeFor(Strconv.ParseInt(order.user.chatId).value, order, executor);
          SendKeeps(s1, chat, m);
          KeepsTrans(s, s1, s1.Send(m), chat);
        }
      }
    }
  }

  /** A text message keeps the invariant and touches only its own chat. */
  lemma HandleMessageKeeps(s: State, chat: ChatId, text: string, now: int, faults: set<Fault>)
    ensures Keeps(s, HandleMessage(s, chat, text, now, faults).state, chat)
  {
    var known := if StartLookup in faults then None else UserByChatId(s.store.users, ChatKey(chat));
    if text == "/start" && known.Some? {
      SendKeeps(s, chat, ProfileCard(chat, known.value));
    } else {
      var s1 := if text == "/start" then s.SetStage(chat, ChoosingRole).Send(RoleMenuMsg(chat)) else s;
      assert Keeps(s, s1, chat);
      var r := HandleMessage(s, chat, text, now, faults);
      match s.StageOf(chat)
      case EnteringPortfolio =>
        assert r == HandlePortfolioInput(s1, chat, text);
        PortfolioKeeps(s1, chat, text);
        KeepsTrans(s, s1, r.state, chat);
      case EnteringOrderTitle =>
        assert r == HandleOrderTitleInput(s1, chat, text);
        TitleKeeps(s1, chat, text);
        KeepsTrans(s, s1, r.state, chat);
      case EnteringOrderDescription =>
        assert r == HandleOrderDescriptionInput(s1, chat, text);
        DescriptionKeeps(s1, chat, text);
        KeepsTrans(s, s1, r.state, chat);
      case EnteringOrderLocation =>
        assert r == HandleOrderLocationInput(s1, chat, text, now, faults);
        LocationKeeps(s1, chat, text, now, faults);
        KeepsTrans(s, s1, r.state, chat);
      case _ =>
    }
  }

  /** In a valid state a text message never reaches a missing draft: the one
      panic left is a location step for a chat that has no user record. */
  lemma HandleMessageOutcome(s: State, chat: ChatId, text: string, now: int, faults: set<Fault>)
    requires s.Valid()
    ensures HandleMessage(s, chat, text, now, faults).outcome in {Done, Crashed(NoCustomerRecord)}
    ensures HandleMessage(s, chat, text, now, faults).outcome == Crashed(NoCustomerRecord) <==>
      && s.StageOf(chat) == EnteringOrderLocation
      && OwnerLookup !in faults
      && UserByChatId(s.store.users, ChatKey(chat)).None?
  {
    var stage := s.StageOf(chat);
    assert stage == EnteringPortfolio ==> chat in s.userData;
    assert stage.NeedsOrderDraft() ==> chat in s.orderData;
  }

  lemma CustomerChoiceKeeps(s: State, chat: ChatId, from: Sender, faults: set<Fault>)
    ensures Keeps(s, HandleCallbackQuery(s, chat, from, RoleCustomer, faults).state, chat)
  {
    var u := CallbackDraft(s, chat, from).(role := CustomerRole, name := from.firstName, userName := from.userName);
    if CustomerInsert !in faults {
      var s1 := s.(store := InsertUser(s.store, u), userStates := s.userStates[chat := Idle],
                   userData := s.userData[chat := u]);
      assert Keeps(s, s1, chat);
      var s2 := s1.Send(Plain(chat, CustomerRegistered(u.name)));
      SendKeeps(s1, chat, Plain(chat, CustomerRegistered(u.name)));
      KeepsTrans(s, s1, s2, chat);
      SendKeeps(s2, chat, ProfileCard(chat, u));
      KeepsTrans(s, s2, s2.Send(ProfileCard(chat, u)), chat);
    }
  }

  /** A button press keeps the invariant and touches only its own chat. */
  lemma HandleCallbackQueryKeeps(s: State, chat: ChatId, from: Sender, data: string, faults: set<Fault>)
    ensures Keeps(s, HandleCallbackQuery(s, chat, from, data, faults).state, chat)
  {
    var draft := CallbackDraft(s, chat, from);
    var r := HandleCallbackQuery(s, chat, from, data, faults);
    if data == RoleCustomer {
      CustomerChoiceKeeps(s, chat, from, faults);
    } else if data == RoleExecutor {
      assert r.state.userData == s.userData[chat := draft.(role := ProviderRole)];
    } else if data == SpecVideographer || data == SpecPhotographer {
      var u := draft.(specialization := Lookup(ProviderSpecLabels, data));
      assert r == Step(CompleteExecutorRegistration(s, chat, u, faults), Done);
      RegistrationKeeps(s, chat, u, faults);
    } else if data == CreateOrder {
      assert r == Step(StartOrderCreation(s, chat), Done);
      StartOrderCreationKeeps(s, chat);
    } else if RespondPrefix <= data {
      assert r == HandleOrderResponse(s, chat, OrderIdField(data), faults);
      ResponseKeeps(s, chat, OrderIdField(data), faults);
    } else if data == OrderSpecVideographer || data == OrderSpecPhotographer {
      assert r == Step(HandleOrderSpecializationSelection(s, chat, data), Done);
      OrderSpecKeeps(s, chat, data);
    }
  }

  /** No button reaches a missing draft, in any state: the one panic is a
      response from a chat that has no user record. */
  lemma HandleCallbackQueryOutcome(s: State, chat: ChatId, from: Sender, data: string, faults: set<Fault>)
    ensures HandleCallbackQuery(s, chat, from, data, faults).outcome in {Done, Crashed(NoExecutorRecord)}
    ensures HandleCallbackQuery(s, chat, from, data, faults).outcome == Crashed(NoExecutorRecord) <==>
      && RespondPrefix <= data
      && ExecutorLookup !in faults
      && UserByChatId(s.store.users, ChatKey(chat)).None?
  {
  }
}
