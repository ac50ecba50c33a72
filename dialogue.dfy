/** The bot's dialogue and dispatch logic as functions from the state before an
    event to the state after it. `State` gathers the three per-chat maps (stage,
    user draft, order draft), the store and the outbox of attempted sends; the
    class `Bot.TgBot` updates the same fields in place and is proved to agree
    with these functions. */
module Dialogue {
  import opened Model
  import opened Storage
  import opened Tags
  import opened Messages
  import Strconv

  /** A collaborator call that fails while one event is handled: a database
      error, or a send whose failure the bot checks. A lookup that finds
      nothing is not a fault; it is the store's own answer. */
  datatype Fault =
    | StartLookup          // the user lookup of /start
    | CustomerInsert       // CreateUser for a customer
    | ProviderInsert       // CreateUser for a provider
    | ProviderWelcomeSend  // the registration confirmation sent to a provider
    | OwnerLookup          // the user lookup of the location step
    | OrderInsert          // CreateOrder
    | ProviderQuery        // GetUsersBySpecialization
    | ExecutorLookup       // the user lookup of a response
    | ResponseInsert       // CreateOrderResponse
    | ConfirmationSend     // the confirmation sent to a responding provider
    | OrderQuery           // GetOrderByID failing with a database error

  /** The nil dereferences at which the Go process panics. */
  datatype Panic =
    | NoPortfolioDraft     // portfolio text with no user draft
    | NoOrderDraft         // title, description or location text with no order draft
    | NoCustomerRecord     // location step: the lookup found no user
    | NoExecutorRecord     // response: the lookup found no user

  datatype Outcome = Done | Crashed(at: Panic)

  /** The sender of a button press. */
  datatype Sender = Sender(firstName: string, userName: string)

  datatype State = State(
    userStates: map<ChatId, Stage>,
    userData: map<ChatId, User>,
    orderData: map<ChatId, Order>,
    store: Store,
    outbox: seq<Msg>)
  {
    /** The stage of a chat; an unseen chat reads as `Unset`. */
    function StageOf(chat: ChatId): Stage {
      if chat in userStates then userStates[chat] else Unset
    }

    function Send(m: Msg): State {
      this.(outbox := outbox + [m])
    }

    function SetStage(chat: ChatId, stage: Stage): State {
      this.(userStates := userStates[chat := stage])
    }

    /** The invariant of every reachable state: the stages that read a draft
        are only entered once that draft exists, and the store hands out ids
        in order. Drafts are never removed. */
    ghost predicate Valid() {
      && store.Valid()
      && (forall c | c in userStates && userStates[c] == EnteringPortfolio :: c in userData)
      && (forall c | c in userStates && userStates[c].NeedsOrderDraft() :: c in orderData)
    }
  }

  datatype Step = Step(state: State, outcome: Outcome)

  /** The chat id as the store keys users by it. */
  function ChatKey(chat: ChatId): string {
    Strconv.FormatInt(chat)
  }

  /** `handleMessage`: `/start` shows the profile of a known user and stops;
      otherwise it moves the chat to `ChoosingRole`. In both the `/start` and
      the plain-text case the text is then handed to the input handler of the
      stage read on entry, if that stage takes text. */
  function HandleMessage(s: State, chat: ChatId, text: string, now: int, faults: set<Fault>): Step {
    var stage := s.StageOf(chat);
    var known := if StartLookup in faults then None else UserByChatId(s.store.users, ChatKey(chat));
    if text == "/start" && known.Some? then
      Step(s.Send(ProfileCard(chat, known.value)), Done)
    else
      var s1 := if text == "/start" then s.SetStage(chat, ChoosingRole).Send(RoleMenuMsg(chat)) else s;
      match stage
      case EnteringPortfolio => HandlePortfolioInput(s1, chat, text)
      case EnteringOrderTitle => HandleOrderTitleInput(s1, chat, text)
      case EnteringOrderDescription => HandleOrderDescriptionInput(s1, chat, text)
      case EnteringOrderLocation => HandleOrderLocationInput(s1, chat, text, now, faults)
      case _ => Step(s1, Done)
  }

  /** The user record a button press starts from: the draft's role, portfolio
      and specialization with the sender's current names, or an empty record. */
  function CallbackDraft(s: State, chat: ChatId, from: Sender): User {
    if chat in s.userData then
      var existing := s.userData[chat];
      User(0, from.firstName, from.userName, ChatKey(chat), existing.role, existing.portfolio, existing.specialization)
    else
      EmptyUser.(chatId := ChatKey(chat))
  }

  /** `handleCallbackQuery`: dispatch on the button tag. No branch looks at
      the chat's stage. */
  function HandleCallbackQuery(s: State, chat: ChatId, from: Sender, data: string, faults: set<Fault>): Step {
    var draft := CallbackDraft(s, chat, from);
    if data == RoleCustomer then
      var u := draft.(role := CustomerRole, name := from.firstName, userName := from.userName);
      if CustomerInsert in faults then Step(s.Send(Plain(chat, RegistrationFailed)), Done)
      else
        var s1 := s.(store := InsertUser(s.store, u), userStates := s.userStates[chat := Idle],
                     userData := s.userData[chat := u]);
        Step(s1.Send(Plain(chat, CustomerRegistered(u.name))).Send(ProfileCard(chat, u)), Done)
    else if data == RoleExecutor then
      var u := draft.(role := ProviderRole);
      var s1 := s.(userStates := s.userStates[chat := EnteringPortfolio], userData := s.userData[chat := u]);
      Step(s1.Send(Plain(chat, PortfolioPrompt)), Done)
    else if data == SpecVideographer || data == SpecPhotographer then
      Step(CompleteExecutorRegistration(s, chat, draft.(specialization := Lookup(ProviderSpecLabels, data)), faults), Done)
    else if data == CreateOrder then
      Step(StartOrderCreation(s, chat), Done)
    else if RespondPrefix <= data then
      HandleOrderResponse(s, chat, OrderIdField(data), faults)
    else if data == OrderSpecVideographer || data == OrderSpecPhotographer then
      Step(HandleOrderSpecializationSelection(s, chat, data), Done)
    else
      Step(s, Done)
  }

  /** `startOrderCreation`: a fresh, empty order draft. */
  function StartOrderCreation(s: State, chat: ChatId): State {
    s.(orderData := s.orderData[chat := EmptyOrder], userStates := s.userStates[chat := ChoosingOrderSpecialization])
     .Send(OrderSpecMenuMsg(chat))
  }

  /** `completeExecutorRegistration`: store the provider; only on success is
      the chat idle and the draft replaced. The profile card follows only if
      the confirmation could be sent. */
  function CompleteExecutorRegistration(s: State, chat: ChatId, u: User, faults: set<Fault>): State {
    if ProviderInsert in faults then s.Send(Plain(chat, ProviderRegistrationFailed))
    else
      var s1 := s.(store := InsertUser(s.store, u), userStates := s.userStates[chat := Idle],
                   userData := s.userData[chat := u])
                 .Send(Plain(chat, ProviderRegistered(u.name, u.specialization)));
      if ProviderWelcomeSend in faults then s1 else s1.Send(ProfileCard(chat, u))
  }

  /** `handlePortfolioInput`: the text becomes the draft's portfolio. */
  function HandlePortfolioInput(s: State, chat: ChatId, text: string): Step {
    if chat !in s.userData then Step(s, Crashed(NoPortfolioDraft))
    else
      var s1 := s.(userData := s.userData[chat := s.userData[chat].(portfolio := text)]);
      Step(s1.SetStage(chat, ChoosingSpecialization).Send(SpecializationMenuMsg(chat)), Done)
  }

  /** `handleOrderTitleInput`. */
  function HandleOrderTitleInput(s: State, chat: ChatId, text: string): Step {
    if chat !in s.orderData then Step(s, Crashed(NoOrderDraft))
    else
      var s1 := s.(orderData := s.orderData[chat := s.orderData[chat].(title := text)]);
      Step(s1.SetStage(chat, EnteringOrderDescription).Send(Plain(chat, DescriptionPrompt)), Done)
  }

  /** `handleOrderDescriptionInput`. */
  function HandleOrderDescriptionInput(s: State, chat: ChatId, text: string): Step {
    if chat !in s.orderData then Step(s, Crashed(NoOrderDraft))
    else
      var s1 := s.(orderData := s.orderData[chat := s.orderData[chat].(description := text)]);
      Step(s1.SetStage(chat, EnteringOrderLocation).Send(Plain(chat, LocationPrompt)), Done)
  }

  /** `handleOrderLocationInput`: location and time go into the draft first;
      then the owner is looked up, the chat goes idle, and the order is
      stored; providers hear of it only if storing succeeded. */
  function HandleOrderLocationInput(s: State, chat: ChatId, text: string, now: int, faults: set<Fault>): Step {
    if chat !in s.orderData then Step(s, Crashed(NoOrderDraft))
    else
      var order := s.orderData[chat].(location := text, createdAt := now);
      var s1 := s.(orderData := s.orderData[chat := order]);
      if OwnerLookup in faults then Step(s1.Send(Plain(chat, OrderFailed)), Done)
      else match UserByChatId(s.store.users, ChatKey(chat))
        case None => Step(s1, Crashed(NoCustomerRecord))
        case Some(owner) =>
          var placed := order.(user := owner);
          var s2 := s1.(orderData := s1.orderData[chat := placed]).SetStage(chat, Idle);
          var inserted: Option<(Store, Order)> := if OrderInsert in faults then None else InsertOrder(s2.store, placed);
          match inserted
          case None => Step(s2.Send(Plain(chat, OrderFailed)), Done)
          case Some((store', created)) =>
            var s3 := s2.(store := store').Send(Plain(chat, OrderCreated(placed.title, placed.description, placed.location)));
            Step(NotifyExecutors(s3, created, faults), Done)
  }

  /** The chat a provider's notification goes to: the stored chat id read as
      an integer, the parse error ignored (0 for text that is not a number). */
  function RecipientOf(u: User): ChatId {
    Strconv.ParseInt(u.chatId).Value()
  }

  /** One new-order notification per provider, in the providers' order. */
  function Dispatch(order: Order, providers: seq<User>): (ms: seq<Msg>)
    ensures |ms| == |providers|
    ensures forall k | 0 <= k < |ms| :: ms[k] == NewOrderNotice(RecipientOf(providers[k]), order)
  {
    if providers == [] then []
    else Dispatch(order, providers[..|providers| - 1]) + [NewOrderNotice(RecipientOf(providers[|providers| - 1]), order)]
  }

  /** `notifyExecutors`: a failed provider query sends nothing; otherwise each
      provider of the order's specialization is sent one notification, and a
      failed send does not stop the others. */
  function NotifyExecutors(s: State, order: Order, faults: set<Fault>): State {
    if ProviderQuery in faults then s
    else s.(outbox := s.outbox + Dispatch(order, ProvidersFor(s.store.users, order.specialization)))
  }

  /** `handleOrderResponse`: look up the responding user, record the
      response, confirm it, look up the order, tell its customer. Each step
      runs only if the one before it succeeded. */
  function HandleOrderResponse(s: State, chat: ChatId, orderId: string, faults: set<Fault>): Step {
    if ExecutorLookup in faults then Step(s.Send(Plain(chat, ResponseFailed)), Done)
    else match UserByChatId(s.store.users, ChatKey(chat))
      case None => Step(s, Crashed(NoExecutorRecord))
      case Some(executor) =>
        if ResponseInsert in faults then Step(s.Send(Plain(chat, ResponseSaveFailed)), Done)
        else
          var s1 := s.(store := InsertResponse(s.store, orderId, executor.id)).Send(Plain(chat, ResponseRecorded));
          if ConfirmationSend in faults || OrderQuery in faults then Step(s1, Done)
          else match OrderById(s1.store, orderId)
            case None => Step(s1, Done)
            case Some(order) =>
              match Strconv.ParseInt(order.user.chatId)
              case Parsed(customer) => Step(s1.Send(ResponseNoticeFor(customer, order, executor)), Done)
              case _ => Step(s1, Done)
  }

  /** `handleOrderSpecializationSelection`: without an order draft the user
      is told to start again; with one, the label is set and the title is
      asked for. */
  function HandleOrderSpecializationSelection(s: State, chat: ChatId, data: string): State {
    if chat !in s.orderData then s.Send(Plain(chat, OrderRestart))
    else
      s.(orderData := s.orderData[chat := s.orderData[chat].(specialization := Lookup(OrderSpecLabels, data))])
       .SetStage(chat, EnteringOrderTitle)
       .Send(Plain(chat, TitlePrompt))
  }
}
