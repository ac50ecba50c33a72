/** Outbound messages, kept abstract: the recipient chat, what kind of message
    it is with the data it carries, and its inline buttons. The wording and the
    Markdown layout of the texts are not modelled. */
module Messages {
  import opened Model
  import opened Tags
  import Markdown

  datatype Button = Callback(tag: string) | Link(url: string)

  datatype Body =
    | RoleMenu
    | CustomerProfile(name: string, userName: string)
    | ProviderProfile(name: string, userName: string, specialization: string)
    | RegistrationFailed
    | CustomerRegistered(name: string)
    | PortfolioPrompt
    | ProviderRegistrationFailed
    | ProviderRegistered(name: string, specialization: string)
    | SpecializationMenu
    | OrderSpecMenu
    | OrderRestart
    | TitlePrompt
    | DescriptionPrompt
    | LocationPrompt
    | OrderFailed
    | OrderCreated(title: string, description: string, location: string)
    | NewOrder(title: string, specialization: string, description: string, location: string, createdAt: int)
    | ResponseFailed
    | ResponseSaveFailed
    | ResponseRecorded
    | ResponseNotice(title: string, role: string, name: string, userName: string, specialization: string)

  datatype Msg = Msg(chat: ChatId, body: Body, buttons: seq<Button>)

  /** A message without buttons. */
  function Plain(chat: ChatId, body: Body): Msg {
    Msg(chat, body, [])
  }

  /** The greeting sent by `/start` to a chat with no user record. */
  function RoleMenuMsg(chat: ChatId): Msg {
    Msg(chat, RoleMenu, [Callback(RoleCustomer), Callback(RoleExecutor)])
  }

  function SpecializationMenuMsg(chat: ChatId): Msg {
    Msg(chat, SpecializationMenu, [Callback(SpecVideographer), Callback(SpecPhotographer)])
  }

  function OrderSpecMenuMsg(chat: ChatId): Msg {
    Msg(chat, OrderSpecMenu, [Callback(OrderSpecVideographer), Callback(OrderSpecPhotographer)])
  }

  /** `showUserProfile`: a customer card offers order creation; any other role
      gets the provider card with a link to the portfolio. */
  function ProfileCard(chat: ChatId, u: User): (m: Msg)
    ensures m.chat == chat
    ensures u.role == CustomerRole ==> m.body == CustomerProfile(u.name, u.userName) && Callback(CreateOrder) in m.buttons
    ensures u.role != CustomerRole ==> m.body.ProviderProfile? && m.buttons == [Link(u.portfolio)]
  {
    if u.role == CustomerRole then
      Msg(chat, CustomerProfile(u.name, u.userName), [Callback(CreateOrder), Callback(MyOrders)])
    else
      Msg(chat, ProviderProfile(u.name, u.userName, u.specialization), [Link(u.portfolio)])
  }

  /** The new-order notification sent to one provider; its only button
      answers with the order's respond tag. */
  function NewOrderNotice(chat: ChatId, order: Order): (m: Msg)
    ensures m.chat == chat && m.buttons == [Callback(RespondTag(order.id))]
  {
    Msg(chat, NewOrder(order.title, order.specialization, order.description, order.location, order.createdAt),
        [Callback(RespondTag(order.id))])
  }

  /** The provider's card sent to the customer of an order. The order title
      and the provider's role, name, username and specialization are escaped;
      the portfolio goes unescaped into a link button. */
  function ResponseNoticeFor(chat: ChatId, order: Order, executor: User): Msg {
    Msg(chat,
        ResponseNotice(Markdown.Escape(order.title), Markdown.Escape(executor.role), Markdown.Escape(executor.name),
                       Markdown.Escape(executor.userName), Markdown.Escape(executor.specialization)),
        [Link(executor.portfolio)])
  }
}
