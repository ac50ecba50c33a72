/** Records and enumerations shared by the dialogue engine: the two persisted
    entities (User and Order), the dialogue stages the bot tracks per chat, and
    the fixed role and specialization labels it writes into them. */
module Model {

  const MinInt64: int := -0x8000_0000_0000_0000
  const MaxInt64: int := 0x7FFF_FFFF_FFFF_FFFF

  /** A chat identifier: a signed 64-bit integer. */
  type ChatId = x: int | -0x8000_0000_0000_0000 <= x <= 0x7FFF_FFFF_FFFF_FFFF

  datatype Option<+T> = None | Some(value: T)

  /** A user record. Every field may be empty: a draft carries whatever the
      dialogue has collected so far. */
  datatype User = User(
    id: int,
    name: string,
    userName: string,
    chatId: string,
    role: string,
    portfolio: string,
    specialization: string)

  /** Go's zero value of the User record. */
  const EmptyUser: User := User(0, "", "", "", "", "", "")

  /** An order record; `createdAt` is an abstract instant and `user` is the
      owning customer's full record. */
  datatype Order = Order(
    id: int,
    title: string,
    description: string,
    location: string,
    user: User,
    specialization: string,
    createdAt: int)

  /** Go's zero value of the Order record, installed by `create_order`. */
  const EmptyOrder: Order := Order(0, "", "", "", EmptyUser, "", 0)

  const CustomerRole: string := "Заказчик"
  const ProviderRole: string := "Исполнитель"
  const Videographer: string := "Видеооператор"
  const Photographer: string := "Фотограф"

  /** The dialogue stages. `Unset` is what an unseen chat reads as (the empty
      string, Go's zero value of the stage map). */
  datatype Stage =
    | Unset
    | ChoosingRole
    | EnteringPortfolio
    | ChoosingSpecialization
    | Idle
    | EnteringOrderTitle
    | EnteringOrderDescription
    | EnteringOrderLocation
    | ChoosingOrderSpecialization
  {
    /** The string the bot stores for this stage. */
    function Name(): string {
      match this
      case Unset => ""
      case ChoosingRole => "choosing_role"
      case EnteringPortfolio => "entering_portfolio"
      case ChoosingSpecialization => "choosing_specialization"
      case Idle => "idle"
      case EnteringOrderTitle => "entering_order_title"
      case EnteringOrderDescription => "entering_order_description"
      case EnteringOrderLocation => "entering_order_location"
      case ChoosingOrderSpecialization => "choosing_order_specialization"
    }

    /** The stages in which free text is routed to an input handler. */
    predicate TakesText() {
      EnteringPortfolio? || EnteringOrderTitle? || EnteringOrderDescription? || EnteringOrderLocation?
    }

    /** The stages that are only ever entered with an order draft present. */
    predicate NeedsOrderDraft() {
      ChoosingOrderSpecialization? || EnteringOrderTitle? || EnteringOrderDescription? || EnteringOrderLocation?
    }
  }

  /** Distinct stages are stored as distinct strings, and only `Unset` reads as "". */
  lemma StageNamesDistinct(a: Stage, b: Stage)
    ensures a.Name() == b.Name() ==> a == b
    ensures a.Name() == "" <==> a == Unset
  {
  }
}
