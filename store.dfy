/** The persistence collaborator as the bot sees it: users, orders and
    responses, with the lookups and inserts the bot calls. Identifiers are
    assigned by the store (serial columns), never by the bot. Whether a call
    fails with a database error is decided outside the store (see
    `Dialogue.Fault`); the functions here give the answer of a call that does
    not fail. */
module Storage {
  import opened Model
  import Strconv

  /** One row of the responses table: the order id exactly as the bot passed
      it, and the responding provider's user id. */
  datatype Response = Response(orderId: string, userId: int)

  datatype Store = Store(users: seq<User>, orders: seq<Order>, responses: seq<Response>)
  {
    /** Ids are handed out in insertion order starting at 1. */
    ghost predicate Valid() {
      && (forall i | 0 <= i < |users| :: users[i].id == i + 1)
      && (forall i | 0 <= i < |orders| :: orders[i].id == i + 1)
    }
  }

  /** `GetUserByChatID`: the first user row with that chat id; `None` is the
      "not found" answer (`nil, nil`), which is not an error. */
  function UserByChatId(users: seq<User>, chatId: string): (r: Option<User>)
    ensures r.Some? ==> r.value in users && r.value.chatId == chatId
    ensures r.None? ==> forall u | u in users :: u.chatId != chatId
  {
    if users == [] then None
    else if users[0].chatId == chatId then Some(users[0])
    else UserByChatId(users[1..], chatId)
  }

  /** The user row with a given id, as the order queries join it. */
  function UserById(users: seq<User>, id: int): (r: Option<User>)
    ensures r.Some? ==> r.value in users && r.value.id == id
    ensures r.None? ==> forall u | u in users :: u.id != id
  {
    if users == [] then None
    else if users[0].id == id then Some(users[0])
    else UserById(users[1..], id)
  }

  /** `GetUsersBySpecialization`: the rows whose specialization matches and
      whose role is the provider role, in table order. The query does not
      select the id column, so every returned record has id 0. */
  function ProvidersFor(users: seq<User>, specialization: string): (r: seq<User>)
    ensures |r| <= |users|
    ensures forall u | u in r :: u.role == ProviderRole && u.specialization == specialization && u.id == 0
  {
    if users == [] then []
    else
      var rest := ProvidersFor(users[1..], specialization);
      if users[0].role == ProviderRole && users[0].specialization == specialization
      then [users[0].(id := 0)] + rest
      else rest
  }

  /** `CreateUser`: appends the row; the store assigns its id. */
  function InsertUser(s: Store, u: User): (r: Store)
    ensures s.Valid() ==> r.Valid()
    ensures r.orders == s.orders && r.responses == s.responses
    ensures |r.users| == |s.users| + 1 && r.users[..|s.users|] == s.users
    ensures r.users[|s.users|] == u.(id := |s.users| + 1)
  {
    s.(users := s.users + [u.(id := |s.users| + 1)])
  }

  /** `CreateOrder`: inserts the order under the next id and returns the
      stored row joined with its owner's user row (looked up by the owner's
      id). `None` when no user row has that id, so the join is empty. */
  function InsertOrder(s: Store, o: Order): (r: Option<(Store, Order)>)
    ensures r.Some? <==> UserById(s.users, o.user.id).Some?
    ensures r.Some? ==> var (s', created) := r.value;
      && s'.users == s.users && s'.responses == s.responses
      && s'.orders == s.orders + [created]
      && created.id == |s.orders| + 1
      && created == o.(id := created.id, user := created.user)
      && created.user in s.users && created.user.id == o.user.id
    ensures r.Some? && s.Valid() ==> r.value.0.Valid()
  {
    match UserById(s.users, o.user.id)
    case None => None
    case Some(owner) =>
      var created := o.(id := |s.orders| + 1, user := owner);
      Some((s.(orders := s.orders + [created]), created))
  }

  /** The first order row with a given id. */
  function OrderWithId(orders: seq<Order>, id: int): (r: Option<Order>)
    ensures r.Some? ==> r.value in orders && r.value.id == id
    ensures r.None? ==> forall o | o in orders :: o.id != id
  {
    if orders == [] then None
    else if orders[0].id == id then Some(orders[0])
    else OrderWithId(orders[1..], id)
  }

  /** `GetOrderByID`: the id text must parse as an integer (`strconv.Atoi`),
      otherwise the call fails before any query; an unknown id fails too.
      Both failures read as `None`. */
  function OrderById(s: Store, orderId: string): (r: Option<Order>)
    ensures r.Some? ==> r.value in s.orders && Strconv.ParseInt(orderId) == Strconv.Parsed(r.value.id)
  {
    match Strconv.ParseInt(orderId)
    case Parsed(n) => OrderWithId(s.orders, n)
    case _ => None
  }

  /** `CreateOrderResponse`: appends a response row. Nothing de-duplicates. */
  function InsertResponse(s: Store, orderId: string, userId: int): (r: Store)
    ensures r.users == s.users && r.orders == s.orders
    ensures r.responses == s.responses + [Response(orderId, userId)]
  {
    s.(responses := s.responses + [Response(orderId, userId)])
  }

  /** In a valid store a user found by chat id is the row its id names, so
      an order placed for it joins back to that very record. */
  lemma {:induction false} FoundUserJoinsBack(s: Store, chatId: string)
    requires s.Valid() && UserByChatId(s.users, chatId).Some?
    ensures UserById(s.users, UserByChatId(s.users, chatId).value.id) == UserByChatId(s.users, chatId)
  {
    var u := UserByChatId(s.users, chatId).value;
    var i :| 0 <= i < |s.users| && s.users[i] == u;
    UserByIdAt(s.users, i, 0);
  }

  lemma {:induction false} UserByIdAt(users: seq<User>, i: nat, offset: nat)
    requires i < |users|
    requires forall k | 0 <= k < |users| :: users[k].id == k + 1 + offset
    ensures UserById(users, i + 1 + offset) == Some(users[i])
  {
    if i > 0 {
      UserByIdAt(users[1..], i - 1, offset + 1);
    }
  }

  /** In a valid store an order row is found again by its id. */
  lemma {:induction false} OrderWithIdAt(orders: seq<Order>, i: nat, offset: nat)
    requires i < |orders|
    requires forall k | 0 <= k < |orders| :: orders[k].id == k + 1 + offset
    ensures OrderWithId(orders, i + 1 + offset) == Some(orders[i])
  {
    if i > 0 {
      OrderWithIdAt(orders[1..], i - 1, offset + 1);
    }
  }

  /** Every provider row of the requested specialization is returned. */
  lemma {:induction false} ProvidersComplete(users: seq<User>, specialization: string, u: User)
    requires u in users && u.role == ProviderRole && u.specialization == specialization
    ensures u.(id := 0) in ProvidersFor(users, specialization)
  {
    if users[0] != u {
      ProvidersComplete(users[1..], specialization, u);
    }
  }

  /** In a valid store every order row is what `GetOrderByID` returns for
      its id written in decimal. */
  lemma StoredOrderRetrievable(s: Store, i: nat)
    requires s.Valid() && i < |s.orders| <= MaxInt64
    ensures OrderById(s, Strconv.FormatInt(s.orders[i].id)) == Some(s.orders[i])
  {
    OrderWithIdAt(s.orders, i, 0);
    Strconv.FormatIntRoundTrip(s.orders[i].id);
  }

  /** An order just stored in a valid store is what `GetOrderByID` returns
      for its id written in decimal. */
  lemma CreatedOrderRetrievable(s: Store, o: Order)
    requires s.Valid() && InsertOrder(s, o).Some? && |s.orders| < MaxInt64
    ensures var (s', created) := InsertOrder(s, o).value;
      OrderById(s', Strconv.FormatInt(created.id)) == Some(created)
  {
    var (s', created) := InsertOrder(s, o).value;
    OrderWithIdAt(s'.orders, |s.orders|, 0);
    Strconv.FormatIntRoundTrip(created.id);
  }
}
