/**
 * The order service: a ledger of orders keyed by id, whose create handler
 * confirms the referenced user with the user service before it writes, and
 * whose detail handler enriches an order with the same remote answer but
 * never fails because of it.
 *
 * The Flask routes become functions of the ledger's contents and of the
 * remote outcome; `orders_db` becomes the `orders` field of `OrderLedger`,
 * the only thing `create_order` changes in place.
 */
module Orders {
  import opened Wrappers
  import opened JsonValues
  import opened Tables
  import opened Remote

  /** One value of `orders_db`. `userId` and `product` are kept exactly as the client sent them. */
  datatype Order = Order(
    id: int,
    userId: Json,
    product: Json,
    quantity: int,
    price: real,
    status: string,
    createdAt: string)

  /** `orders_db` is keyed by each order's own `id`. */
  function OrderKey(o: Order): int {
    o.id
  }

  function OrderIds(orders: seq<Order>): seq<int> {
    KeysOf(orders, OrderKey)
  }

  /** The three orders the service starts with. */
  function SeedOrders(): seq<Order> {
    [ Order(1, JNum(1.0), JStr("Laptop HP Pavilion"), 1, 1200.0, "completed", "2025-01-15T10:30:00"),
      Order(2, JNum(2.0), JStr("Mouse Inalambrico"), 2, 25.0, "pending", "2025-01-16T14:20:00"),
      Order(3, JNum(1.0), JStr("Teclado Mecanico"), 1, 150.0, "shipped", "2025-01-17T09:15:00") ]
  }

  /** A 404 answer; `echoedId` is the id the body repeats back, when it does. */
  datatype NotFound = NotFound(echoedId: Option<int>)

  // ---------------------------------------------------------------------------
  // GET /orders/<id>

  /** `orders_db.get(order_id)`: the order stored under `id`, or a 404 echoing `id`. */
  function GetOrder(orders: seq<Order>, id: int): (r: Result<Order, NotFound>)
    ensures r.Success? <==> id in OrderIds(orders)
    ensures r.Success? ==> r.value in orders && r.value.id == id
    ensures r.Failure? ==> r.error == NotFound(Some(id))
  {
    match Find(orders, OrderKey, id)
    case Some(order) => Success(order)
    case None => Failure(NotFound(Some(id)))
  }

  // ---------------------------------------------------------------------------
  // GET /orders?user_id=..&status=..

  datatype OrderListing = OrderListing(
    orders: seq<Order>,
    count: nat,
    userFilter: Option<int>,
    statusFilter: Option<string>)

  /** `if user_id:` — the user filter applies only to a present, non-zero id. */
  predicate UserFilterOn(userId: Option<int>)
    ensures UserFilterOn(userId) <==> userId.Some? && Truthy(JNum(userId.value as real))
  {
    userId.Some? && userId.value != 0
  }

  /** `if status:` — the status filter applies only to a present, non-empty string. */
  predicate StatusFilterOn(status: Option<string>)
    ensures StatusFilterOn(status) <==> status.Some? && Truthy(JStr(status.value))
  {
    status.Some? && status.value != ""
  }

  /** The conjunction of the filters that are switched on. */
  predicate Selected(o: Order, userId: Option<int>, status: Option<string>) {
    && (UserFilterOn(userId) ==> PyEq(o.userId, JNum(userId.value as real)))
    && (StatusFilterOn(status) ==> o.status == status.value)
  }

  /**
   * `get_orders`: the orders that pass every active filter, in insertion
   * order, with `count` their number. The two comprehension passes of the
   * handler are kept; their composition is the conjunctive filter.
   */
  function ListOrders(orders: seq<Order>, userId: Option<int>, status: Option<string>): (r: OrderListing)
    ensures r.count == |r.orders|
    ensures Subsequence(r.orders, orders)
    ensures forall o :: o in r.orders <==> o in orders && Selected(o, userId, status)
    ensures forall o :: multiset(r.orders)[o] == if Selected(o, userId, status) then multiset(orders)[o] else 0
    ensures r.userFilter == userId && r.statusFilter == status
  {
    var byUser :=
      if UserFilterOn(userId) then
        var u := userId.value;
        Filter(orders, (o: Order) => PyEq(o.userId, JNum(u as real)))
      else orders;
    var byStatus :=
      if StatusFilterOn(status) then
        var st := status.value;
        Filter(byUser, (o: Order) => o.status == st)
      else byUser;
    SubsequenceReflexive(orders);
    SubsequenceReflexive(byUser);
    SubsequenceTransitive(byStatus, byUser, orders);
    OrderListing(byStatus, |byStatus|, userId, status)
  }

  // ---------------------------------------------------------------------------
  // GET /orders/<id>/details

  /** The `communication_status` / `service_communication` tag. */
  datatype Communication = Succeeded | Failed {
    function Label(): string {
      if Succeeded? then "success" else "failed"
    }
  }

  datatype OrderDetails = OrderDetails(order: Order, userDetails: Option<Json>, communication: Communication)

  /**
   * `get_order_with_user_details`: a missing order is a 404 (which, unlike
   * `GET /orders/<id>`, does not echo the id); an existing order is always
   * returned, with the remote payload and "success" when the user is
   * confirmed, and with no details and "failed" otherwise. `remote` is the
   * outcome of the call for the order's own `user_id`.
   */
  function GetOrderDetails(orders: seq<Order>, id: int, remote: RemoteOutcome): (r: Result<OrderDetails, NotFound>)
    ensures r.Failure? <==> id !in OrderIds(orders)
    ensures r.Failure? ==> r.error == NotFound(None)
    ensures r.Success? ==> GetOrder(orders, id) == Success(r.value.order)
    ensures r.Success? ==> (r.value.communication == Succeeded <==> VerifyUser(remote).Verified?)
    ensures r.Success? && VerifyUser(remote).Verified? ==> r.value.userDetails == Some(VerifyUser(remote).payload)
    ensures r.Success? && VerifyUser(remote).Unverified? ==> r.value.userDetails == None
  {
    match GetOrder(orders, id)
    case Failure(_) => Failure(NotFound(None))
    case Success(order) =>
      match VerifyUser(remote)
      case Verified(payload) => Success(OrderDetails(order, Some(payload), Succeeded))
      case Unverified => Success(OrderDetails(order, None, Failed))
  }

  // ---------------------------------------------------------------------------
  // POST /orders

  /** The failure answers of `create_order`; `Code` is the HTTP status each one is sent with. */
  datatype CreateError =
    | NoData                        // empty or missing body
    | MissingField(field: string)   // the first required field not in the body
    | UserUnverified(userId: Json)  // verification failed
    | UserInactive(userId: Json)    // the payload's `active` is falsy
    | InvalidData                   // `int()` / `float()` raised ValueError
    | InternalError                 // any other exception
  {
    function Code(): (c: int)
      ensures c == 500 <==> InternalError?
      ensures c != 500 ==> c == 400
    {
      if InternalError? then 500 else 400
    }

    /** The `service_communication` tag of the answer: only a failed verification carries one. */
    function ServiceCommunication(): (t: Option<Communication>)
      ensures t.Some? <==> UserUnverified?
      ensures t.Some? ==> t.value == Failed && t.value.Label() == "failed"
    {
      if UserUnverified? then Some(Failed) else None
    }
  }

  /** The `user_info` part of a 201 answer. */
  datatype UserInfo = UserInfo(name: Json, email: Json)

  /** A 201 answer: the stored order, the user's name and email, and the `service_communication` tag. */
  datatype Created = Created(order: Order, userInfo: UserInfo, communication: Communication)

  /**
   * What `create_order` decides before and at its one write: reject with the
   * store untouched, or commit `order`. A commit still answers 500 when the
   * payload lacks `name` or `email`, because those are read after the write.
   */
  datatype Admission =
    | Reject(error: CreateError)
    | Commit(order: Order, reply: Result<UserInfo, CreateError>)

  const RequiredFields: seq<string> := ["user_id", "product", "quantity", "price"]

  /** The `for field in required_fields` check: the first field absent from the body. */
  function FirstMissing(fields: seq<string>, data: map<string, Json>): (r: Option<string>)
    ensures r.None? <==> forall i :: 0 <= i < |fields| ==> fields[i] in data
    ensures r.Some? ==> exists i :: (0 <= i < |fields| && fields[i] == r.value
      && r.value !in data && forall j :: 0 <= j < i ==> fields[j] in data)
  {
    if fields == [] then None
    else if fields[0] !in data then Some(fields[0])
    else
      var rest := FirstMissing(fields[1..], data);
      assert rest.Some? ==> exists i :: (1 <= i < |fields| && fields[i] == rest.value
        && rest.value !in data && forall j :: 0 <= j < i ==> fields[j] in data) by {
        if rest.Some? {
          var i :| 0 <= i < |fields[1..]| && fields[1..][i] == rest.value
            && rest.value !in data && forall j :: 0 <= j < i ==> fields[1..][j] in data;
          assert fields[i + 1] == rest.value;
          assert forall j :: 0 <= j < i + 1 ==> fields[j] in data by {
            forall j | 0 <= j < i + 1 ensures fields[j] in data {
              if j > 0 {
                assert fields[j] == fields[1..][j - 1];
              }
            }
          }
        }
      }
      rest
  }

  predicate AllRequiredPresent(data: map<string, Json>) {
    forall f :: f in RequiredFields ==> f in data
  }

  /** The payload's `active` flag as `user_data.get('active', True)` reads it. */
  predicate ActiveFlag(payload: map<string, Json>)
    ensures "active" !in payload ==> ActiveFlag(payload)
    ensures "active" in payload ==> (ActiveFlag(payload) <==> Truthy(payload["active"]))
    ensures "active" in payload && payload["active"] in {JNull, JBool(false), JNum(0.0), JStr("")} ==> !ActiveFlag(payload)
  {
    Truthy(GetOr(payload, "active", JBool(true)))
  }

  /** Everything `create_order` does up to and including its write, as a decision. */
  function Admit(orders: seq<Order>, data: map<string, Json>, remote: RemoteOutcome, now: string): (a: Admission)
    ensures |data| == 0 ==> a == Reject(NoData)
    ensures a.Commit? ==> |data| > 0 && AllRequiredPresent(data)
    ensures a.Commit? ==> (VerifyUser(remote).Verified? && VerifyUser(remote).payload.JObject?
      && ActiveFlag(VerifyUser(remote).payload.fields))
    ensures a.Commit? ==> (a.order.id == NextKey(OrderIds(orders))
      && forall i :: 0 <= i < |orders| ==> orders[i].id < a.order.id)
    ensures a.Commit? ==> (a.order.status == "pending" && a.order.createdAt == now
      && a.order.userId == data["user_id"] && a.order.product == data["product"]
      && IntOf(data["quantity"]) == Value(a.order.quantity) && FloatOf(data["price"]) == Value(a.order.price))
    ensures a.Commit? ==> var p := VerifyUser(remote).payload.fields;
      if "name" in p && "email" in p then a.reply == Success(UserInfo(p["name"], p["email"]))
      else a.reply == Failure(InternalError)
  {
    if |data| == 0 then Reject(NoData)
    else match FirstMissing(RequiredFields, data)
      case Some(field) => Reject(MissingField(field))
      case None =>
        assert forall i :: 0 <= i < |RequiredFields| ==> RequiredFields[i] in data;
        assert RequiredFields[0] in data && RequiredFields[1] in data;
        assert RequiredFields[2] in data && RequiredFields[3] in data;
        var userId := data["user_id"];
        match VerifyUser(remote)
        case Unverified => Reject(UserUnverified(userId))
        case Verified(payload) =>
          if !payload.JObject? then Reject(InternalError)
          else if !ActiveFlag(payload.fields) then Reject(UserInactive(userId))
          else
            var newId := NextKey(OrderIds(orders));
            assert forall i :: 0 <= i < |orders| ==> OrderIds(orders)[i] in OrderIds(orders);
            match IntOf(data["quantity"])
            case ValueError => Reject(InvalidData)
            case TypeError => Reject(InternalError)
            case Value(quantity) =>
              match FloatOf(data["price"])
              case ValueError => Reject(InvalidData)
              case TypeError => Reject(InternalError)
              case Value(price) =>
                var order := Order(newId, userId, data["product"], quantity, price, "pending", now);
                var p := payload.fields;
                Commit(order, if "name" in p && "email" in p then Success(UserInfo(p["name"], p["email"])) else Failure(InternalError))
  }

  // ---------------------------------------------------------------------------
  // GET /health

  datatype HealthReport = HealthReport(status: string, service: string, usersService: DependencyStatus, version: string)

  /** `health_check`: the service always reports itself healthy; the probe only shapes the dependency entry. */
  function HealthCheck(probe: RemoteOutcome): (h: HealthReport)
    ensures h.status == "healthy" && h.service == "orders-service" && h.version == "1.0.0"
    ensures h.usersService == ProbeStatus(probe)
    ensures h.usersService.Label() == "healthy" <==> probe.Response? && probe.status == 200
    ensures h.usersService.Label() == "unreachable" <==> probe.TransportError?
  {
    HealthReport("healthy", "orders-service", ProbeStatus(probe), "1.0.0")
  }

  // ---------------------------------------------------------------------------
  // The store

  class OrderLedger {
    /** The values of `orders_db`, in insertion order. */
    var orders: seq<Order>

    ghost predicate Valid()
      reads this
    {
      KeysDistinct(OrderIds(orders))
    }

    constructor ()
      ensures Valid() && orders == SeedOrders()
    {
      orders := SeedOrders();
    }

    /**
     * `create_order`: decide, then write at most one new order in place
     * (`orders_db[new_id] = new_order`). A rejection changes nothing; a commit
     * adds exactly the new order and leaves every existing order retrievable
     * as it was.
     */
    method CreateOrder(data: map<string, Json>, remote: RemoteOutcome, now: string) returns (r: Result<Created, CreateError>)
      requires Valid()
      modifies this
      ensures Valid()
      ensures Admit(old(orders), data, remote, now).Reject? ==>
        orders == old(orders) && r == Failure(Admit(old(orders), data, remote, now).error)
      ensures Admit(old(orders), data, remote, now).Commit? ==>
        var a := Admit(old(orders), data, remote, now);
        && orders == old(orders) + [a.order]
        && r == (match a.reply case Success(info) => Success(Created(a.order, info, Succeeded)) case Failure(e) => Failure(e))
      ensures r.Success? ==> GetOrder(orders, r.value.order.id) == Success(r.value.order)
      ensures r.Success? ==> r.value.communication.Label() == "success"
      ensures forall id :: GetOrder(old(orders), id).Success? ==> GetOrder(orders, id) == GetOrder(old(orders), id)
    {
      var a := Admit(orders, data, remote, now);
      match a
      case Reject(e) =>
        r := Failure(e);
      case Commit(order, reply) =>
        AppendFreshKey(OrderIds(orders), order.id);
        assert OrderIds(orders + [order]) == OrderIds(orders) + [order.id];
        forall id {
          FindAfterAppend(orders, OrderKey, order, id);
        }
        orders := orders + [order];
        match reply
        case Success(info) => r := Success(Created(order, info, Succeeded));
        case Failure(e) => r := Failure(e);
    }
  }
}
