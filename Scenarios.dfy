/**
 * Clients of `OrdersApi`: short sequences of requests against a fresh
 * service, with what a caller can conclude from the handlers' contracts.
 */
module Scenarios {
  import opened Request
  import opened OrderTable
  import opened OrdersApi

  const Now: string := "2024-05-01 12:00:00"

  function AliceBody(): Body {
    map[ClientName := Text("Alice"), PickupCode := Text("XY12"), Pvz := Text("Main St")]
  }

  lemma AliceBodyAccepted()
    ensures FirstFalsy(AliceBody(), RequiredFields) == None
    ensures Inserted(AliceBody()) == Some(InsertValues("Alice", "XY12", "Main St", ""))
  {
    assert Strings.Strip("Alice") == "Alice" && Strings.Strip("XY12") == "XY12";
    assert Strings.Strip("Main St") == "Main St";
  }

  lemma OtherBodies()
    ensures FirstFalsy(AliceBody()[ClientName := Text("   ")], RequiredFields) == None
    ensures Inserted(AliceBody()[ClientName := Text("   ")]) == Some(InsertValues("", "XY12", "Main St", ""))
    ensures FirstFalsy(map[ClientName := Text(""), Expires := Text("tomorrow")], RequiredFields) == Some(ClientName)
    ensures FirstFalsy(AliceBody()[Pvz := Null], RequiredFields) == Some(Pvz)
    ensures FirstFalsy(AliceBody()[ClientName := Number(7)], RequiredFields) == None
    ensures Inserted(AliceBody()[ClientName := Number(7)]) == None
  {
    AliceBodyAccepted();
    Strings.StripEmptyIff("   ");
    var blank := AliceBody()[ClientName := Text("   ")];
    var numeric := AliceBody()[ClientName := Number(7)];
    FirstFalsyIsFirst(blank, RequiredFields);
    FirstFalsyIsFirst(numeric, RequiredFields);
    assert Truthy(Get(blank, RequiredFields[0])) && Truthy(Get(numeric, RequiredFields[0]));
    var noPvz := AliceBody()[Pvz := Null];
    assert RequiredFields[1..] == [PickupCode, Pvz] && RequiredFields[1..][1..] == [Pvz];
    assert FirstFalsy(noPvz, [Pvz]) == Some(Pvz);
    assert FirstFalsy(noPvz, [PickupCode, Pvz]) == Some(Pvz);
  }

  /** Register Alice's order, hand it out, then record the payment: the first
      id is 1, and at the end the row is picked up and paid. */
  method EndToEnd() returns (created: CreateResult, picked: TransitionResult,
                             paid: PaymentResult, after: Lookup)
    ensures created == CreateOk(1, QrPayload(1, "Alice", "XY12"))
    ensures picked == Transitioned(1, PickedUp)
    ensures paid == PaymentOk(Number(1))
    ensures after == Found(Order(1, "Alice", "XY12", "Main St", "", Now, PickedUp, true))
  {
    var api;
    api, created := AliceCreated("", "", true);
    var row := AliceRow();
    picked := api.Pickup(1, true);
    assert api.rows == map[1 := row.(status := PickedUp)];
    paid := api.PaymentCallback(map[OrderId := Number(1)], true);
    assert api.rows == map[1 := row.(status := PickedUp, paid := true)];
    after := api.GetOrder(1);
  }

  /** Three orders created in turn get ids 1, 2, 3 and are listed 3, 2, 1. */
  method ListedNewestFirst() returns (ids: seq<int>)
    ensures ids == [3, 2, 1]
  {
    var api := ThreeOrders();
    var listed := api.Orders();
    assert |listed| == 3;
    assert Ids(listed) == {1, 2, 3};
    assert listed[0].id in {1, 2, 3} && listed[1].id in {1, 2, 3} && listed[2].id in {1, 2, 3};
    assert listed[0].id > listed[1].id > listed[2].id;
    ids := [listed[0].id, listed[1].id, listed[2].id];
  }

  /** A fresh service after three creates: rows 1, 2 and 3. */
  method ThreeOrders() returns (api: OrdersApi)
    ensures fresh(api) && api.Valid()
    ensures api.rows.Keys == {1, 2, 3}
  {
    api := new OrdersApi("", "");
    AddAlice(api);
    AddAlice(api);
    AddAlice(api);
  }

  /** One more create of Alice's order takes the next id. */
  method AddAlice(api: OrdersApi)
    requires api.Valid() && api.lastId < MaxRowId
    modifies api
    ensures api.Valid()
    ensures api.rows.Keys == old(api.rows.Keys) + {old(api.lastId) + 1}
    ensures api.lastId == old(api.lastId) + 1
  {
    AliceBodyAccepted();
    var r := api.CreateOrder(AliceBody(), Now, true);
  }

  /** A whitespace-only name passes the required-field check and is stored
      as the empty string, while the QR payload keeps it as sent. */
  method WhitespaceNameStoredEmpty() returns (created: CreateResult, stored: Lookup)
    ensures created == CreateOk(1, QrPayload(1, "   ", "XY12"))
    ensures stored.Found? && stored.order.clientName == "" && stored.order.pvz == "Main St"
  {
    var api := new OrdersApi("", "");
    var body := AliceBody()[ClientName := Text("   ")];
    OtherBodies();
    created := api.CreateOrder(body, Now, true);
    stored := api.GetOrder(1);
  }

  /** The fields are checked in order and the first falsy one is reported;
      nothing is stored. */
  method FirstMissingFieldReported() returns (r1: CreateResult, r2: CreateResult, listed: seq<Order>)
    ensures r1 == MissingField(ClientName)
    ensures r2 == MissingField(Pvz)
    ensures listed == []
  {
    var api := new OrdersApi("", "");
    OtherBodies();
    r1 := api.CreateOrder(map[ClientName := Text(""), Expires := Text("tomorrow")], Now, true);
    r2 := api.CreateOrder(AliceBody()[Pvz := Null], Now, true);
    listed := api.Orders();
  }

  /** A required value that is truthy but not text passes the check and makes
      the handler raise before anything is stored. */
  method NonTextNameFails() returns (r: CreateResult, next: CreateResult)
    ensures r == CreateFailed
    ensures next.CreateOk? && next.orderId == 1
  {
    var api := new OrdersApi("", "");
    AliceBodyAccepted();
    OtherBodies();
    r := api.CreateOrder(AliceBody()[ClientName := Number(7)], Now, true);
    next := api.CreateOrder(AliceBody(), Now, true);
  }

  /** `order_id` 0 counts as missing: rejected, and the row stays unpaid. */
  method ZeroOrderIdRejected() returns (r: PaymentResult, stored: Lookup)
    ensures r == MissingOrderId
    ensures stored.Found? && !stored.order.paid
  {
    var api, created := AliceCreated("token", "chat", true);
    r := api.PaymentCallback(map[OrderId := Number(0)], true);
    assert api.sent == [Attempt(NewOrder(1, "Alice", "Main St", "XY12"), true)];
    stored := api.GetOrder(1);
  }

  /** A failed notification changes neither the reported result nor the
      stored change; the attempt is only logged. */
  method NotifierFailureIgnored() returns (picked: TransitionResult, paid: PaymentResult, stored: Lookup)
    ensures picked == Transitioned(1, PickedUp)
    ensures paid == PaymentOk(Text("1"))
    ensures stored.Found? && stored.order.status == PickedUp && stored.order.paid
  {
    var api, created := AliceCreated("token", "chat", false);
    picked := api.Pickup(1, false);
    assert Bind(Text("1")) == RowId(1);
    paid := api.PaymentCallback(map[OrderId := Text("1")], false);
    assert api.sent == [Attempt(NewOrder(1, "Alice", "Main St", "XY12"), false),
                        Attempt(OrderPickedUp(1), false),
                        Attempt(PaymentReceived(Text("1")), false)];
    stored := api.GetOrder(1);
  }

  /** Transitions on an unknown id report success and create nothing. */
  method UnknownIdIsNoOp() returns (accepted: TransitionResult, paid: PaymentResult, found: Lookup)
    ensures accepted == Transitioned(42, Delivered)
    ensures paid == PaymentOk(Number(42))
    ensures found == NotFound
  {
    var api := new OrdersApi("", "");
    accepted := api.Accept(42);
    paid := api.PaymentCallback(map[OrderId := Number(42)], true);
    found := api.GetOrder(42);
  }

  /** A path id past the 64-bit range makes every id handler fail, and
      nothing changes. */
  method OversizedIdFails() returns (found: Lookup, accepted: TransitionResult, picked: TransitionResult)
    ensures found == LookupFailed
    ensures accepted == TransitionFailed && picked == TransitionFailed
  {
    var api := new OrdersApi("", "");
    var id := MaxRowId + 1;
    found := api.GetOrder(id);
    accepted := api.Accept(id);
    picked := api.Pickup(id, true);
  }

  /** Accepting twice, or after pickup, leaves the status `delivered` and the
      `paid` flag as it was. */
  method AcceptIsIdempotent() returns (first: Lookup, second: Lookup)
    ensures first.Found? && first.order.status == Delivered && first.order.paid
    ensures second == first
  {
    var api := PickedUpAndPaid();
    var a1 := api.Accept(1);
    assert api.rows == map[1 := AliceRow().(status := Delivered, paid := true)];
    first := api.GetOrder(1);
    var a2 := api.Accept(1);
    assert api.rows == map[1 := AliceRow().(status := Delivered, paid := true)];
    second := api.GetOrder(1);
  }

  /** The row Alice's order is first stored as. */
  function AliceRow(): Order {
    Order(1, "Alice", "XY12", "Main St", "", Now, Created, false)
  }

  /** A fresh service after Alice's order was created. */
  method AliceCreated(botToken: string, chatId: string, delivered: bool)
    returns (api: OrdersApi, created: CreateResult)
    ensures fresh(api) && api.Valid()
    ensures api.botToken == botToken && api.chatId == chatId
    ensures api.rows == map[1 := AliceRow()] && api.lastId == 1
    ensures created == CreateOk(1, QrPayload(1, "Alice", "XY12"))
    ensures api.sent == api.Announce(NewOrder(1, "Alice", "Main St", "XY12"), delivered)
  {
    api := new OrdersApi(botToken, chatId);
    AliceBodyAccepted();
    created := api.CreateOrder(AliceBody(), Now, delivered);
  }

  /** A fresh service on which Alice's order was created, handed out and
      paid for (the payment's `order_id` sent as `true`, which binds as 1). */
  method PickedUpAndPaid() returns (api: OrdersApi)
    ensures fresh(api) && api.Valid()
    ensures api.rows == map[1 := AliceRow().(status := PickedUp, paid := true)]
  {
    var created;
    api, created := AliceCreated("", "", true);
    var picked := api.Pickup(1, true);
    assert api.rows == map[1 := AliceRow().(status := PickedUp)];
    assert Bind(Boolean(true)) == RowId(1);
    var paid := api.PaymentCallback(map[OrderId := Boolean(true)], true);
  }
}
