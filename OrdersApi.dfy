/**
 * The orders service: the `orders` table with its AUTOINCREMENT counter, the
 * Telegram configuration, and one method per route handler. Each handler
 * runs its single statement against the table and then, where the source
 * does, sends one best-effort notification.
 */
module OrdersApi {
  import opened Strings
  import opened Request
  import opened OrderTable

  /** The largest rowid SQLite hands out; AUTOINCREMENT fails past it. */
  const MaxRowId: int := 0x7FFF_FFFF_FFFF_FFFF

  /** The events the service announces, one per message text it formats.
      `NewOrder` carries the values as the client sent them (not stripped);
      `PaymentReceived` carries the `order_id` value exactly as received. */
  datatype Notification =
    | NewOrder(id: int, clientName: string, pvz: string, pickupCode: string)
    | OrderPickedUp(id: int)
    | PaymentReceived(orderId: Json)

  /** One attempt to post a message; `delivered` is false when the HTTP call
      raised and the failure was only logged. */
  datatype Attempt = Attempt(message: Notification, delivered: bool)

  /** The payload the client renders as a QR code, built from the raw input. */
  datatype QrPayload = QrPayload(id: int, clientName: string, pickupCode: string)

  datatype CreateResult =
    | CreateOk(orderId: int, qr: QrPayload)
    | MissingField(field: Field)     // 400 "'<field>' is required"
    | CreateFailed                    // an exception escaped the handler (500)

  datatype Lookup =
    | Found(order: Order)
    | NotFound                        // 404 "not_found"
    | LookupFailed                    // the path id does not fit in a 64-bit parameter (500)

  datatype TransitionResult =
    | Transitioned(orderId: nat, status: Status)
    | TransitionFailed                // the path id does not fit in a 64-bit parameter (500)

  datatype PaymentResult =
    | PaymentOk(orderId: Json)
    | MissingOrderId                  // 400 "order_id missing"
    | PaymentFailed                   // the order_id value could not be bound (500)

  /** The four values the INSERT of `create_order` binds. */
  datatype InsertValues = InsertValues(clientName: string, pickupCode: string, pvz: string, expires: string)

  /** Evaluates the INSERT's parameter tuple: each required value stripped,
      `expires` stripped or "" when falsy; `None` when an evaluation raises
      (a required value, or a truthy `expires`, that is not text). */
  function Inserted(data: Body): Option<InsertValues> {
    var name := StrippedText(Get(data, ClientName));
    var code := StrippedText(Get(data, PickupCode));
    var pvz := StrippedText(Get(data, Pvz));
    var expires := StrippedOrEmpty(Get(data, Expires));
    if name.Some? && code.Some? && pvz.Some? && expires.Some? then
      Some(InsertValues(name.value, code.value, pvz.value, expires.value))
    else None
  }

  /** The row the INSERT creates under rowid `id`, with the column defaults. */
  function NewRow(v: InsertValues, id: int, createdAt: string): Order {
    Order(id, v.clientName, v.pickupCode, v.pvz, v.expires, createdAt, Created, false)
  }

  /** The INSERT's values exist exactly when the three required values and any
      truthy `expires` are text. Each stored value is then its raw text with
      the surrounding whitespace cut off, so it is "" exactly when the raw
      text is all whitespace; a falsy `expires` is stored as "". */
  lemma InsertedValues(data: Body)
    ensures Inserted(data).Some? <==>
            Get(data, ClientName).Text? && Get(data, PickupCode).Text? &&
            Get(data, Pvz).Text? &&
            (Truthy(Get(data, Expires)) ==> Get(data, Expires).Text?)
    ensures Inserted(data).Some? ==>
            var v := Inserted(data).value;
            && StrippedFrom(v.clientName, Get(data, ClientName).s)
            && StrippedFrom(v.pickupCode, Get(data, PickupCode).s)
            && StrippedFrom(v.pvz, Get(data, Pvz).s)
            && (!Truthy(Get(data, Expires)) ==> v.expires == "")
            && (Truthy(Get(data, Expires)) ==> StrippedFrom(v.expires, Get(data, Expires).s))
  {
    if Inserted(data).Some? {
      StripIsStrippedFrom(Get(data, ClientName).s);
      StripIsStrippedFrom(Get(data, PickupCode).s);
      StripIsStrippedFrom(Get(data, Pvz).s);
      if Truthy(Get(data, Expires)) {
        StripIsStrippedFrom(Get(data, Expires).s);
      }
    }
  }

  /** The loop of `create_order` over the required fields, returning at the
      first one whose value is falsy. */
  method CheckRequired(data: Body) returns (missing: Option<Field>)
    ensures missing == FirstFalsy(data, RequiredFields)
    ensures missing.None? <==> forall i :: 0 <= i < |RequiredFields| ==> Truthy(Get(data, RequiredFields[i]))
  {
    FirstFalsyIsFirst(data, RequiredFields);
    for i := 0 to |RequiredFields|
      invariant FirstFalsy(data, RequiredFields) == FirstFalsy(data, RequiredFields[i..])
    {
      var f := RequiredFields[i];
      if !Truthy(Get(data, f)) {
        return Some(f);
      }
      assert RequiredFields[i..][1..] == RequiredFields[i + 1..];
    }
    return None;
  }

  class OrdersApi {
    /** The rows of the `orders` table. */
    var rows: Table
    /** The largest rowid ever issued (SQLite's `sqlite_sequence` entry). */
    var lastId: int
    /** TG_BOT_TOKEN and TG_CHAT_ID, read once from the environment. */
    const botToken: string
    const chatId: string
    /** Every message the service has tried to post, in order. */
    ghost var sent: seq<Attempt>

    ghost predicate Valid()
      reads this
    {
      && 0 <= lastId <= MaxRowId
      && Keyed(rows)
      && forall k :: k in rows ==> 1 <= k <= lastId
    }

    /** The notifier is configured when both credentials are non-empty. */
    predicate Configured() {
      botToken != "" && chatId != ""
    }

    /** What one call of the notifier adds to the log. */
    ghost function Announce(n: Notification, delivered: bool): seq<Attempt> {
      if Configured() then [Attempt(n, delivered)] else []
    }

    /** A fresh, empty table (`init_db` on a new database file). */
    constructor (botToken: string, chatId: string)
      ensures Valid()
      ensures this.botToken == botToken && this.chatId == chatId
      ensures rows == map[] && lastId == 0 && sent == []
    {
      this.botToken := botToken;
      this.chatId := chatId;
      rows := map[];
      lastId := 0;
      sent := [];
    }

    /** `send_telegram_message`: a silent no-op when unconfigured, otherwise
        one attempt whose failure (`!delivered`, the network's answer) is
        swallowed. It never fails and touches nothing but the log. */
    method SendTelegramMessage(n: Notification, delivered: bool)
      modifies this`sent
      ensures sent == old(sent) + Announce(n, delivered)
    {
      if Configured() {
        sent := sent + [Attempt(n, delivered)];
      }
    }

    /** `POST /create`. `createdAt` stands for CURRENT_TIMESTAMP and
        `delivered` for the outcome of the notification's HTTP call. */
    method CreateOrder(data: Body, createdAt: string, delivered: bool) returns (r: CreateResult)
      requires Valid()
      modifies this`rows, this`lastId, this`sent
      ensures Valid()
      // The required fields are checked first, in order; the first falsy one is reported.
      ensures r.MissingField? <==> FirstFalsy(data, RequiredFields).Some?
      ensures r.MissingField? ==> r.field == FirstFalsy(data, RequiredFields).value
      // A value that cannot be stripped, or an exhausted rowid space, raises.
      ensures r.CreateFailed? <==>
              FirstFalsy(data, RequiredFields).None? &&
              (Inserted(data).None? || old(lastId) == MaxRowId)
      // Every failure leaves the table, the counter and the log as they were.
      ensures !r.CreateOk? ==> rows == old(rows) && lastId == old(lastId) && sent == old(sent)
      // Success: a new id above every id issued before, a new row, defaults,
      // the QR payload and notification from the raw values.
      ensures r.CreateOk? ==>
              && r.orderId == old(lastId) + 1 == lastId
              && (forall k :: k in old(rows) ==> k < r.orderId)
              && Inserted(data).Some?
              && rows == old(rows)[r.orderId := NewRow(Inserted(data).value, r.orderId, createdAt)]
              && r.qr == QrPayload(r.orderId, Get(data, ClientName).s, Get(data, PickupCode).s)
              && sent == old(sent) + Announce(NewOrder(r.orderId, Get(data, ClientName).s,
                                                       Get(data, Pvz).s,
                                                       Get(data, PickupCode).s), delivered)
    {
      var missing := CheckRequired(data);
      if missing.Some? {
        return MissingField(missing.value);
      }
      var id := InsertRow(data, createdAt);
      if id.None? {
        return CreateFailed;
      }
      var name, pvz, code := Get(data, ClientName).s, Get(data, Pvz).s, Get(data, PickupCode).s;
      SendTelegramMessage(NewOrder(id.value, name, pvz, code), delivered);
      r := CreateOk(id.value, QrPayload(id.value, name, code));
    }

    /** The INSERT of `create_order`: evaluates the stripped values, then
        takes the next AUTOINCREMENT rowid. Either step may raise, and then
        nothing changes. */
    method InsertRow(data: Body, createdAt: string) returns (id: Option<int>)
      requires Valid()
      modifies this`rows, this`lastId
      ensures Valid()
      ensures id.None? <==> Inserted(data).None? || old(lastId) == MaxRowId
      ensures id.None? ==> rows == old(rows) && lastId == old(lastId)
      ensures id.Some? ==>
              && id.value == old(lastId) + 1 == lastId
              && (forall k :: k in old(rows) ==> k < id.value)
              && Inserted(data).Some?
              && rows == old(rows)[id.value := NewRow(Inserted(data).value, id.value, createdAt)]
    {
      var values := Inserted(data);
      if values.None? || lastId == MaxRowId {
        return None;
      }
      rows := rows[lastId + 1 := NewRow(values.value, lastId + 1, createdAt)];
      lastId := lastId + 1;
      id := Some(lastId);
    }

    /** `GET /orders`: every row once, highest id first. */
    function Orders(): (r: seq<Order>)
      reads this
      requires Valid()
      ensures IsListing(rows, r)
      ensures |r| == |rows|
    {
      ListingIsListing(rows, lastId);
      ListingLength(rows, Listing(rows, lastId));
      Listing(rows, lastId)
    }

    /** `GET /order/<id>`: the stored row, or not found. An id that does not
        fit in 64 bits makes the driver raise. */
    function GetOrder(orderId: nat): (r: Lookup)
      reads this
      requires Valid()
      ensures r.LookupFailed? <==> orderId > MaxRowId
      ensures r.Found? <==> orderId in rows
      ensures r.Found? ==> r.order == rows[orderId] && r.order.id == orderId
    {
      if orderId > MaxRowId then LookupFailed
      else if orderId in rows then Found(rows[orderId])
      else NotFound
    }

    /** `POST /accept/<id>`: status becomes `delivered` whatever it was; no
        notification. An id that does not fit in 64 bits makes the driver
        raise before anything happens. */
    method Accept(orderId: nat) returns (r: TransitionResult)
      requires Valid()
      modifies this`rows
      ensures Valid()
      ensures rows == SetStatus(old(rows), orderId, Delivered)
      ensures r.Transitioned? <==> orderId <= MaxRowId
      ensures r.Transitioned? ==> r == Transitioned(orderId, Delivered)
    {
      if orderId > MaxRowId {
        return TransitionFailed;
      }
      SetStatusPreservesKeyed(rows, orderId, Delivered);
      rows := SetStatus(rows, orderId, Delivered);
      r := Transitioned(orderId, Delivered);
    }

    /** `POST /pickup/<id>`: status becomes `picked_up` whatever it was,
        then one pickup notification, whose outcome does not matter. */
    method Pickup(orderId: nat, delivered: bool) returns (r: TransitionResult)
      requires Valid()
      modifies this`rows, this`sent
      ensures Valid()
      ensures rows == SetStatus(old(rows), orderId, PickedUp)
      ensures r.Transitioned? <==> orderId <= MaxRowId
      ensures r.Transitioned? ==> r == Transitioned(orderId, PickedUp)
      ensures sent == old(sent) + (if r.Transitioned? then Announce(OrderPickedUp(orderId), delivered) else [])
    {
      if orderId > MaxRowId {
        return TransitionFailed;
      }
      SetStatusPreservesKeyed(rows, orderId, PickedUp);
      rows := SetStatus(rows, orderId, PickedUp);
      SendTelegramMessage(OrderPickedUp(orderId), delivered);
      r := Transitioned(orderId, PickedUp);
    }

    /** `POST /payment_callback`: a falsy `order_id` (missing, null, 0,
        false, "") is rejected; otherwise `paid` is set on the row it selects
        (status untouched), and one payment notification follows. */
    method PaymentCallback(data: Body, delivered: bool) returns (r: PaymentResult)
      requires Valid()
      modifies this`rows, this`sent
      ensures Valid()
      ensures r.MissingOrderId? <==> !Truthy(Get(data, OrderId))
      ensures r.PaymentFailed? <==> Truthy(Get(data, OrderId)) && Bind(Get(data, OrderId)).Unbindable?
      ensures !r.PaymentOk? ==> rows == old(rows) && sent == old(sent)
      ensures r.PaymentOk? ==>
              && r.orderId == Get(data, OrderId)
              && rows == (match Bind(r.orderId)
                          case RowId(id) => SetPaid(old(rows), id)
                          case _ => old(rows))
              && sent == old(sent) + Announce(PaymentReceived(r.orderId), delivered)
    {
      var orderId := Get(data, OrderId);
      if !Truthy(orderId) {
        return MissingOrderId;
      }
      match Bind(orderId) {
        case Unbindable =>
          return PaymentFailed;
        case RowId(id) =>
          SetPaidPreservesKeyed(rows, id);
          rows := SetPaid(rows, id);
        case NoRow =>
      }
      SendTelegramMessage(PaymentReceived(orderId), delivered);
      r := PaymentOk(orderId);
    }
  }

  /** A listing has one entry per row. */
  lemma {:induction false} ListingLength(t: Table, s: seq<Order>)
    requires DescendingById(s) && Ids(s) == t.Keys
    ensures |s| == |t|
  {
    if s == [] {
      assert t.Keys == {};
    } else {
      AfterHead(s);
      var rest := t - {s[0].id};
      assert rest.Keys == t.Keys - {s[0].id};
      ListingLength(rest, s[1..]);
    }
  }
}
