/** `PaymentService` (backend/src/services/payment.service.ts): order
    creation, the payment provider's callback and the subscription check,
    over the order and user tables. The tables are maps keyed by id;
    `OrderModel.create`, `OrderModel.updateStatus` and
    `UserModel.updateProStatus` are writes to them. Times are milliseconds
    since the epoch, with "now" passed in. */
module PaymentService {

  import opened Wrappers
  import opened ChatTypes

  /** `expiresAt.setDate(expiresAt.getDate() + 30)`, taken as thirty days of
      milliseconds. */
  const THIRTY_DAYS: int := 30 * 86400000
  const WECHAT_PREFIX: string := "ORDER_"
  const SANDBOX_QR: string := "https://api.mch.weixin.qq.com/sandbox/pay/qrcode?order_id="
  const QR_UNAVAILABLE: string := "微信支付集成需要实现统一下单API"
  const ORDER_MISSING: string := "订单不存在"
  const USER_MISSING: string := "用户不存在"
  const PAID_CODE: string := "SUCCESS"

  datatype OrderStatus = Pending | Paid | Failed | Refunded

  /** A row of the orders table. */
  datatype Order = Order(
    id: string,
    userId: string,
    amount: real,
    status: OrderStatus,
    wechatOrderId: Option<string>,
    wechatTransactionId: Option<string>,
    createdAt: int,
    paidAt: Option<int>,
    expiresAt: Option<int>)

  /** What `createOrder` returns. */
  datatype PaymentOrder = PaymentOrder(orderId: string, qrCode: string, amount: real)

  /** The fields of the callback payload that are read. */
  datatype CallbackData = CallbackData(outTradeNo: string, transactionId: Option<string>, resultCode: string)

  /** What `getSubscriptionStatus` returns. */
  datatype Subscription = Subscription(isPro: bool, expiresAt: Option<int>)

  /** The outcome of an operation and the tables it leaves. */
  datatype Created = Created(result: Result<PaymentOrder>, orders: map<string, Order>)
  datatype Effect = Effect(result: Result<()>, orders: map<string, Order>, users: map<string, User>)
  datatype Checked = Checked(result: Result<Subscription>, users: map<string, User>)

  /** Every order is stored under its own id, and the only provider order id
      an order ever gets is `ORDER_` followed by its id. */
  predicate WellKeyed(orders: map<string, Order>) {
    forall id :: id in orders ==>
      orders[id].id == id && (orders[id].wechatOrderId.Some? ==> orders[id].wechatOrderId.value == WECHAT_PREFIX + id)
  }

  // ---------------------------------------------------------------------
  // The table operations.

  /** `value || null`, then `COALESCE(value, current)`. */
  function Coalesce(value: Option<string>, current: Option<string>): (r: Option<string>)
    ensures r == value || r == current
    ensures r.Some? && r.value == "" ==> r == current
  {
    if value.Some? && value.value != "" then value else current
  }

  /** `OrderModel.updateStatus(id, status, wechatOrderId, transactionId)` on
      one row: the status is set, the two ids only when given, and `paid_at`
      only when the new status is paid. */
  function ApplyStatus(o: Order, status: OrderStatus, wechatOrderId: Option<string>, transactionId: Option<string>, now: int): (r: Order)
    ensures r.status == status && r.id == o.id && r.userId == o.userId && r.expiresAt == o.expiresAt
    ensures r.paidAt == (if status == Paid then Some(now) else o.paidAt)
    ensures r.wechatOrderId == Coalesce(wechatOrderId, o.wechatOrderId)
    ensures r.wechatTransactionId == Coalesce(transactionId, o.wechatTransactionId)
    ensures r.(status := o.status, wechatOrderId := o.wechatOrderId, wechatTransactionId := o.wechatTransactionId, paidAt := o.paidAt) == o
  {
    o.(status := status,
       wechatOrderId := Coalesce(wechatOrderId, o.wechatOrderId),
       wechatTransactionId := Coalesce(transactionId, o.wechatTransactionId),
       paidAt := if status == Paid then Some(now) else o.paidAt)
  }

  /** `UserModel.updateProStatus(id, isPro, expiresAt)`: an update of a
      missing user touches no row. */
  function SetPro(users: map<string, User>, id: string, isPro: bool, expiresAt: Option<int>): (r: map<string, User>)
    ensures r.Keys == users.Keys
    ensures forall u :: u in users && u != id ==> r[u] == users[u]
    ensures id in users ==> r[id] == users[id].(isPro := isPro, proExpiresAt := expiresAt)
  {
    if id in users then users[id := users[id].(isPro := isPro, proExpiresAt := expiresAt)] else users
  }

  /** `OrderModel.findByWechatOrderId(wechatOrderId)`: since a provider order
      id names its order, the lookup reads the order id back out of it. */
  function FindByWechatOrderId(orders: map<string, Order>, wechatOrderId: string): (r: Option<string>)
    requires WellKeyed(orders)
    ensures r.Some? ==> r.value in orders && orders[r.value].wechatOrderId == Some(wechatOrderId)
    ensures r.None? ==> forall id :: id in orders ==> orders[id].wechatOrderId != Some(wechatOrderId)
  {
    var n := |WECHAT_PREFIX|;
    if |wechatOrderId| >= n && wechatOrderId[..n] == WECHAT_PREFIX
      && wechatOrderId[n..] in orders && orders[wechatOrderId[n..]].wechatOrderId == Some(wechatOrderId)
    then Some(wechatOrderId[n..])
    else
      assert forall id :: id in orders ==> orders[id].wechatOrderId != Some(wechatOrderId) by {
        forall id | id in orders
          ensures (WECHAT_PREFIX + id)[n..] == id
        {
        }
      }
      None
  }

  // ---------------------------------------------------------------------
  // The service, as functions of the tables.

  /** `generateWechatQRCode(orderId, amount)`: a sandbox URL that carries the
      provider order id; outside the sandbox the integration is missing and
      it throws. */
  function QrCode(wechatOrderId: string, sandbox: bool): (r: Result<string>)
    ensures r.Success? <==> sandbox
    ensures r.Failure? ==> r.message == QR_UNAVAILABLE
    ensures r.Success? ==> |r.value| == |SANDBOX_QR| + |wechatOrderId| && r.value[|SANDBOX_QR|..] == wechatOrderId
  {
    if sandbox then Success(SANDBOX_QR + wechatOrderId) else Failure(QR_UNAVAILABLE)
  }

  /** The row `OrderModel.create` inserts: no provider ids yet, expiring
      thirty days after `now`. `id` is the key the database assigns. */
  function NewOrder(id: string, userId: string, amount: real, now: int): (o: Order)
    ensures o.id == id && o.userId == userId && o.amount == amount
    ensures o.expiresAt == Some(now + THIRTY_DAYS) && o.wechatOrderId.None? && o.paidAt.None?
  {
    Order(id, userId, amount, Pending, None, None, now, None, Some(now + THIRTY_DAYS))
  }

  /** `createOrder(userId, amount)`: the order is inserted first; then the QR
      code is generated, and only if that succeeds is the order given its
      provider id. */
  function CreateOrderEffect(orders: map<string, Order>, userId: string, amount: real, newId: string, now: int, sandbox: bool): (e: Created)
    ensures e.orders.Keys == orders.Keys + {newId}
    ensures forall id :: id in orders && id != newId ==> e.orders[id] == orders[id]
    ensures e.orders[newId].userId == userId && e.orders[newId].amount == amount
      && e.orders[newId].expiresAt == Some(now + THIRTY_DAYS) && e.orders[newId].status == Pending
      && e.orders[newId].paidAt.None?
    ensures e.result.Success? <==> sandbox
    ensures sandbox ==>
      e.orders[newId].wechatOrderId == Some(WECHAT_PREFIX + newId)
      && e.result.value == PaymentOrder(newId, SANDBOX_QR + WECHAT_PREFIX + newId, amount)
    ensures !sandbox ==> e.orders[newId].wechatOrderId.None? && e.result == Failure(QR_UNAVAILABLE)
  {
    var created := orders[newId := NewOrder(newId, userId, amount, now)];
    var wechatOrderId := WECHAT_PREFIX + newId;
    match QrCode(wechatOrderId, sandbox)
    case Failure(m) => Created(Failure(m), created)
    case Success(qr) =>
      Created(Success(PaymentOrder(newId, qr, amount)),
              created[newId := ApplyStatus(created[newId], Pending, Some(wechatOrderId), None, now)])
  }

  /** The status a callback records: paid exactly when the result code is
      `SUCCESS`, failed otherwise. */
  function CallbackStatus(resultCode: string): (s: OrderStatus)
    ensures s == Paid <==> resultCode == PAID_CODE
    ensures s == Paid || s == Failed
  {
    if resultCode == PAID_CODE then Paid else Failed
  }

  /** `handleWechatCallback(data)`: an unknown provider order id throws; an
      order already paid is left alone; otherwise the order takes the
      callback's status and transaction id, and a paid one makes its user
      Pro until the order's expiry. */
  function CallbackEffect(orders: map<string, Order>, users: map<string, User>, data: CallbackData, now: int): (e: Effect)
    requires WellKeyed(orders)
    ensures WellKeyed(e.orders)
    ensures e.orders.Keys == orders.Keys && e.users.Keys == users.Keys
  {
    var status := CallbackStatus(data.resultCode);
    match FindByWechatOrderId(orders, data.outTradeNo)
    case None => Effect(Failure(ORDER_MISSING), orders, users)
    case Some(id) =>
      var o := orders[id];
      if o.status == Paid then Effect(Success(()), orders, users)
      else
        Effect(Success(()),
               orders[id := ApplyStatus(o, status, Some(data.outTradeNo), data.transactionId, now)],
               if status == Paid then SetPro(users, o.userId, true, o.expiresAt) else users)
  }

  /** `getSubscriptionStatus(userId)`: an unknown user throws; a Pro expiry
      in the past is cleared, in the table and in the answer; otherwise the
      stored values are returned. */
  function SubscriptionEffect(users: map<string, User>, userId: string, now: int): (e: Checked)
    ensures e.users.Keys == users.Keys
    ensures e.result.Failure? <==> userId !in users
    ensures e.result.Success? ==> e.result.value.expiresAt.None? || e.result.value.expiresAt.value >= now
    ensures userId !in users ==> e.users == users
    ensures userId in users && (users[userId].proExpiresAt.None? || users[userId].proExpiresAt.value >= now) ==>
      e.result == Success(Subscription(users[userId].isPro, users[userId].proExpiresAt)) && e.users == users
  {
    if userId !in users then Checked(Failure(USER_MISSING), users)
    else
      var u := users[userId];
      if u.proExpiresAt.Some? && u.proExpiresAt.value < now then
        Checked(Success(Subscription(false, None)), SetPro(users, userId, false, None))
      else Checked(Success(Subscription(u.isPro, u.proExpiresAt)), users)
  }

  // ---------------------------------------------------------------------
  // The service, as it updates the tables step by step.

  class PaymentStore {
    var orders: map<string, Order>
    var users: map<string, User>

    predicate Valid()
      reads this
    {
      WellKeyed(orders)
    }

    constructor(orders0: map<string, Order>, users0: map<string, User>)
      requires WellKeyed(orders0)
      ensures Valid() && orders == orders0 && users == users0
    {
      orders := orders0;
      users := users0;
    }

    /** `PaymentService.createOrder`; `newId` is the id the database gives
        the inserted row and `sandbox` the payment configuration's flag. */
    method CreateOrder(userId: string, amount: real, newId: string, now: int, sandbox: bool) returns (r: Result<PaymentOrder>)
      requires Valid()
      modifies this
      ensures Valid()
      ensures var e := CreateOrderEffect(old(orders), userId, amount, newId, now, sandbox);
        r == e.result && orders == e.orders
      ensures users == old(users)
    {
      var expiresAt := now + THIRTY_DAYS;
      orders := orders[newId := Order(newId, userId, amount, Pending, None, None, now, None, Some(expiresAt))];
      var wechatOrderId := WECHAT_PREFIX + newId;
      var qrCode := QrCode(wechatOrderId, sandbox);
      if qrCode.Failure? {
        return Failure(qrCode.message);
      }
      orders := orders[newId := ApplyStatus(orders[newId], Pending, Some(wechatOrderId), None, now)];
      r := Success(PaymentOrder(newId, qrCode.value, amount));
    }

    /** `PaymentService.handleWechatCallback`. */
    method HandleWechatCallback(data: CallbackData, now: int) returns (r: Result<()>)
      requires Valid()
      modifies this
      ensures Valid()
      ensures var e := CallbackEffect(old(orders), old(users), data, now);
        r == e.result && orders == e.orders && users == e.users
    {
      var wechatOrderId := data.outTradeNo;
      var status := if data.resultCode == PAID_CODE then Paid else Failed;
      var found := FindByWechatOrderId(orders, wechatOrderId);
      if found.None? {
        return Failure(ORDER_MISSING);
      }
      var order := orders[found.value];
      if order.status == Paid {
        return Success(());
      }
      orders := orders[order.id := ApplyStatus(order, status, Some(wechatOrderId), data.transactionId, now)];
      if status == Paid {
        users := SetPro(users, order.userId, true, order.expiresAt);
      }
      r := Success(());
    }

    /** `PaymentService.getSubscriptionStatus`. */
    method GetSubscriptionStatus(userId: string, now: int) returns (r: Result<Subscription>)
      requires Valid()
      modifies this
      ensures Valid()
      ensures var e := SubscriptionEffect(old(users), userId, now);
        r == e.result && users == e.users
      ensures orders == old(orders)
    {
      if userId !in users {
        return Failure(USER_MISSING);
      }
      var user := users[userId];
      if user.proExpiresAt.Some? && user.proExpiresAt.value < now {
        users := SetPro(users, userId, false, None);
        return Success(Subscription(false, None));
      }
      r := Success(Subscription(user.isPro, user.proExpiresAt));
    }
  }

  // ---------------------------------------------------------------------
  // Properties.

  /** The tables stay well keyed through order creation. */
  lemma CreateKeepsWellKeyed(orders: map<string, Order>, userId: string, amount: real, newId: string, now: int, sandbox: bool)
    requires WellKeyed(orders)
    ensures WellKeyed(CreateOrderEffect(orders, userId, amount, newId, now, sandbox).orders)
  {
  }

  /** The QR code of a sandbox order names the order: stripping the URL and
      the prefix gives back its id. */
  lemma QrCodeNamesOrder(orders: map<string, Order>, userId: string, amount: real, newId: string, now: int)
    ensures var r := CreateOrderEffect(orders, userId, amount, newId, now, true).result.value;
      r.qrCode[|SANDBOX_QR| + |WECHAT_PREFIX|..] == r.orderId
  {
    var r := CreateOrderEffect(orders, userId, amount, newId, now, true).result.value;
    assert r.qrCode == SANDBOX_QR + WECHAT_PREFIX + newId;
  }

  /** An order whose QR code could not be generated never got a provider
      order id, so no callback can find it. */
  lemma FailedCreationIsUnpayable(orders: map<string, Order>, userId: string, amount: real, newId: string, now: int, wechatOrderId: string)
    requires WellKeyed(orders)
    ensures var c := CreateOrderEffect(orders, userId, amount, newId, now, false).orders;
      FindByWechatOrderId(c, wechatOrderId) != Some(newId)
  {
  }

  /** A callback whose provider order id matches no order throws and changes
      nothing. */
  lemma UnknownOrderChangesNothing(orders: map<string, Order>, users: map<string, User>, data: CallbackData, now: int)
    requires WellKeyed(orders)
    requires forall id :: id in orders ==> orders[id].wechatOrderId != Some(data.outTradeNo)
    ensures CallbackEffect(orders, users, data, now) == Effect(Failure(ORDER_MISSING), orders, users)
  {
  }

  /** A callback for an order already paid succeeds and changes nothing. */
  lemma PaidOrderChangesNothing(orders: map<string, Order>, users: map<string, User>, data: CallbackData, now: int, id: string)
    requires WellKeyed(orders)
    requires id in orders && orders[id].wechatOrderId == Some(data.outTradeNo) && orders[id].status == Paid
    ensures CallbackEffect(orders, users, data, now) == Effect(Success(()), orders, users)
  {
    assert data.outTradeNo == WECHAT_PREFIX + id;
    assert data.outTradeNo[|WECHAT_PREFIX|..] == id;
  }

  /** A callback on a pending or failed order records its status (paid
      exactly when the result code is `SUCCESS`) and its transaction id;
      only a paid callback touches the users, and then it makes the
      order's user Pro until the order expires. */
  lemma CallbackUpdatesOrder(orders: map<string, Order>, users: map<string, User>, data: CallbackData, now: int, id: string)
    requires WellKeyed(orders)
    requires id in orders && orders[id].wechatOrderId == Some(data.outTradeNo) && orders[id].status != Paid
    ensures var e := CallbackEffect(orders, users, data, now);
      var uid := orders[id].userId;
      && e.result == Success(())
      && (e.orders[id].status == Paid <==> data.resultCode == PAID_CODE)
      && (e.orders[id].status == Paid ==> e.orders[id].paidAt == Some(now))
      && e.orders[id].wechatTransactionId == Coalesce(data.transactionId, orders[id].wechatTransactionId)
      && e.orders[id] == ApplyStatus(orders[id], CallbackStatus(data.resultCode), Some(data.outTradeNo), data.transactionId, now)
      && e.orders.Keys == orders.Keys
      && (forall k :: k in orders && k != id ==> e.orders[k] == orders[k])
      && (data.resultCode != PAID_CODE ==> e.users == users)
      && (data.resultCode == PAID_CODE && uid in users ==>
            e.users[uid].isPro && e.users[uid].proExpiresAt == orders[id].expiresAt)
      && (forall u :: u in users && u != uid ==> e.users[u] == users[u])
  {
    assert data.outTradeNo == WECHAT_PREFIX + id;
    assert data.outTradeNo[|WECHAT_PREFIX|..] == id;
  }

  /** Delivering the same callback twice has the effect of delivering it
      once, whatever the clock says the second time. */
  lemma CallbackIdempotent(orders: map<string, Order>, users: map<string, User>, data: CallbackData, now: int, later: int)
    requires WellKeyed(orders)
    ensures var e1 := CallbackEffect(orders, users, data, now);
      CallbackEffect(e1.orders, e1.users, data, later) == e1
  {
    var e1 := CallbackEffect(orders, users, data, now);
    match FindByWechatOrderId(orders, data.outTradeNo)
    case None =>
    case Some(id) =>
      var o := orders[id];
      if o.status != Paid {
        var o1 := e1.orders[id];
        assert o1.wechatOrderId == Some(data.outTradeNo);
        assert data.outTradeNo[|WECHAT_PREFIX|..] == id;
        assert FindByWechatOrderId(e1.orders, data.outTradeNo) == Some(id);
        if CallbackStatus(data.resultCode) != Paid {
          assert ApplyStatus(o1, Failed, Some(data.outTradeNo), data.transactionId, later) == o1;
        }
      }
  }

  /** The subscription answer never reports an expiry in the past, and an
      expired Pro user is downgraded in the table. */
  lemma ExpiredProIsDowngraded(users: map<string, User>, userId: string, now: int)
    requires userId in users && users[userId].proExpiresAt.Some? && users[userId].proExpiresAt.value < now
    ensures var e := SubscriptionEffect(users, userId, now);
      e.result == Success(Subscription(false, None))
      && !e.users[userId].isPro && e.users[userId].proExpiresAt.None?
      && forall u :: u in users && u != userId ==> e.users[u] == users[u]
  {
  }

  /** Checking the subscription twice answers the same and changes nothing
      more the second time. */
  lemma SubscriptionCheckIdempotent(users: map<string, User>, userId: string, now: int)
    ensures var e1 := SubscriptionEffect(users, userId, now);
      SubscriptionEffect(e1.users, userId, now) == e1
  {
    var e1 := SubscriptionEffect(users, userId, now);
    if userId in users {
      var u := users[userId];
      if u.proExpiresAt.Some? && u.proExpiresAt.value < now {
        assert e1.users[userId].proExpiresAt.None?;
        assert e1.users[userId := e1.users[userId].(isPro := false, proExpiresAt := None)] == e1.users;
      }
    }
  }

  /** End to end: an order created in the sandbox and paid makes its user
      Pro for the thirty days after creation. */
  lemma PaidOrderGrantsThirtyDays(orders: map<string, Order>, users: map<string, User>, userId: string, amount: real,
                                  newId: string, created: int, paid: int, checked: int, transactionId: Option<string>)
    requires WellKeyed(orders) && userId in users
    requires created <= checked <= created + THIRTY_DAYS
    ensures var c := CreateOrderEffect(orders, userId, amount, newId, created, true).orders;
      var e := CallbackEffect(c, users, CallbackData(WECHAT_PREFIX + newId, transactionId, PAID_CODE), paid);
      SubscriptionEffect(e.users, userId, checked).result == Success(Subscription(true, Some(created + THIRTY_DAYS)))
  {
    var c := CreateOrderEffect(orders, userId, amount, newId, created, true).orders;
    var data := CallbackData(WECHAT_PREFIX + newId, transactionId, PAID_CODE);
    assert data.outTradeNo[|WECHAT_PREFIX|..] == newId;
    CallbackUpdatesOrder(c, users, data, paid, newId);
  }
}
