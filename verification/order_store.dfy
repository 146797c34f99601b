/** The order store of api/storage.ts:363-500: orders are created PAID, get a
    location-gated, three-minute QR code, and end COMPLETED or CANCELLED.
    Each session keeps its own newest-first list of orders, a global map keyed
    by order id holds the current version of every order, and reads of a
    session's list take each order from the global map. */
module OrderStore {
  import opened Common
  import opened Decimal

  datatype OrderStatus = Pending | Paid | QrActive | QrExpired | Completed | Cancelled

  datatype Coord = Coord(lat: real, lng: real)

  /** A line of an order, as the client sends it. */
  datatype OrderItem = OrderItem(menu: string, quantity: int, price: int)

  /** What the QR code encodes; the JSON/base64 text encoding is not modelled. */
  datatype QrPayload = QrPayload(
    orderId: string,
    orderNumber: int,
    facilityId: string,
    activatedAt: int,
    expiresAt: int)

  /** An order. Timestamps are epoch milliseconds. */
  datatype Order = Order(
    id: string,
    orderId: string,
    orderNumber: int,
    facilityId: string,
    facilityName: string,
    facilityLocation: Coord,
    cornerId: string,
    cornerType: string,
    items: seq<OrderItem>,
    totalAmount: int,
    paymentMethod: string,
    status: OrderStatus,
    qrCode: Option<QrPayload>,
    qrActivatedAt: Option<int>,
    qrExpiresAt: Option<int>,
    pickupType: string,
    pickupTime: string,
    createdAt: int,
    paidAt: Option<int>,
    completedAt: Option<int>,
    cancelledAt: Option<int>)

  /** The body of an order request. */
  datatype InsertOrder = InsertOrder(
    facilityId: string,
    facilityName: string,
    facilityLocation: Coord,
    cornerId: string,
    cornerType: string,
    items: seq<OrderItem>,
    totalAmount: int,
    paymentMethod: string,
    pickupType: string,
    pickupTime: string)

  /** A UTC calendar date with a four-digit year, as `toISOString` prints it. */
  datatype CalendarDate = CalendarDate(year: nat, month: nat, day: nat)

  type Date = d: CalendarDate | d.year <= 9999 && 1 <= d.month <= 12 && 1 <= d.day <= 31
    witness CalendarDate(1970, 1, 1)

  /** The counter's value at process start; the first order is number 1001. */
  const InitialCounter: nat := 1000

  /** How long an activated QR code is valid: 3 * 60 * 1000 ms. */
  const QrLifetimeMs: int := 3 * 60 * 1000

  /** The largest distance, in metres, from which a QR code may be activated. */
  const ActivationRadius: real := 50.0

  datatype Store = Store(
    counter: nat,
    sessions: map<string, seq<Order>>,
    all: map<string, Order>)

  function Initial(): Store {
    Store(InitialCounter, map[], map[])
  }

  /** "YYYYMMDD": the first ten characters of `toISOString()` without the
      dashes, so the year has four digits and month and day two. */
  function DateStamp(d: Date): (r: string)
    ensures |r| == 8 && AllDigits(r)
  {
    var y, m, dd := FourDigits(d.year), TwoDigits(d.month), TwoDigits(d.day);
    AllDigitsConcat(y, m);
    AllDigitsConcat(y + m, dd);
    y + m + dd
  }

  /** Reads "YYYYMMDD" back into a date. */
  function ParseDateStamp(s: string): Option<CalendarDate> {
    if |s| == 8 && AllDigits(s[..4]) && AllDigits(s[4..6]) && AllDigits(s[6..]) then
      Some(CalendarDate(Value(s[..4]), Value(s[4..6]), Value(s[6..])))
    else None
  }

  lemma DateStampRoundTrip(d: Date)
    ensures ParseDateStamp(DateStamp(d)) == Some(d)
  {
    var y, m, dd := FourDigits(d.year), TwoDigits(d.month), TwoDigits(d.day);
    var s := DateStamp(d);
    assert s == y + m + dd;
    assert s[..4] == y;
    assert s[4..6] == m;
    assert s[6..] == dd;
    FourDigitsValue(d.year);
    TwoDigitsValue(d.month);
    TwoDigitsValue(d.day);
  }

  /** `ORD_<YYYYMMDD>_<counter padded with zeros to at least six digits>`. */
  function FormatOrderId(d: Date, n: nat): (r: string)
    ensures |r| >= 19
  {
    "ORD_" + DateStamp(d) + "_" + ZeroPad(n, 6)
  }

  /** Reads an order id back into its date and counter. */
  function ParseOrderId(s: string): Option<(CalendarDate, nat)> {
    if |s| >= 14 && s[..4] == "ORD_" && s[12] == '_' then
      match (ParseDateStamp(s[4..12]), ParseNat(s[13..]))
      case (Some(d), Some(n)) => Some((d, n))
      case _ => None
    else None
  }

  /** The id of every order can be read back into the date and counter it
      was made from; in particular ids made from different counters differ. */
  lemma OrderIdRoundTrip(d: Date, n: nat)
    ensures ParseOrderId(FormatOrderId(d, n)) == Some((d, n))
  {
    var ds, p := DateStamp(d), ZeroPad(n, 6);
    var s := FormatOrderId(d, n);
    assert s == ("ORD_" + ds) + ("_" + p);
    assert |"ORD_" + ds| == 12;
    assert s[..4] == "ORD_";
    assert s[4..12] == ds;
    assert s[12] == '_';
    assert s[13..] == p;
    DateStampRoundTrip(d);
    ZeroPadRoundTrip(n, 6);
  }

  lemma OrderIdInjective(d1: Date, n1: nat, d2: Date, n2: nat)
    requires FormatOrderId(d1, n1) == FormatOrderId(d2, n2)
    ensures d1 == d2 && n1 == n2
  {
    OrderIdRoundTrip(d1, n1);
    OrderIdRoundTrip(d2, n2);
  }

  /** The store's invariant: every order sits in the global map under its own
      id, every id names a counter value already handed out, and every order
      in a session list is known to the global map. */
  ghost predicate Inv(s: Store) {
    && (forall k :: k in s.all ==> s.all[k].orderId == k && Issued(k, s.counter))
    && (forall sid, i :: sid in s.sessions && 0 <= i < |s.sessions[sid]| ==>
          s.sessions[sid][i].orderId in s.all)
  }

  /** `k` is an order id made from a counter value at most `counter`. */
  ghost predicate Issued(k: string, counter: nat) {
    ParseOrderId(k).Some? && ParseOrderId(k).value.1 <= counter
  }

  function SessionOrders(s: Store, session: string): (r: seq<Order>)
    ensures session in s.sessions ==> r == s.sessions[session]
    ensures session !in s.sessions ==> r == []
  {
    if session in s.sessions then s.sessions[session] else []
  }

  /** `createOrder`: take the next counter value and record a PAID order with
      no QR state, at the head of the session's list and in the global map.
      `id`, `now` and `today` stand for the UUID, the clock and its UTC date. */
  function CreateOrder(s: Store, session: string, data: InsertOrder, id: string, now: int, today: Date)
    : (r: (Order, Store))
    ensures r.1.counter == s.counter + 1
    ensures r.0.orderNumber == r.1.counter
    ensures r.0.orderId == FormatOrderId(today, r.1.counter)
    ensures r.0.id == id
    ensures r.0.status == Paid
    ensures r.0.qrCode.None? && r.0.qrActivatedAt.None? && r.0.qrExpiresAt.None?
    ensures r.0.completedAt.None? && r.0.cancelledAt.None?
    ensures r.0.createdAt == now && r.0.paidAt == Some(now)
    ensures r.0.facilityId == data.facilityId && r.0.facilityName == data.facilityName
    ensures r.0.facilityLocation == data.facilityLocation
    ensures r.0.cornerId == data.cornerId && r.0.cornerType == data.cornerType
    ensures r.0.items == data.items && r.0.totalAmount == data.totalAmount
    ensures r.0.paymentMethod == data.paymentMethod
    ensures r.0.pickupType == data.pickupType && r.0.pickupTime == data.pickupTime
    ensures r.1.sessions == s.sessions[session := [r.0] + SessionOrders(s, session)]
    ensures r.1.all == s.all[r.0.orderId := r.0]
  {
    var n := s.counter + 1;
    var orderId := FormatOrderId(today, n);
    var o := Order(
      id, orderId, n, data.facilityId, data.facilityName, data.facilityLocation,
      data.cornerId, data.cornerType, data.items, data.totalAmount, data.paymentMethod,
      Paid, None, None, None, data.pickupType, data.pickupTime,
      now, Some(now), None, None);
    (o, Store(n, s.sessions[session := [o] + SessionOrders(s, session)], s.all[orderId := o]))
  }

  /** The current version of an order: the global map's, when it has one. */
  function Latest(s: Store, o: Order): Order {
    if o.orderId in s.all then s.all[o.orderId] else o
  }

  /** `getOrders`: the session's list, each order replaced by the global
      map's version of it. */
  function GetOrders(s: Store, session: string): (r: seq<Order>)
    ensures |r| == |SessionOrders(s, session)|
    ensures forall i :: 0 <= i < |r| ==>
              var o := SessionOrders(s, session)[i];
              o.orderId !in s.all ==> r[i] == o
    ensures forall i :: 0 <= i < |r| ==>
              var o := SessionOrders(s, session)[i];
              o.orderId in s.all ==> r[i] == s.all[o.orderId]
  {
    var list := SessionOrders(s, session);
    seq(|list|, i requires 0 <= i < |list| => Latest(s, list[i]))
  }

  /** `getOrder`: the global map's order with that id, if any. */
  function GetOrder(s: Store, orderId: string): (r: Option<Order>)
    ensures r.Some? <==> orderId in s.all
    ensures r.Some? ==> r.value == s.all[orderId]
  {
    if orderId in s.all then Some(s.all[orderId]) else None
  }

  /** The answers `activateQR` can give. */
  datatype ActivateOutcome =
    | Activated(order: Order)
    | OrderNotFound
    | AlreadyUsed
    | OrderCancelled
    | NotActivatable
    | TooFar(distance: nat)
  {
    /** The user-facing message of a failure. */
    function Message(): (msg: string)
      requires !Activated?
      ensures msg != ""
    {
      match this
      case OrderNotFound => "주문을 찾을 수 없습니다"
      case AlreadyUsed => "이미 사용된 주문입니다"
      case OrderCancelled => "취소된 주문입니다"
      case NotActivatable => "활성화할 수 없는 상태입니다"
      case TooFar(d) => "식당에서 " + Digits(d) + "m 떨어져 있습니다. 50m 이내로 이동해주세요."
    }
  }

  /** `activateQR`: the checks run in a fixed order (unknown order, used,
      cancelled, any status other than PAID/QR_EXPIRED, farther than 50 m) and
      the first that fails decides the answer, with the store unchanged. On
      success the order becomes QR_ACTIVE with a code that expires three
      minutes after `now`. `distance` is the great-circle distance in metres
      between the user and the facility. */
  function ActivateQr(s: Store, orderId: string, distance: real, now: int): (r: (ActivateOutcome, Store))
    ensures orderId !in s.all ==> r.0 == OrderNotFound
    ensures orderId in s.all && s.all[orderId].status == Completed ==> r.0 == AlreadyUsed
    ensures orderId in s.all && s.all[orderId].status == Cancelled ==> r.0 == OrderCancelled
    ensures orderId in s.all && s.all[orderId].status in {Pending, QrActive} ==> r.0 == NotActivatable
    ensures orderId in s.all && s.all[orderId].status in {Paid, QrExpired} && distance > ActivationRadius
            ==> r.0 == TooFar(RoundHalfUp(distance))
    ensures r.0.Activated? <==>
              orderId in s.all && s.all[orderId].status in {Paid, QrExpired} && distance <= ActivationRadius
    ensures !r.0.Activated? ==> r.1 == s
    ensures r.0.Activated? ==>
              var o := s.all[orderId];
              && r.0.order == o.(status := QrActive,
                                 qrCode := Some(QrPayload(o.orderId, o.orderNumber, o.facilityId,
                                                          now, now + QrLifetimeMs)),
                                 qrActivatedAt := Some(now),
                                 qrExpiresAt := Some(now + QrLifetimeMs))
              && r.1 == s.(all := s.all[orderId := r.0.order])
  {
    if orderId !in s.all then (OrderNotFound, s)
    else
      var o := s.all[orderId];
      if o.status == Completed then (AlreadyUsed, s)
      else if o.status == Cancelled then (OrderCancelled, s)
      else if o.status != Paid && o.status != QrExpired then (NotActivatable, s)
      else if distance > ActivationRadius then (TooFar(RoundHalfUp(distance)), s)
      else
        var expiresAt := now + QrLifetimeMs;
        var payload := QrPayload(o.orderId, o.orderNumber, o.facilityId, now, expiresAt);
        var updated := o.(status := QrActive, qrCode := Some(payload),
                          qrActivatedAt := Some(now), qrExpiresAt := Some(expiresAt));
        (Activated(updated), s.(all := s.all[orderId := updated]))
  }

  /** `cancelOrder`: refused only for an unknown or COMPLETED order; any
      other order (a CANCELLED one included) is set CANCELLED at `now`. */
  function CancelOrder(s: Store, orderId: string, now: int): (r: (bool, Store))
    ensures r.0 <==> orderId in s.all && s.all[orderId].status != Completed
    ensures !r.0 ==> r.1 == s
    ensures r.0 ==> r.1 == s.(all := s.all[orderId := s.all[orderId].(status := Cancelled,
                                                                      cancelledAt := Some(now))])
  {
    if orderId !in s.all then (false, s)
    else if s.all[orderId].status == Completed then (false, s)
    else (true, s.(all := s.all[orderId := s.all[orderId].(status := Cancelled, cancelledAt := Some(now))]))
  }

  /** `completeOrder`: only a QR_ACTIVE order can be completed (a kiosk scan). */
  function CompleteOrder(s: Store, orderId: string, now: int): (r: (bool, Store))
    ensures r.0 <==> orderId in s.all && s.all[orderId].status == QrActive
    ensures !r.0 ==> r.1 == s
    ensures r.0 ==> r.1 == s.(all := s.all[orderId := s.all[orderId].(status := Completed,
                                                                      completedAt := Some(now))])
  {
    if orderId !in s.all then (false, s)
    else if s.all[orderId].status != QrActive then (false, s)
    else (true, s.(all := s.all[orderId := s.all[orderId].(status := Completed, completedAt := Some(now))]))
  }

  /** The store operations that change state. */
  datatype Op =
    | Create(session: string, data: InsertOrder, id: string, now: int, today: Date)
    | Activate(orderId: string, distance: real, now: int)
    | Cancel(orderId: string, now: int)
    | Complete(orderId: string, now: int)

  function Apply(s: Store, op: Op): Store {
    match op
    case Create(session, data, id, now, today) => CreateOrder(s, session, data, id, now, today).1
    case Activate(orderId, distance, now) => ActivateQr(s, orderId, distance, now).1
    case Cancel(orderId, now) => CancelOrder(s, orderId, now).1
    case Complete(orderId, now) => CompleteOrder(s, orderId, now).1
  }

  function ApplyAll(s: Store, ops: seq<Op>): Store
    decreases |ops|
  {
    if |ops| == 0 then s else ApplyAll(Apply(s, ops[0]), ops[1..])
  }

  lemma InitialInv()
    ensures Inv(Initial())
  {
  }

  /** A new order's id is not yet in the global map, so creating an order
      never overwrites another one. */
  lemma CreateIsFresh(s: Store, session: string, data: InsertOrder, id: string, now: int, today: Date)
    requires Inv(s)
    ensures CreateOrder(s, session, data, id, now, today).0.orderId !in s.all
  {
    var o := CreateOrder(s, session, data, id, now, today).0;
    OrderIdRoundTrip(today, s.counter + 1);
    assert ParseOrderId(o.orderId).value.1 == s.counter + 1;
    assert !Issued(o.orderId, s.counter);
  }

  lemma ApplyPreservesInv(s: Store, op: Op)
    requires Inv(s)
    ensures Inv(Apply(s, op))
  {
    match op
    case Create(session, data, id, now, today) =>
      CreatePreservesInv(s, session, data, id, now, today);
    case Activate(orderId, distance, now) =>
      ActivatePreservesInv(s, orderId, distance, now);
    case Cancel(orderId, now) =>
      CancelPreservesInv(s, orderId, now);
    case Complete(orderId, now) =>
      CompletePreservesInv(s, orderId, now);
  }

  lemma CancelPreservesInv(s: Store, orderId: string, now: int)
    requires Inv(s)
    ensures Inv(CancelOrder(s, orderId, now).1)
  {
    ReplacePreservesInv(s, CancelOrder(s, orderId, now).1);
  }

  lemma CompletePreservesInv(s: Store, orderId: string, now: int)
    requires Inv(s)
    ensures Inv(CompleteOrder(s, orderId, now).1)
  {
    ReplacePreservesInv(s, CompleteOrder(s, orderId, now).1);
  }

  lemma ActivatePreservesInv(s: Store, orderId: string, distance: real, now: int)
    requires Inv(s)
    ensures Inv(ActivateQr(s, orderId, distance, now).1)
  {
    ReplacePreservesInv(s, ActivateQr(s, orderId, distance, now).1);
  }

  /** Creating an order files it under a fresh id with the next counter. */
  lemma CreatePreservesInv(s: Store, session: string, data: InsertOrder, id: string, now: int, today: Date)
    requires Inv(s)
    ensures Inv(CreateOrder(s, session, data, id, now, today).1)
  {
    var (o, s') := CreateOrder(s, session, data, id, now, today);
    OrderIdRoundTrip(today, s.counter + 1);
    assert Issued(o.orderId, s'.counter);
    forall k | k in s'.all
      ensures s'.all[k].orderId == k && Issued(k, s'.counter)
    {
      if k != o.orderId {
        assert s'.all[k] == s.all[k] && Issued(k, s.counter);
      }
    }
    forall sid, i | sid in s'.sessions && 0 <= i < |s'.sessions[sid]|
      ensures s'.sessions[sid][i].orderId in s'.all
    {
      if sid == session && i > 0 {
        assert s'.sessions[sid][i] == SessionOrders(s, session)[i - 1];
      }
    }
  }

  /** Replacing existing orders by versions with the same id, and touching
      nothing else, keeps the invariant. */
  lemma ReplacePreservesInv(s: Store, s': Store)
    requires Inv(s)
    requires s'.counter == s.counter && s'.sessions == s.sessions
    requires s'.all.Keys == s.all.Keys
    requires forall k :: k in s'.all ==> s'.all[k].orderId == s.all[k].orderId
    ensures Inv(s')
  {
  }

  /** One operation keeps a COMPLETED order as it is and a CANCELLED order
      CANCELLED. */
  lemma ApplyKeepsTerminal(s: Store, op: Op, orderId: string)
    requires Inv(s)
    requires orderId in s.all && s.all[orderId].status in {Completed, Cancelled}
    ensures orderId in Apply(s, op).all
    ensures Apply(s, op).all[orderId].status == s.all[orderId].status
    ensures s.all[orderId].status == Completed ==> Apply(s, op).all[orderId] == s.all[orderId]
  {
    if op.Create? {
      CreateIsFresh(s, op.session, op.data, op.id, op.now, op.today);
      CreateKeepsOthers(s, op.session, op.data, op.id, op.now, op.today, orderId);
    } else {
      UpdateKeepsTerminal(s, op, orderId);
    }
  }

  /** Creating an order leaves every existing order as it was. */
  lemma CreateKeepsOthers(s: Store, session: string, data: InsertOrder, id: string, now: int, today: Date, orderId: string)
    requires orderId in s.all
    requires CreateOrder(s, session, data, id, now, today).0.orderId !in s.all
    ensures var s' := CreateOrder(s, session, data, id, now, today).1;
            orderId in s'.all && s'.all[orderId] == s.all[orderId]
  {
  }

  /** Activation, cancellation and completion refuse a COMPLETED order, and
      only cancellation touches a CANCELLED one, keeping it CANCELLED. */
  lemma UpdateKeepsTerminal(s: Store, op: Op, orderId: string)
    requires !op.Create?
    requires orderId in s.all && s.all[orderId].status in {Completed, Cancelled}
    ensures orderId in Apply(s, op).all
    ensures Apply(s, op).all[orderId].status == s.all[orderId].status
    ensures s.all[orderId].status == Completed ==> Apply(s, op).all[orderId] == s.all[orderId]
  {
  }

  /** Once an order is COMPLETED no sequence of operations changes it again;
      once it is CANCELLED it stays CANCELLED (a repeated cancel only moves
      `cancelledAt`). */
  lemma {:induction false} TerminalStatusesPersist(s: Store, ops: seq<Op>, orderId: string)
    requires Inv(s)
    requires orderId in s.all && s.all[orderId].status in {Completed, Cancelled}
    ensures orderId in ApplyAll(s, ops).all
    ensures ApplyAll(s, ops).all[orderId].status == s.all[orderId].status
    ensures s.all[orderId].status == Completed ==> ApplyAll(s, ops).all[orderId] == s.all[orderId]
    decreases |ops|
  {
    if |ops| > 0 {
      ApplyPreservesInv(s, ops[0]);
      ApplyKeepsTerminal(s, ops[0], orderId);
      TerminalStatusesPersist(Apply(s, ops[0]), ops[1..], orderId);
    }
  }

  /** No order ever waits for payment or sits expired: orders are created
      PAID, and nothing in the store moves a QR_ACTIVE order to QR_EXPIRED
      (there is no expiry sweep), so the reactivation branch of `ActivateQr`
      is never reached from the initial store. */
  ghost predicate NoExpiredOrPending(s: Store) {
    && (forall k :: k in s.all ==> s.all[k].status !in {Pending, QrExpired})
    && (forall sid, i :: sid in s.sessions && 0 <= i < |s.sessions[sid]| ==>
          s.sessions[sid][i].status !in {Pending, QrExpired})
  }

  lemma {:induction false} ReachableOrdersNeverExpire(ops: seq<Op>)
    ensures NoExpiredOrPending(ApplyAll(Initial(), ops))
  {
    NeverExpireFrom(Initial(), ops);
  }

  lemma {:induction false} NeverExpireFrom(s: Store, ops: seq<Op>)
    requires NoExpiredOrPending(s)
    ensures NoExpiredOrPending(ApplyAll(s, ops))
    decreases |ops|
  {
    if |ops| > 0 {
      ApplyKeepsSettled(s, ops[0]);
      NeverExpireFrom(Apply(s, ops[0]), ops[1..]);
    }
  }

  /** No single operation makes an order PENDING or QR_EXPIRED. */
  lemma ApplyKeepsSettled(s: Store, op: Op)
    requires NoExpiredOrPending(s)
    ensures NoExpiredOrPending(Apply(s, op))
  {
    if op.Create? {
      CreateKeepsSettled(s, op.session, op.data, op.id, op.now, op.today);
    }
  }

  lemma CreateKeepsSettled(s: Store, session: string, data: InsertOrder, id: string, now: int, today: Date)
    requires NoExpiredOrPending(s)
    ensures NoExpiredOrPending(CreateOrder(s, session, data, id, now, today).1)
  {
    var s' := CreateOrder(s, session, data, id, now, today).1;
    forall sid, i | sid in s'.sessions && 0 <= i < |s'.sessions[sid]|
      ensures s'.sessions[sid][i].status !in {Pending, QrExpired}
    {
      if sid == session && i > 0 {
        assert s'.sessions[sid][i] == SessionOrders(s, session)[i - 1];
      }
    }
  }

  /** A session sees its new order first, followed by what it saw before. */
  lemma CreateThenList(s: Store, session: string, data: InsertOrder, id: string, now: int, today: Date)
    requires Inv(s)
    ensures var (o, s') := CreateOrder(s, session, data, id, now, today);
            GetOrders(s', session) == [o] + GetOrders(s, session)
  {
    var (o, s') := CreateOrder(s, session, data, id, now, today);
    CreateIsFresh(s, session, data, id, now, today);
    var list := SessionOrders(s, session);
    assert forall i :: 0 <= i < |list| ==> list[i].orderId != o.orderId;
    var a := GetOrders(s', session);
    var b := [o] + GetOrders(s, session);
    assert |a| == |b|;
    forall i | 0 <= i < |a| ensures a[i] == b[i] {
      if i > 0 {
        assert SessionOrders(s', session)[i] == list[i - 1];
      }
    }
  }

  /** An activation made by anyone (a kiosk, another session) is visible in
      the owning session's list, and nothing else in the list changes. */
  lemma ActivationVisibleInList(s: Store, orderId: string, distance: real, now: int, session: string)
    requires Inv(s)
    requires ActivateQr(s, orderId, distance, now).0.Activated?
    ensures var (res, s') := ActivateQr(s, orderId, distance, now);
            var before, after := GetOrders(s, session), GetOrders(s', session);
            && |after| == |before|
            && forall i :: 0 <= i < |after| ==>
                 after[i] == (if before[i].orderId == orderId then res.order else before[i])
  {
  }
}
