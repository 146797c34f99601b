/** The ticket wallet page (client/src/pages/OrdersPage.tsx): the split of
    the server's order list into usable and past tickets, and what each
    ticket card shows. */
module OrdersPage {
  import opened Common
  import opened Decimal
  import opened OrderStore

  predicate IsActive(s: OrderStatus) {
    s == Paid || s == QrActive || s == QrExpired
  }

  predicate IsPast(s: OrderStatus) {
    s == Completed || s == Cancelled
  }

  /** `activeOrders`: the PAID, QR_ACTIVE and QR_EXPIRED orders, in the
      server's order. */
  function ActiveOrders(orders: seq<Order>): (r: seq<Order>)
    ensures forall o :: o in r <==> o in orders && o.status in {Paid, QrActive, QrExpired}
    ensures IsSubsequence(r, orders)
  {
    FilterIsSubsequence(orders, (o: Order) => IsActive(o.status));
    Filter(orders, (o: Order) => IsActive(o.status))
  }

  /** `pastOrders`: the COMPLETED and CANCELLED orders, in the server's
      order; none of them is also in the usable list. */
  function PastOrders(orders: seq<Order>): (r: seq<Order>)
    ensures forall o :: o in r <==> o in orders && o.status in {Completed, Cancelled}
    ensures IsSubsequence(r, orders)
    ensures forall o :: o in r ==> o !in ActiveOrders(orders)
  {
    FilterIsSubsequence(orders, (o: Order) => IsPast(o.status));
    Filter(orders, (o: Order) => IsPast(o.status))
  }

  /** The orders the page shows in neither list. */
  function Unlisted(orders: seq<Order>): seq<Order> {
    Filter(orders, (o: Order) => !IsActive(o.status) && !IsPast(o.status))
  }

  /** Together with the PENDING orders, the two lists account for every
      order once. */
  lemma ListsCount(orders: seq<Order>)
    ensures |ActiveOrders(orders)| + |PastOrders(orders)| + |Unlisted(orders)| == |orders|
  {
    var listed := (o: Order) => IsActive(o.status) || IsPast(o.status);
    FilterSplit(orders, listed, (o: Order) => !IsActive(o.status) && !IsPast(o.status));
    ListedSplit(orders);
  }

  lemma {:induction false} ListedSplit(orders: seq<Order>)
    ensures |Filter(orders, (o: Order) => IsActive(o.status) || IsPast(o.status))|
            == |ActiveOrders(orders)| + |PastOrders(orders)|
    decreases |orders|
  {
    if orders != [] {
      ListedSplit(orders[1..]);
    }
  }

  /** A filter that accepts nothing in `s` gives nothing. */
  lemma {:induction false} FilterNone<T(!new)>(s: seq<T>, p: T -> bool)
    requires forall i :: 0 <= i < |s| ==> !p(s[i])
    ensures Filter(s, p) == []
    decreases |s|
  {
    if s != [] {
      FilterNone(s[1..], p);
    }
  }

  /** The orders a session reads from the store never sit in neither list
      and never show the expiry warning: the store has no PENDING and no
      QR_EXPIRED orders. */
  lemma StoreOrdersAllListed(ops: seq<Op>, session: string)
    ensures var orders := GetOrders(ApplyAll(OrderStore.Initial(), ops), session);
            && Unlisted(orders) == []
            && forall i :: 0 <= i < |orders| ==> !ExpiryWarning(orders[i].status, IsPast(orders[i].status))
  {
    var orders := GetOrders(ApplyAll(OrderStore.Initial(), ops), session);
    ReachableOrdersNeverExpire(ops);
    ReadOrdersSettled(ApplyAll(OrderStore.Initial(), ops), session);
    FilterNone(orders, (o: Order) => !IsActive(o.status) && !IsPast(o.status));
  }

  /** In a store without PENDING or QR_EXPIRED orders, a session reads none
      either. */
  lemma ReadOrdersSettled(s: OrderStore.Store, session: string)
    requires NoExpiredOrPending(s)
    ensures forall i :: 0 <= i < |GetOrders(s, session)| ==> GetOrders(s, session)[i].status !in {Pending, QrExpired}
  {
    var orders := GetOrders(s, session);
    forall i | 0 <= i < |orders| ensures orders[i].status !in {Pending, QrExpired} {
      var o := SessionOrders(s, session)[i];
      if o.orderId !in s.all {
        assert session in s.sessions;
      }
    }
  }

  /** `menuSummary`: with several lines, the first menu, " 외 ", the number
      of other lines and "개"; with one line, its menu unless that is empty;
      otherwise "메뉴". */
  function MenuSummary(items: seq<OrderItem>): (s: string)
    ensures |items| == 0 ==> s == "메뉴"
    ensures |items| == 1 ==> s == (if items[0].menu == "" then "메뉴" else items[0].menu)
    ensures |items| > 1 ==>
              var first := items[0].menu;
              && |s| > |first| + 3
              && s[..|first|] == first
              && s[|first|..|first| + 3] == " 외 "
              && s[|s| - 1] == '개'
              && ParseNat(s[|first| + 3..|s| - 1]) == Some(|items| - 1)
  {
    if |items| > 1 then
      var first, count := items[0].menu, Digits(|items| - 1);
      var s := first + " 외 " + count + "개";
      assert s[|first| + 3..|s| - 1] == count;
      ValueOfDigits(|items| - 1);
      s
    else if |items| == 1 && items[0].menu != "" then items[0].menu
    else "메뉴"
  }

  /** The label of the card's button. */
  function ButtonLabel(status: OrderStatus): (text: string)
    ensures text == "QR 보기" <==> status == QrActive
    ensures text == "재활성화" <==> status == QrExpired
    ensures text == "QR 활성화" <==> status != QrActive && status != QrExpired
  {
    if status == QrActive then "QR 보기"
    else if status == QrExpired then "재활성화"
    else "QR 활성화"
  }

  /** The warning under an expired ticket. */
  predicate ExpiryWarning(status: OrderStatus, isPast: bool) {
    status == QrExpired && !isPast
  }

  /** The warning is shown for exactly the expired tickets of the usable
      list and for none of the past list. */
  lemma WarningOnlyInActiveList(orders: seq<Order>)
    ensures forall o :: o in PastOrders(orders) ==> !ExpiryWarning(o.status, true)
    ensures forall o :: o in ActiveOrders(orders) ==> (ExpiryWarning(o.status, false) <==> o.status == QrExpired)
  {
  }

  /** The status as the server writes it. */
  function StatusName(s: OrderStatus): (name: string)
    ensures |name| >= 4
  {
    match s
    case Pending => "PENDING"
    case Paid => "PAID"
    case QrActive => "QR_ACTIVE"
    case QrExpired => "QR_EXPIRED"
    case Completed => "COMPLETED"
    case Cancelled => "CANCELLED"
  }

  /** Different statuses have different names. */
  lemma StatusNameInjective(a: OrderStatus, b: OrderStatus)
    requires StatusName(a) == StatusName(b)
    ensures a == b
  {
  }

  datatype BadgeVariant = Default | Secondary | Destructive | Outline

  /** `STATUS_CONFIG[status] || { label: status, variant: "outline" }`. */
  function StatusBadge(status: string): (r: (string, BadgeVariant))
    ensures status == "PAID" ==> r == ("사용 가능", Default)
    ensures status == "QR_ACTIVE" ==> r == ("QR 활성화됨", Default)
    ensures status == "QR_EXPIRED" ==> r == ("QR 만료됨", Secondary)
    ensures status == "COMPLETED" ==> r == ("사용 완료", Outline)
    ensures status == "CANCELLED" ==> r == ("취소됨", Destructive)
    ensures status !in {"PAID", "QR_ACTIVE", "QR_EXPIRED", "COMPLETED", "CANCELLED"} ==> r == (status, Outline)
  {
    if status == "PAID" then ("사용 가능", Default)
    else if status == "QR_ACTIVE" then ("QR 활성화됨", Default)
    else if status == "QR_EXPIRED" then ("QR 만료됨", Secondary)
    else if status == "COMPLETED" then ("사용 완료", Outline)
    else if status == "CANCELLED" then ("취소됨", Destructive)
    else (status, Outline)
  }

  /** PENDING has no entry in the table and shows its raw name; the five
      statuses with an entry get five different labels. */
  lemma BadgeLabels()
    ensures StatusBadge(StatusName(Pending)) == ("PENDING", Outline)
    ensures forall a, b :: a != Pending && b != Pending && a != b ==>
              StatusBadge(StatusName(a)).0 != StatusBadge(StatusName(b)).0
  {
  }
}
