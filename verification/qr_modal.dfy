/** The client's QR dialog (client/src/components/QRModal.tsx): which of its
    three screens it shows for an order, the three-minute countdown, and what
    an activation attempt does to it. Clock readings (`Date.now()`) and the
    browser's geolocation answer are inputs; rendering the QR image is not
    modelled. */
module QrModal {
  import opened Common
  import opened Decimal
  import opened OrderStore

  /** The screens: ask for the location, show the code, or say it expired. */
  datatype Step = Location | Qr | Expired

  /** The seconds the countdown restarts from after an activation. */
  const CountdownSeconds: nat := 180

  /** The component's state: screen, countdown, error text and the order it
      shows. */
  datatype Modal = Modal(step: Step, remaining: int, locationError: Option<string>, current: Order)

  /** The state when the dialog mounts. */
  function Mount(order: Order): (m: Modal)
    ensures m.step == Location && m.remaining == CountdownSeconds
    ensures m.locationError == None && m.current == order
  {
    Modal(Location, CountdownSeconds, None, order)
  }

  /** `formatTime`: whole minutes, a colon, and the seconds padded to two
      digits (`TwoDigits` is `padStart(2, "0")` below 100, see
      `TwoDigitsIsZeroPad`). */
  function FormatTime(seconds: nat): (s: string)
    ensures |s| >= 4 && s[|s| - 3] == ':'
  {
    Digits(seconds / 60) + ":" + TwoDigits(seconds % 60)
  }

  /** Reads "M:SS" back into seconds. */
  function ParseTime(s: string): Option<nat> {
    if |s| >= 4 && s[|s| - 3] == ':' && AllDigits(s[..|s| - 3]) && AllDigits(s[|s| - 2..]) then
      Some(Value(s[..|s| - 3]) * 60 + Value(s[|s| - 2..]))
    else None
  }

  /** The countdown text reads back as the seconds it shows. */
  lemma FormatTimeRoundTrip(seconds: nat)
    ensures ParseTime(FormatTime(seconds)) == Some(seconds)
  {
    var mm := Digits(seconds / 60);
    var ss := TwoDigits(seconds % 60);
    var s := FormatTime(seconds);
    assert s[..|s| - 3] == mm;
    assert s[|s| - 2..] == ss;
    ValueOfDigits(seconds / 60);
    TwoDigitsValue(seconds % 60);
  }

  /** Whole minutes under ten show as "M:00"; the full countdown shows
      "3:00". */
  lemma WholeMinutesText(minutes: nat)
    requires minutes < 10
    ensures FormatTime(60 * minutes) == [DigitChar(minutes), ':', '0', '0']
    ensures minutes == 3 ==> FormatTime(CountdownSeconds) == "3:00"
  {
    var seconds := 60 * minutes;
    assert seconds / 60 == minutes && seconds % 60 == 0;
    assert TwoDigits(0) == ['0', '0'];
    assert Digits(minutes) == [DigitChar(minutes)];
  }

  /** `Math.max(0, Math.floor((expiresAt - now) / 1000))`; with a positive
      divisor Dafny's division is JavaScript's floor division. */
  function RemainingSeconds(expiresAt: int, now: int): (r: nat)
    ensures r * 1000 <= Max(0, expiresAt - now) < r * 1000 + 1000
    ensures r > 0 <==> expiresAt - now >= 1000
  {
    Max(0, (expiresAt - now) / 1000)
  }

  /** The first effect: whenever the `order` prop changes, adopt it and pick
      the screen from its status. A live code with time left shows the code
      and its remaining seconds; one whose time is up shows "expired" and
      leaves the counter alone; PAID and QR_EXPIRED ask for the location;
      any other status keeps the current screen. */
  function OrderChanged(m: Modal, order: Order, now: int): (r: Modal)
    ensures r.current == order && r.locationError == m.locationError
    ensures order.status == QrActive && order.qrExpiresAt.Some? ==>
              var left := RemainingSeconds(order.qrExpiresAt.value, now);
              if left > 0 then r.step == Qr && r.remaining == left
              else r.step == Expired && r.remaining == m.remaining
    ensures order.status in {QrExpired, Paid} ==> r.step == Location && r.remaining == m.remaining
    ensures !(order.status in {QrActive, QrExpired, Paid}) || (order.status == QrActive && order.qrExpiresAt.None?)
            ==> r.step == m.step && r.remaining == m.remaining
  {
    var m := m.(current := order);
    if order.status == QrActive && order.qrExpiresAt.Some? then
      var left := RemainingSeconds(order.qrExpiresAt.value, now);
      if left > 0 then m.(remaining := left, step := Qr) else m.(step := Expired)
    else if order.status == QrExpired then m.(step := Location)
    else if order.status == Paid then m.(step := Location)
    else m
  }

  /** Whether the one-second interval is running. */
  predicate TimerRunning(m: Modal) {
    m.step == Qr && m.remaining > 0
  }

  /** One interval tick: count down by one; at one second or less, stop at
      zero and show "expired". No tick happens while the timer is stopped. */
  function Tick(m: Modal): (r: Modal)
    ensures !TimerRunning(m) ==> r == m
    ensures TimerRunning(m) && m.remaining > 1 ==> r == m.(remaining := m.remaining - 1)
    ensures TimerRunning(m) && m.remaining <= 1 ==> r == m.(remaining := 0, step := Expired)
    ensures r.remaining >= 0 || r == m
  {
    if !TimerRunning(m) then m
    else if m.remaining <= 1 then m.(step := Expired, remaining := 0)
    else m.(remaining := m.remaining - 1)
  }

  /** `n` ticks in a row. */
  function Ticks(m: Modal, n: nat): Modal
    decreases n
  {
    if n == 0 then m else Ticks(Tick(m), n - 1)
  }

  /** A code shown with `t` seconds left stays on screen, counting down, for
      the first `t - 1` ticks and turns into "expired" with zero left at tick
      `t`; after that nothing changes. */
  lemma {:induction false} CountdownRunsOut(m: Modal, k: nat)
    requires m.step == Qr && m.remaining > 0
    ensures k < m.remaining ==> Ticks(m, k) == m.(remaining := m.remaining - k)
    ensures k >= m.remaining ==> Ticks(m, k) == m.(remaining := 0, step := Expired)
    decreases k
  {
    if k > 0 {
      if m.remaining == 1 {
        StoppedStaysPut(m.(remaining := 0, step := Expired), k - 1);
      } else {
        CountdownRunsOut(m.(remaining := m.remaining - 1), k - 1);
      }
    }
  }

  /** Ticks do nothing while the timer is stopped. */
  lemma {:induction false} StoppedStaysPut(m: Modal, k: nat)
    requires !TimerRunning(m)
    ensures Ticks(m, k) == m
  {
    if k > 0 {
      StoppedStaysPut(m, k - 1);
    }
  }

  /** The reply of the activation endpoint: `success`, `message`, `order`. */
  datatype Reply = Reply(success: bool, message: Option<string>, order: Option<Order>)

  /** The reply the server sends for an `activateQR` outcome. */
  function ReplyOf(outcome: ActivateOutcome): (r: Reply)
    ensures r.success <==> outcome.Activated?
    ensures outcome.Activated? ==> r.order == Some(outcome.order) && r.message.None?
    ensures !outcome.Activated? ==> r.order.None? && r.message == Some(outcome.Message())
  {
    if outcome.Activated? then Reply(true, None, Some(outcome.order))
    else Reply(false, Some(outcome.Message()), None)
  }

  const ActivationFailed: string := "QR 활성화에 실패했습니다"

  /** `onSuccess` of the activation request: with a successful reply that
      carries an order, adopt it, restart the countdown at 180 and show the
      code; otherwise show the reply's message (or a fallback when it is
      missing or empty) and keep the screen. */
  function ActivationReplied(m: Modal, data: Reply): (r: Modal)
    ensures data.success && data.order.Some? ==>
              r == m.(current := data.order.value, remaining := CountdownSeconds, step := Qr)
    ensures !(data.success && data.order.Some?) ==>
              && r.step == m.step && r.remaining == m.remaining && r.current == m.current
              && r.locationError.Some?
              && (data.message.Some? && data.message.value != "" ==> r.locationError.value == data.message.value)
              && (data.message.None? || data.message.value == "" ==> r.locationError.value == ActivationFailed)
  {
    if data.success && data.order.Some? then
      m.(current := data.order.value, remaining := CountdownSeconds, step := Qr)
    else
      var text := if data.message.Some? && data.message.value != "" then data.message.value else ActivationFailed;
      m.(locationError := Some(text))
  }

  /** The countdown the dialog restarts from is the server's code lifetime:
      an order activated at `now`, seen again by the first effect at the same
      instant, shows exactly the 180 seconds the success handler sets, and
      the success handler's state agrees with what the first effect derives
      from the new order. */
  lemma ActivationAgreesWithServer(s: OrderStore.Store, orderId: string, distance: real, now: int, m: Modal)
    requires ActivateQr(s, orderId, distance, now).0.Activated?
    ensures var o := ActivateQr(s, orderId, distance, now).0.order;
            && o.qrExpiresAt == Some(now + QrLifetimeMs)
            && RemainingSeconds(o.qrExpiresAt.value, now) == CountdownSeconds
            && OrderChanged(ActivationReplied(m, ReplyOf(Activated(o))), o, now)
               == ActivationReplied(m, ReplyOf(Activated(o)))
  {
  }

  /** The HTTP status the activation endpoint sends with a reply: 200 for an
      activation, 400 for every refusal. */
  function ReplyStatus(outcome: ActivateOutcome): (code: int)
    ensures code == 200 <==> outcome.Activated?
    ensures !outcome.Activated? ==> code == 400
  {
    if outcome.Activated? then 200 else 400
  }

  /** How the client's request helper treats a reply whose status is not
      2xx: it either hands the body to `onSuccess` like any other, or rejects
      it so that `onError` runs. */
  datatype Transport = PassesErrors | RejectsErrors

  /** The activation request settles: a 2xx reply, or any reply under a
      helper that passes errors through, goes to `onSuccess`; a 400 under a
      rejecting helper goes to `onError`, which only shows a toast. */
  function ActivationSettled(m: Modal, outcome: ActivateOutcome, t: Transport): (r: Modal)
    ensures outcome.Activated? ==>
              r == m.(current := outcome.order, remaining := CountdownSeconds, step := Qr)
    ensures !outcome.Activated? && t == RejectsErrors ==> r == m
    ensures !outcome.Activated? && t == PassesErrors ==> r == m.(locationError := Some(outcome.Message()))
  {
    if 200 <= ReplyStatus(outcome) < 300 || t == PassesErrors then ActivationReplied(m, ReplyOf(outcome))
    else m
  }

  /** What the browser's geolocation request gives. */
  datatype Position =
    | Unsupported
    | Located(at: Coord)
    | PermissionDenied
    | PositionUnavailable
    | Timeout
    | OtherFailure

  /** `handleActivate`: clear the error, then either send the position to the
      server (the `Coord` returned) or show why there is none. */
  function RequestActivation(m: Modal, p: Position): (r: (Modal, Option<Coord>))
    ensures r.0.step == m.step && r.0.remaining == m.remaining && r.0.current == m.current
    ensures r.1.Some? <==> p.Located?
    ensures p.Located? ==> r.1 == Some(p.at) && r.0.locationError == None
    ensures !p.Located? ==> r.0.locationError.Some? && r.0.locationError.value != ""
  {
    var m := m.(locationError := None);
    match p
    case Located(at) => (m, Some(at))
    case Unsupported => (m.(locationError := Some("이 브라우저에서는 위치 서비스를 지원하지 않습니다")), None)
    case PermissionDenied => (m.(locationError := Some("위치 권한이 거부되었습니다. 설정에서 위치 권한을 허용해주세요.")), None)
    case PositionUnavailable => (m.(locationError := Some("위치 정보를 가져올 수 없습니다.")), None)
    case Timeout => (m.(locationError := Some("위치 요청 시간이 초과되었습니다.")), None)
    case OtherFailure => (m.(locationError := Some("위치 정보를 가져오는 중 오류가 발생했습니다.")), None)
  }

  /** The "reactivate" button on the expired screen. */
  function Reactivate(m: Modal): (r: Modal)
    requires m.step == Expired
    ensures r.step == Location
    ensures r.remaining == m.remaining && r.locationError == m.locationError && r.current == m.current
  {
    m.(step := Location)
  }

  /** The events the dialog reacts to. */
  datatype Event =
    | PropChanged(order: Order, now: int)
    | Second
    | Replied(data: Reply)
    | RequestFailed      // `onError`: a toast only
    | Requested(p: Position)
    | ReactivatePressed

  /** The dialog's reaction to one event (the reactivate button exists only
      on the expired screen). The expired screen leads back to the location
      screen only through that button, or through a new order prop whose
      status asks for the location (PAID or QR_EXPIRED); only a new prop or a
      successful reply shows the code. */
  function React(m: Modal, e: Event): (r: Modal)
    ensures m.step == Expired && r.step == Location ==>
              e.ReactivatePressed? || (e.PropChanged? && e.order.status in {Paid, QrExpired})
    ensures m.step != Qr && r.step == Qr ==> e.PropChanged? || (e.Replied? && e.data.success)
  {
    match e
    case PropChanged(order, now) => OrderChanged(m, order, now)
    case Second => Tick(m)
    case Replied(data) => ActivationReplied(m, data)
    case RequestFailed => m
    case Requested(p) => RequestActivation(m, p).0
    case ReactivatePressed => if m.step == Expired then Reactivate(m) else m
  }

  /** The order store never marks an order QR_EXPIRED, so for orders read
      from it the expired screen is left only through the button or a PAID
      order. */
  lemma LeavingExpiredWithStoreOrders(ops: seq<Op>, key: string, m: Modal, e: Event)
    requires key in ApplyAll(OrderStore.Initial(), ops).all
    requires e.PropChanged? && e.order == ApplyAll(OrderStore.Initial(), ops).all[key]
    requires m.step == Expired && React(m, e).step == Location
    ensures e.order.status == Paid
  {
    ReachableOrdersNeverExpire(ops);
  }

  /** The dialog title. */
  function Title(step: Step): (t: string)
    ensures t == "QR 코드" <==> step == Qr
  {
    if step == Qr then "QR 코드" else "QR 활성화"
  }

  /** The countdown's colour band. */
  datatype Urgency = Urgent | Warning | Calm

  function TimerUrgency(remaining: int): (u: Urgency)
    ensures u == Urgent <==> remaining <= 30
    ensures u == Warning <==> 30 < remaining <= 60
    ensures u == Calm <==> remaining > 60
  {
    if remaining <= 30 then Urgent else if remaining <= 60 then Warning else Calm
  }
}
