/** The waiting-queue store: one active ticket per session key, a global
    ticket counter, and a per-session history of cancelled tickets capped at
    ten entries, newest first. api/storage.ts:319-361 and
    server/storage.ts:212-254 hold two identical copies of this logic; the
    advancement of tickets by the periodic tick (server/storage.ts:271-281)
    lives here too. */
module WaitingStore {
  import opened Common
  import opened Schema

  /** The counter's value at process start; the first ticket is number 101. */
  const InitialCounter: int := 100

  /** How many history entries a session keeps. */
  const HistoryLimit: nat := 10

  datatype Store = Store(
    counter: int,
    tickets: map<string, Ticket>,
    history: map<string, seq<HistoryItem>>)

  function Initial(): Store {
    Store(InitialCounter, map[], map[])
  }

  /** Every ticket keeps the identity it was created with
      (`waitingAhead + currentCalling + 1 == waitingNumber`), no ticket number
      exceeds the counter, and no history is longer than the cap. */
  ghost predicate Inv(s: Store) {
    && (forall k :: k in s.tickets ==>
          && s.tickets[k].waitingAhead + s.tickets[k].currentCalling + 1 == s.tickets[k].waitingNumber
          && s.tickets[k].waitingNumber <= s.counter)
    && (forall k :: k in s.history ==> |s.history[k]| <= HistoryLimit)
  }

  /** `getActiveWaiting`: the session's ticket, or null. */
  function ActiveWaiting(s: Store, session: string): (r: Option<Ticket>)
    ensures r.Some? <==> session in s.tickets
    ensures r.Some? ==> r.value == s.tickets[session]
  {
    if session in s.tickets then Some(s.tickets[session]) else None
  }

  /** `getWaitingHistory`: the session's history, or the empty list. */
  function WaitingHistory(s: Store, session: string): (r: seq<HistoryItem>)
    ensures session in s.history ==> r == s.history[session]
    ensures session !in s.history ==> r == []
  {
    if session in s.history then s.history[session] else []
  }

  /** `createWaiting`: take the next ticket number and store a ticket that
      snapshots the corner's wait time and queue length. The store itself
      does not look for an existing ticket: it overwrites it. `id` and `now`
      stand for the generated UUID and the clock. */
  function CreateWaiting(s: Store, session: string, data: InsertWaiting, corner: Corner,
                         id: string, now: int): (r: (Ticket, Store))
    ensures r.1.counter == s.counter + 1
    ensures r.0.waitingNumber == r.1.counter
    ensures r.0.status == Waiting && r.0.id == id && r.0.registeredAt == now
    ensures r.0.estimatedTime == corner.waitTime
    ensures r.0.waitingAhead == corner.currentQueue
    ensures r.0.waitingAhead + r.0.currentCalling + 1 == r.0.waitingNumber
    ensures r.0.facilityId == data.facilityId && r.0.facilityName == data.facilityName
    ensures r.0.cornerId == data.cornerId && r.0.cornerName == data.cornerName
    ensures r.0.cornerType == data.cornerType && r.0.menu == data.menu
    ensures r.1.tickets == s.tickets[session := r.0]
    ensures r.1.history == s.history
  {
    var number := s.counter + 1;
    var t := Ticket(
      id, data.facilityId, data.facilityName, data.cornerId, data.cornerName,
      data.cornerType, data.menu, number, Waiting, now,
      corner.waitTime, corner.currentQueue, number - corner.currentQueue - 1);
    (t, Store(number, s.tickets[session := t], s.history))
  }

  /** `[item, ...h].slice(0, HistoryLimit)`. */
  function PushHistory(item: HistoryItem, h: seq<HistoryItem>): (r: seq<HistoryItem>)
    ensures |r| == Min(|h| + 1, HistoryLimit)
    ensures r[0] == item
    ensures forall i :: 1 <= i < |r| ==> r[i] == h[i - 1]
  {
    var full := [item] + h;
    full[..Min(|full|, HistoryLimit)]
  }

  /** The history entry a cancelled ticket leaves behind. */
  function CancelledEntry(t: Ticket, id: string, stamp: string): (e: HistoryItem)
    ensures e.status == Cancelled
    ensures e.facility == t.facilityName + " " + t.cornerType + "코너"
  {
    HistoryItem(id, t.facilityName + " " + t.cornerType + "코너", stamp, Cancelled, "취소됨")
  }

  /** `cancelWaiting`: false and no change without a ticket; otherwise the
      ticket is removed and a CANCELLED entry is put at the head of the
      session's (capped) history. `id` and `stamp` stand for the generated
      UUID and the formatted clock. */
  function CancelWaiting(s: Store, session: string, id: string, stamp: string): (r: (bool, Store))
    ensures r.0 <==> session in s.tickets
    ensures !r.0 ==> r.1 == s
    ensures r.0 ==> r.1.counter == s.counter
    ensures r.0 ==> r.1.tickets == s.tickets - {session}
    ensures r.0 ==> session in r.1.history
    ensures r.0 ==> |r.1.history[session]| == Min(|WaitingHistory(s, session)| + 1, HistoryLimit)
    ensures r.0 ==> r.1.history[session][0] == CancelledEntry(s.tickets[session], id, stamp)
    ensures r.0 ==> forall i :: 1 <= i < |r.1.history[session]| ==>
                      r.1.history[session][i] == WaitingHistory(s, session)[i - 1]
    ensures r.0 ==> r.1.history.Keys == s.history.Keys + {session}
    ensures r.0 ==> forall k :: k in s.history && k != session ==> r.1.history[k] == s.history[k]
  {
    if session !in s.tickets then (false, s)
    else
      var entry := CancelledEntry(s.tickets[session], id, stamp);
      var h := PushHistory(entry, WaitingHistory(s, session));
      (true, Store(s.counter, s.tickets - {session}, s.history[session := h]))
  }

  /** One tick of the queue: a ticket with people ahead moves one place up,
      its estimate drops by three minutes (not below zero) and the number
      being called goes up by one. Other tickets are left alone. */
  function AdvanceTicket(t: Ticket): (r: Ticket)
    ensures r.waitingAhead + r.currentCalling == t.waitingAhead + t.currentCalling
    ensures t.waitingAhead > 0 ==> && r.waitingAhead == t.waitingAhead - 1
                                   && r.estimatedTime == Max(0, t.estimatedTime - 3)
                                   && r.currentCalling == t.currentCalling + 1
    ensures t.waitingAhead <= 0 ==> r == t
    ensures r == t.(waitingAhead := r.waitingAhead, estimatedTime := r.estimatedTime,
                    currentCalling := r.currentCalling)
  {
    if t.waitingAhead > 0 then
      t.(waitingAhead := Max(0, t.waitingAhead - 1),
         estimatedTime := Max(0, t.estimatedTime - 3),
         currentCalling := t.currentCalling + 1)
    else t
  }

  /** The tick applied to every session's ticket. */
  function AdvanceTickets(tickets: map<string, Ticket>): (r: map<string, Ticket>)
    ensures r.Keys == tickets.Keys
    ensures forall k :: k in r ==> r[k] == AdvanceTicket(tickets[k])
  {
    map k | k in tickets :: AdvanceTicket(tickets[k])
  }

  /** The tick leaves the counter and the histories alone. */
  function AdvanceQueue(s: Store): (r: Store)
    ensures r.counter == s.counter && r.history == s.history
    ensures r.tickets.Keys == s.tickets.Keys
  {
    s.(tickets := AdvanceTickets(s.tickets))
  }

  lemma InitialInv()
    ensures Inv(Initial())
  {
  }

  /** Registering keeps the invariant, and the new ticket's number is larger
      than that of every ticket already stored. */
  lemma CreatePreservesInv(s: Store, session: string, data: InsertWaiting, corner: Corner,
                           id: string, now: int)
    requires Inv(s)
    ensures Inv(CreateWaiting(s, session, data, corner, id, now).1)
    ensures forall k :: k in s.tickets ==>
              s.tickets[k].waitingNumber < CreateWaiting(s, session, data, corner, id, now).0.waitingNumber
  {
  }

  lemma CancelPreservesInv(s: Store, session: string, id: string, stamp: string)
    requires Inv(s)
    ensures Inv(CancelWaiting(s, session, id, stamp).1)
  {
  }

  /** The tick keeps every ticket's creation identity. */
  lemma AdvancePreservesInv(s: Store)
    requires Inv(s)
    ensures Inv(AdvanceQueue(s))
  {
  }

  /** Register a ticket for `session` and cancel it again, `n` times. */
  function Cycles(s: Store, session: string, data: InsertWaiting, corner: Corner,
                  id: string, now: int, stamp: string, n: nat): Store
    decreases n
  {
    if n == 0 then s
    else
      var created := CreateWaiting(s, session, data, corner, id, now).1;
      Cycles(CancelWaiting(created, session, id, stamp).1, session, data, corner, id, now, stamp, n - 1)
  }

  /** After `n` register-then-cancel rounds the session's history holds
      min(old + n, 10) entries, with the latest cancellation first. With an
      empty start and n = 11 this is the "exactly ten" cap. */
  lemma {:induction false} HistoryCapped(s: Store, session: string, data: InsertWaiting, corner: Corner,
                                         id: string, now: int, stamp: string, n: nat)
    requires n > 0
    decreases n
    ensures var s' := Cycles(s, session, data, corner, id, now, stamp, n);
            && |WaitingHistory(s', session)| == Min(|WaitingHistory(s, session)| + n, HistoryLimit)
            && WaitingHistory(s', session)[0].status == Cancelled
            && s'.counter == s.counter + n
            && session !in s'.tickets
  {
    var created := CreateWaiting(s, session, data, corner, id, now).1;
    var next := CancelWaiting(created, session, id, stamp).1;
    if n > 1 {
      HistoryCapped(next, session, data, corner, id, now, stamp, n - 1);
    }
  }
}
