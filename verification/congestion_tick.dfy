/** The server's periodic update (server/storage.ts:256-282): every corner's
    congestion, wait time, queue length and free seats take a bounded random
    step and are clamped, every facility's average congestion does the same,
    and every waiting ticket advances one place. The timer that fires it every
    30 seconds is not modelled; a tick is an explicit operation whose random
    draws are an input. */
module CongestionTick {
  import opened Common
  import opened Schema
  import WaitingStore

  /** Which `Math.random()` call of a tick a draw stands for. */
  datatype DrawSite = CongestionDraw | WaitTimeDraw | QueueDraw | AvailableDraw | AvgCongestionDraw

  /** The values `Math.random()` returns during one tick, by facility
      position, corner position and call site (corner position 0 for the
      facility's own draw). */
  type Draws = (nat, nat, DrawSite) -> RandomValue

  /** Congestion moves by -1, 0 or +1 and is clamped to 1..5. */
  function StepCongestion(c: int, r: RandomValue): (n: int)
    ensures IsCongestionLevel(n)
    ensures IsCongestionLevel(c) ==> c - 1 <= n <= c + 1
    ensures c > 5 ==> n == 5
    ensures c < 1 ==> n == 1
  {
    Clamp(c + FloorScaled(r, 3) - 1, 1, 5)
  }

  /** Wait time moves by -2 .. +2 and is floored at zero. */
  function StepWaitTime(w: int, r: RandomValue): (n: int)
    ensures n >= 0
    ensures w - 2 <= n <= Max(0, w + 2)
    ensures w >= 2 ==> w - 2 <= n <= w + 2
  {
    Max(0, w + FloorScaled(r, 5) - 2)
  }

  /** Queue length moves by -1, 0 or +1 and is floored at zero. */
  function StepQueue(q: int, r: RandomValue): (n: int)
    ensures n >= 0
    ensures q - 1 <= n <= Max(0, q + 1)
    ensures q >= 1 ==> q - 1 <= n <= q + 1
  {
    Max(0, q + FloorScaled(r, 3) - 1)
  }

  /** `corner.capacity || 100`: a missing capacity, and also a capacity of 0
      (which JavaScript treats as false), means 100. */
  function SeatBound(capacity: Option<int>): (b: int)
    ensures capacity.Some? && capacity.value != 0 ==> b == capacity.value
    ensures capacity.None? || capacity.value == 0 ==> b == 100
  {
    if capacity.Some? && capacity.value != 0 then capacity.value else 100
  }

  /** Free seats, when the corner tracks them, move by -2 .. +2 and are
      clamped to 0 .. SeatBound(capacity). */
  function StepAvailable(a: Option<int>, capacity: Option<int>, r: RandomValue): (n: Option<int>)
    ensures n.Some? <==> a.Some?
    ensures n.Some? ==> 0 <= n.value <= Max(0, SeatBound(capacity))
    ensures n.Some? && 0 <= a.value <= SeatBound(capacity) ==> a.value - 2 <= n.value <= a.value + 2
  {
    if a.Some? then Some(Max(0, Min(SeatBound(capacity), a.value + FloorScaled(r, 5) - 2)))
    else None
  }

  /** A corner after one tick: only the four live fields change. */
  function TickCorner(c: Corner, fi: nat, ci: nat, draws: Draws): (r: Corner)
    ensures r == c.(congestion := r.congestion, waitTime := r.waitTime,
                    currentQueue := r.currentQueue, available := r.available)
    ensures r.congestion == StepCongestion(c.congestion, draws(fi, ci, CongestionDraw))
    ensures r.waitTime == StepWaitTime(c.waitTime, draws(fi, ci, WaitTimeDraw))
    ensures r.currentQueue == StepQueue(c.currentQueue, draws(fi, ci, QueueDraw))
    ensures r.available == StepAvailable(c.available, c.capacity, draws(fi, ci, AvailableDraw))
  {
    c.(congestion := StepCongestion(c.congestion, draws(fi, ci, CongestionDraw)),
       waitTime := StepWaitTime(c.waitTime, draws(fi, ci, WaitTimeDraw)),
       currentQueue := StepQueue(c.currentQueue, draws(fi, ci, QueueDraw)),
       available := StepAvailable(c.available, c.capacity, draws(fi, ci, AvailableDraw)))
  }

  /** A facility after one tick: its corners in the same order, and its
      average congestion stepped like a corner's. */
  function TickFacility(f: Facility, fi: nat, draws: Draws): (r: Facility)
    ensures r == f.(corners := r.corners, avgCongestion := r.avgCongestion)
    ensures r.avgCongestion == StepCongestion(f.avgCongestion, draws(fi, 0, AvgCongestionDraw))
    ensures |r.corners| == |f.corners|
    ensures forall j :: 0 <= j < |f.corners| ==> r.corners[j] == TickCorner(f.corners[j], fi, j, draws)
  {
    var cs := seq(|f.corners|, j requires 0 <= j < |f.corners| => TickCorner(f.corners[j], fi, j, draws));
    f.(corners := cs, avgCongestion := StepCongestion(f.avgCongestion, draws(fi, 0, AvgCongestionDraw)))
  }

  /** The live fields of every facility and corner are within the schema's
      ranges: congestion in 1..5, wait time and queue non-negative, free seats
      between 0 and the seat bound. */
  ghost predicate InRange(fs: seq<Facility>) {
    forall i :: 0 <= i < |fs| ==>
      && IsCongestionLevel(fs[i].avgCongestion)
      && forall j :: 0 <= j < |fs[i].corners| ==>
           && IsCongestionLevel(fs[i].corners[j].congestion)
           && fs[i].corners[j].waitTime >= 0
           && fs[i].corners[j].currentQueue >= 0
           && (fs[i].corners[j].available.Some? ==>
                 0 <= fs[i].corners[j].available.value <= Max(0, SeatBound(fs[i].corners[j].capacity)))
  }

  /** What the tick may change: the same facilities with the same ids in the
      same order, the same corners with the same ids in the same order, and
      nothing but the live fields different. */
  ghost predicate SameShape(fs: seq<Facility>, gs: seq<Facility>) {
    && |fs| == |gs|
    && forall i :: 0 <= i < |fs| ==>
         && gs[i] == fs[i].(corners := gs[i].corners, avgCongestion := gs[i].avgCongestion)
         && |gs[i].corners| == |fs[i].corners|
         && forall j :: 0 <= j < |fs[i].corners| ==>
              gs[i].corners[j] == fs[i].corners[j].(congestion := gs[i].corners[j].congestion,
                                                    waitTime := gs[i].corners[j].waitTime,
                                                    currentQueue := gs[i].corners[j].currentQueue,
                                                    available := gs[i].corners[j].available)
  }

  /** Every congestion figure moves by at most one level. */
  ghost predicate CongestionStepsBounded(fs: seq<Facility>, gs: seq<Facility>)
    requires SameShape(fs, gs)
  {
    forall i :: 0 <= i < |fs| ==>
      && (IsCongestionLevel(fs[i].avgCongestion) ==>
            fs[i].avgCongestion - 1 <= gs[i].avgCongestion <= fs[i].avgCongestion + 1)
      && forall j :: 0 <= j < |fs[i].corners| ==>
           IsCongestionLevel(fs[i].corners[j].congestion) ==>
             fs[i].corners[j].congestion - 1 <= gs[i].corners[j].congestion <= fs[i].corners[j].congestion + 1
  }

  /** The facility part of the tick. */
  function TickFacilities(fs: seq<Facility>, draws: Draws): (gs: seq<Facility>)
    ensures SameShape(fs, gs)
    ensures InRange(gs)
    ensures CongestionStepsBounded(fs, gs)
  {
    seq(|fs|, i requires 0 <= i < |fs| => TickFacility(fs[i], i, draws))
  }

  /** The server store: the facility directory and the waiting queue. */
  datatype ServerState = ServerState(facilities: seq<Facility>, queue: WaitingStore.Store)

  /** `updateCongestion`: one tick of the facility random walk and the queue. */
  function UpdateCongestion(st: ServerState, draws: Draws): (r: ServerState)
    ensures SameShape(st.facilities, r.facilities)
    ensures InRange(r.facilities)
    ensures CongestionStepsBounded(st.facilities, r.facilities)
    ensures r.queue.counter == st.queue.counter && r.queue.history == st.queue.history
    ensures r.queue.tickets.Keys == st.queue.tickets.Keys
    ensures forall k :: k in st.queue.tickets ==>
              && r.queue.tickets[k].waitingAhead + r.queue.tickets[k].currentCalling
                 == st.queue.tickets[k].waitingAhead + st.queue.tickets[k].currentCalling
              && (st.queue.tickets[k].waitingAhead > 0 ==>
                    && r.queue.tickets[k].waitingAhead == st.queue.tickets[k].waitingAhead - 1
                    && r.queue.tickets[k].estimatedTime == Max(0, st.queue.tickets[k].estimatedTime - 3)
                    && r.queue.tickets[k].currentCalling == st.queue.tickets[k].currentCalling + 1)
              && (st.queue.tickets[k].waitingAhead <= 0 ==> r.queue.tickets[k] == st.queue.tickets[k])
  {
    ServerState(TickFacilities(st.facilities, draws), WaitingStore.AdvanceQueue(st.queue))
  }

  /** Any number of ticks keeps the queue's invariant (each ticket's
      `waitingAhead + currentCalling + 1 == waitingNumber`) and leaves the
      directory in range. */
  lemma {:induction false} TicksPreserveInv(st: ServerState, rounds: seq<Draws>)
    requires WaitingStore.Inv(st.queue)
    ensures WaitingStore.Inv(Ticks(st, rounds).queue)
    ensures |rounds| > 0 ==> InRange(Ticks(st, rounds).facilities)
    decreases |rounds|
  {
    if |rounds| > 0 {
      WaitingStore.AdvancePreservesInv(st.queue);
      TicksPreserveInv(UpdateCongestion(st, rounds[0]), rounds[1..]);
    }
  }

  /** The state after one tick per element of `rounds`. */
  function Ticks(st: ServerState, rounds: seq<Draws>): ServerState
    decreases |rounds|
  {
    if |rounds| == 0 then st else Ticks(UpdateCongestion(st, rounds[0]), rounds[1..])
  }
}
