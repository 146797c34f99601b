/** The records the stores keep: facilities and their corners, waiting
    tickets and history entries (shared/schema.ts, api/storage.ts:1-63). */
module Schema {
  import opened Common

  /** Geographic position of a facility. Coordinates are never computed on
      in this model (the distance to the user is an input), so they are kept
      as exact reals. */
  datatype Location = Location(
    lat: real,
    lng: real,
    radius: real,
    address: string,
    building: Option<string>)

  /** A serving point inside a facility. `available`/`capacity` exist only
      for seat-based corners (library rooms, gym zones). */
  datatype Corner = Corner(
    id: string,
    name: string,
    kind: string,
    menu: Option<string>,
    price: Option<int>,
    congestion: int,
    waitTime: int,
    currentQueue: int,
    available: Option<int>,
    capacity: Option<int>,
    operatingHours: Option<string>)

  /** A facility; `kind` is the TypeScript record's `type` ("CAFETERIA", "LIBRARY", ...). */
  datatype Facility = Facility(
    id: string,
    name: string,
    kind: string,
    location: Location,
    capacity: int,
    avgServiceTime: int,
    avgCongestion: int,
    corners: seq<Corner>)

  datatype WaitingStatus = Waiting | Called | Completed | Cancelled | NoShow

  /** The validated body of a registration request. */
  datatype InsertWaiting = InsertWaiting(
    facilityId: string,
    facilityName: string,
    cornerId: string,
    cornerName: string,
    cornerType: string,
    menu: Option<string>)

  /** A waiting ticket. `registeredAt` is the creation time in epoch ms. */
  datatype Ticket = Ticket(
    id: string,
    facilityId: string,
    facilityName: string,
    cornerId: string,
    cornerName: string,
    cornerType: string,
    menu: Option<string>,
    waitingNumber: int,
    status: WaitingStatus,
    registeredAt: int,
    estimatedTime: int,
    waitingAhead: int,
    currentCalling: int)

  /** One line of a session's waiting history; `date` is the minute-precision
      "YYYY-MM-DD HH:mm" stamp, taken as given. */
  datatype HistoryItem = HistoryItem(
    id: string,
    facility: string,
    date: string,
    status: WaitingStatus,
    statusText: string)

  /** A congestion level as the schema constrains it: an integer in 1..5. */
  predicate IsCongestionLevel(c: int) {
    1 <= c <= 5
  }

  /** `xs.find(x => key(x) === id)`: the first element whose key is `id`. */
  function FindFirst<T(==)>(xs: seq<T>, key: T -> string, id: string): (r: Option<T>)
    ensures r.None? <==> forall i :: 0 <= i < |xs| ==> key(xs[i]) != id
    ensures r.Some? ==> exists i :: 0 <= i < |xs| && xs[i] == r.value
                                      && forall j :: 0 <= j < i ==> key(xs[j]) != id
    ensures r.Some? ==> key(r.value) == id
  {
    if |xs| == 0 then None
    else if key(xs[0]) == id then Some(xs[0])
    else
      var r := FindFirst(xs[1..], key, id);
      if r.Some? then
        var i :| 0 <= i < |xs[1..]| && xs[1..][i] == r.value
                 && forall j :: 0 <= j < i ==> key(xs[1..][j]) != id;
        assert xs[i + 1] == r.value;
        assert forall j :: 0 <= j < i + 1 ==> key(xs[j]) != id by {
          forall j | 0 <= j < i + 1 ensures key(xs[j]) != id {
            if j > 0 { assert xs[j] == xs[1..][j - 1]; }
          }
        }
        r
      else
        assert forall i :: 0 <= i < |xs| ==> key(xs[i]) != id by {
          forall i | 0 <= i < |xs| ensures key(xs[i]) != id {
            if i > 0 { assert xs[i] == xs[1..][i - 1]; }
          }
        }
        r
  }

  /** `facilities.find(f => f.id === id)`. */
  function FindFacility(fs: seq<Facility>, id: string): Option<Facility> {
    FindFirst(fs, (f: Facility) => f.id, id)
  }

  /** `corners.find(c => c.id === id)`. */
  function FindCorner(cs: seq<Corner>, id: string): Option<Corner> {
    FindFirst(cs, (c: Corner) => c.id, id)
  }
}
