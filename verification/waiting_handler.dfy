/** The `/api/waiting` request handler (api/waiting.ts): GET returns the
    session's ticket, POST registers one after a fixed sequence of checks,
    DELETE cancels it, and any other method is refused. The handler is a
    function from the store and a request to a response and the new store. */
module WaitingHandler {
  import opened Common
  import opened Schema
  import WaitingStore

  /** A JSON request body. */
  datatype JsonValue =
    | JString(str: string)
    | JNumber(num: int)
    | JBool(b: bool)
    | JNull
    | JArray(elems: seq<JsonValue>)
    | JObject(fields: map<string, JsonValue>)

  datatype Method = Get | Post | Delete | OtherMethod(name: string)

  /** The parts of a request the handler reads: the method, the `sessionId`
      cookie, the `x-session-id` header and the (possibly absent) body. */
  datatype Request = Request(
    verb: Method,
    cookieSession: Option<string>,
    headerSession: Option<string>,
    body: Option<JsonValue>)

  datatype ResponseBody =
    | WaitingBody(waiting: Option<Ticket>)
    | ErrorBody(error: string)
    | SuccessBody

  datatype Response = Response(status: int, body: ResponseBody)

  /** The handler's world: the facility directory it looks corners up in and
      the waiting store. */
  datatype Backend = Backend(facilities: seq<Facility>, queue: WaitingStore.Store)

  /** `cookies.sessionId || headers['x-session-id'] || 'guest'`: an empty
      string counts as missing. */
  function SessionId(req: Request): (sid: string)
    ensures req.cookieSession.Some? && req.cookieSession.value != "" ==> sid == req.cookieSession.value
    ensures && (req.cookieSession.None? || req.cookieSession.value == "")
            && req.headerSession.Some? && req.headerSession.value != ""
            ==> sid == req.headerSession.value
    ensures && (req.cookieSession.None? || req.cookieSession.value == "")
            && (req.headerSession.None? || req.headerSession.value == "")
            ==> sid == "guest"
    ensures sid != ""
  {
    if req.cookieSession.Some? && req.cookieSession.value != "" then req.cookieSession.value
    else if req.headerSession.Some? && req.headerSession.value != "" then req.headerSession.value
    else "guest"
  }

  /** A required string field of the body. */
  predicate HasString(fields: map<string, JsonValue>, key: string) {
    key in fields && fields[key].JString?
  }

  /** `insertWaitingSchema.safeParse(body)`: an object whose five required
      fields are strings and whose optional `menu` is absent or a string;
      other fields are dropped. */
  function ParseInsertWaiting(body: Option<JsonValue>): (r: Option<InsertWaiting>)
    ensures r.Some? <==>
              && body.Some? && body.value.JObject?
              && HasString(body.value.fields, "facilityId")
              && HasString(body.value.fields, "facilityName")
              && HasString(body.value.fields, "cornerId")
              && HasString(body.value.fields, "cornerName")
              && HasString(body.value.fields, "cornerType")
              && ("menu" in body.value.fields ==> body.value.fields["menu"].JString?)
    ensures r.Some? ==>
              var f := body.value.fields;
              && r.value.facilityId == f["facilityId"].str
              && r.value.facilityName == f["facilityName"].str
              && r.value.cornerId == f["cornerId"].str
              && r.value.cornerName == f["cornerName"].str
              && r.value.cornerType == f["cornerType"].str
              && r.value.menu == (if "menu" in f then Some(f["menu"].str) else None)
  {
    if body.None? || !body.value.JObject? then None
    else
      var f := body.value.fields;
      if && HasString(f, "facilityId") && HasString(f, "facilityName") && HasString(f, "cornerId")
         && HasString(f, "cornerName") && HasString(f, "cornerType")
         && ("menu" in f ==> f["menu"].JString?)
      then
        Some(InsertWaiting(f["facilityId"].str, f["facilityName"].str, f["cornerId"].str,
                           f["cornerName"].str, f["cornerType"].str,
                           if "menu" in f then Some(f["menu"].str) else None))
      else None
  }

  /** The POST branch. The checks run in this order and the first failure
      answers: an existing ticket (before the body is even looked at), an
      invalid body, an unknown facility, an unknown corner, a full corner
      (congestion 5 or more). */
  function Register(b: Backend, sid: string, body: Option<JsonValue>, id: string, now: int)
    : (r: (Response, Backend))
    ensures sid in b.queue.tickets ==>
              r == (Response(400, ErrorBody("Already have an active waiting")), b)
    ensures sid !in b.queue.tickets && ParseInsertWaiting(body).None? ==>
              r == (Response(400, ErrorBody("Invalid request data")), b)
    ensures sid !in b.queue.tickets && ParseInsertWaiting(body).Some?
            && FindFacility(b.facilities, ParseInsertWaiting(body).value.facilityId).None? ==>
              r == (Response(404, ErrorBody("Facility not found")), b)
    ensures r.0.status == 201 <==>
              && sid !in b.queue.tickets
              && ParseInsertWaiting(body).Some?
              && var data := ParseInsertWaiting(body).value;
                 && FindFacility(b.facilities, data.facilityId).Some?
                 && var c := FindCorner(FindFacility(b.facilities, data.facilityId).value.corners, data.cornerId);
                    c.Some? && c.value.congestion < 5
    ensures r.0.status != 201 ==> r.1 == b
    ensures r.0.status == 201 ==>
              var data := ParseInsertWaiting(body).value;
              var corner := FindCorner(FindFacility(b.facilities, data.facilityId).value.corners, data.cornerId).value;
              var (t, q) := WaitingStore.CreateWaiting(b.queue, sid, data, corner, id, now);
              r == (Response(201, WaitingBody(Some(t))), b.(queue := q))
  {
    if sid in b.queue.tickets then (Response(400, ErrorBody("Already have an active waiting")), b)
    else
      var parsed := ParseInsertWaiting(body);
      if parsed.None? then (Response(400, ErrorBody("Invalid request data")), b)
      else
        var data := parsed.value;
        var facility := FindFacility(b.facilities, data.facilityId);
        if facility.None? then (Response(404, ErrorBody("Facility not found")), b)
        else
          var corner := FindCorner(facility.value.corners, data.cornerId);
          if corner.None? then (Response(404, ErrorBody("Corner not found")), b)
          else if corner.value.congestion >= 5 then (Response(400, ErrorBody("This corner is currently full")), b)
          else
            var (t, q) := WaitingStore.CreateWaiting(b.queue, sid, data, corner.value, id, now);
            (Response(201, WaitingBody(Some(t))), b.(queue := q))
  }

  /** The whole handler. `id`, `now` and `stamp` stand for the UUID and the
      clock readings the store would take. */
  function Handle(b: Backend, req: Request, id: string, now: int, stamp: string): (r: (Response, Backend))
    ensures req.verb == Get ==>
              r == (Response(200, WaitingBody(WaitingStore.ActiveWaiting(b.queue, SessionId(req)))), b)
    ensures req.verb == Post ==> r == Register(b, SessionId(req), req.body, id, now)
    ensures req.verb == Delete && SessionId(req) !in b.queue.tickets ==>
              r == (Response(404, ErrorBody("No active waiting found")), b)
    ensures req.verb == Delete && SessionId(req) in b.queue.tickets ==>
              r == (Response(200, SuccessBody),
                    b.(queue := WaitingStore.CancelWaiting(b.queue, SessionId(req), id, stamp).1))
    ensures req.verb.OtherMethod? ==> r == (Response(405, ErrorBody("Method not allowed")), b)
    // The directory is read, never written.
    ensures r.1.facilities == b.facilities
    // No request replaces a ticket: one that survives is unchanged, and a new
    // one appears only for the requesting session on a 201.
    ensures forall k :: k in b.queue.tickets && k in r.1.queue.tickets ==>
              r.1.queue.tickets[k] == b.queue.tickets[k]
    ensures forall k :: k in r.1.queue.tickets && k !in b.queue.tickets ==>
              k == SessionId(req) && req.verb == Post && r.0.status == 201
    ensures forall k :: k in b.queue.tickets && k !in r.1.queue.tickets ==>
              k == SessionId(req) && req.verb == Delete && r.0.status == 200
  {
    var sid := SessionId(req);
    match req.verb
    case Get => (Response(200, WaitingBody(WaitingStore.ActiveWaiting(b.queue, sid))), b)
    case Post => Register(b, sid, req.body, id, now)
    case Delete =>
      var (ok, q) := WaitingStore.CancelWaiting(b.queue, sid, id, stamp);
      if !ok then (Response(404, ErrorBody("No active waiting found")), b)
      else (Response(200, SuccessBody), b.(queue := q))
    case OtherMethod(_) => (Response(405, ErrorBody("Method not allowed")), b)
  }

  /** One handled request together with the values it draws. */
  datatype Call = Call(req: Request, id: string, now: int, stamp: string)

  function HandleAll(b: Backend, calls: seq<Call>): Backend
    decreases |calls|
  {
    if |calls| == 0 then b
    else HandleAll(Handle(b, calls[0].req, calls[0].id, calls[0].now, calls[0].stamp).1, calls[1..])
  }

  /** Any sequence of requests keeps the store's invariant: every ticket's
      creation identity holds, no ticket number is above the counter, and no
      history exceeds ten entries. */
  lemma {:induction false} HandleAllPreservesInv(b: Backend, calls: seq<Call>)
    requires WaitingStore.Inv(b.queue)
    ensures WaitingStore.Inv(HandleAll(b, calls).queue)
    decreases |calls|
  {
    if |calls| > 0 {
      var c := calls[0];
      var sid := SessionId(c.req);
      match c.req.verb {
        case Post =>
          var r := Register(b, sid, c.req.body, c.id, c.now);
          if r.0.status == 201 {
            var data := ParseInsertWaiting(c.req.body).value;
            var corner := FindCorner(FindFacility(b.facilities, data.facilityId).value.corners, data.cornerId).value;
            WaitingStore.CreatePreservesInv(b.queue, sid, data, corner, c.id, c.now);
          }
        case Delete =>
          WaitingStore.CancelPreservesInv(b.queue, sid, c.id, c.stamp);
        case _ =>
      }
      HandleAllPreservesInv(Handle(b, c.req, c.id, c.now, c.stamp).1, calls[1..]);
    }
  }

  /** A second registration for a session that already holds a ticket is
      refused whatever its body, and changes nothing. */
  lemma SecondRegistrationRefused(b: Backend, req: Request, req2: Request, id: string, id2: string,
                                  now: int, now2: int, stamp: string)
    requires req.verb == Post && req2.verb == Post
    requires SessionId(req) == SessionId(req2)
    requires Handle(b, req, id, now, stamp).0.status == 201
    ensures var b' := Handle(b, req, id, now, stamp).1;
            Handle(b', req2, id2, now2, stamp) ==
              (Response(400, ErrorBody("Already have an active waiting")), b')
  {
  }
}
