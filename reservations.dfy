/** The reservation routes: `POST /` validates the body, inserts a pending reservation that
    expires in 48 hours and then its pending payment; `GET /:id` reads one reservation with
    its payments and hostel. */
module Reservations {
  import opened Wrappers
  import opened Text
  import opened Records

  /** A JSON value as the body parser hands it over; `Absent` is a missing key. */
  datatype JsonValue = JString(s: string) | JInteger(i: int) | JFraction | JNull | JBool(b: bool) | JArray | JObject | Absent

  /** The request body's four keys; other keys are dropped by the schema. */
  datatype RequestBody = RequestBody(studentId: JsonValue, hostelId: JsonValue, depositAmount: JsonValue, providerRef: JsonValue)

  /** The body once the schema has accepted it. */
  datatype CreateRequest = CreateRequest(studentId: string, hostelId: string, depositAmount: int, providerRef: Option<string>)

  predicate IsHex(c: char) {
    ('0' <= c <= '9') || ('a' <= c <= 'f') || ('A' <= c <= 'F')
  }

  predicate IsDashPosition(i: int) {
    i == 8 || i == 13 || i == 18 || i == 23
  }

  /** The schema's UUID test: groups of 8, 4, 4, 4 and 12 hexadecimal digits, either case,
      joined by dashes. */
  predicate IsUuid(s: string) {
    |s| == 36 && forall i :: 0 <= i < 36 ==> if IsDashPosition(i) then s[i] == '-' else IsHex(s[i])
  }

  predicate IsUuidValue(v: JsonValue) {
    v.JString? && IsUuid(v.s)
  }

  /** `z.number().int().positive()`. */
  predicate IsPositiveInteger(v: JsonValue) {
    v.JInteger? && v.i > 0
  }

  /** `z.string().optional()`: a string or a missing key; `null` is refused. */
  predicate IsOptionalString(v: JsonValue) {
    v.JString? || v.Absent?
  }

  /** `createReservationSchema.parse`. */
  function ParseBody(b: RequestBody): (r: Option<CreateRequest>)
  {
    if IsUuidValue(b.studentId) && IsUuidValue(b.hostelId) && IsPositiveInteger(b.depositAmount)
       && IsOptionalString(b.providerRef)
    then Some(CreateRequest(b.studentId.s, b.hostelId.s, b.depositAmount.i,
                            if b.providerRef.JString? then Some(b.providerRef.s) else None))
    else None
  }

  /** The schema accepts exactly two UUID strings, a positive integer and an optional string,
      and passes their values on unchanged. */
  lemma ParseBodySpec(b: RequestBody)
    ensures ParseBody(b).Some? <==>
      && b.studentId.JString? && IsUuid(b.studentId.s)
      && b.hostelId.JString? && IsUuid(b.hostelId.s)
      && b.depositAmount.JInteger? && b.depositAmount.i > 0
      && (b.providerRef.JString? || b.providerRef.Absent?)
    ensures ParseBody(b).Some? ==>
      var r := ParseBody(b).value;
      && r.studentId == b.studentId.s && r.hostelId == b.hostelId.s && r.depositAmount == b.depositAmount.i
      && (r.providerRef.Some? <==> b.providerRef.JString?)
      && (r.providerRef.Some? ==> r.providerRef.value == b.providerRef.s)
  {
  }

  /** `add(new Date(), { hours: 48 })`, in milliseconds. */
  const HoldMs := 48 * 60 * 60 * 1000

  const Provider := "paystack"

  /** `body.providerRef ?? \`local-${Date.now()}\``: a supplied reference is kept as it is,
      even when empty. */
  function ProviderRefFor(supplied: Option<string>, nowMs: int): (r: string)
  {
    if supplied.Some? then supplied.value else "local-" + IntToString(nowMs)
  }

  /** The supplied reference wins; otherwise the reference is "local-" and the clock
      reading, and two different readings give two different references. */
  lemma ProviderRefSpec(supplied: Option<string>, t1: nat, t2: nat)
    ensures supplied.Some? ==> ProviderRefFor(supplied, t1) == supplied.value
    ensures supplied.None? ==> StartsWith(ProviderRefFor(supplied, t1), "local-")
    ensures supplied.None? && ProviderRefFor(supplied, t1) == ProviderRefFor(supplied, t2) ==> t1 == t2
  {
    if supplied.None? {
      var a, b := ProviderRefFor(supplied, t1), ProviderRefFor(supplied, t2);
      assert a[..6] == "local-";
      if a == b {
        assert a[6..] == Decimal(t1) && b[6..] == Decimal(t2);
        DecimalInjective(t1, t2);
      }
    }
  }

  /** What the POST route answers: 201 with the two rows, or the error handler's 500. */
  datatype PostResponse = Created(reservation: Reservation, payment: Payment) | PostServerError

  function PostStatus(r: PostResponse): int {
    if r.Created? then 201 else 500
  }

  /** The rows the route would insert for an accepted body. */
  function NewReservation(req: CreateRequest, now: int, reservationId: string): Reservation {
    Reservation(reservationId, req.studentId, req.hostelId, req.depositAmount, PENDING, now + HoldMs, None)
  }

  function NewPayment(req: CreateRequest, refNow: int, reservationId: string, paymentId: string): Payment {
    Payment(paymentId, Provider, ProviderRefFor(req.providerRef, refNow), req.depositAmount, PENDING,
            req.studentId, Some(reservationId))
  }

  /** The POST route as a function of the database: `now` is `new Date()`, `refNow` is
      `Date.now()`, and the two ids are the ones the database assigns. */
  function PostReservation(s: StoreState, body: RequestBody, now: int, refNow: int,
                           reservationId: string, paymentId: string): (StoreState, PostResponse)
  {
    var req := ParseBody(body);
    if req.None? then (s, PostServerError)
    else
      var r := NewReservation(req.value, now, reservationId);
      if !CanInsertReservation(s, r) then (s, PostServerError)
      else
        var s1 := WithReservation(s, r);
        var p := NewPayment(req.value, refNow, reservationId, paymentId);
        if !CanInsertPayment(s1, p) then (s1, PostServerError)
        else (WithPayment(s1, p), Created(r, p))
  }

  /** The route handler: parse, insert the reservation, insert the payment, answer. */
  method Post(store: Store, body: RequestBody, now: int, refNow: int, reservationId: string, paymentId: string)
    returns (resp: PostResponse)
    modifies store
    ensures (store.State(), resp) == PostReservation(old(store.State()), body, now, refNow, reservationId, paymentId)
  {
    var req := ParseBody(body);
    if req.None? {
      return PostServerError;
    }
    var r := NewReservation(req.value, now, reservationId);
    var ok := store.CreateReservation(r);
    if !ok {
      return PostServerError;
    }
    var p := NewPayment(req.value, refNow, reservationId, paymentId);
    ok := store.CreatePayment(p);
    if !ok {
      return PostServerError;
    }
    resp := Created(r, p);
  }

  /** A body the schema refuses inserts nothing and ends in a 500. */
  lemma SchemaFailureNoInsert(s: StoreState, body: RequestBody, now: int, refNow: int, rid: string, pid: string)
    requires ParseBody(body).None?
    ensures PostReservation(s, body, now, refNow, rid, pid) == (s, PostServerError)
    ensures PostStatus(PostReservation(s, body, now, refNow, rid, pid).1) == 500
  {
  }

  /** A 201 carries exactly the two inserted rows: a pending reservation expiring 48 hours
      from now, and a pending "paystack" payment of the deposit for the same student, linked
      to it. */
  lemma CreatedRows(s: StoreState, body: RequestBody, now: int, refNow: int, rid: string, pid: string)
    requires PostReservation(s, body, now, refNow, rid, pid).1.Created?
    ensures var (t, resp) := PostReservation(s, body, now, refNow, rid, pid);
      var req := ParseBody(body).value;
      && ParseBody(body).Some?
      && resp.reservation.status == PENDING && resp.reservation.expiresAt == now + 172800000
      && resp.reservation.depositPaidAt == None && resp.reservation.id == rid
      && resp.reservation.studentId == req.studentId && resp.reservation.hostelId == req.hostelId
      && resp.reservation.depositAmount == req.depositAmount
      && resp.payment.status == PENDING && resp.payment.provider == "paystack"
      && resp.payment.amount == req.depositAmount && resp.payment.studentId == req.studentId
      && resp.payment.reservationId == Some(rid)
      && resp.payment.providerRef == ProviderRefFor(req.providerRef, refNow)
      && t == WithPayment(WithReservation(s, resp.reservation), resp.payment)
  {
  }

  /** The request succeeds exactly when the body is accepted and both inserts go through. */
  lemma CreatedIff(s: StoreState, body: RequestBody, now: int, refNow: int, rid: string, pid: string)
    ensures PostReservation(s, body, now, refNow, rid, pid).1.Created? <==>
      && ParseBody(body).Some?
      && CanInsertReservation(s, NewReservation(ParseBody(body).value, now, rid))
      && CanInsertPayment(WithReservation(s, NewReservation(ParseBody(body).value, now, rid)),
                          NewPayment(ParseBody(body).value, refNow, rid, pid))
  {
  }

  /** The two inserts are not one transaction: when the payment insert fails, for instance
      on a reference already in use, the reservation stays and the answer is a 500. */
  lemma PaymentFailureKeepsReservation(s: StoreState, body: RequestBody, now: int, refNow: int, rid: string, pid: string)
    requires ParseBody(body).Some?
    requires CanInsertReservation(s, NewReservation(ParseBody(body).value, now, rid))
    requires !CanInsertPayment(WithReservation(s, NewReservation(ParseBody(body).value, now, rid)),
                               NewPayment(ParseBody(body).value, refNow, rid, pid))
    ensures var (t, resp) := PostReservation(s, body, now, refNow, rid, pid);
      && resp == PostServerError
      && t == WithReservation(s, NewReservation(ParseBody(body).value, now, rid))
      && rid in t.reservations && rid !in s.reservations
  {
  }

  /** A supplied reference that is already taken makes the payment insert fail. */
  lemma TakenReferenceFails(s: StoreState, body: RequestBody, now: int, refNow: int, rid: string, pid: string)
    requires ParseBody(body).Some? && ParseBody(body).value.providerRef.Some?
    requires ParseBody(body).value.providerRef.value in s.refIndex
    ensures !CanInsertPayment(WithReservation(s, NewReservation(ParseBody(body).value, now, rid)),
                              NewPayment(ParseBody(body).value, refNow, rid, pid))
  {
  }

  /** Every outcome, including the half-done one, leaves a valid database valid. */
  lemma PostKeepsValid(s: StoreState, body: RequestBody, now: int, refNow: int, rid: string, pid: string)
    requires Valid(s)
    ensures Valid(PostReservation(s, body, now, refNow, rid, pid).0)
  {
    var req := ParseBody(body);
    if req.Some? {
      var r := NewReservation(req.value, now, rid);
      if CanInsertReservation(s, r) {
        InsertReservationValid(s, r);
        var s1 := WithReservation(s, r);
        var p := NewPayment(req.value, refNow, rid, pid);
        if CanInsertPayment(s1, p) {
          InsertPaymentValid(s1, p);
        }
      }
    }
  }

  // ---------------------------------------------------------------------------
  // GET /:id

  datatype GetResponse =
    | Found(reservation: Reservation, payments: set<Payment>, hostel: Option<Hostel>)
    | NotFound

  function GetStatus(r: GetResponse): int {
    if r.Found? then 200 else 404
  }

  /** The route handler; a read changes nothing. */
  method Get(store: Store, id: string) returns (resp: GetResponse)
    ensures id !in store.reservations ==> resp == NotFound && GetStatus(resp) == 404
    ensures id in store.reservations ==>
      && resp.Found? && resp.reservation == store.reservations[id]
      && resp.payments == PaymentsOf(store.State(), id)
      && resp.hostel == (if store.reservations[id].hostelId in store.hostels
                         then Some(store.hostels[store.reservations[id].hostelId]) else None)
  {
    var r := store.FindReservation(id);
    if r.None? {
      return NotFound;
    }
    resp := Found(r.value.0, r.value.1, r.value.2);
  }

  /** In a valid database the detail includes the reservation's hostel, and its payments
      are exactly the rows linked to it. */
  lemma FoundDetail(s: StoreState, id: string)
    requires Valid(s) && id in s.reservations
    ensures s.reservations[id].hostelId in s.hostels
    ensures forall p :: p in PaymentsOf(s, id) <==> p in s.payments.Values && p.reservationId == Some(id)
  {
    forall p | p in s.payments.Values && p.reservationId == Some(id) ensures p in PaymentsOf(s, id) {
      var k :| k in s.payments && s.payments[k] == p;
    }
  }
}
