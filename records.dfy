/** The backend's database as the two routes use it: students, hostels, reservations and
    payments, with the unique index on a payment's provider reference. Each operation the
    routes call is a method of `Store`, specified by a function on the whole state. */
module Records {
  import opened Wrappers

  const PENDING := "PENDING"
  const SUCCESS := "SUCCESS"

  datatype Reservation = Reservation(
    id: string, studentId: string, hostelId: string, depositAmount: int,
    status: string, expiresAt: int, depositPaidAt: Option<int>)

  datatype Payment = Payment(
    id: string, provider: string, providerRef: string, amount: int, status: string,
    studentId: string, reservationId: Option<string>)

  /** The hostel columns the reservation detail carries. */
  datatype Hostel = Hostel(id: string, name: string)

  /** The whole database. `refIndex` is the unique index on `Payment.providerRef`. */
  datatype StoreState = StoreState(
    students: set<string>,
    hostels: map<string, Hostel>,
    reservations: map<string, Reservation>,
    payments: map<string, Payment>,
    refIndex: map<string, string>)

  /** Keys are ids, the reference index is exactly the payments' references (so a reference
      belongs to at most one payment), and every foreign key points at a row. */
  predicate Valid(s: StoreState) {
    && (forall k :: k in s.reservations ==> s.reservations[k].id == k)
    && (forall k :: k in s.payments ==> s.payments[k].id == k)
    && (forall r :: r in s.refIndex ==> s.refIndex[r] in s.payments && s.payments[s.refIndex[r]].providerRef == r)
    && (forall k :: k in s.payments ==> s.payments[k].providerRef in s.refIndex && s.refIndex[s.payments[k].providerRef] == k)
    && (forall k :: k in s.reservations ==>
          s.reservations[k].studentId in s.students && s.reservations[k].hostelId in s.hostels)
    && (forall k :: k in s.payments ==> s.payments[k].studentId in s.students)
    && (forall k :: k in s.payments && s.payments[k].reservationId.Some? ==>
          s.payments[k].reservationId.value in s.reservations)
  }

  /** In a valid store two payments with the same reference are the same payment. */
  lemma UniqueReference(s: StoreState, k1: string, k2: string)
    requires Valid(s) && k1 in s.payments && k2 in s.payments
    requires s.payments[k1].providerRef == s.payments[k2].providerRef
    ensures k1 == k2
  {
    assert s.refIndex[s.payments[k1].providerRef] == k1;
  }

  // ---------------------------------------------------------------------------
  // The database operations, as functions of the state

  /** An insert succeeds when the id is new and the foreign keys resolve. */
  predicate CanInsertReservation(s: StoreState, r: Reservation) {
    r.id !in s.reservations && r.studentId in s.students && r.hostelId in s.hostels
  }

  function WithReservation(s: StoreState, r: Reservation): StoreState {
    s.(reservations := s.reservations[r.id := r])
  }

  /** A payment insert also fails on a reference that is already taken. */
  predicate CanInsertPayment(s: StoreState, p: Payment) {
    && p.id !in s.payments && p.providerRef !in s.refIndex && p.studentId in s.students
    && (p.reservationId.Some? ==> p.reservationId.value in s.reservations)
  }

  function WithPayment(s: StoreState, p: Payment): StoreState {
    s.(payments := s.payments[p.id := p], refIndex := s.refIndex[p.providerRef := p.id])
  }

  /** `updateMany({ where: { providerRef }, data: { status, amount } })`. */
  function UpdateByRef(payments: map<string, Payment>, ref: string, status: string, amount: int): (r: map<string, Payment>)
    ensures r.Keys == payments.Keys
  {
    map k | k in payments ::
      if payments[k].providerRef == ref then payments[k].(status := status, amount := amount) else payments[k]
  }

  /** `findUnique({ where: { providerRef } })`, through the unique index. */
  function FindByRef(s: StoreState, ref: string): Option<Payment> {
    if ref in s.refIndex && s.refIndex[ref] in s.payments then Some(s.payments[s.refIndex[ref]]) else None
  }

  /** `reservation.update({ where: { id }, data: { depositPaidAt, status } })` on an existing row. */
  function StampReservation(s: StoreState, id: string, paidAt: int, status: string): StoreState
    requires id in s.reservations
  {
    s.(reservations := s.reservations[id := s.reservations[id].(depositPaidAt := Some(paidAt), status := status)])
  }

  /** The payments of a reservation, for `include: { payments: true }`. */
  function PaymentsOf(s: StoreState, reservationId: string): set<Payment> {
    set k | k in s.payments && s.payments[k].reservationId == Some(reservationId) :: s.payments[k]
  }

  // ---------------------------------------------------------------------------
  // What each operation keeps

  lemma InsertReservationValid(s: StoreState, r: Reservation)
    requires Valid(s) && CanInsertReservation(s, r)
    ensures Valid(WithReservation(s, r))
  {
  }

  lemma InsertPaymentValid(s: StoreState, p: Payment)
    requires Valid(s) && CanInsertPayment(s, p)
    ensures Valid(WithPayment(s, p))
  {
    var t := WithPayment(s, p);
    forall r | r in t.refIndex
      ensures t.refIndex[r] in t.payments && t.payments[t.refIndex[r]].providerRef == r
    {
      if r != p.providerRef {
        assert s.refIndex[r] != p.id;
      }
    }
    forall k | k in t.payments
      ensures t.payments[k].providerRef in t.refIndex && t.refIndex[t.payments[k].providerRef] == k
    {
      if k != p.id {
        assert s.payments[k].providerRef != p.providerRef;
      }
    }
  }

  /** Updating status and amount by reference touches no key, reference or link. */
  lemma UpdateByRefValid(s: StoreState, ref: string, status: string, amount: int)
    requires Valid(s)
    ensures Valid(s.(payments := UpdateByRef(s.payments, ref, status, amount)))
  {
  }

  lemma StampReservationValid(s: StoreState, id: string, paidAt: int, status: string)
    requires Valid(s) && id in s.reservations
    ensures Valid(StampReservation(s, id, paidAt, status))
  {
  }

  /** In a valid store `FindByRef` finds exactly the payment carrying the reference. */
  lemma FindByRefSpec(s: StoreState, ref: string)
    requires Valid(s)
    ensures FindByRef(s, ref).Some? <==> exists k :: k in s.payments && s.payments[k].providerRef == ref
    ensures FindByRef(s, ref).Some? ==>
      FindByRef(s, ref).value in s.payments.Values && FindByRef(s, ref).value.providerRef == ref
  {
    if exists k :: k in s.payments && s.payments[k].providerRef == ref {
      var k :| k in s.payments && s.payments[k].providerRef == ref;
      assert ref in s.refIndex;
    }
  }

  /** `updateMany` sets every payment with the reference and leaves every other one as it
      was; in a valid store that is at most the one payment the index names. */
  lemma UpdateByRefSpec(s: StoreState, ref: string, status: string, amount: int)
    requires Valid(s)
    ensures forall k :: k in s.payments ==>
      UpdateByRef(s.payments, ref, status, amount)[k] ==
        (if s.payments[k].providerRef == ref then s.payments[k].(status := status, amount := amount)
         else s.payments[k])
    ensures ref !in s.refIndex ==> UpdateByRef(s.payments, ref, status, amount) == s.payments
    ensures forall k :: k in s.payments && (ref !in s.refIndex || k != s.refIndex[ref]) ==>
      UpdateByRef(s.payments, ref, status, amount)[k] == s.payments[k]
  {
  }

  /** Applying the same update twice is the same as once. */
  lemma UpdateByRefIdempotent(payments: map<string, Payment>, ref: string, status: string, amount: int)
    ensures UpdateByRef(UpdateByRef(payments, ref, status, amount), ref, status, amount)
         == UpdateByRef(payments, ref, status, amount)
  {
  }

  // ---------------------------------------------------------------------------
  // The store

  class Store {
    var students: set<string>
    var hostels: map<string, Hostel>
    var reservations: map<string, Reservation>
    var payments: map<string, Payment>
    var refIndex: map<string, string>

    function State(): StoreState
      reads this
    {
      StoreState(students, hostels, reservations, payments, refIndex)
    }

    constructor (s: StoreState)
      ensures State() == s
    {
      students, hostels, reservations, payments, refIndex :=
        s.students, s.hostels, s.reservations, s.payments, s.refIndex;
    }

    /** `reservation.create`: the row is inserted, or the insert fails and nothing changes. */
    method CreateReservation(r: Reservation) returns (ok: bool)
      modifies this
      ensures ok == CanInsertReservation(old(State()), r)
      ensures State() == if ok then WithReservation(old(State()), r) else old(State())
    {
      ok := r.id !in reservations && r.studentId in students && r.hostelId in hostels;
      if ok {
        reservations := reservations[r.id := r];
      }
    }

    /** `payment.create`, with the unique reference check. */
    method CreatePayment(p: Payment) returns (ok: bool)
      modifies this
      ensures ok == CanInsertPayment(old(State()), p)
      ensures State() == if ok then WithPayment(old(State()), p) else old(State())
    {
      ok := && p.id !in payments && p.providerRef !in refIndex && p.studentId in students
            && (p.reservationId.Some? ==> p.reservationId.value in reservations);
      if ok {
        payments := payments[p.id := p];
        refIndex := refIndex[p.providerRef := p.id];
      }
    }

    /** `payment.updateMany` by reference. */
    method UpdatePaymentsByRef(ref: string, status: string, amount: int)
      modifies this`payments
      ensures State() == old(State()).(payments := UpdateByRef(old(payments), ref, status, amount))
    {
      payments := UpdateByRef(payments, ref, status, amount);
    }

    /** `payment.findUnique` by reference. */
    method FindPaymentByRef(ref: string) returns (p: Option<Payment>)
      ensures p == FindByRef(State(), ref)
    {
      if ref in refIndex && refIndex[ref] in payments {
        p := Some(payments[refIndex[ref]]);
      } else {
        p := None;
      }
    }

    /** `reservation.update` by id; it fails on an unknown id and then changes nothing. */
    method UpdateReservation(id: string, paidAt: int, status: string) returns (ok: bool)
      modifies this`reservations
      ensures ok == (id in old(reservations))
      ensures State() == if ok then StampReservation(old(State()), id, paidAt, status) else old(State())
    {
      ok := id in reservations;
      if ok {
        reservations := reservations[id := reservations[id].(depositPaidAt := Some(paidAt), status := status)];
      }
    }

    /** `reservation.findUnique` with its payments and its hostel. */
    method FindReservation(id: string) returns (r: Option<(Reservation, set<Payment>, Option<Hostel>)>)
      ensures id !in reservations ==> r == None
      ensures id in reservations ==>
        r == Some((reservations[id], PaymentsOf(State(), id),
                   if reservations[id].hostelId in hostels then Some(hostels[reservations[id].hostelId]) else None))
    {
      if id in reservations {
        var res := reservations[id];
        var h := if res.hostelId in hostels then Some(hostels[res.hostelId]) else None;
        r := Some((res, PaymentsOf(State(), id), h));
      } else {
        r := None;
      }
    }
  }
}
