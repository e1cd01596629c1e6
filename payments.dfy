/** The payment provider's webhook: an optional HMAC signature check, then, for a
    `charge.success` event, every payment with the event's reference is marked paid with the
    amount converted from minor units, and the payment's reservation gets its deposit stamp. */
module Payments {
  import opened Wrappers
  import opened Records
  import Reservations

  /** The `data` object of an event: the provider reference and the amount in minor units
      (kobo). */
  datatype ChargeData = ChargeData(reference: string, amountMinor: int)

  /** The parsed body: the `event` string if present and the `data` object if present. */
  datatype Event = Event(name: Option<string>, data: Option<ChargeData>)

  const ChargeSuccess := "charge.success"

  /** The answer: 400 'invalid signature', 200 `{ received: true }` or 500 'error'. */
  datatype WebhookResponse = InvalidSignature | Received | WebhookError

  function WebhookStatus(r: WebhookResponse): int {
    match r
    case InvalidSignature => 400
    case Received => 200
    case WebhookError => 500
  }

  /** The check runs only with a non-empty secret and a non-empty header. */
  predicate SignatureChecked(secret: string, signature: Option<string>) {
    secret != "" && signature.Some? && signature.value != ""
  }

  /** A checked header that differs from the hex HMAC-SHA512 of the raw body, which `hmac`
      stands for, is refused. */
  predicate SignatureRejected(secret: string, signature: Option<string>, rawBody: seq<bv8>,
                              hmac: (string, seq<bv8>) -> string)
  {
    SignatureChecked(secret, signature) && hmac(secret, rawBody) != signature.value
  }

  /** `Math.floor(amount / 100)`: with a positive divisor Dafny's division is the floor. */
  function MajorUnits(amountMinor: int): (a: int)
    ensures a * 100 <= amountMinor < a * 100 + 100
  {
    amountMinor / 100
  }

  /** The initializer sends `amount * 100`, so a whole amount comes back unchanged. */
  lemma MinorUnitsRoundTrip(amount: int)
    ensures MajorUnits(amount * 100) == amount
  {
    var a := MajorUnits(amount * 100);
    assert a * 100 <= amount * 100 < a * 100 + 100;
  }

  /** `payRec?.reservationId`: a missing or empty id is falsy. */
  function LinkedReservation(p: Option<Payment>): Option<string> {
    if p.Some? && p.value.reservationId.Some? && p.value.reservationId.value != ""
    then p.value.reservationId else None
  }

  /** `updateMany` with the event's data: status SUCCESS and the amount in major units. */
  function Paid(s: StoreState, d: ChargeData): StoreState {
    s.(payments := UpdateByRef(s.payments, d.reference, SUCCESS, MajorUnits(d.amountMinor)))
  }

  /** `findUnique` by the reference, then the deposit stamp on the linked reservation; an
      update of a missing reservation throws, which the handler answers with a 500. */
  function StampLinked(s: StoreState, ref: string, now: int): (StoreState, WebhookResponse) {
    var link := LinkedReservation(FindByRef(s, ref));
    if link.None? then (s, Received)
    else if link.value in s.reservations then (StampReservation(s, link.value, now, PENDING), Received)
    else (s, WebhookError)
  }

  predicate IsCharge(event: Event) {
    event.name == Some(ChargeSuccess) && event.data.Some?
  }

  /** The event handling once the signature has passed. */
  function ProcessEvent(s: StoreState, event: Event, now: int): (StoreState, WebhookResponse)
  {
    if IsCharge(event) then StampLinked(Paid(s, event.data.value), event.data.value.reference, now)
    else (s, Received)
  }

  /** The whole handler; `now` is `new Date()`. `rawBody` is what the route's `verify` hook
      stored: `None` when it never ran, because a parser earlier in the application had
      already consumed the body. Hashing the missing body throws, which the handler answers
      with a 500. */
  function Webhook(s: StoreState, secret: string, signature: Option<string>, rawBody: Option<seq<bv8>>,
                   hmac: (string, seq<bv8>) -> string, event: Event, now: int): (StoreState, WebhookResponse)
  {
    if SignatureChecked(secret, signature) && rawBody.None? then (s, WebhookError)
    else if SignatureChecked(secret, signature) && SignatureRejected(secret, signature, rawBody.value, hmac)
    then (s, InvalidSignature)
    else ProcessEvent(s, event, now)
  }

  /** The route handler over the database. */
  method HandleWebhook(store: Store, secret: string, signature: Option<string>, rawBody: Option<seq<bv8>>,
                       hmac: (string, seq<bv8>) -> string, event: Event, now: int)
    returns (resp: WebhookResponse)
    modifies store
    ensures (store.State(), resp) == Webhook(old(store.State()), secret, signature, rawBody, hmac, event, now)
  {
    if secret != "" && signature.Some? && signature.value != "" {
      if rawBody.None? {
        return WebhookError;
      }
      var hash := hmac(secret, rawBody.value);
      if hash != signature.value {
        return InvalidSignature;
      }
    }
    if event.name == Some(ChargeSuccess) && event.data.Some? {
      var ref := event.data.value.reference;
      var amount := MajorUnits(event.data.value.amountMinor);
      store.UpdatePaymentsByRef(ref, SUCCESS, amount);
      var payRec := store.FindPaymentByRef(ref);
      var link := LinkedReservation(payRec);
      if link.Some? {
        var ok := store.UpdateReservation(link.value, now, PENDING);
        if !ok {
          return WebhookError;
        }
      }
    }
    resp := Received;
  }

  // ---------------------------------------------------------------------------
  // Properties

  /** With the raw body kept, a signature that does not match refuses the request with a 400
      and changes nothing. */
  lemma BadSignatureNoChange(s: StoreState, secret: string, signature: Option<string>, body: seq<bv8>,
                             hmac: (string, seq<bv8>) -> string, event: Event, now: int)
    requires SignatureChecked(secret, signature)
    requires hmac(secret, body) != signature.value
    ensures Webhook(s, secret, signature, Some(body), hmac, event, now) == (s, InvalidSignature)
    ensures WebhookStatus(Webhook(s, secret, signature, Some(body), hmac, event, now).1) == 400
  {
  }

  /** With the raw body kept, a matching signature lets the event through. */
  lemma GoodSignatureProcessed(s: StoreState, secret: string, signature: Option<string>, body: seq<bv8>,
                               hmac: (string, seq<bv8>) -> string, event: Event, now: int)
    requires SignatureChecked(secret, signature)
    requires hmac(secret, body) == signature.value
    ensures Webhook(s, secret, signature, Some(body), hmac, event, now) == ProcessEvent(s, event, now)
  {
  }

  /** As the application mounts the route, behind the application-wide JSON parser, the
      `verify` hook never runs: every delivery whose signature is checked, even a correctly
      signed one, is answered with a 500 and changes nothing. */
  lemma MountedSignedDeliveryFails(s: StoreState, secret: string, signature: Option<string>,
                                   hmac: (string, seq<bv8>) -> string, event: Event, now: int)
    requires SignatureChecked(secret, signature)
    ensures Webhook(s, secret, signature, None, hmac, event, now) == (s, WebhookError)
    ensures WebhookStatus(Webhook(s, secret, signature, None, hmac, event, now).1) == 500
  {
  }

  /** Without a secret, or without the header, the signature is not looked at: the outcome
      is the same whether or not the body was kept, for any body bytes and any digest. */
  lemma SignatureSkipped(s: StoreState, secret: string, signature: Option<string>,
                         rawBody: Option<seq<bv8>>, rawBody': Option<seq<bv8>>,
                         hmac: (string, seq<bv8>) -> string, hmac': (string, seq<bv8>) -> string,
                         event: Event, now: int)
    requires secret == "" || signature.None? || signature.value == ""
    ensures Webhook(s, secret, signature, rawBody, hmac, event, now)
         == Webhook(s, secret, signature, rawBody', hmac', event, now)
    ensures Webhook(s, secret, signature, rawBody, hmac, event, now) == ProcessEvent(s, event, now)
  {
  }

  /** Any other event, or one without data, is acknowledged and changes nothing. */
  lemma OtherEventNoChange(s: StoreState, event: Event, now: int)
    requires event.name != Some(ChargeSuccess) || event.data.None?
    ensures ProcessEvent(s, event, now) == (s, Received)
  {
  }

  /** A reference no payment carries changes nothing and is still acknowledged. */
  lemma UnknownReferenceNoChange(s: StoreState, event: Event, now: int)
    requires Valid(s) && event.data.Some? && event.data.value.reference !in s.refIndex
    ensures ProcessEvent(s, event, now) == (s, Received)
  {
    var ref := event.data.value.reference;
    UpdateByRefSpec(s, ref, SUCCESS, MajorUnits(event.data.value.amountMinor));
  }

  /** The reservation an event stamps, if any. */
  function StampedBy(s: StoreState, event: Event): Option<string> {
    if IsCharge(event) then LinkedReservation(FindByRef(s, event.data.value.reference)) else None
  }

  /** Marking paid keeps references and links, so the reservation found after it is the one
      found before. */
  lemma PaidKeepsLink(s: StoreState, d: ChargeData)
    ensures LinkedReservation(FindByRef(Paid(s, d), d.reference)) == LinkedReservation(FindByRef(s, d.reference))
  {
  }

  /** In a valid database the reservation a payment links to exists. */
  lemma LinkedExists(s: StoreState, ref: string)
    requires Valid(s)
    ensures LinkedReservation(FindByRef(s, ref)).Some? ==> LinkedReservation(FindByRef(s, ref)).value in s.reservations
  {
    if LinkedReservation(FindByRef(s, ref)).Some? {
      assert s.refIndex[ref] in s.payments;
    }
  }

  /** When the linked reservation exists the stamp goes through and the event is acknowledged. */
  lemma StampLinkedSpec(s: StoreState, ref: string, now: int)
    requires LinkedReservation(FindByRef(s, ref)).Some? ==> LinkedReservation(FindByRef(s, ref)).value in s.reservations
    ensures var link := LinkedReservation(FindByRef(s, ref));
      StampLinked(s, ref, now) ==
        if link.Some? then (StampReservation(s, link.value, now, PENDING), Received) else (s, Received)
  {
  }

  /** A `charge.success` in a valid database: the payments with the reference become SUCCESS
      with the amount in major units and all others stay; only the payment's reservation
      changes, getting the deposit stamp and status PENDING; students and hostels stay. */
  lemma ChargeSuccessEffect(s: StoreState, ref: string, amountMinor: int, now: int)
    requires Valid(s)
    ensures var ev := Event(Some(ChargeSuccess), Some(ChargeData(ref, amountMinor)));
      var (t, resp) := ProcessEvent(s, ev, now);
      && resp == Received
      && t.students == s.students && t.hostels == s.hostels && t.refIndex == s.refIndex
      && t.payments.Keys == s.payments.Keys && t.reservations.Keys == s.reservations.Keys
      && (forall k :: k in s.payments ==>
            t.payments[k] == (if s.payments[k].providerRef == ref
                              then s.payments[k].(status := SUCCESS, amount := amountMinor / 100)
                              else s.payments[k]))
      && (forall k :: k in s.reservations ==>
            t.reservations[k] == (if Some(k) == StampedBy(s, ev)
                                  then s.reservations[k].(depositPaidAt := Some(now), status := PENDING)
                                  else s.reservations[k]))
  {
    var d := ChargeData(ref, amountMinor);
    PaidKeepsLink(s, d);
    LinkedExists(s, ref);
    StampLinkedSpec(Paid(s, d), ref, now);
  }

  /** The handler leaves a valid database valid, and in one it fails exactly when the
      signature is checked but the raw body was not kept. */
  lemma WebhookKeepsValid(s: StoreState, secret: string, signature: Option<string>, rawBody: Option<seq<bv8>>,
                          hmac: (string, seq<bv8>) -> string, event: Event, now: int)
    requires Valid(s)
    ensures Valid(Webhook(s, secret, signature, rawBody, hmac, event, now).0)
    ensures Webhook(s, secret, signature, rawBody, hmac, event, now).1 == WebhookError <==>
      SignatureChecked(secret, signature) && rawBody.None?
  {
    if SignatureChecked(secret, signature) && (rawBody.None? || hmac(secret, rawBody.value) != signature.value) {
    } else if IsCharge(event) {
      var d := event.data.value;
      UpdateByRefValid(s, d.reference, SUCCESS, MajorUnits(d.amountMinor));
      var p := Paid(s, d);
      LinkedExists(p, d.reference);
      StampLinkedSpec(p, d.reference, now);
      var link := LinkedReservation(FindByRef(p, d.reference));
      if link.Some? {
        StampReservationValid(p, link.value, now, PENDING);
      }
    }
  }

  /** Delivering the same event again leaves every payment as the first delivery left it;
      the only change is the stamped reservation's `depositPaidAt`, which takes the new time. */
  lemma ReplayOnlyRestamps(s: StoreState, event: Event, now1: int, now2: int)
    requires Valid(s)
    ensures var t1 := ProcessEvent(s, event, now1).0;
      var t2 := ProcessEvent(t1, event, now2).0;
      && t2.payments == t1.payments && t2.refIndex == t1.refIndex
      && t2.students == t1.students && t2.hostels == t1.hostels
      && t2.reservations.Keys == t1.reservations.Keys
      && (forall k :: k in t1.reservations ==>
            t2.reservations[k] == (if Some(k) == StampedBy(s, event)
                                   then t1.reservations[k].(depositPaidAt := Some(now2))
                                   else t1.reservations[k]))
  {
    if IsCharge(event) {
      var d := event.data.value;
      var link := StampedBy(s, event);
      LinkedExists(s, d.reference);
      PaidKeepsLink(s, d);
      var p1 := Paid(s, d);
      StampLinkedSpec(p1, d.reference, now1);
      var t1 := ProcessEvent(s, event, now1).0;
      assert t1.payments == p1.payments && t1.refIndex == s.refIndex;
      assert FindByRef(t1, d.reference) == FindByRef(p1, d.reference);
      UpdateByRefIdempotent(s.payments, d.reference, SUCCESS, MajorUnits(d.amountMinor));
      PaidKeepsLink(t1, d);
      var p2 := Paid(t1, d);
      StampLinkedSpec(p2, d.reference, now2);
    }
  }

  /** A reservation made without a reference, then paid: the webhook carrying the generated
      reference and the amount in kobo marks its payment SUCCESS with the deposit in naira
      and stamps the reservation. */
  lemma CreateThenPay(s: StoreState, body: Reservations.RequestBody, now: int, refNow: int,
                      rid: string, pid: string, later: int)
    requires Valid(s)
    requires Reservations.PostReservation(s, body, now, refNow, rid, pid).1.Created?
    requires rid != ""
    ensures var (t, resp) := Reservations.PostReservation(s, body, now, refNow, rid, pid);
      var ev := Event(Some(ChargeSuccess), Some(ChargeData(resp.payment.providerRef, resp.payment.amount * 100)));
      var (u, ack) := ProcessEvent(t, ev, later);
      && ack == Received
      && u.payments[pid] == resp.payment.(status := SUCCESS)
      && u.reservations[rid] == resp.reservation.(depositPaidAt := Some(later))
  {
    var (t, resp) := Reservations.PostReservation(s, body, now, refNow, rid, pid);
    Reservations.CreatedRows(s, body, now, refNow, rid, pid);
    Reservations.PostKeepsValid(s, body, now, refNow, rid, pid);
    var p := resp.payment;
    MinorUnitsRoundTrip(p.amount);
    ChargeSuccessEffect(t, p.providerRef, p.amount * 100, later);
    assert t.payments[pid] == p;
    assert FindByRef(t, p.providerRef) == Some(p);
  }
}
