/** routes/paymentRoutes.js: the `create-session` handler (conflict check, rental days
    and price) and `handleWebhook`, the reconciliation of a completed Stripe checkout
    with the booking ledger. The Stripe calls themselves are inputs: the outcome of
    `checkout.sessions.create` is a parameter, and the event is one whose signature
    was already verified. */
module PaymentRoutes {
  import opened Common
  import opened BookingModel
  import opened Ledger
  import opened PaymentModel
  import opened VehicleModel

  /** `1000 * 60 * 60 * 24`. */
  const DayMs: int := 86400000

  /** `Math.ceil(n / d)` for a positive divisor. */
  function CeilDiv(n: int, d: int): (q: int)
    requires d > 0
    ensures (q - 1) * d < n <= q * d
  {
    var f := (-n) / d;
    assert (-n) == d * f + (-n) % d;
    -f
  }

  /** The number of rental days charged for the window `[start, end)`: whole days, rounded up. */
  function RentalDays(start: Millis, end: Millis): (days: int)
    ensures (days - 1) * DayMs < end - start <= days * DayMs
    ensures days >= 1 <==> end > start
  {
    CeilDiv(end - start, DayMs)
  }

  /** `pricePerDay * days * 100`: the amount in paise. For a positive price it covers
      the window's prorated price and exceeds it by less than one day's price. */
  function Amount(pricePerDay: int, start: Millis, end: Millis): (a: int)
    ensures pricePerDay > 0 ==>
              (a - pricePerDay * 100) * DayMs < pricePerDay * 100 * (end - start) <= a * DayMs
  {
    ChargeBounds(pricePerDay * 100, RentalDays(start, end), end - start);
    assert pricePerDay * RentalDays(start, end) * 100 == pricePerDay * 100 * RentalDays(start, end);
    pricePerDay * RentalDays(start, end) * 100
  }

  /** A charge of `c` per started day over `days` days, for a window of `len` ms that
      needs exactly `days` started days. */
  lemma ChargeBounds(c: int, days: int, len: int)
    requires (days - 1) * DayMs < len <= days * DayMs
    ensures c > 0 ==> (c * days - c) * DayMs < c * len <= c * days * DayMs
  {
    if c > 0 {
      ScaleStrict(c, (days - 1) * DayMs, len);
      ScaleWeak(c, len, days * DayMs);
      assert (c * days - c) * DayMs == c * ((days - 1) * DayMs);
      assert c * days * DayMs == c * (days * DayMs);
    }
  }

  /** Multiplying both sides of a strict inequality by a positive factor. */
  lemma ScaleStrict(c: int, x: int, y: int)
    requires c > 0 && x < y
    ensures c * x < c * y
  {
    assert c * y - c * x == c * (y - x);
  }

  /** Multiplying both sides of an inequality by a positive factor. */
  lemma ScaleWeak(c: int, x: int, y: int)
    requires c > 0 && x <= y
    ensures c * x <= c * y
  {
    assert c * y - c * x == c * (y - x);
  }

  /** Dividing both sides of a strict inequality by a positive factor. */
  lemma CancelFactor(a: int, b: int, d: int)
    requires d > 0 && a * d < b * d
    ensures a < b
  {
    assert (b - a) * d == b * d - a * d;
  }

  /** A window of whole days is charged exactly that many days. */
  lemma WholeDaysCharged(pricePerDay: int, start: Millis, n: int)
    ensures RentalDays(start, start + n * DayMs) == n
    ensures Amount(pricePerDay, start, start + n * DayMs) == pricePerDay * n * 100
  {
    var days := RentalDays(start, start + n * DayMs);
    CancelFactor(days - 1, n, DayMs);
    CancelFactor(n - 1, days, DayMs);
  }

  /** One more millisecond past a whole day is charged as a whole extra day. */
  lemma PartialDayRoundsUp(start: Millis, n: int)
    ensures RentalDays(start, start + n * DayMs + 1) == n + 1
  {
    var days := RentalDays(start, start + n * DayMs + 1);
    CancelFactor(days - 1, n + 1, DayMs);
    CancelFactor(n, days, DayMs);
  }

  /** The metadata `bookingId`: not sent, a string that is no ObjectId, or the key of a booking. */
  datatype BookingRef = NoBooking | Malformed | BookingKey(key: nat)

  /** The checkout metadata; `""` and `None` stand for a value that is not there. */
  datatype Metadata = Metadata(
    userId: string,
    vehicleId: string,
    startDate: Option<Millis>,
    endDate: Option<Millis>,
    bookingId: BookingRef)

  /** Replies of `POST /create-session`. */
  datatype SessionReply =
    | CheckoutOpened(amount: int, metadata: Metadata)
    | SlotTaken
    | VehicleNotFound
    | SessionFailed
  {
    function Code(): int
    {
      match this
      case CheckoutOpened(_, _) => 200
      case SlotTaken => 409
      case VehicleNotFound => 404
      case SessionFailed => 500
    }
  }

  /** Everything after the conflict query: the vehicle lookup, the price, and the
      Stripe session (whose outcome is `sessionCreated`). */
  method OpenCheckout(catalog: seq<Vehicle>, userId: Id, vehicleId: Id, start: Millis, end: Millis,
                      bookingId: BookingRef, sessionCreated: bool)
    returns (reply: SessionReply)
    ensures reply != SlotTaken
    ensures reply == VehicleNotFound <==> FindVehicle(catalog, vehicleId).None?
    ensures reply.CheckoutOpened? <==> FindVehicle(catalog, vehicleId).Some? && sessionCreated
    ensures reply.CheckoutOpened? ==>
              && reply.amount == Amount(FindVehicle(catalog, vehicleId).value.pricePerDay, start, end)
              && reply.metadata == Metadata(userId, vehicleId, Some(start), Some(end), bookingId)
  {
    var vehicle := FindVehicle(catalog, vehicleId);
    if vehicle.None? {
      return VehicleNotFound;
    }
    var days := RentalDays(start, end);
    var amount := vehicle.value.pricePerDay * days * 100;
    if !sessionCreated {
      return SessionFailed;
    }
    reply := CheckoutOpened(amount, Metadata(userId, vehicleId, Some(start), Some(end), bookingId));
  }

  /** The conflict query can run and can match: both dates are given and the vehicle id
      is an ObjectId. */
  predicate Queried(vehicleId: string, startDate: Option<Millis>, endDate: Option<Millis>)
  {
    IsObjectId(vehicleId) && startDate.Some? && endDate.Some?
  }

  /** The request the conflict query cannot cast: a missing date (`new Date(undefined)` is an
      invalid date) or a vehicle id that is given but no ObjectId. An absent vehicle id is
      left out of the filter's cast and matches no booking. */
  predicate Uncastable(vehicleId: string, startDate: Option<Millis>, endDate: Option<Millis>)
  {
    startDate.None? || endDate.None? || (vehicleId != "" && !IsObjectId(vehicleId))
  }

  /** `POST /create-session` as written: any non-cancelled overlapping booking of the
      vehicle is a conflict, including the caller's own pending hold named by `bookingId`. */
  method CreateSession(bookings: BookingCollection, catalog: seq<Vehicle>, userId: Id, vehicleId: string,
                       startDate: Option<Millis>, endDate: Option<Millis>, bookingId: BookingRef,
                       sessionCreated: bool)
    returns (reply: SessionReply)
    ensures Uncastable(vehicleId, startDate, endDate) ==> reply == SessionFailed
    ensures reply == SlotTaken <==>
              && Queried(vehicleId, startDate, endDate)
              && FindConflict(bookings.records, vehicleId, NotCancelled, startDate.value, endDate.value).Some?
    // the conflict is checked before the vehicle is looked up; `findById(undefined)` finds nothing
    ensures reply == VehicleNotFound <==>
              || (vehicleId == "" && startDate.Some? && endDate.Some?)
              || (&& Queried(vehicleId, startDate, endDate)
                  && FindConflict(bookings.records, vehicleId, NotCancelled, startDate.value, endDate.value).None?
                  && FindVehicle(catalog, vehicleId).None?)
    ensures reply.CheckoutOpened? <==>
              && Queried(vehicleId, startDate, endDate)
              && FindConflict(bookings.records, vehicleId, NotCancelled, startDate.value, endDate.value).None?
              && FindVehicle(catalog, vehicleId).Some? && sessionCreated
    ensures reply.CheckoutOpened? ==>
              && reply.amount == Amount(FindVehicle(catalog, vehicleId).value.pricePerDay, startDate.value, endDate.value)
              && reply.metadata == Metadata(userId, vehicleId, startDate, endDate, bookingId)
  {
    if Uncastable(vehicleId, startDate, endDate) {
      return SessionFailed;
    }
    if vehicleId == "" {
      return VehicleNotFound;
    }
    var conflict := FindConflict(bookings.records, vehicleId, NotCancelled, startDate.value, endDate.value);
    if conflict.Some? {
      return SlotTaken;
    }
    reply := OpenCheckout(catalog, userId, vehicleId, startDate.value, endDate.value, bookingId, sessionCreated);
  }

  /** The caller's own hold: the pending booking of `userId` that `bookingId` names. */
  predicate IsOwnHold(b: Booking, bookingId: BookingRef, userId: Id)
  {
    bookingId.BookingKey? && b.id == bookingId.key && b.user == userId && b.status == Pending
  }

  /** The bookings the conflict check should see: all of them but the caller's own hold. */
  function Competing(s: seq<Booking>, bookingId: BookingRef, userId: Id): (r: seq<Booking>)
    ensures forall b :: b in r <==> b in s && !IsOwnHold(b, bookingId, userId)
  {
    if s == [] then []
    else (if IsOwnHold(s[0], bookingId, userId) then [] else [s[0]]) + Competing(s[1..], bookingId, userId)
  }

  /** `POST /create-session` with the conflict check the reservation flow needs: the
      caller's own pending hold, named by `bookingId`, does not count as a conflict; any
      other booking, including another user's booking the caller names, still does. */
  method CreateSessionExcludingOwnHold(bookings: BookingCollection, catalog: seq<Vehicle>, userId: Id,
                                       vehicleId: string, startDate: Option<Millis>, endDate: Option<Millis>,
                                       bookingId: BookingRef, sessionCreated: bool)
    returns (reply: SessionReply)
    ensures Uncastable(vehicleId, startDate, endDate) ==> reply == SessionFailed
    ensures reply == SlotTaken <==>
              && Queried(vehicleId, startDate, endDate)
              && FindConflict(Competing(bookings.records, bookingId, userId), vehicleId, NotCancelled,
                              startDate.value, endDate.value).Some?
    ensures reply == VehicleNotFound <==>
              || (vehicleId == "" && startDate.Some? && endDate.Some?)
              || (&& Queried(vehicleId, startDate, endDate)
                  && FindConflict(Competing(bookings.records, bookingId, userId), vehicleId, NotCancelled,
                                  startDate.value, endDate.value).None?
                  && FindVehicle(catalog, vehicleId).None?)
    ensures reply.CheckoutOpened? <==>
              && Queried(vehicleId, startDate, endDate)
              && FindConflict(Competing(bookings.records, bookingId, userId), vehicleId, NotCancelled,
                              startDate.value, endDate.value).None?
              && FindVehicle(catalog, vehicleId).Some? && sessionCreated
    ensures reply.CheckoutOpened? ==>
              && reply.amount == Amount(FindVehicle(catalog, vehicleId).value.pricePerDay, startDate.value, endDate.value)
              && reply.metadata == Metadata(userId, vehicleId, startDate, endDate, bookingId)
  {
    if Uncastable(vehicleId, startDate, endDate) {
      return SessionFailed;
    }
    if vehicleId == "" {
      return VehicleNotFound;
    }
    var competing := Competing(bookings.records, bookingId, userId);
    var conflict := FindConflict(competing, vehicleId, NotCancelled, startDate.value, endDate.value);
    if conflict.Some? {
      return SlotTaken;
    }
    reply := OpenCheckout(catalog, userId, vehicleId, startDate.value, endDate.value, bookingId, sessionCreated);
  }

  /** As written, a hold blocks its own checkout: right after `create-pending` stored hold
      `b` for a non-empty window, the `create-session` query for that window finds a conflict. */
  lemma OwnHoldBlocksSession(s: seq<Booking>, b: Booking)
    requires b.status == Pending && b.start < b.end
    ensures FindConflict(s + [b], b.vehicle, NotCancelled, b.start, b.end).Some?
  {
    assert Conflicts((s + [b])[|s|], b.vehicle, NotCancelled, b.start, b.end);
  }

  /** With the own hold excluded, its owner's checkout for the window just held finds no
      conflict: the hold was only stored because the ledger had no conflicting booking. */
  lemma OwnHoldDoesNotBlockCorrectedSession(s: seq<Booking>, b: Booking)
    requires b.status == Pending
    requires FindConflict(s, b.vehicle, Holding, b.start, b.end).None?
    ensures FindConflict(Competing(s + [b], BookingKey(b.id), b.user), b.vehicle, NotCancelled, b.start, b.end).None?
  {
    var t := Competing(s + [b], BookingKey(b.id), b.user);
    forall k | 0 <= k < |t| ensures !Conflicts(t[k], b.vehicle, NotCancelled, b.start, b.end) {
      assert t[k] in t;
      assert IsOwnHold(b, BookingKey(b.id), b.user);
      assert t[k] in s + [b] && t[k] != b;
      assert t[k] in s;
      var j :| 0 <= j < |s| && s[j] == t[k];
      assert !Conflicts(s[j], b.vehicle, Holding, b.start, b.end);
      HoldingIsNotCancelled(s[j]);
    }
  }

  /** The corrected check still refuses every conflicting booking that is not the caller's
      own pending hold: another user's booking blocks the checkout even when the caller
      passes its key as `bookingId`. */
  lemma CorrectedSessionSeesOthers(s: seq<Booking>, bookingId: BookingRef, userId: Id,
                                   vehicle: Id, start: Millis, end: Millis, k: nat)
    requires k < |s| && Conflicts(s[k], vehicle, NotCancelled, start, end)
    requires !IsOwnHold(s[k], bookingId, userId)
    ensures FindConflict(Competing(s, bookingId, userId), vehicle, NotCancelled, start, end).Some?
  {
    var t := Competing(s, bookingId, userId);
    assert s[k] in t;
    var j :| 0 <= j < |t| && t[j] == s[k];
  }

  /** The Stripe checkout session carried by the event. */
  datatype CheckoutSession = CheckoutSession(
    id: string,
    amountTotal: Option<int>,
    currency: string,
    metadata: Metadata)

  /** A verified Stripe event: its `type` and `data.object`. */
  datatype Event = Event(kind: string, session: CheckoutSession)

  const CheckoutCompleted: string := "checkout.session.completed"

  /** The Payment the handler asks `Payment.create` for. A reference that is no ObjectId
      becomes `undefined`, and the amount defaults to 0. */
  function PaymentDraft(session: CheckoutSession): (d: PaymentModel.PaymentFields)
    ensures d.amount == Some(if session.amountTotal.Some? then session.amountTotal.value else 0)
    ensures d.currency == Some(if session.currency == "" then "inr" else session.currency)
    ensures d.status == Some(Completed) && d.sessionId == session.id
    ensures d.user.Some? <==> IsObjectId(session.metadata.userId)
    ensures d.vehicle.Some? <==> IsObjectId(session.metadata.vehicleId)
  {
    PaymentModel.PaymentFields(AsObjectId(session.metadata.userId), AsObjectId(session.metadata.vehicleId),
                       Some(session.amountTotal.GetOr(0)),
                       Some(if session.currency == "" then "inr" else session.currency),
                       Some(Completed), session.id)
  }

  /** The booking the webhook creates when no hold was found: confirmed, paid by `paymentKey`. */
  function DirectDraft(meta: Metadata, paymentKey: nat): BookingModel.Draft
  {
    BookingModel.Draft(AsObjectId(meta.userId), AsObjectId(meta.vehicleId), meta.startDate, meta.endDate,
                       Some(Confirmed), Some(paymentKey), None)
  }

  /** A pending hold once its payment arrived: confirmed, linked to the payment, no longer expiring. */
  function Promote(b: Booking, paymentKey: nat): (c: Booking)
    ensures c.id == b.id && c.user == b.user && c.vehicle == b.vehicle
    ensures c.start == b.start && c.end == b.end
    ensures c.status == Confirmed && c.payment == Some(paymentKey) && c.expireAt.None?
  {
    b.(status := Confirmed, payment := Some(paymentKey), expireAt := None)
  }

  /** The webhook looks for no booking, or for one that is not there: it creates one. */
  predicate CreatesDirectly(s: seq<Booking>, bookingId: BookingRef)
  {
    bookingId.NoBooking? || (bookingId.BookingKey? && IndexOfKey(s, bookingId.key).None?)
  }

  /** What the webhook does to the booking collection `s` once payment `paymentKey` is
      stored: promote the hold named by `bookingId` if it is still pending; leave a
      hold that is confirmed or cancelled alone; otherwise create a confirmed booking
      under key `nextKey` if the metadata passes validation. A malformed `bookingId`
      throws in `findById`, and the error is swallowed. */
  function Reconcile(s: seq<Booking>, meta: Metadata, paymentKey: nat, nextKey: nat): (r: seq<Booking>)
    ensures meta.bookingId.Malformed? ==> r == s
    ensures |s| <= |r| <= |s| + 1
    ensures |r| == |s| + 1 <==>
              CreatesDirectly(s, meta.bookingId) && BookingModel.Admissible(DirectDraft(meta, paymentKey))
    ensures forall k :: 0 <= k < |s| ==> r[k].id == s[k].id
    // the one booking that changes is the pending hold `bookingId` names, and it is promoted
    ensures forall k :: 0 <= k < |s| ==>
              (r[k] != s[k] <==> && meta.bookingId == BookingKey(s[k].id)
                                 && IndexOfKey(s, s[k].id) == Some(k) && s[k].status == Pending)
    ensures forall k :: 0 <= k < |s| && r[k] != s[k] ==> r[k] == Promote(s[k], paymentKey)
    ensures |r| == |s| + 1 ==>
              && r[..|s|] == s
              && Some(r[|s|]) == BookingModel.New(DirectDraft(meta, paymentKey), nextKey)
              && r[|s|].status == Confirmed && r[|s|].payment == Some(paymentKey) && r[|s|].expireAt.None?
  {
    match meta.bookingId
    case Malformed => s
    case BookingKey(key) =>
      (match IndexOfKey(s, key)
       case Some(i) =>
         if s[i].status == Pending then
           var r := s[i := Promote(s[i], paymentKey)];
           assert forall k :: 0 <= k < |s| && k != i && meta.bookingId == BookingKey(s[k].id) ==>
                    IndexOfKey(s, s[k].id) == Some(i);
           r
         else
           assert forall k :: 0 <= k < |s| && meta.bookingId == BookingKey(s[k].id) ==>
                    IndexOfKey(s, s[k].id) == Some(i);
           s
       case None => CreateDirect(s, meta, paymentKey, nextKey))
    case NoBooking => CreateDirect(s, meta, paymentKey, nextKey)
  }

  /** `Booking.create` of the direct booking: a confirmed booking paid by `paymentKey`
      for the metadata's user, vehicle and window, appended if it validates. */
  function CreateDirect(s: seq<Booking>, meta: Metadata, paymentKey: nat, nextKey: nat): (r: seq<Booking>)
    ensures |r| == |s| + 1 <==> BookingModel.Admissible(DirectDraft(meta, paymentKey))
    ensures |r| != |s| + 1 ==> r == s
    ensures |r| == |s| + 1 ==>
              && r[..|s|] == s && r[|s|].id == nextKey
              && r[|s|].status == Confirmed && r[|s|].payment == Some(paymentKey) && r[|s|].expireAt.None?
              && r[|s|].user == meta.userId && r[|s|].vehicle == meta.vehicleId
              && Some(r[|s|].start) == meta.startDate && Some(r[|s|].end) == meta.endDate
  {
    match BookingModel.New(DirectDraft(meta, paymentKey), nextKey)
    case Some(b) => s + [b]
    case None => s
  }

  /** A hold the TTL sweep deleted before its payment arrived is booked again: the late
      payment finds no booking under `bookingId` and appends a new confirmed, paid booking
      for the metadata's window, without any overlap check. */
  lemma SweptHoldPaidLate(s: seq<Booking>, now: Millis, h: Booking, meta: Metadata, paymentKey: nat, nextKey: nat)
    requires h in s && ExpiredAt(h, now)
    requires forall b :: b in s && b.id == h.id ==> b == h
    requires meta.bookingId == BookingKey(h.id)
    requires BookingModel.Admissible(DirectDraft(meta, paymentKey))
    ensures var t := Unexpired(s, now);
            var r := Reconcile(t, meta, paymentKey, nextKey);
            && |r| == |t| + 1 && r[..|t|] == t
            && r[|t|].status == Confirmed && r[|t|].payment == Some(paymentKey) && r[|t|].expireAt.None?
            && r[|t|].user == meta.userId && r[|t|].vehicle == meta.vehicleId
            && Some(r[|t|].start) == meta.startDate && Some(r[|t|].end) == meta.endDate
  {
    var t := Unexpired(s, now);
    forall k | 0 <= k < |t| ensures t[k].id != h.id {
      assert t[k] in t;
    }
    assert IndexOfKey(t, h.id).None?;
    assert Reconcile(t, meta, paymentKey, nextKey) == CreateDirect(t, meta, paymentKey, nextKey);
  }

  /** Promoting a hold, or leaving the ledger alone, keeps the no-double-booking invariant. */
  lemma ReconcileWithoutCreateKeepsNoDoubleBooking(s: seq<Booking>, meta: Metadata, paymentKey: nat, nextKey: nat)
    requires NoDoubleBooking(s)
    requires |Reconcile(s, meta, paymentKey, nextKey)| == |s|
    ensures NoDoubleBooking(Reconcile(s, meta, paymentKey, nextKey))
  {
    var r := Reconcile(s, meta, paymentKey, nextKey);
    if meta.bookingId.BookingKey? && IndexOfKey(s, meta.bookingId.key).Some? {
      var i := IndexOfKey(s, meta.bookingId.key).value;
      if s[i].status == Pending {
        assert Occupies(s[i]);
        ReplaceKeepsNoDoubleBooking(s, i, Promote(s[i], paymentKey));
      }
    }
  }

  /** A promoted booking has no `expireAt`, so the TTL sweep never removes it. */
  lemma PromotedSurvivesSweep(s: seq<Booking>, meta: Metadata, paymentKey: nat, nextKey: nat, now: Millis, i: nat)
    requires i < |s| && s[i].status == Pending && meta.bookingId == BookingKey(s[i].id)
    requires IndexOfKey(s, s[i].id) == Some(i)
    ensures Reconcile(s, meta, paymentKey, nextKey)[i] == Promote(s[i], paymentKey)
    ensures Promote(s[i], paymentKey) in Unexpired(Reconcile(s, meta, paymentKey, nextKey), now)
  {
    var r := Reconcile(s, meta, paymentKey, nextKey);
    assert r == s[i := Promote(s[i], paymentKey)];
    UnexpiringSurvivesSweep(r, now, r[i]);
  }

  /** A duplicate notification for a hold that is still in the ledger changes no booking:
      the first delivery confirmed it, and a confirmed booking is left alone. */
  lemma DuplicateDeliveryChangesNoBooking(s: seq<Booking>, meta: Metadata, p1: nat, n1: nat, p2: nat, n2: nat)
    requires meta.bookingId.BookingKey? && IndexOfKey(s, meta.bookingId.key).Some?
    ensures Reconcile(Reconcile(s, meta, p1, n1), meta, p2, n2) == Reconcile(s, meta, p1, n1)
  {
    var key := meta.bookingId.key;
    var r := Reconcile(s, meta, p1, n1);
    KeyLookupUnchanged(s, r, key);
    var i := IndexOfKey(s, key).value;
    assert r[i].status != Pending;
  }

  /** The direct create runs no overlap query: when the ledger already holds a pending
      or confirmed booking overlapping the paid window, reconciliation double-books it. */
  lemma DirectCreateIgnoresConflicts(s: seq<Booking>, meta: Metadata, paymentKey: nat, nextKey: nat)
    requires meta.bookingId.NoBooking?
    requires BookingModel.Admissible(DirectDraft(meta, paymentKey))
    requires FindConflict(s, meta.vehicleId, Holding, meta.startDate.value, meta.endDate.value).Some?
    ensures !NoDoubleBooking(Reconcile(s, meta, paymentKey, nextKey))
  {
    var r := Reconcile(s, meta, paymentKey, nextKey);
    var b := r[|s|];
    var k :| 0 <= k < |s| && Conflicts(s[k], meta.vehicleId, Holding, meta.startDate.value, meta.endDate.value);
    HoldingIsNotCancelled(s[k]);
    assert r[k] == s[k];
    assert Clash(r[k], r[|s|]);
  }

  /** A hold the owner cancelled before the payment arrived stays cancelled and no booking
      is created: the payment is recorded with no booking for it. */
  lemma CancelledHoldPaidWithoutBooking(s: seq<Booking>, meta: Metadata, paymentKey: nat, nextKey: nat, i: nat)
    requires i < |s| && s[i].status == Cancelled && meta.bookingId == BookingKey(s[i].id)
    requires forall k :: 0 <= k < i ==> s[k].id != s[i].id
    ensures Reconcile(s, meta, paymentKey, nextKey) == s
  {
    assert IndexOfKey(s, s[i].id) == Some(i) by {
      var p := (b: Booking) => b.id == s[i].id;
      assert forall k :: 0 <= k < i ==> !p(s[k]);
    }
  }

  /** `handleWebhook` after signature verification: 200 in every case but a completed
      checkout without `userId` or `vehicleId`, which is 400. A completed checkout stores
      one Payment (if it validates) and then reconciles the booking collection; an error
      after the payment is stored is swallowed. */
  method HandleWebhook(bookings: BookingCollection, payments: PaymentCollection, event: Event, now: Millis)
    returns (code: int)
    requires bookings.Valid() && payments.Valid()
    modifies bookings, payments
    ensures bookings.Valid() && payments.Valid()
    ensures code == 400 <==>
              event.kind == CheckoutCompleted && (event.session.metadata.userId == "" || event.session.metadata.vehicleId == "")
    ensures code != 400 ==> code == 200
    ensures event.kind != CheckoutCompleted || code == 400 ==>
              bookings.records == old(bookings.records) && payments.records == old(payments.records)
    ensures event.kind == CheckoutCompleted && code == 200 ==>
              var p := PaymentModel.New(PaymentDraft(event.session), old(payments.nextKey), now);
              && payments.records == (if p.Some? then old(payments.records) + [p.value] else old(payments.records))
              && bookings.records == (if p.Some? then Reconcile(old(bookings.records), event.session.metadata,
                                                                 p.value.id, old(bookings.nextKey))
                                      else old(bookings.records))
  {
    if event.kind != CheckoutCompleted {
      return 200;
    }
    var meta := event.session.metadata;
    if meta.userId == "" || meta.vehicleId == "" {
      return 400;
    }
    var payment := payments.Create(PaymentDraft(event.session), now);
    if payment.None? {
      return 200;
    }
    var paymentKey := payment.value.id;
    match meta.bookingId {
      case Malformed =>
      case BookingKey(key) =>
        var found := IndexOfKey(bookings.records, key);
        if found.Some? {
          var i := found.value;
          if bookings.records[i].status == Pending {
            assert bookings.records[i] in bookings.records;
            bookings.Save(i, Promote(bookings.records[i], paymentKey));
          }
        } else {
          var created := bookings.Create(DirectDraft(meta, paymentKey));
        }
      case NoBooking =>
        var created := bookings.Create(DirectDraft(meta, paymentKey));
    }
    code := 200;
  }
}
