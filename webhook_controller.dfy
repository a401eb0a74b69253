/** controllers/webhookController.js: the older `handleWebhook`, not the one the server
    mounts. It looks up no booking at all: every completed checkout stores a Payment
    and then a new confirmed booking. */
module WebhookController {
  import opened Common
  import opened BookingModel
  import opened Ledger
  import opened PaymentModel
  import opened PaymentRoutes

  /** The booking this handler stores for checkout metadata `meta` paid by `paymentKey`:
      the same document as the direct path of the mounted handler. */
  function PaidBooking(meta: Metadata, paymentKey: nat, key: nat): (r: Option<Booking>)
    ensures r.Some? <==> BookingModel.Admissible(DirectDraft(meta, paymentKey))
    ensures r.Some? ==> && r.value.status == Confirmed && r.value.payment == Some(paymentKey)
                        && r.value.expireAt.None? && r.value.id == key
                        && r.value.user == meta.userId && r.value.vehicle == meta.vehicleId
                        && Some(r.value.start) == meta.startDate && Some(r.value.end) == meta.endDate
  {
    BookingModel.New(DirectDraft(meta, paymentKey), key)
  }

  /** A completed checkout whose metadata lacks one of the four values is refused. */
  predicate MissingMetadata(meta: Metadata)
  {
    meta.userId == "" || meta.vehicleId == "" || meta.startDate.None? || meta.endDate.None?
  }

  /** `handleWebhook` of the controller, after signature verification: 400 for missing
      metadata, 500 when the Payment fails validation (a reference that is no ObjectId
      or an empty session id), otherwise one Payment and one confirmed booking that
      references it, and 200. */
  method HandleWebhook(bookings: BookingCollection, payments: PaymentCollection, event: Event, now: Millis)
    returns (code: int)
    requires bookings.Valid() && payments.Valid()
    modifies bookings, payments
    ensures bookings.Valid() && payments.Valid()
    ensures code == 400 <==> event.kind == CheckoutCompleted && MissingMetadata(event.session.metadata)
    ensures code == 500 <==>
              && event.kind == CheckoutCompleted && !MissingMetadata(event.session.metadata)
              && !PaymentModel.Admissible(PaymentDraft(event.session))
    ensures code != 200 || event.kind != CheckoutCompleted ==>
              bookings.records == old(bookings.records) && payments.records == old(payments.records)
    ensures code == 200 && event.kind == CheckoutCompleted ==>
              var p := PaymentModel.New(PaymentDraft(event.session), old(payments.nextKey), now);
              var b := PaidBooking(event.session.metadata, old(payments.nextKey), old(bookings.nextKey));
              && p.Some? && b.Some?
              && payments.records == old(payments.records) + [p.value]
              && bookings.records == old(bookings.records) + [b.value]
  {
    if event.kind != CheckoutCompleted {
      return 200;
    }
    var meta := event.session.metadata;
    if MissingMetadata(meta) {
      return 400;
    }
    var payment := payments.Create(PaymentDraft(event.session), now);
    if payment.None? {
      return 500;
    }
    var booking := bookings.Create(DirectDraft(meta, payment.value.id));
    assert booking.Some?;  // every reference was already validated by the payment
    code := 200;
  }

  /** Nothing stops a replay: delivering the same completed checkout twice stores two
      confirmed bookings of the same vehicle and window, and for a non-empty window they clash. */
  lemma ReplayDoubleBooks(s: seq<Booking>, meta: Metadata, p1: nat, n1: nat, p2: nat, n2: nat)
    requires PaidBooking(meta, p1, n1).Some? && PaidBooking(meta, p2, n2).Some?
    requires meta.startDate.value < meta.endDate.value
    ensures !NoDoubleBooking(s + [PaidBooking(meta, p1, n1).value] + [PaidBooking(meta, p2, n2).value])
  {
    var t := s + [PaidBooking(meta, p1, n1).value] + [PaidBooking(meta, p2, n2).value];
    assert Clash(t[|s|], t[|s| + 1]);
  }
}
