/** `createPendingBooking` (utils/bookingService.js): inside one transaction, look for
    an overlapping pending or confirmed booking and, if there is none, insert a
    pending hold that expires `ttlMinutes` from now. */
module BookingService {
  import opened Common
  import opened BookingModel
  import opened Ledger

  const DefaultTtlMinutes: int := 30

  /** `{success: true, booking}`, `{success: false, reason: "overlap"}`, or the
      exception rethrown after `abortTransaction`. */
  datatype HoldResult = Held(booking: Booking) | Overlap | Aborted

  /** The instant a hold made at `now` with a lifetime of `ttlMinutes` expires. */
  function HoldExpiry(now: Millis, ttlMinutes: int): (t: Millis)
    ensures ttlMinutes == DefaultTtlMinutes ==> t == now + 1800000
    ensures ttlMinutes >= 0 ==> t >= now
  {
    now + ttlMinutes * 60 * 1000
  }

  method CreatePendingBooking(bookings: BookingCollection, userId: Id, vehicleId: Id,
                              start: Millis, end: Millis, now: Millis,
                              ttlMinutes: int := DefaultTtlMinutes)
    returns (result: HoldResult)
    requires bookings.Valid()
    modifies bookings
    ensures bookings.Valid()
    // the overlap query casts `vehicleId`; a cast error aborts before anything is read
    ensures !IsObjectId(vehicleId) ==> result == Aborted
    ensures result == Overlap <==>
              IsObjectId(vehicleId) && FindConflict(old(bookings.records), vehicleId, Holding, start, end).Some?
    ensures result.Held? <==>
              && IsObjectId(vehicleId) && IsObjectId(userId)
              && FindConflict(old(bookings.records), vehicleId, Holding, start, end).None?
    ensures result.Held? ==>
              && bookings.records == old(bookings.records) + [result.booking]
              && result.booking.id == old(bookings.nextKey)
              && result.booking.user == userId && result.booking.vehicle == vehicleId
              && result.booking.start == start && result.booking.end == end
              && result.booking.status == Pending && result.booking.payment.None?
              && result.booking.expireAt == Some(HoldExpiry(now, ttlMinutes))
    // an abort or an overlap commits nothing
    ensures !result.Held? ==> bookings.records == old(bookings.records)
    ensures NoDoubleBooking(old(bookings.records)) ==> NoDoubleBooking(bookings.records)
  {
    if !IsObjectId(vehicleId) {
      return Aborted;
    }
    var overlap := FindConflict(bookings.records, vehicleId, Holding, start, end);
    if overlap.Some? {
      return Overlap;
    }
    var expireAt := HoldExpiry(now, ttlMinutes);
    ghost var before := bookings.records;
    var created := bookings.Create(Draft(Some(userId), Some(vehicleId), Some(start), Some(end),
                                         Some(Pending), None, Some(expireAt)));
    if created.None? {
      return Aborted;
    }
    if NoDoubleBooking(before) {
      AppendKeepsNoDoubleBooking(before, created.value);
    }
    result := Held(created.value);
  }
}
