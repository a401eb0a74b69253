/** The booking handlers of routes/bookingRoutes.js: create a pending hold, confirm
    a booking directly, cancel a booking, and list a vehicle's booked dates.
    `userId` is the caller's id decoded from the verified token. */
module BookingRoutes {
  import opened Common
  import opened BookingModel
  import opened Ledger
  import opened BookingService
  import Text

  /** Replies of `POST /create-pending`. */
  datatype PendingReply = HoldCreated(booking: Booking) | MissingFields | AlreadyBooked | CreateFailed
  {
    function Code(): int
    {
      match this
      case HoldCreated(_) => 201
      case MissingFields => 400
      case AlreadyBooked => 409
      case CreateFailed => 500
    }
  }

  /** `POST /create-pending`. A missing or empty field is `""` or `None`. */
  method CreatePending(bookings: BookingCollection, userId: Id, vehicleId: string,
                       startDate: Option<Millis>, endDate: Option<Millis>, now: Millis)
    returns (reply: PendingReply)
    requires bookings.Valid() && IsObjectId(userId)
    modifies bookings
    ensures bookings.Valid()
    ensures reply == MissingFields <==> vehicleId == "" || startDate.None? || endDate.None?
    ensures reply == AlreadyBooked <==>
              && vehicleId != "" && startDate.Some? && endDate.Some? && IsObjectId(vehicleId)
              && FindConflict(old(bookings.records), vehicleId, Holding, startDate.value, endDate.value).Some?
    ensures reply.HoldCreated? <==>
              && vehicleId != "" && startDate.Some? && endDate.Some? && IsObjectId(vehicleId)
              && FindConflict(old(bookings.records), vehicleId, Holding, startDate.value, endDate.value).None?
    ensures reply.HoldCreated? ==>
              && bookings.records == old(bookings.records) + [reply.booking]
              && reply.booking.status == Pending && reply.booking.user == userId
              && reply.booking.vehicle == vehicleId
              && reply.booking.start == startDate.value && reply.booking.end == endDate.value
              // the route always asks for a 30-minute hold
              && reply.booking.expireAt == Some(now + 30 * 60 * 1000)
    ensures !reply.HoldCreated? ==> bookings.records == old(bookings.records)
    ensures NoDoubleBooking(old(bookings.records)) ==> NoDoubleBooking(bookings.records)
  {
    if vehicleId == "" || startDate.None? || endDate.None? {
      return MissingFields;
    }
    var result := CreatePendingBooking(bookings, userId, vehicleId, startDate.value, endDate.value, now, 30);
    match result
    case Held(b) => reply := HoldCreated(b);
    case Overlap => reply := AlreadyBooked;
    case Aborted => reply := CreateFailed;
  }

  /** Replies of `POST /`, the manual (unpaid) confirmation. */
  datatype ConfirmReply = BookingConfirmed(booking: Booking) | IncompleteRequest | WindowTaken | ConfirmFailed
  {
    function Code(): int
    {
      match this
      case BookingConfirmed(_) => 201
      case IncompleteRequest => 400
      case WindowTaken => 409
      case ConfirmFailed => 500
    }
  }

  /** `POST /`: reject any non-cancelled overlapping booking of the vehicle, otherwise
      store a booking that is confirmed from the start and never expires. The
      confirmation email is sent without waiting and cannot change the reply. */
  method ConfirmManually(bookings: BookingCollection, userId: Id, vehicleId: string,
                         startDate: Option<Millis>, endDate: Option<Millis>)
    returns (reply: ConfirmReply)
    requires bookings.Valid() && IsObjectId(userId)
    modifies bookings
    ensures bookings.Valid()
    ensures reply == IncompleteRequest <==> vehicleId == "" || startDate.None? || endDate.None?
    // the conflict query casts the vehicle id: an invalid one throws
    ensures reply == ConfirmFailed <==>
              vehicleId != "" && startDate.Some? && endDate.Some? && !IsObjectId(vehicleId)
    ensures reply == WindowTaken <==>
              && vehicleId != "" && startDate.Some? && endDate.Some? && IsObjectId(vehicleId)
              && FindConflict(old(bookings.records), vehicleId, NotCancelled, startDate.value, endDate.value).Some?
    ensures reply.BookingConfirmed? ==>
              && bookings.records == old(bookings.records) + [reply.booking]
              && reply.booking.id == old(bookings.nextKey)
              && reply.booking.status == Confirmed && reply.booking.expireAt.None?
              && reply.booking.user == userId && reply.booking.vehicle == vehicleId
              && reply.booking.start == startDate.value && reply.booking.end == endDate.value
    ensures !reply.BookingConfirmed? ==> bookings.records == old(bookings.records)
    ensures NoDoubleBooking(old(bookings.records)) ==> NoDoubleBooking(bookings.records)
  {
    if vehicleId == "" || startDate.None? || endDate.None? {
      return IncompleteRequest;
    }
    if !IsObjectId(vehicleId) {
      return ConfirmFailed;
    }
    var start, end := startDate.value, endDate.value;
    var conflict := FindConflict(bookings.records, vehicleId, NotCancelled, start, end);
    if conflict.Some? {
      return WindowTaken;
    }
    ghost var before := bookings.records;
    var created := bookings.Create(Draft(Some(userId), Some(vehicleId), Some(start), Some(end),
                                         Some(Confirmed), None, None));
    FiltersFindTheSame(before, vehicleId, start, end);
    if NoDoubleBooking(before) {
      AppendKeepsNoDoubleBooking(before, created.value);
    }
    reply := BookingConfirmed(created.value);
  }

  /** Replies of `PUT /:bookingId/cancel`. */
  datatype CancelReply = BookingCancelled(booking: Booking) | NotFound | AlreadyCancelled | CancelFailed
  {
    function Code(): int
    {
      match this
      case BookingCancelled(_) => 200
      case NotFound => 404
      case AlreadyCancelled => 400
      case CancelFailed => 500
    }
  }

  /** `findOne({_id: bookingId, user: userId})`: a booking is found only by its owner. */
  function OwnedBooking(s: seq<Booking>, bookingId: nat, userId: Id): (r: Option<nat>)
    ensures r.None? <==> forall k :: 0 <= k < |s| ==> !(s[k].id == bookingId && s[k].user == userId)
    ensures r.Some? ==> && r.value < |s| && s[r.value].id == bookingId && s[r.value].user == userId
                        && forall k :: 0 <= k < r.value ==> !(s[k].id == bookingId && s[k].user == userId)
  {
    FirstIndex(s, (b: Booking) => b.id == bookingId && b.user == userId)
  }

  /** `PUT /:bookingId/cancel`: only the owner may cancel, and only once; the
      cancellation changes the status and nothing else. */
  method Cancel(bookings: BookingCollection, userId: Id, bookingId: Option<nat>)
    returns (reply: CancelReply)
    requires bookings.Valid()
    modifies bookings
    ensures bookings.Valid()
    // a `:bookingId` or a caller id that is no ObjectId makes `findOne` throw
    ensures reply == CancelFailed <==> bookingId.None? || !IsObjectId(userId)
    ensures bookingId.Some? && IsObjectId(userId) ==>
            var found := OwnedBooking(old(bookings.records), bookingId.value, userId);
            && (reply == NotFound <==> found.None?)
            && (reply == AlreadyCancelled <==> found.Some? && old(bookings.records)[found.value].status == Cancelled)
            && (reply.BookingCancelled? ==>
                  && found.Some?
                  && old(bookings.records)[found.value].status != Cancelled
                  && reply.booking == old(bookings.records)[found.value].(status := Cancelled)
                  && bookings.records == old(bookings.records)[found.value := reply.booking])
    ensures reply.BookingCancelled? ==> reply.booking.id == bookingId.value && reply.booking.user == userId
    ensures !reply.BookingCancelled? ==> bookings.records == old(bookings.records)
    ensures NoDoubleBooking(old(bookings.records)) ==> NoDoubleBooking(bookings.records)
  {
    if bookingId.None? || !IsObjectId(userId) {
      return CancelFailed;
    }
    var found := OwnedBooking(bookings.records, bookingId.value, userId);
    if found.None? {
      return NotFound;
    }
    var i := found.value;
    var booking := bookings.records[i];
    if booking.status == Cancelled {
      return AlreadyCancelled;
    }
    var cancelled := booking.(status := Cancelled);
    ghost var before := bookings.records;
    bookings.Save(i, cancelled);
    if NoDoubleBooking(before) {
      ReplaceKeepsNoDoubleBooking(before, i, cancelled);
    }
    reply := BookingCancelled(cancelled);
  }

  /** Replies of `GET /vehicle/:vehicleId/booked-dates`. */
  datatype DatesReply = BookedDatesList(dates: seq<DateRange>) | InvalidVehicleId | DatesFailed
  {
    function Code(): int
    {
      match this
      case BookedDatesList(_) => 200
      case InvalidVehicleId => 400
      case DatesFailed => 500
    }
  }

  /** `GET /vehicle/:vehicleId/booked-dates`: ids shorter than 10 UTF-16 code units are refused;
      otherwise the (start, end) of exactly the vehicle's non-cancelled bookings. */
  method BookedDates(bookings: BookingCollection, vehicleId: string) returns (reply: DatesReply)
    ensures reply == InvalidVehicleId <==> Text.Utf16Length(vehicleId) < 10
    // an id of 10 or more code units that is no ObjectId fails the query's cast
    ensures reply == DatesFailed <==> Text.Utf16Length(vehicleId) >= 10 && !IsObjectId(vehicleId)
    ensures reply.BookedDatesList? ==> reply.dates == BookedWindows(bookings.records, vehicleId)
  {
    if Text.Utf16Length(vehicleId) < 10 {
      return InvalidVehicleId;
    }
    if !IsObjectId(vehicleId) {
      return DatesFailed;
    }
    reply := BookedDatesList(BookedWindows(bookings.records, vehicleId));
  }
}
