/** The queries the handlers run against the booking collection, and the
    invariant the guarded handlers keep: within one vehicle, the pending and
    confirmed bookings never overlap. */
module Ledger {
  import opened Common
  import opened BookingModel

  /** The `status` condition of a booking query, over the stored strings:
      `{$in: names}` or `{$ne: name}`. */
  datatype StatusFilter = AnyOf(names: set<string>) | NotEqual(name: string)

  predicate Admits(f: StatusFilter, st: Status)
  {
    match f
    case AnyOf(names) => st.Name() in names
    case NotEqual(name) => st.Name() != name
  }

  /** `status: {$in: ["pending", "confirmed"]}`, the hold service's filter. */
  const Holding: StatusFilter := AnyOf({"pending", "confirmed"})

  /** `status: {$ne: "cancelled"}`, the filter of the route handlers. */
  const NotCancelled: StatusFilter := NotEqual("cancelled")

  /** `status: {$in: ["confirmed", "completed"]}`, the review route's filter. */
  const Reviewable: StatusFilter := AnyOf({"confirmed", "completed"})

  /** A booking that takes its slot: the statuses the invariant is about. */
  predicate Occupies(b: Booking)
  {
    b.status == Pending || b.status == Confirmed
  }

  /** With a three-valued enum, "not cancelled" and "pending or confirmed" are the same filter. */
  lemma HoldingIsNotCancelled(b: Booking)
    ensures Admits(Holding, b.status) <==> Occupies(b)
    ensures Admits(NotCancelled, b.status) <==> Occupies(b)
  {
  }

  /** "completed" is no booking status, so only confirmed bookings qualify for a review. */
  lemma ReviewableIsConfirmed(st: Status)
    ensures Admits(Reviewable, st) <==> st == Confirmed
  {
  }

  /** The date condition of every overlap query: `startDate < end` and `endDate > start`. */
  predicate Overlaps(b: Booking, start: Millis, end: Millis)
  {
    b.start < end && b.end > start
  }

  /** `b` matches `{vehicle, status: f, startDate: {$lt: end}, endDate: {$gt: start}}`. */
  predicate Conflicts(b: Booking, vehicle: Id, f: StatusFilter, start: Millis, end: Millis)
  {
    b.vehicle == vehicle && Admits(f, b.status) && Overlaps(b, start, end)
  }

  /** `findOne` on the overlap query: the first matching booking in natural order. */
  function FindConflict(s: seq<Booking>, vehicle: Id, f: StatusFilter, start: Millis, end: Millis): (r: Option<Booking>)
    ensures r.None? <==> forall k :: 0 <= k < |s| ==> !Conflicts(s[k], vehicle, f, start, end)
    ensures r.Some? ==> exists k :: 0 <= k < |s| && s[k] == r.value && Conflicts(s[k], vehicle, f, start, end)
  {
    if s == [] then None
    else if Conflicts(s[0], vehicle, f, start, end) then Some(s[0])
    else
      var r := FindConflict(s[1..], vehicle, f, start, end);
      assert forall k :: 0 <= k < |s| - 1 ==> s[1..][k] == s[k + 1];
      r
  }

  /** The hold service's `$in` query and the routes' `$ne` query find the same booking. */
  lemma {:induction false} FiltersFindTheSame(s: seq<Booking>, vehicle: Id, start: Millis, end: Millis)
    ensures FindConflict(s, vehicle, Holding, start, end) == FindConflict(s, vehicle, NotCancelled, start, end)
  {
    if s != [] {
      HoldingIsNotCancelled(s[0]);
      FiltersFindTheSame(s[1..], vehicle, start, end);
    }
  }

  /** `findOne` by a predicate: the position of the first document that satisfies `p`. */
  function FirstIndex(s: seq<Booking>, p: Booking -> bool): (r: Option<nat>)
    ensures r.Some? ==> r.value < |s| && p(s[r.value]) && forall k :: 0 <= k < r.value ==> !p(s[k])
    ensures r.None? ==> forall k :: 0 <= k < |s| ==> !p(s[k])
  {
    if s == [] then None
    else if p(s[0]) then Some(0)
    else
      match FirstIndex(s[1..], p)
      case None => None
      case Some(i) => Some(i + 1)
  }

  /** `findById(key)`. */
  function IndexOfKey(s: seq<Booking>, key: nat): Option<nat>
  {
    FirstIndex(s, (b: Booking) => b.id == key)
  }

  /** Changing documents without changing their keys leaves every lookup by key where it was. */
  lemma KeyLookupUnchanged(s: seq<Booking>, t: seq<Booking>, key: nat)
    requires |s| == |t| && forall k :: 0 <= k < |s| ==> s[k].id == t[k].id
    ensures IndexOfKey(s, key) == IndexOfKey(t, key)
  {
    var p := (b: Booking) => b.id == key;
    assert forall k :: 0 <= k < |s| ==> p(s[k]) == p(t[k]);
  }

  /** Two bookings that cannot both be honoured: same vehicle, both taking their
      slot, and windows that intersect. */
  predicate Clash(a: Booking, b: Booking)
  {
    a.vehicle == b.vehicle && Occupies(a) && Occupies(b) && Overlaps(a, b.start, b.end)
  }

  /** The central invariant: no two pending or confirmed bookings of a vehicle overlap. */
  predicate NoDoubleBooking(s: seq<Booking>)
    // a clash is symmetric, so the order of the two bookings does not matter
    ensures NoDoubleBooking(s) <==>
              forall i, j :: 0 <= i < |s| && 0 <= j < |s| && i != j ==> !Clash(s[i], s[j])
  {
    forall i, j :: 0 <= i < j < |s| ==> !Clash(s[i], s[j])
  }

  /** Inserting a booking for which the overlap query found nothing keeps the invariant. */
  lemma AppendKeepsNoDoubleBooking(s: seq<Booking>, b: Booking)
    requires NoDoubleBooking(s)
    requires FindConflict(s, b.vehicle, Holding, b.start, b.end).None?
    ensures NoDoubleBooking(s + [b])
  {
    var t := s + [b];
    forall i, j | 0 <= i < j < |t| ensures !Clash(t[i], t[j]) {
      if j == |s| {
        assert !Conflicts(s[i], b.vehicle, Holding, b.start, b.end);
        HoldingIsNotCancelled(s[i]);
      }
    }
  }

  /** Replacing a booking by one that no longer takes a slot (a cancellation), or by one
      with the same vehicle and window (a confirmation of a hold), keeps the invariant. */
  lemma ReplaceKeepsNoDoubleBooking(s: seq<Booking>, i: nat, b: Booking)
    requires NoDoubleBooking(s) && i < |s|
    requires !Occupies(b) || (b.vehicle == s[i].vehicle && b.start == s[i].start && b.end == s[i].end && Occupies(s[i]))
    ensures NoDoubleBooking(s[i := b])
  {
  }

  /** The TTL sweep only deletes, so it keeps the invariant. */
  lemma SweepKeepsNoDoubleBooking(s: seq<Booking>, now: Millis)
    requires NoDoubleBooking(s)
    ensures NoDoubleBooking(Unexpired(s, now))
  {
    UnexpiredKeepsPairwise(s, now, (a: Booking, b: Booking) => !Clash(a, b));
  }

  /** `Booking.find({status: {$ne: "cancelled"}})`: the non-cancelled bookings, in natural order. */
  function Active(s: seq<Booking>): (r: seq<Booking>)
    ensures |r| <= |s|
    ensures forall b :: b in r <==> b in s && Admits(NotCancelled, b.status)
  {
    if s == [] then [] else (if Admits(NotCancelled, s[0].status) then [s[0]] else []) + Active(s[1..])
  }

  /** Cancelled bookings never block: the overlap query finds the same booking whether or
      not the cancelled bookings are in the collection. */
  lemma {:induction false} CancelledNeverBlock(s: seq<Booking>, vehicle: Id, start: Millis, end: Millis)
    ensures FindConflict(s, vehicle, Holding, start, end) == FindConflict(Active(s), vehicle, Holding, start, end)
  {
    if s != [] {
      CancelledNeverBlock(s[1..], vehicle, start, end);
      HoldingIsNotCancelled(s[0]);
      if Admits(NotCancelled, s[0].status) {
        var a := Active(s);
        assert a == [s[0]] + Active(s[1..]);
        assert a[0] == s[0] && a[1..] == Active(s[1..]);
      } else {
        assert Active(s) == Active(s[1..]);
      }
    }
  }

  /** One entry of a vehicle's `bookedDates`. */
  datatype DateRange = DateRange(startDate: Millis, endDate: Millis)

  function RangeOf(b: Booking): DateRange
  {
    DateRange(b.start, b.end)
  }

  /** The windows of the bookings of `vehicle` in `s`, in the order of `s`. */
  function Ranges(s: seq<Booking>, vehicle: Id): (r: seq<DateRange>)
    ensures |r| <= |s|
    ensures forall k :: 0 <= k < |s| && s[k].vehicle == vehicle ==> RangeOf(s[k]) in r
    ensures forall d :: d in r ==> exists k :: 0 <= k < |s| && s[k].vehicle == vehicle && RangeOf(s[k]) == d
  {
    if s == [] then []
    else
      var last := s[|s| - 1];
      var r := Ranges(s[..|s| - 1], vehicle) + (if last.vehicle == vehicle then [RangeOf(last)] else []);
      assert forall k :: 0 <= k < |s| - 1 ==> s[..|s| - 1][k] == s[k];
      r
  }

  /** The windows of the non-cancelled bookings of `vehicle`, in natural order. */
  function BookedWindows(s: seq<Booking>, vehicle: Id): (r: seq<DateRange>)
    ensures forall k :: 0 <= k < |s| && s[k].vehicle == vehicle && s[k].status != Cancelled ==> RangeOf(s[k]) in r
    ensures forall d :: d in r ==> exists k :: 0 <= k < |s| && s[k].vehicle == vehicle && s[k].status != Cancelled && RangeOf(s[k]) == d
  {
    var active := Active(s);
    var r := Ranges(active, vehicle);
    forall k | 0 <= k < |s| && s[k].vehicle == vehicle && s[k].status != Cancelled
      ensures RangeOf(s[k]) in r
    {
      assert s[k] in active;
      var j :| 0 <= j < |active| && active[j] == s[k];
    }
    forall d | d in r
      ensures exists k :: 0 <= k < |s| && s[k].vehicle == vehicle && s[k].status != Cancelled && RangeOf(s[k]) == d
    {
      var j :| 0 <= j < |active| && active[j].vehicle == vehicle && RangeOf(active[j]) == d;
      assert active[j] in s;
      var k :| 0 <= k < |s| && s[k] == active[j];
    }
    r
  }

  /** A vehicle whose bookings are all cancelled, or that has none, has no booked dates. */
  lemma NoActiveBookingsNoDates(s: seq<Booking>, vehicle: Id)
    requires forall k :: 0 <= k < |s| && s[k].vehicle == vehicle ==> s[k].status == Cancelled
    ensures BookedWindows(s, vehicle) == []
  {
    var a := Active(s);
    forall k | 0 <= k < |a| ensures a[k].vehicle != vehicle {
      assert a[k] in a;
    }
    RangesOfAbsent(a, vehicle);
  }

  /** A vehicle with no booking in `s` has no windows in `s`. */
  lemma {:induction false} RangesOfAbsent(s: seq<Booking>, vehicle: Id)
    requires forall k :: 0 <= k < |s| ==> s[k].vehicle != vehicle
    ensures Ranges(s, vehicle) == []
  {
    if s != [] {
      RangesOfAbsent(s[..|s| - 1], vehicle);
    }
  }
}
