/** The Booking schema (models/Booking.js) and its collection, including the
    TTL index that deletes a booking once its `expireAt` has passed. */
module BookingModel {
  import opened Common

  /** The `status` enum. There is no `expired` value: an expired hold is deleted. */
  datatype Status = Pending | Confirmed | Cancelled
  {
    /** The string stored in the document. */
    function Name(): (n: string)
      ensures n in {"pending", "confirmed", "cancelled"}
      ensures n != "expired"
    {
      match this
      case Pending => "pending"
      case Confirmed => "confirmed"
      case Cancelled => "cancelled"
    }
  }

  /** A stored booking document. `id` is its `_id`; `payment` references a Payment's `_id`. */
  datatype Booking = Booking(
    id: nat,
    user: Id,
    vehicle: Id,
    start: Millis,
    end: Millis,
    status: Status,
    payment: Option<nat>,
    reminderSent: bool,
    reminderSentAt: Option<Millis>,
    expireAt: Option<Millis>)

  /** Every stored booking references its user and vehicle by ObjectId. */
  predicate WellFormed(b: Booking)
  {
    IsObjectId(b.user) && IsObjectId(b.vehicle)
  }

  /** The fields handed to `Booking.create`; `None` is a field left undefined. */
  datatype Draft = Draft(
    user: Option<Id>,
    vehicle: Option<Id>,
    start: Option<Millis>,
    end: Option<Millis>,
    status: Option<Status>,
    payment: Option<nat>,
    expireAt: Option<Millis>)

  /** Schema validation: `user`, `vehicle`, `startDate` and `endDate` are required,
      and the two references must cast to ObjectIds. */
  predicate Admissible(d: Draft)
  {
    && d.user.Some? && IsObjectId(d.user.value)
    && d.vehicle.Some? && IsObjectId(d.vehicle.value)
    && d.start.Some? && d.end.Some?
  }

  /** The document `Booking.create(d)` stores under key `key`, or `None` when
      validation throws and nothing is stored. */
  function New(d: Draft, key: nat): (r: Option<Booking>)
    ensures r.Some? <==> Admissible(d)
    ensures r.Some? ==> WellFormed(r.value) && r.value.id == key
    ensures r.Some? ==> && r.value.user == d.user.value && r.value.vehicle == d.vehicle.value
                        && r.value.start == d.start.value && r.value.end == d.end.value
                        && r.value.payment == d.payment
    // defaults: status "pending", reminderSent false, reminderSentAt null, expireAt null
    ensures r.Some? ==> && r.value.status == d.status.GetOr(Pending)
                        && !r.value.reminderSent && r.value.reminderSentAt.None?
                        && r.value.expireAt == d.expireAt
  {
    if Admissible(d) then
      Some(Booking(key, d.user.value, d.vehicle.value, d.start.value, d.end.value,
                   d.status.GetOr(Pending), d.payment, false, None, d.expireAt))
    else None
  }

  /** The TTL index (`expireAfterSeconds: 0` on `expireAt`) deletes a booking once
      `expireAt` has passed; a booking whose `expireAt` is null never expires. */
  predicate ExpiredAt(b: Booking, now: Millis)
  {
    b.expireAt.Some? && b.expireAt.value <= now
  }

  /** Expiry is permanent: a booking expired at `now` is expired at every later instant,
      and one without `expireAt` is never expired. */
  lemma ExpiryIsPermanent(b: Booking, now: Millis, later: Millis)
    requires now <= later
    ensures ExpiredAt(b, now) ==> ExpiredAt(b, later)
    ensures b.expireAt.None? ==> !ExpiredAt(b, now)
  {
  }

  /** The collection after the TTL monitor has run at `now`. */
  function Unexpired(s: seq<Booking>, now: Millis): (r: seq<Booking>)
    ensures |r| <= |s|
    ensures forall b :: b in r <==> b in s && !ExpiredAt(b, now)
  {
    if s == [] then [] else (if ExpiredAt(s[0], now) then [] else [s[0]]) + Unexpired(s[1..], now)
  }

  /** The sweep only deletes: any relation between an earlier and a later booking
      still holds between the survivors, which keep their order. */
  lemma {:induction false} UnexpiredKeepsPairwise(s: seq<Booking>, now: Millis, P: (Booking, Booking) -> bool)
    requires forall i, j :: 0 <= i < j < |s| ==> P(s[i], s[j])
    ensures forall i, j :: 0 <= i < j < |Unexpired(s, now)| ==> P(Unexpired(s, now)[i], Unexpired(s, now)[j])
  {
    if s != [] {
      var t := s[1..];
      forall i, j | 0 <= i < j < |t| ensures P(t[i], t[j]) {
        assert t[i] == s[i + 1] && t[j] == s[j + 1];
      }
      UnexpiredKeepsPairwise(t, now, P);
      var u := Unexpired(t, now);
      if !ExpiredAt(s[0], now) {
        forall x | x in u ensures P(s[0], x) {
          var k :| 0 <= k < |t| && t[k] == x;
          assert s[k + 1] == x;
        }
        PrependKeepsPairwise(s[0], u, P);
        assert Unexpired(s, now) == [s[0]] + u;
      } else {
        assert Unexpired(s, now) == u;
      }
    }
  }

  /** A booking related to every later one can be put in front of a pairwise-related sequence. */
  lemma PrependKeepsPairwise(h: Booking, u: seq<Booking>, P: (Booking, Booking) -> bool)
    requires forall i, j :: 0 <= i < j < |u| ==> P(u[i], u[j])
    requires forall x :: x in u ==> P(h, x)
    ensures forall i, j :: 0 <= i < j < |[h] + u| ==> P(([h] + u)[i], ([h] + u)[j])
  {
    var r := [h] + u;
    forall i, j | 0 <= i < j < |r| ensures P(r[i], r[j]) {
      assert r[j] == u[j - 1];
      if i > 0 {
        assert r[i] == u[i - 1];
      }
    }
  }

  /** A booking without `expireAt` (every confirmed one) survives every sweep. */
  lemma UnexpiringSurvivesSweep(s: seq<Booking>, now: Millis, b: Booking)
    requires b in s && b.expireAt.None?
    ensures b in Unexpired(s, now)
  {
  }

  /** The `Booking` collection: its documents in natural (insertion) order, and the
      key the next inserted document gets. */
  class BookingCollection {
    var records: seq<Booking>
    var nextKey: nat

    ghost predicate Valid()
      reads this
    {
      && (forall b :: b in records ==> b.id < nextKey && WellFormed(b))
      && (forall i, j :: 0 <= i < j < |records| ==> records[i].id < records[j].id)
    }

    constructor ()
      ensures Valid() && records == []
    {
      records := [];
      nextKey := 0;
    }

    /** `Booking.create(d)`: validation, then one new document with a fresh key. */
    method Create(d: Draft) returns (r: Option<Booking>)
      requires Valid()
      modifies this
      ensures Valid()
      ensures r == New(d, old(nextKey))
      ensures records == if r.Some? then old(records) + [r.value] else old(records)
    {
      r := New(d, nextKey);
      if r.Some? {
        records := records + [r.value];
        nextKey := nextKey + 1;
      }
    }

    /** `booking.save()` after the handler changed fields of the document at position `i`. */
    method Save(i: nat, b: Booking)
      requires Valid() && i < |records| && b.id == records[i].id && WellFormed(b)
      modifies this
      ensures Valid()
      ensures records == old(records)[i := b] && nextKey == old(nextKey)
    {
      records := records[i := b];
    }

    /** One pass of MongoDB's TTL monitor at time `now`. */
    method ExpireHolds(now: Millis)
      requires Valid()
      modifies this
      ensures Valid()
      ensures records == Unexpired(old(records), now) && nextKey == old(nextKey)
    {
      UnexpiredKeepsPairwise(records, now, (a: Booking, b: Booking) => a.id < b.id);
      records := Unexpired(records, now);
    }
  }
}
