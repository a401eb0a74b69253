/** `POST /api/reviews/:vehicleId` (routes/reviewRoutes.js): only a caller with a
    qualifying booking of the vehicle may review it, and only once. */
module ReviewRoutes {
  import opened Common
  import opened Text
  import opened BookingModel
  import opened Ledger
  import opened ReviewModel

  /** Replies of the review handler. */
  datatype ReviewReply =
    | ReviewCreated(review: Review)
    | RatingOrCommentMissing
    | NotBooked
    | AlreadyReviewed
    | ReviewFailed
  {
    function Code(): int
    {
      match this
      case ReviewCreated(_) => 201
      case RatingOrCommentMissing => 400
      case NotBooked => 403
      case AlreadyReviewed => 400
      case ReviewFailed => 500
    }
  }

  /** `Booking.findOne({user, vehicle, status: {$in: ["confirmed", "completed"]}})` finds a booking. */
  predicate HasQualifyingBooking(s: seq<Booking>, user: Id, vehicle: Id)
  {
    exists k | 0 <= k < |s| :: s[k].user == user && s[k].vehicle == vehicle && Admits(Reviewable, s[k].status)
  }

  /** `Review.findOne({user, vehicle})` finds a review. */
  predicate HasReviewed(rs: seq<Review>, user: Id, vehicle: Id)
  {
    exists k | 0 <= k < |rs| :: rs[k].user == user && rs[k].vehicle == vehicle
  }

  /** At most one review per user and vehicle. */
  predicate OneReviewPerPair(rs: seq<Review>)
  {
    forall i, j :: 0 <= i < j < |rs| ==> !(rs[i].user == rs[j].user && rs[i].vehicle == rs[j].vehicle)
  }

  /** The user holds a confirmed booking of the vehicle. */
  predicate HasConfirmedBooking(s: seq<Booking>, user: Id, vehicle: Id)
  {
    exists k :: 0 <= k < |s| && s[k].user == user && s[k].vehicle == vehicle && s[k].status == Confirmed
  }

  /** Only a confirmed booking qualifies: "completed" is no booking status, and a
      pending or cancelled booking never does. */
  lemma QualifyingMeansConfirmed(s: seq<Booking>, user: Id, vehicle: Id)
    ensures HasQualifyingBooking(s, user, vehicle) <==> HasConfirmedBooking(s, user, vehicle)
  {
    forall k | 0 <= k < |s| {
      ReviewableIsConfirmed(s[k].status);
    }
  }

  /** The review handler. A rating of 0 or none, or an empty comment, is missing; a
      vehicle id that is no ObjectId makes the booking query throw. */
  method CreateReview(reviews: ReviewCollection, bookings: BookingCollection, userId: Id, vehicleId: string,
                      rating: Option<int>, comment: string, now: Millis)
    returns (reply: ReviewReply)
    requires reviews.Valid() && IsObjectId(userId)
    modifies reviews
    ensures reviews.Valid()
    ensures reply == RatingOrCommentMissing <==> rating.None? || rating.value == 0 || comment == ""
    ensures reply == NotBooked <==>
              && rating.Some? && rating.value != 0 && comment != "" && IsObjectId(vehicleId)
              && !HasConfirmedBooking(bookings.records, userId, vehicleId)
    ensures reply == AlreadyReviewed <==>
              && rating.Some? && rating.value != 0 && comment != "" && IsObjectId(vehicleId)
              && HasConfirmedBooking(bookings.records, userId, vehicleId)
              && HasReviewed(old(reviews.records), userId, vehicleId)
    // schema validation: a rating outside 1..5 or an all-blank comment
    ensures reply == ReviewFailed <==>
              && rating.Some? && rating.value != 0 && comment != ""
              && (|| !IsObjectId(vehicleId)
                  || (&& HasConfirmedBooking(bookings.records, userId, vehicleId)
                      && !HasReviewed(old(reviews.records), userId, vehicleId)
                      && !(1 <= rating.value <= 5 && Trim(comment) != [])))
    ensures reply.ReviewCreated? ==>
              && HasConfirmedBooking(bookings.records, userId, vehicleId)
              && !HasReviewed(old(reviews.records), userId, vehicleId)
              && reviews.records == old(reviews.records) + [reply.review]
              && reply.review.user == userId && reply.review.vehicle == vehicleId
              && reply.review.rating == rating.value && 1 <= reply.review.rating <= 5
              && reply.review.comment == Trim(comment) && !reply.review.approved
              // so the next request of this user for this vehicle is refused
              && HasReviewed(reviews.records, userId, vehicleId)
    ensures !reply.ReviewCreated? ==> reviews.records == old(reviews.records)
    ensures OneReviewPerPair(old(reviews.records)) ==> OneReviewPerPair(reviews.records)
  {
    if rating.None? || rating.value == 0 || comment == "" {
      return RatingOrCommentMissing;
    }
    if !IsObjectId(vehicleId) {
      return ReviewFailed;
    }
    QualifyingMeansConfirmed(bookings.records, userId, vehicleId);
    if !HasQualifyingBooking(bookings.records, userId, vehicleId) {
      return NotBooked;
    }
    if HasReviewed(reviews.records, userId, vehicleId) {
      return AlreadyReviewed;
    }
    ghost var before := reviews.records;
    var created := reviews.Create(ReviewModel.ReviewDraft(Some(vehicleId), Some(userId), rating, comment), now);
    if created.None? {
      return ReviewFailed;
    }
    if OneReviewPerPair(before) {
      AppendKeepsOneReviewPerPair(before, created.value);
    }
    assert reviews.records[|before|] == created.value;
    SecondReviewRefused(reviews.records, created.value);
    reply := ReviewCreated(created.value);
  }

  /** Adding a review for a pair that has none keeps one review per pair. */
  lemma AppendKeepsOneReviewPerPair(rs: seq<Review>, r: Review)
    requires OneReviewPerPair(rs) && !HasReviewed(rs, r.user, r.vehicle)
    ensures OneReviewPerPair(rs + [r])
  {
    var t := rs + [r];
    forall i, j | 0 <= i < j < |t| ensures !(t[i].user == t[j].user && t[i].vehicle == t[j].vehicle) {
      if j == |rs| {
        assert t[i] == rs[i];
      }
    }
  }

  /** Once a review is stored, the duplicate query finds it for its user and vehicle, so
      by the `AlreadyReviewed` clause of `CreateReview` a second request for the pair is
      refused and changes nothing. */
  lemma SecondReviewRefused(rs: seq<Review>, r: Review)
    requires r in rs
    ensures HasReviewed(rs, r.user, r.vehicle)
  {
    var k :| 0 <= k < |rs| && rs[k] == r;
  }
}
