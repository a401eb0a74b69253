/** The Review schema (models/Review.js) and its collection. */
module ReviewModel {
  import opened Common
  import opened Text

  /** A stored review document; `id` is its `_id`. */
  datatype Review = Review(
    id: nat,
    vehicle: Id,
    user: Id,
    rating: int,
    comment: string,
    approved: bool,
    createdAt: Millis)

  /** What every stored review satisfies: ObjectId references, a rating within
      `min: 1` and `max: 5`, and a required comment kept trimmed. */
  predicate WellFormed(r: Review)
  {
    && IsObjectId(r.vehicle) && IsObjectId(r.user)
    && 1 <= r.rating <= 5
    && r.comment != [] && Trim(r.comment) == r.comment
  }

  /** The fields handed to `Review.create`; `None` is a field left undefined. */
  datatype ReviewDraft = ReviewDraft(vehicle: Option<Id>, user: Option<Id>, rating: Option<int>, comment: string)

  /** Schema validation. The `trim` setter runs first, so an all-blank comment fails `required`. */
  predicate Admissible(d: ReviewDraft)
  {
    && d.vehicle.Some? && IsObjectId(d.vehicle.value)
    && d.user.Some? && IsObjectId(d.user.value)
    && d.rating.Some? && 1 <= d.rating.value <= 5
    && Trim(d.comment) != []
  }

  /** The document `Review.create(d)` stores at time `now` under key `key`, or `None`
      when validation throws and nothing is stored. */
  function New(d: ReviewDraft, key: nat, now: Millis): (r: Option<Review>)
    ensures r.Some? <==> Admissible(d)
    ensures r.Some? ==> WellFormed(r.value) && r.value.id == key
    ensures r.Some? ==> && r.value.vehicle == d.vehicle.value && r.value.user == d.user.value
                        && r.value.rating == d.rating.value
    // the comment is stored trimmed; defaults: approved false, createdAt Date.now
    ensures r.Some? ==> r.value.comment == Trim(d.comment) && !r.value.approved && r.value.createdAt == now
  {
    if Admissible(d) then
      TrimIdempotent(d.comment);
      Some(Review(key, d.vehicle.value, d.user.value, d.rating.value, Trim(d.comment), false, now))
    else None
  }

  /** Every review in `rs` is well formed and has a key below `nextKey`. */
  predicate Stored(rs: seq<Review>, nextKey: nat)
  {
    forall r :: r in rs ==> r.id < nextKey && WellFormed(r)
  }

  lemma AppendKeepsStored(rs: seq<Review>, nextKey: nat, r: Review)
    requires Stored(rs, nextKey) && WellFormed(r) && r.id == nextKey
    ensures Stored(rs + [r], nextKey + 1)
  {
  }

  /** The `Review` collection, in insertion order. */
  class ReviewCollection {
    var records: seq<Review>
    var nextKey: nat

    ghost predicate Valid()
      reads this
    {
      Stored(records, nextKey)
    }

    constructor ()
      ensures Valid() && records == []
    {
      records := [];
      nextKey := 0;
    }

    /** `Review.create(d)` at time `now`. */
    method Create(d: ReviewDraft, now: Millis) returns (r: Option<Review>)
      requires Valid()
      modifies this
      ensures Valid()
      ensures r == New(d, old(nextKey), now)
      ensures records == if r.Some? then old(records) + [r.value] else old(records)
    {
      r := New(d, nextKey, now);
      if r.Some? {
        AppendKeepsStored(records, nextKey, r.value);
        records := records + [r.value];
        nextKey := nextKey + 1;
      }
    }
  }
}
