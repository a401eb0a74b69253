/** The Payment schema (models/Payment.js) and its collection. */
module PaymentModel {
  import opened Common

  /** The `status` enum. */
  datatype PaymentStatus = Completed | Failed

  /** A stored payment document; `id` is its `_id`, `amount` is in paise. */
  datatype Payment = Payment(
    id: nat,
    user: Id,
    vehicle: Id,
    amount: int,
    currency: string,
    status: PaymentStatus,
    sessionId: string,
    createdAt: Millis)

  /** The fields handed to `Payment.create`; `None` is a field left undefined. */
  datatype PaymentFields = PaymentFields(
    user: Option<Id>,
    vehicle: Option<Id>,
    amount: Option<int>,
    currency: Option<string>,
    status: Option<PaymentStatus>,
    sessionId: string)

  /** Schema validation: `user`, `vehicle`, `amount` and `sessionId` are required (an
      empty string does not satisfy `required`), and the references must be ObjectIds. */
  predicate Admissible(d: PaymentFields)
  {
    && d.user.Some? && IsObjectId(d.user.value)
    && d.vehicle.Some? && IsObjectId(d.vehicle.value)
    && d.amount.Some?
    && d.sessionId != ""
  }

  /** The document `Payment.create(d)` stores at time `now` under key `key`, or `None`
      when validation throws and nothing is stored. */
  function New(d: PaymentFields, key: nat, now: Millis): (r: Option<Payment>)
    ensures r.Some? <==> Admissible(d)
    ensures r.Some? ==> && r.value.id == key && r.value.user == d.user.value
                        && r.value.vehicle == d.vehicle.value && r.value.amount == d.amount.value
                        && r.value.sessionId == d.sessionId && r.value.sessionId != ""
    // defaults: currency "inr", status "completed", createdAt Date.now
    ensures r.Some? ==> && r.value.currency == d.currency.GetOr("inr")
                        && r.value.status == d.status.GetOr(Completed)
                        && r.value.createdAt == now
  {
    if Admissible(d) then
      Some(Payment(key, d.user.value, d.vehicle.value, d.amount.value, d.currency.GetOr("inr"),
                   d.status.GetOr(Completed), d.sessionId, now))
    else None
  }

  /** The `Payment` collection, in insertion order. */
  class PaymentCollection {
    var records: seq<Payment>
    var nextKey: nat

    ghost predicate Valid()
      reads this
    {
      forall p :: p in records ==> p.id < nextKey && IsObjectId(p.user) && IsObjectId(p.vehicle)
    }

    constructor ()
      ensures Valid() && records == []
    {
      records := [];
      nextKey := 0;
    }

    /** `Payment.create(d)` at time `now`. */
    method Create(d: PaymentFields, now: Millis) returns (r: Option<Payment>)
      requires Valid()
      modifies this
      ensures Valid()
      ensures r == New(d, old(nextKey), now)
      ensures records == if r.Some? then old(records) + [r.value] else old(records)
      ensures nextKey >= old(nextKey)
    {
      r := New(d, nextKey, now);
      if r.Some? {
        records := records + [r.value];
        nextKey := nextKey + 1;
      }
    }
  }
}
