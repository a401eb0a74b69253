/** `GET /api/vehicles` (routes/vehicleRoutes.js): build a Mongo filter from the query
    string, list the matching vehicles, and attach to each the windows of its
    non-cancelled bookings. */
module VehicleRoutes {
  import opened Common
  import opened Text
  import opened BookingModel
  import opened Ledger
  import opened VehicleModel

  /** The query string; `""` and `None` stand for a parameter that is not there. */
  datatype SearchParams = SearchParams(
    vehicleType: string,
    location: string,
    minPrice: Option<int>,
    maxPrice: Option<int>,
    keyword: string)

  /** A `$regex` condition with the "i" option: anchored as `^text$`, or bare. */
  datatype Pattern = Exactly(text: string) | Containing(text: string)

  predicate PatternMatches(p: Pattern, s: string)
  {
    match p
    case Exactly(t) => EqualsIgnoringCase(s, t)
    case Containing(t) => ContainsIgnoringCase(s, t)
  }

  /** `pricePerDay: {$gte, $lte}`, either bound possibly absent. */
  datatype PriceRange = PriceRange(gte: Option<int>, lte: Option<int>)

  /** The filter object: conditions on `type`, `location` and `pricePerDay`, and the
      `$or` of the keyword over `make`, `model` and `type`. */
  datatype Query = Query(
    vehicleType: Option<Pattern>,
    location: Option<Pattern>,
    pricePerDay: Option<PriceRange>,
    keyword: Option<Pattern>)

  /** `Vehicle.find(q)` keeps `v`: every condition present holds. */
  predicate Matches(q: Query, v: Vehicle)
  {
    && (q.vehicleType.Some? ==> PatternMatches(q.vehicleType.value, v.vehicleType))
    && (q.location.Some? ==> PatternMatches(q.location.value, v.location))
    && (q.pricePerDay.Some? ==>
          && (q.pricePerDay.value.gte.Some? ==> v.pricePerDay >= q.pricePerDay.value.gte.value)
          && (q.pricePerDay.value.lte.Some? ==> v.pricePerDay <= q.pricePerDay.value.lte.value))
    && (q.keyword.Some? ==>
          || PatternMatches(q.keyword.value, v.make)
          || PatternMatches(q.keyword.value, v.model)
          || PatternMatches(q.keyword.value, v.vehicleType))
  }

  /** The search the endpoint offers, parameter by parameter: a blank parameter does not
      filter; the type must equal the trimmed query and the location contain it, ignoring
      case; the price bounds are inclusive; the keyword must occur in make, model or type. */
  predicate Selected(p: SearchParams, v: Vehicle)
  {
    SelectedBy(Trim(p.vehicleType), Trim(p.location), p.minPrice, p.maxPrice, Trim(p.keyword), v)
  }

  /** The search for already trimmed parameters. */
  predicate SelectedBy(vehicleType: string, location: string, minPrice: Option<int>, maxPrice: Option<int>,
                       keyword: string, v: Vehicle)
  {
    && (vehicleType != [] ==> EqualsIgnoringCase(v.vehicleType, vehicleType))
    && (location != [] ==> ContainsIgnoringCase(v.location, location))
    && (minPrice.Some? ==> v.pricePerDay >= minPrice.value)
    && (maxPrice.Some? ==> v.pricePerDay <= maxPrice.value)
    && (keyword != [] ==>
          || ContainsIgnoringCase(v.make, keyword)
          || ContainsIgnoringCase(v.model, keyword)
          || ContainsIgnoringCase(v.vehicleType, keyword))
  }

  /** A filter object that holds the four conditions of the search, condition by
      condition, keeps exactly the vehicles the search selects. */
  lemma QueryMeansSelected(vehicleType: string, location: string, minPrice: Option<int>, maxPrice: Option<int>,
                           keyword: string, q: Query, v: Vehicle)
    requires q.vehicleType == (if vehicleType != [] then Some(Exactly(vehicleType)) else None)
    requires q.location == (if location != [] then Some(Containing(location)) else None)
    requires q.pricePerDay == (if minPrice.Some? || maxPrice.Some? then Some(PriceRange(minPrice, maxPrice)) else None)
    requires q.keyword == (if keyword != [] then Some(Containing(keyword)) else None)
    ensures Matches(q, v) <==> SelectedBy(vehicleType, location, minPrice, maxPrice, keyword, v)
  {
  }

  /** Builds the filter object one condition at a time, as the handler does. */
  method BuildQuery(p: SearchParams) returns (q: Query)
    ensures forall v :: Matches(q, v) <==> Selected(p, v)
  {
    q := Query(None, None, None, None);
    var vehicleType := Trim(p.vehicleType);
    if vehicleType != [] {
      q := q.(vehicleType := Some(Exactly(vehicleType)));
    }
    var location := Trim(p.location);
    if location != [] {
      q := q.(location := Some(Containing(location)));
    }
    if p.minPrice.Some? || p.maxPrice.Some? {
      var range := PriceRange(None, None);
      if p.minPrice.Some? {
        range := range.(gte := p.minPrice);
      }
      if p.maxPrice.Some? {
        range := range.(lte := p.maxPrice);
      }
      q := q.(pricePerDay := Some(range));
    }
    var keyword := Trim(p.keyword);
    if keyword != [] {
      q := q.(keyword := Some(Containing(keyword)));
    }
    forall v ensures Matches(q, v) <==> Selected(p, v) {
      QueryMeansSelected(vehicleType, location, p.minPrice, p.maxPrice, keyword, q, v);
    }
  }

  /** The vehicles of `s` that `keep` accepts, in the order of `s`. */
  function Filter(s: seq<Vehicle>, keep: Vehicle -> bool): (r: seq<Vehicle>)
    ensures |r| <= |s|
    ensures forall v :: v in r <==> v in s && keep(v)
  {
    if s == [] then [] else (if keep(s[0]) then [s[0]] else []) + Filter(s[1..], keep)
  }

  /** Two tests that accept the same vehicles keep the same list, in the same order. */
  lemma {:induction false} FilterCongruent(s: seq<Vehicle>, f: Vehicle -> bool, g: Vehicle -> bool)
    requires forall v :: f(v) == g(v)
    ensures Filter(s, f) == Filter(s, g)
  {
    if s != [] {
      FilterCongruent(s[1..], f, g);
    }
  }

  /** The catalogue entries the search selects, in catalogue order. */
  function Search(catalog: seq<Vehicle>, p: SearchParams): seq<Vehicle>
  {
    Filter(catalog, (v: Vehicle) => Selected(p, v))
  }

  /** The `forEach` that groups the non-cancelled bookings by vehicle, appending each
      booking's window to its vehicle's list. */
  method GroupBookedDates(active: seq<Booking>) returns (m: map<Id, seq<DateRange>>)
    ensures forall id :: id in m ==> m[id] == Ranges(active, id) && m[id] != []
    ensures forall id :: id !in m ==> Ranges(active, id) == []
  {
    m := map[];
    var i := 0;
    while i < |active|
      invariant 0 <= i <= |active|
      invariant forall id :: id in m ==> m[id] == Ranges(active[..i], id) && m[id] != []
      invariant forall id :: id !in m ==> Ranges(active[..i], id) == []
    {
      var b := active[i];
      var dates := if b.vehicle in m then m[b.vehicle] else [];
      forall id {
        RangesStep(active, i, id);
      }
      m := m[b.vehicle := dates + [RangeOf(b)]];
      i := i + 1;
    }
    assert active[..|active|] == active;
  }

  /** One more booking adds its window to its own vehicle's list and to no other. */
  lemma RangesStep(s: seq<Booking>, i: nat, id: Id)
    requires i < |s|
    ensures Ranges(s[..i + 1], id) == Ranges(s[..i], id) + (if s[i].vehicle == id then [RangeOf(s[i])] else [])
  {
    assert s[..i + 1][..i] == s[..i];
  }

  /** One element of the response: the vehicle with its `bookedDates`. */
  datatype Listing = Listing(vehicle: Vehicle, bookedDates: seq<DateRange>)

  /** `GET /api/vehicles`: one listing per selected vehicle, in catalogue order (the
      order MongoDB returns: the handler sorts on `createdAt`, which no vehicle has), each with the windows of
      exactly that vehicle's non-cancelled bookings, in booking order. */
  method ListVehicles(bookings: BookingCollection, catalog: seq<Vehicle>, p: SearchParams)
    returns (result: seq<Listing>)
    ensures |result| == |Search(catalog, p)|
    ensures forall k :: 0 <= k < |result| ==>
              && result[k].vehicle == Search(catalog, p)[k]
              && result[k].bookedDates == BookedWindows(bookings.records, result[k].vehicle.id)
  {
    var q := BuildQuery(p);
    var vehicles := Filter(catalog, (v: Vehicle) => Matches(q, v));
    FilterCongruent(catalog, (v: Vehicle) => Matches(q, v), (v: Vehicle) => Selected(p, v));
    var grouped := GroupBookedDates(Active(bookings.records));
    result := seq(|vehicles|, k requires 0 <= k < |vehicles| =>
                    Listing(vehicles[k], if vehicles[k].id in grouped then grouped[vehicles[k].id] else []));
  }
}
