/** The Vehicle record (models/Vehicle.js): the catalogue the handlers look vehicles up in. */
module VehicleModel {
  import opened Common

  /** A vehicle document; `vehicleType` is the schema's `type` field. */
  datatype Vehicle = Vehicle(
    id: Id,
    make: string,
    model: string,
    vehicleType: string,
    location: string,
    pricePerDay: int)

  /** `Vehicle.findById(id)`: the vehicle with that id, if the catalogue has one. */
  function FindVehicle(catalog: seq<Vehicle>, id: Id): (r: Option<Vehicle>)
    ensures r.None? <==> forall k :: 0 <= k < |catalog| ==> catalog[k].id != id
    ensures r.Some? ==> r.value in catalog && r.value.id == id
  {
    if catalog == [] then None
    else if catalog[0].id == id then Some(catalog[0])
    else
      var r := FindVehicle(catalog[1..], id);
      assert forall k :: 0 <= k < |catalog| - 1 ==> catalog[1..][k] == catalog[k + 1];
      r
  }
}
