/** The local zone register: creating a zone appends it without spots. */
module Zones {
  import opened Common

  datatype Spot = Spot(id: string, name: string, number: int, floor: int)

  /** A zone; `capacity` keeps the form's text, as `FormData` gives it. */
  datatype Zone = Zone(id: string, name: string, capacity: string, vehicleType: string,
                       lotId: string, spots: seq<Spot>)

  /** The form fields of the create dialog; a missing field reads as `""`. */
  datatype ZoneForm = ZoneForm(name: string, capacity: string, vehicleType: string)

  /** The zone `handleCreateZone` builds; `newId` stands for the random id. */
  function NewZone(newId: string, form: ZoneForm, selectedLot: Option<string>): (z: Zone)
    ensures z.id == newId
    ensures z.name == form.name && z.capacity == form.capacity && z.vehicleType == form.vehicleType
    ensures selectedLot.Some? ==> z.lotId == selectedLot.value
    ensures selectedLot.None? ==> z.lotId == ""
    ensures z.spots == [] && SpotCount(z) == 0
  {
    Zone(newId, form.name, form.capacity, form.vehicleType, selectedLot.GetOr(""), [])
  }

  /** The "Spots" column of the table. */
  function SpotCount(z: Zone): nat {
    |z.spots|
  }

  class ZoneRegister {
    var zones: seq<Zone>
    var selectedLot: Option<string>
    var dialogOpen: bool

    constructor ()
      ensures zones == [] && selectedLot == None && !dialogOpen
    {
      zones := [];
      selectedLot := None;
      dialogOpen := false;
    }

    /** The "Create Zone" button. */
    method OpenDialog()
      modifies this`dialogOpen
      ensures dialogOpen
    {
      dialogOpen := true;
    }

    /** The lot selector of the dialog. */
    method SelectLot(lot: Option<string>)
      modifies this`selectedLot
      ensures selectedLot == lot
    {
      selectedLot := lot;
    }

    /** `handleCreateZone`. */
    method HandleCreateZone(newId: string, form: ZoneForm)
      modifies this`zones, this`dialogOpen
      ensures zones == old(zones) + [NewZone(newId, form, selectedLot)]
      ensures |zones| == |old(zones)| + 1 && zones[..|old(zones)|] == old(zones)
      ensures SpotCount(zones[|zones| - 1]) == 0
      ensures !dialogOpen
    {
      zones := zones + [NewZone(newId, form, selectedLot)];
      dialogOpen := false;
    }
  }
}
