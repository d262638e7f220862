/** The local vehicle register: entries append, exits remove by the phone
    number they were registered with. */
module Vehicles {
  import opened Common
  import opened Seqs

  datatype Vehicle = Vehicle(id: string, licensePlate: string, phoneNumber: string, lotId: string)

  /** The index `vehicles.find(v => v.phoneNumber === phone)` returns. */
  function FirstPhoneMatch(vs: seq<Vehicle>, phone: string): (r: Option<nat>)
    ensures r.Some? ==> r.value < |vs| && vs[r.value].phoneNumber == phone
    ensures r.Some? ==> forall j :: 0 <= j < r.value ==> vs[j].phoneNumber != phone
    ensures r.None? <==> forall j :: 0 <= j < |vs| ==> vs[j].phoneNumber != phone
    decreases |vs|
  {
    if vs == [] then None
    else if vs[0].phoneNumber == phone then Some(0)
    else
      var rest := FirstPhoneMatch(vs[1..], phone);
      if rest.Some? then Some(rest.value + 1) else None
  }

  function OtherId(id: string): Vehicle -> bool {
    (v: Vehicle) => v.id != id
  }

  /** `vehicles.filter(v => v.id !== id)`. */
  function RemoveById(vs: seq<Vehicle>, id: string): (r: seq<Vehicle>)
    ensures forall k :: 0 <= k < |r| ==> r[k].id != id && r[k] in vs
    ensures forall k :: 0 <= k < |vs| && vs[k].id != id ==> vs[k] in r
    ensures forall x :: multiset(r)[x] == if x.id != id then multiset(vs)[x] else 0
  {
    FilterCounts(vs, OtherId(id));
    Filter(vs, OtherId(id))
  }

  /** The list after `handleVehicleExit`: with a phone match, every vehicle
      sharing the id of the first match is gone; without one nothing changes. */
  function AfterExit(vs: seq<Vehicle>, phone: string): (r: seq<Vehicle>)
    ensures FirstPhoneMatch(vs, phone).None? ==> r == vs
    ensures FirstPhoneMatch(vs, phone).Some? ==>
      r == RemoveById(vs, vs[FirstPhoneMatch(vs, phone).value].id)
  {
    var m := FirstPhoneMatch(vs, phone);
    if m.Some? then RemoveById(vs, vs[m.value].id) else vs
  }

  /** The vehicles that survive an exit keep their order. */
  lemma ExitKeepsOrder(vs: seq<Vehicle>, phone: string)
    ensures IsSubsequence(AfterExit(vs, phone), vs)
  {
    var m := FirstPhoneMatch(vs, phone);
    if m.Some? {
      FilterIsSubsequence(vs, OtherId(vs[m.value].id));
    } else {
      IsSubsequenceOfSelf(vs);
    }
  }

  lemma {:induction false} IsSubsequenceOfSelf(s: seq<Vehicle>)
    ensures IsSubsequence(s, s)
    decreases |s|
  {
    if s != [] {
      IsSubsequenceOfSelf(s[1..]);
    }
  }

  predicate DistinctIds(vs: seq<Vehicle>) {
    forall i, j :: 0 <= i < j < |vs| ==> vs[i].id != vs[j].id
  }

  lemma {:induction false} RemoveUniqueId(vs: seq<Vehicle>, k: nat)
    requires DistinctIds(vs) && k < |vs|
    ensures |RemoveById(vs, vs[k].id)| == |vs| - 1
    decreases |vs|
  {
    var id := vs[k].id;
    if k == 0 {
      assert forall j :: 0 <= j < |vs[1..]| ==> OtherId(id)(vs[1..][j]);
      FilterKeepsAll(vs[1..], OtherId(id));
    } else {
      assert vs[1..][k - 1] == vs[k];
      RemoveUniqueId(vs[1..], k - 1);
    }
  }

  /** With distinct ids, an exit that matches a phone removes exactly one vehicle. */
  lemma ExitRemovesOne(vs: seq<Vehicle>, phone: string)
    requires DistinctIds(vs)
    requires FirstPhoneMatch(vs, phone).Some?
    ensures |AfterExit(vs, phone)| == |vs| - 1
  {
    RemoveUniqueId(vs, FirstPhoneMatch(vs, phone).value);
  }

  /** Two vehicles that share an id both leave with the first phone match. */
  lemma SharedIdLeavesTogether(a: Vehicle, b: Vehicle)
    requires a.id == b.id && a.phoneNumber != b.phoneNumber
    ensures AfterExit([a, b], a.phoneNumber) == []
  {
    assert FirstPhoneMatch([a, b], a.phoneNumber) == Some(0);
    FilterDropsAll([a, b], OtherId(a.id));
  }

  class VehicleRegister {
    var vehicles: seq<Vehicle>
    var entryOpened: bool
    var exitOpened: bool

    constructor ()
      ensures vehicles == [] && !entryOpened && !exitOpened
    {
      vehicles := [];
      entryOpened := false;
      exitOpened := false;
    }

    /** The "Vehicle Entry" button. */
    method OpenEntry()
      modifies this`entryOpened
      ensures entryOpened
    {
      entryOpened := true;
    }

    /** The "Vehicle Exit" button. */
    method OpenExit()
      modifies this`exitOpened
      ensures exitOpened
    {
      exitOpened := true;
    }

    /** `handleVehicleEntry`; `newId` stands for the random id. */
    method HandleVehicleEntry(newId: string, licensePlate: string, phoneNumber: string, lotId: string)
      modifies this`vehicles, this`entryOpened
      ensures vehicles == old(vehicles) + [Vehicle(newId, licensePlate, phoneNumber, lotId)]
      ensures !entryOpened
    {
      vehicles := vehicles + [Vehicle(newId, licensePlate, phoneNumber, lotId)];
      entryOpened := false;
    }

    /** `handleVehicleExit`. */
    method HandleVehicleExit(phoneNumber: string)
      modifies this`vehicles, this`exitOpened
      ensures vehicles == AfterExit(old(vehicles), phoneNumber)
      ensures !exitOpened
    {
      var m := FirstPhoneMatch(vehicles, phoneNumber);
      if m.Some? {
        vehicles := RemoveById(vehicles, vehicles[m.value].id);
      }
      exitOpened := false;
    }
  }
}
