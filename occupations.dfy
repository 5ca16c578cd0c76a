/**
 * The two occupation ledgers. A whole-room unit is held through a
 * RoomOccupation, a bed of a shared room through a BedOccupation; each
 * entry links one reservation to one room or bed for a set of days.
 */
module Occupations {
  import opened Wrappers
  import Calendar
  import Identity

  datatype RoomOccupation = RoomOccupation(id: nat, roomId: nat, reserveId: nat, days: set<int>)

  datatype BedOccupation = BedOccupation(id: nat, bedId: nat, reserveId: nat, days: set<int>)

  /** A new whole-room entry holds no day yet. */
  function NewRoomOccupation(id: nat, roomId: nat, reserveId: nat): (o: RoomOccupation)
    ensures o.days == {}
    ensures o.id == id && o.roomId == roomId && o.reserveId == reserveId
  {
    RoomOccupation(id, roomId, reserveId, {})
  }

  /** A new bed entry holds no day yet. */
  function NewBedOccupation(id: nat, bedId: nat, reserveId: nat): (o: BedOccupation)
    ensures o.days == {}
    ensures o.id == id && o.bedId == bedId && o.reserveId == reserveId
  {
    BedOccupation(id, bedId, reserveId, {})
  }

  /** `getStartDate`: the first occupied day, absent for an empty entry. */
  ghost function StartDate(o: RoomOccupation): (d: Option<int>)
    ensures d.None? <==> o.days == {}
    ensures d.Some? ==> d.value in o.days && forall x :: x in o.days ==> d.value <= x
  {
    if o.days == {} then None else Some(Calendar.MinDay(o.days))
  }

  /** `getEndDate`: the last occupied day, absent for an empty entry. */
  ghost function EndDate(o: RoomOccupation): (d: Option<int>)
    ensures d.None? <==> o.days == {}
    ensures d.Some? ==> d.value in o.days && forall x :: x in o.days ==> x <= d.value
  {
    if o.days == {} then None else Some(Calendar.MaxDay(o.days))
  }

  /** Both ends exist together, and the start never falls after the end. */
  lemma StartNotAfterEnd(o: RoomOccupation)
    ensures StartDate(o).Some? <==> EndDate(o).Some?
    ensures StartDate(o).Some? ==> StartDate(o).value <= EndDate(o).value
  {
  }

  /** `setBed`: the entry now names `bedId` and is otherwise unchanged. */
  function SetBed(o: BedOccupation, bedId: nat): (r: BedOccupation)
    ensures r.bedId == bedId
    ensures r.id == o.id && r.reserveId == o.reserveId && r.days == o.days
  {
    o.(bedId := bedId)
  }

  /** `setReserve`: the entry now names `reserveId` and is otherwise unchanged. */
  function SetReserve(o: BedOccupation, reserveId: nat): (r: BedOccupation)
    ensures r.reserveId == reserveId
    ensures r.id == o.id && r.bedId == o.bedId && r.days == o.days
  {
    o.(reserveId := reserveId)
  }

  /** Setting the bed back to the one read restores the entry; setting twice keeps the last. */
  lemma SetBedRoundTrip(o: BedOccupation, b1: nat, b2: nat)
    ensures SetBed(o, o.bedId) == o
    ensures SetBed(SetBed(o, b1), b2) == SetBed(o, b2)
    ensures SetReserve(o, o.reserveId) == o
    ensures SetReserve(SetReserve(o, b1), b2) == SetReserve(o, b2)
  {
  }

  /** `RoomOccupation.equals`: by id only. */
  function RoomOccupationEquals(a: RoomOccupation, b: RoomOccupation): (r: bool)
    ensures r <==> a.id == b.id
  {
    Identity.IdEquals(Some(a.id), Some(b.id))
  }

  /** `BedOccupation.equals`: by id only, consistent with `hashCode`. */
  function BedOccupationEquals(a: BedOccupation, b: BedOccupation): (r: bool)
    ensures r <==> a.id == b.id
    ensures Identity.IsLong(a.id) && Identity.IsLong(b.id) && r ==>
      Identity.HashCode(Some(a.id)) == Identity.HashCode(Some(b.id))
  {
    Identity.IdEquals(Some(a.id), Some(b.id))
  }
}
