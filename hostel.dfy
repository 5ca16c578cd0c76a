/**
 * The persistent state: one table per repository, each a sequence of rows
 * in insertion order, and the identity generator shared by all tables.
 */
module Hostel {
  import opened Wrappers
  import opened Enums
  import opened Rooms
  import opened Reserves
  import opened Occupations
  import Allocation
  import Seqs
  import FinancialRecords

  class Database {
    var rooms: seq<Room>
    var beds: seq<Bed>
    var guests: seq<Guest>
    var reserves: seq<Reserve>
    var roomOccupations: seq<RoomOccupation>
    var bedOccupations: seq<BedOccupation>
    var records: seq<FinancialRecords.RecordRow>
    /** The next identity value to hand out. */
    var nextId: nat

    constructor()
      ensures rooms == [] && beds == [] && guests == [] && reserves == []
      ensures roomOccupations == [] && bedOccupations == [] && records == []
      ensures NoDoubleBooking()
    {
      rooms, beds, guests, reserves := [], [], [], [];
      roomOccupations, bedOccupations, records := [], [], [];
      nextId := 1;
    }

    /** No room and no bed is held twice on the same day. */
    predicate NoDoubleBooking()
      reads this
    {
      Allocation.RoomLedgerDisjoint(roomOccupations) && Allocation.BedLedgerDisjoint(bedOccupations)
    }

    /** Every room a reservation names exists (the join table's foreign key). */
    predicate RoomsResolve()
      reads this`reserves, this`rooms
    {
      forall i, k :: 0 <= i < |reserves| && k in reserves[i].rooms ==> RoomById(rooms, k).Ok?
    }

    /** Every stored financial record has at most one bucket per room type. */
    predicate RecordsWellFormed()
      reads this`records
    {
      forall i :: 0 <= i < |records| ==> FinancialRecords.TypesDistinct(records[i].buckets)
    }

    /** The tables a reservation import writes, as one value. */
    function BookingState(): Tables
      reads this`guests, this`reserves, this`roomOccupations, this`bedOccupations, this`nextId
    {
      Tables(guests, reserves, roomOccupations, bedOccupations, nextId)
    }
  }

  /** The guest, reservation and ledger tables with the identity generator: what creating a reservation writes. */
  datatype Tables = Tables(guests: seq<Guest>, reserves: seq<Reserve>, roomOccupations: seq<RoomOccupation>,
                           bedOccupations: seq<BedOccupation>, nextId: nat)

  /** `reserveRepo.findById`: the row with that id, `NotFound` when there is none. */
  function ReserveById(reserves: seq<Reserve>, id: nat): (r: Result<nat>)
    ensures r.Ok? ==> r.value < |reserves| && reserves[r.value].id == id
    ensures r.Err? ==> r.error == NotFound
    ensures r.Err? <==> forall i :: 0 <= i < |reserves| ==> reserves[i].id != id
  {
    match Seqs.FirstIndex(reserves, (x: Reserve) => x.id == id)
    case None => Err(NotFound)
    case Some(i) => Ok(i)
  }

  /** `roomRepo.findById`. */
  function RoomById(rooms: seq<Room>, id: nat): (r: Result<nat>)
    ensures r.Ok? ==> r.value < |rooms| && rooms[r.value].id == id
    ensures r.Ok? ==> forall j :: 0 <= j < r.value ==> rooms[j].id != id
    ensures r.Err? ==> r.error == NotFound
    ensures r.Err? <==> forall i :: 0 <= i < |rooms| ==> rooms[i].id != id
  {
    match Seqs.FirstIndex(rooms, (x: Room) => x.id == id)
    case None => Err(NotFound)
    case Some(i) => Ok(i)
  }

  /** `bedRepo.findById`. */
  function BedById(beds: seq<Bed>, id: nat): (r: Result<nat>)
    ensures r.Ok? ==> r.value < |beds| && beds[r.value].id == id
    ensures r.Ok? ==> forall j :: 0 <= j < r.value ==> beds[j].id != id
    ensures r.Err? ==> r.error == NotFound
    ensures r.Err? <==> forall i :: 0 <= i < |beds| ==> beds[i].id != id
  {
    match Seqs.FirstIndex(beds, (x: Bed) => x.id == id)
    case None => Err(NotFound)
    case Some(i) => Ok(i)
  }

  /**
   * `roomRepo.findByNumber(...).orElseThrow(...)`: `NotFound` when no room
   * has the number, a runtime failure when several do.
   */
  function RoomByNumber(rooms: seq<Room>, number: int): (r: Result<nat>)
    ensures r.Ok? ==> r.value < |rooms| && rooms[r.value].number == Some(number)
    ensures r == Err(NotFound) <==> forall i :: 0 <= i < |rooms| ==> rooms[i].number != Some(number)
    ensures r.Err? ==> r.error == NotFound || r.error == Runtime
  {
    match Seqs.SingleResult(rooms, (x: Room) => x.number == Some(number))
    case Err(e) => Err(e)
    case Ok(None) => Err(NotFound)
    case Ok(Some(i)) => Ok(i)
  }

  /** `guestRepo.findByName(...)`, an optional single result. */
  function GuestByName(guests: seq<Guest>, name: string): (r: Result<Option<nat>>)
    ensures r.Ok? && r.value.Some? ==> r.value.value < |guests| && guests[r.value.value].name == name
    ensures r == Ok(None) <==> forall i :: 0 <= i < |guests| ==> guests[i].name != name
    ensures r.Err? ==> r.error == Runtime
  {
    Seqs.SingleResult(guests, (g: Guest) => g.name == name)
  }

  /** The same lookup, with a missing guest reported as `NotFound`. */
  function ExistingGuestByName(guests: seq<Guest>, name: string): (r: Result<nat>)
    ensures r.Ok? ==> r.value < |guests| && guests[r.value].name == name
    ensures r == Err(NotFound) <==> forall i :: 0 <= i < |guests| ==> guests[i].name != name
    ensures r.Err? ==> r.error == NotFound || r.error == Runtime
  {
    match GuestByName(guests, name)
    case Err(e) => Err(e)
    case Ok(None) => Err(NotFound)
    case Ok(Some(i)) => Ok(i)
  }

  /** The two room tables differ in their statuses at most. */
  predicate RoomStatusOnly(rooms: seq<Room>, rooms': seq<Room>)
  {
    |rooms'| == |rooms| && forall i :: 0 <= i < |rooms| ==> rooms'[i] == rooms[i].(status := rooms'[i].status)
  }

  /** The two bed tables differ in their statuses at most. */
  predicate BedStatusOnly(beds: seq<Bed>, beds': seq<Bed>)
  {
    |beds'| == |beds| && forall j :: 0 <= j < |beds| ==> beds'[j] == beds[j].(status := beds'[j].status)
  }

  /** A change of statuses leaves every room where the lookup by id finds it. */
  lemma RoomByIdKeptByStatus(rooms: seq<Room>, rooms': seq<Room>, k: nat)
    requires RoomStatusOnly(rooms, rooms')
    ensures RoomById(rooms', k) == RoomById(rooms, k)
  {
    assert forall i :: 0 <= i < |rooms| ==> rooms'[i].id == rooms[i].id;
    var a, b := RoomById(rooms, k), RoomById(rooms', k);
    if a.Ok? && b.Ok? {
      assert !(a.value < b.value) && !(b.value < a.value);
    }
  }

  /** A change of statuses leaves every bed where the lookup by id finds it. */
  lemma BedByIdKeptByStatus(beds: seq<Bed>, beds': seq<Bed>, id: nat)
    requires BedStatusOnly(beds, beds')
    ensures BedById(beds', id) == BedById(beds, id)
  {
    assert forall j :: 0 <= j < |beds| ==> beds'[j].id == beds[j].id;
    var a, b := BedById(beds, id), BedById(beds', id);
    if a.Ok? && b.Ok? {
      assert !(a.value < b.value) && !(b.value < a.value);
    }
  }

  /** The room at row `i` with a new status. */
  function WithRoomStatus(rooms: seq<Room>, i: nat, status: Option<RoomStatus>): (r: seq<Room>)
    requires i < |rooms|
    ensures RoomStatusOnly(rooms, r) && r[i].status == status
    ensures forall j :: 0 <= j < |rooms| && j != i ==> r[j] == rooms[j]
  {
    rooms[i := rooms[i].(status := status)]
  }

  /** The bed at row `j` with a new status. */
  function WithBedStatus(beds: seq<Bed>, j: nat, status: BedStatus): (r: seq<Bed>)
    requires j < |beds|
    ensures BedStatusOnly(beds, r) && r[j].status == Some(status)
    ensures forall n :: 0 <= n < |beds| && n != j ==> r[n] == beds[n]
  {
    beds[j := beds[j].(status := Some(status))]
  }
}
