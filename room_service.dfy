/**
 * Rooms and their beds: lookups that report a missing room, adding and
 * removing beds, and the partial update of a room's fields.
 */
module RoomService {
  import opened Wrappers
  import opened Enums
  import opened Rooms
  import opened Occupations
  import Hostel
  import Seqs

  /** `findNumber`: the room with that number; `NotFound` when there is none. */
  function FindNumber(rooms: seq<Room>, number: int): (r: Result<Room>)
    ensures r.Ok? ==> r.value in rooms && r.value.number == Some(number)
    ensures r == Err(NotFound) <==> forall room :: room in rooms ==> room.number != Some(number)
    ensures r.Err? ==> r.error == NotFound || r.error == Runtime
  {
    match Hostel.RoomByNumber(rooms, number)
    case Ok(i) => Ok(rooms[i])
    case Err(e) =>
      assert e == NotFound ==> forall room :: room in rooms ==> room.number != Some(number);
      Err(e)
  }

  /** `findById`: the room with that id; `NotFound` when there is none. */
  function FindById(rooms: seq<Room>, id: nat): (r: Result<Room>)
    ensures r.Ok? ==> r.value in rooms && r.value.id == id
    ensures r.Err? <==> forall room :: room in rooms ==> room.id != id
    ensures r.Err? ==> r.error == NotFound
  {
    match Hostel.RoomById(rooms, id)
    case Ok(i) => Ok(rooms[i])
    case Err(e) =>
      assert forall room :: room in rooms ==> room.id != id;
      Err(e)
  }

  /**
   * `insertBed`: one new bed, VAGUE, in the room; `NotFound` when the room
   * does not exist.
   */
  method InsertBed(db: Hostel.Database, id: nat) returns (r: Result<Room>)
    modifies db`beds, db`nextId
    ensures r.Err? <==> FindById(db.rooms, id).Err?
    ensures r.Err? ==> r.error == NotFound && db.beds == old(db.beds) && db.nextId == old(db.nextId)
    ensures r.Ok? ==> r == FindById(db.rooms, id)
    ensures r.Ok? ==> db.beds == old(db.beds) + [Bed(old(db.nextId), Some(BedVague), id)] && db.nextId == old(db.nextId) + 1
  {
    r := FindById(db.rooms, id);
    if r.Ok? {
      db.beds := db.beds + [Bed(db.nextId, Some(BedVague), id)];
      db.nextId := db.nextId + 1;
    }
  }

  /** A new bed adds one bed to its room and leaves every other room's beds as they were. */
  lemma AddedBedCounts(beds: seq<Bed>, b: Bed, roomId: nat)
    ensures BedsOfRoom(beds + [b], roomId) == BedsOfRoom(beds, roomId) + if b.roomId == roomId then [b] else []
    ensures |BedsOfRoom(beds + [b], roomId)| == |BedsOfRoom(beds, roomId)| + if b.roomId == roomId then 1 else 0
  {
    var p := (x: Bed) => x.roomId == roomId;
    Seqs.FilterAppend(beds, [b], p);
    assert [b][1..] == [];
    assert Seqs.Filter([b], p) == if b.roomId == roomId then [b] else [];
  }

  /**
   * The outcome of a successful `removeBed`: the bed at row `j` was a VAGUE
   * bed of the room; it is gone from the bed table, and every entry of it is
   * gone from the bed ledger.
   */
  predicate RemovedVagueBed(beds: seq<Bed>, occs: seq<BedOccupation>, beds': seq<Bed>, occs': seq<BedOccupation>,
                            roomId: nat, j: nat)
  {
    j < |beds| && beds[j].roomId == roomId && beds[j].status == Some(BedVague)
    && beds' == beds[..j] + beds[j + 1..]
    && occs' == Seqs.Filter(occs, (o: BedOccupation) => o.bedId != beds[j].id)
  }

  /**
   * `removeBed`: `NotFound` for a missing room; `IllegalState` when the room
   * has no bed, or no VAGUE bed; otherwise one VAGUE bed of the room and all
   * its entries are deleted. The room's beds are a hash set, so which VAGUE
   * bed goes is not fixed; this model removes the first in table order.
   */
  method RemoveBed(db: Hostel.Database, roomId: nat) returns (r: Result<Room>)
    modifies db`beds, db`bedOccupations
    ensures r == Err(NotFound) <==> FindById(db.rooms, roomId).Err?
    ensures r == Err(IllegalState) <==>
      FindById(db.rooms, roomId).Ok? && forall b :: b in BedsOfRoom(old(db.beds), roomId) ==> b.status != Some(BedVague)
    ensures r.Err? ==> r.error in {NotFound, IllegalState} && db.beds == old(db.beds) && db.bedOccupations == old(db.bedOccupations)
    ensures r.Ok? ==> r == FindById(db.rooms, roomId)
    ensures r.Ok? ==>
      exists j :: RemovedVagueBed(old(db.beds), old(db.bedOccupations), db.beds, db.bedOccupations, roomId, j)
  {
    r := FindById(db.rooms, roomId);
    if r.Err? {
      return;
    }
    var mine := BedsOfRoom(db.beds, roomId);
    if mine == [] {
      r := Err(IllegalState);
      return;
    }
    var p := (b: Bed) => b.roomId == roomId && b.status == Some(BedVague);
    var first := Seqs.FirstIndex(db.beds, p);
    if first.None? {
      forall b | b in mine ensures b.status != Some(BedVague) {
        var i :| 0 <= i < |db.beds| && db.beds[i] == b;
        assert !p(db.beds[i]);
      }
      r := Err(IllegalState);
      return;
    }
    var j := first.value;
    var bed := db.beds[j];
    assert bed in mine;
    db.beds := db.beds[..j] + db.beds[j + 1..];
    db.bedOccupations := Seqs.Filter(db.bedOccupations, (o: BedOccupation) => o.bedId != bed.id);
    assert RemovedVagueBed(old(db.beds), old(db.bedOccupations), db.beds, db.bedOccupations, roomId, j);
  }

  /** Removing a bed of the room leaves it one bed fewer; no entry of that bed is left. */
  lemma RemovedBedCounts(beds: seq<Bed>, occs: seq<BedOccupation>, beds': seq<Bed>, occs': seq<BedOccupation>,
                         roomId: nat, j: nat)
    requires RemovedVagueBed(beds, occs, beds', occs', roomId, j)
    ensures |BedsOfRoom(beds', roomId)| == |BedsOfRoom(beds, roomId)| - 1
    ensures forall o :: o in occs' <==> o in occs && o.bedId != beds[j].id
  {
    var p := (x: Bed) => x.roomId == roomId;
    assert beds == beds[..j] + ([beds[j]] + beds[j + 1..]);
    Seqs.FilterAppend(beds[..j], [beds[j]] + beds[j + 1..], p);
    Seqs.FilterAppend([beds[j]], beds[j + 1..], p);
    Seqs.FilterAppend(beds[..j], beds[j + 1..], p);
    assert [beds[j]][1..] == [];
  }

  /**
   * `updateData`: every field set in `patch` overwrites the room's, every
   * field left unset keeps the room's value; the id never changes.
   */
  function UpdateData(entity: Room, patch: Room): (r: Room)
    ensures r.id == entity.id
    ensures patch.number.Some? ==> r.number == patch.number
    ensures patch.number.None? ==> r.number == entity.number
    ensures patch.status.Some? ==> r.status == patch.status
    ensures patch.status.None? ==> r.status == entity.status
    ensures patch.roomType.Some? ==> r.roomType == patch.roomType
    ensures patch.roomType.None? ==> r.roomType == entity.roomType
    ensures patch.price.Some? ==> r.price == patch.price
    ensures patch.price.None? ==> r.price == entity.price
  {
    var e := if patch.number.Some? then entity.(number := patch.number) else entity;
    var e := if patch.status.Some? then e.(status := patch.status) else e;
    var e := if patch.roomType.Some? then e.(roomType := patch.roomType) else e;
    if patch.price.Some? then e.(price := patch.price) else e
  }

  /** Applying the same update twice is applying it once; an empty update changes nothing. */
  lemma UpdateDataIdempotent(entity: Room, patch: Room)
    ensures UpdateData(UpdateData(entity, patch), patch) == UpdateData(entity, patch)
    ensures patch.number.None? && patch.status.None? && patch.roomType.None? && patch.price.None? ==>
      UpdateData(entity, patch) == entity
  {
  }

  /** `update`: the room with that id patched by `updateData`; `NotFound` when there is none. */
  method Update(db: Hostel.Database, id: nat, patch: Room) returns (r: Result<Room>)
    modifies db`rooms
    ensures r.Err? <==> FindById(old(db.rooms), id).Err?
    ensures r.Err? ==> r.error == NotFound && db.rooms == old(db.rooms)
    ensures r.Ok? ==>
      exists k :: 0 <= k < |old(db.rooms)| && old(db.rooms)[k].id == id &&
        r.value == UpdateData(old(db.rooms)[k], patch) && db.rooms == old(db.rooms)[k := r.value]
  {
    var k := Hostel.RoomById(db.rooms, id);
    if k.Err? {
      r := Err(NotFound);
      return;
    }
    var entity := UpdateData(db.rooms[k.value], patch);
    db.rooms := db.rooms[k.value := entity];
    r := Ok(entity);
  }
}
