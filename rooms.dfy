/** Rooms and the beds inside them. */
module Rooms {
  import opened Wrappers
  import opened Enums
  import Identity
  import Seqs

  /** A room; money is in cents. `None` stands for a null column. */
  datatype Room = Room(
    id: nat,
    number: Option<int>,
    status: Option<RoomStatus>,
    roomType: Option<RoomType>,
    price: Option<int>)

  /** A bed; it belongs to the room with id `roomId`. */
  datatype Bed = Bed(id: nat, status: Option<BedStatus>, roomId: nat)

  predicate IsExclusiveRoom(r: Room) { r.roomType == Some(EXCLUSIVE) }
  predicate IsSharedRoom(r: Room) { r.roomType == Some(SHARED) }
  predicate IsSuite(r: Room) { r.roomType == Some(SUITE) }
  predicate IsStudio(r: Room) { r.roomType == Some(STUDIO) }
  predicate IsSharedBathroom(r: Room) { r.roomType == Some(ROOM_SHARED_BATHROOM) }

  /** The number of type predicates that hold of a room. */
  function TypePredicatesHolding(r: Room): nat
  {
    (if IsExclusiveRoom(r) then 1 else 0) + (if IsSharedRoom(r) then 1 else 0)
    + (if IsSuite(r) then 1 else 0) + (if IsStudio(r) then 1 else 0)
    + (if IsSharedBathroom(r) then 1 else 0)
  }

  /** The type predicates partition the typed rooms: exactly one holds when the type is set, none otherwise. */
  lemma ExactlyOneTypePredicate(r: Room)
    ensures r.roomType.Some? ==> TypePredicatesHolding(r) == 1
    ensures r.roomType.None? ==> TypePredicatesHolding(r) == 0
  {
    match r.roomType
    case None =>
    case Some(t) =>
      match t
      case SHARED =>
      case EXCLUSIVE =>
      case SUITE =>
      case STUDIO =>
      case ROOM_SHARED_BATHROOM =>
  }

  /** The whole-room types: every type except SHARED. */
  function IsAnyExclusiveType(r: Room): (b: bool)
    ensures b <==> r.roomType.Some? && r.roomType != Some(SHARED)
    ensures b ==> !IsSharedRoom(r)
  {
    var b := IsExclusiveRoom(r) || IsSuite(r) || IsStudio(r) || IsSharedBathroom(r);
    assert r.roomType.Some? ==>
      (r.roomType.value.SHARED? || r.roomType.value.EXCLUSIVE? || r.roomType.value.SUITE?
       || r.roomType.value.STUDIO? || r.roomType.value.ROOM_SHARED_BATHROOM?);
    b
  }

  /** The label of a room type; a room without a type fails (a switch on null). */
  function RoomTypeDescription(r: Room): (d: Result<string>)
    ensures d.Err? <==> r.roomType.None?
    ensures d.Err? ==> d.error == Runtime
    ensures d.Ok? ==> |d.value| > 0
  {
    match r.roomType
    case None => Err(Runtime)
    case Some(t) =>
      Ok(match t
         case SHARED => "QUARTO COMPARTILHADO"
         case EXCLUSIVE => "QUARTO EXCLUSIVO"
         case SUITE => "SUÍTE"
         case STUDIO => "STÚDIO"
         case ROOM_SHARED_BATHROOM => "QUARTO COM BANHEIRO COMPARTILHADO")
  }

  /** Distinct room types have distinct labels. */
  lemma DescriptionsDistinct(a: Room, b: Room)
    requires a.roomType.Some? && b.roomType.Some?
    ensures RoomTypeDescription(a) == RoomTypeDescription(b) <==> a.roomType == b.roomType
  {
  }

  /** `Room.equals`: by id only. */
  function Equals(a: Room, b: Room): (r: bool)
    ensures r <==> a.id == b.id
    ensures Identity.IsLong(a.id) && Identity.IsLong(b.id) && r ==>
      Identity.HashCode(Some(a.id)) == Identity.HashCode(Some(b.id))
  {
    Identity.IdEquals(Some(a.id), Some(b.id))
  }

  /** `Bed.equals`: by id only. */
  function BedEquals(a: Bed, b: Bed): (r: bool)
    ensures r <==> a.id == b.id
  {
    Identity.IdEquals(Some(a.id), Some(b.id))
  }

  /** The beds of a room, in repository order (`room.getBeds()`). */
  function BedsOfRoom(beds: seq<Bed>, roomId: nat): (r: seq<Bed>)
    ensures forall b :: b in r <==> b in beds && b.roomId == roomId
  {
    Seqs.Filter(beds, (b: Bed) => b.roomId == roomId)
  }
}
