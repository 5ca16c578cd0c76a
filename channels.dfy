/**
 * The channel-manager records: an Airbnb or Booking.com connection
 * (`AirbnbSync`, `BookingSync`) and the reservations imported from its feed
 * (`AirbnbReservation`, `BookingReservation`), with the repository queries
 * the importers and controllers use. A `ChannelStore` holds the four tables.
 */
module Channels {
  import opened Wrappers
  import Identity
  import Seqs
  import Rooms
  import Hostel

  /** Which way a connection carries the calendar. */
  datatype SyncDirection = IMPORT_ONLY | EXPORT_ONLY | BIDIRECTIONAL

  /**
   * An Airbnb connection. `roomId` is the linked room (a many-to-one
   * reference); `roomNumber` is the room number typed in when the
   * connection was made. Timestamps are opaque clock readings.
   */
  datatype AirbnbSync = AirbnbSync(
    id: Option<nat>,
    icalUrl: Option<string>,
    exportIcalUrl: Option<string>,
    propertyId: Option<string>,
    propertyName: Option<string>,
    calendarName: Option<string>,
    roomNumber: Option<int>,
    roomId: Option<nat>,
    syncDirection: Option<SyncDirection>,
    lastSync: Option<nat>,
    isActive: Option<bool>,
    createdAt: Option<nat>)

  /** A Booking.com connection: the Airbnb fields without the linked room. */
  datatype BookingSync = BookingSync(
    id: Option<nat>,
    icalUrl: Option<string>,
    exportIcalUrl: Option<string>,
    propertyId: Option<string>,
    propertyName: Option<string>,
    calendarName: Option<string>,
    roomNumber: Option<int>,
    syncDirection: Option<SyncDirection>,
    lastSync: Option<nat>,
    isActive: Option<bool>,
    createdAt: Option<nat>)

  /** An event imported from an Airbnb feed, and the internal reservation made from it. */
  datatype AirbnbReservation = AirbnbReservation(
    id: Option<nat>,
    airbnbReservationId: Option<string>,
    guestName: Option<string>,
    checkIn: Option<int>,
    checkOut: Option<int>,
    status: Option<string>,
    lastModified: Option<nat>,
    isProcessed: Option<bool>,
    syncId: Option<nat>,
    reserveId: Option<nat>)

  /** An event imported from a Booking.com feed, and the internal reservation made from it. */
  datatype BookingReservation = BookingReservation(
    id: Option<nat>,
    bookingReservationId: Option<string>,
    guestName: Option<string>,
    checkIn: Option<int>,
    checkOut: Option<int>,
    status: Option<string>,
    lastModified: Option<nat>,
    isProcessed: Option<bool>,
    syncId: Option<nat>,
    reserveId: Option<nat>)

  /** `new AirbnbSync()` at clock reading `now`: both directions, active, every other field unset. */
  function NewAirbnbSync(now: nat): (s: AirbnbSync)
    ensures s.syncDirection == Some(BIDIRECTIONAL) && s.isActive == Some(true) && s.createdAt == Some(now)
    ensures s.id.None? && s.icalUrl.None? && s.exportIcalUrl.None? && s.propertyId.None?
    ensures s.propertyName.None? && s.calendarName.None? && s.roomNumber.None? && s.roomId.None?
    ensures s.lastSync.None?
  {
    AirbnbSync(None, None, None, None, None, None, None, None, Some(BIDIRECTIONAL), None, Some(true), Some(now))
  }

  /** `new AirbnbSync(icalUrl, propertyId, propertyName, roomNumber)`: the defaults plus the four given fields. */
  function AirbnbSyncOf(icalUrl: Option<string>, propertyId: Option<string>, propertyName: Option<string>,
                        roomNumber: Option<int>, now: nat): (s: AirbnbSync)
    ensures s.icalUrl == icalUrl && s.propertyId == propertyId && s.propertyName == propertyName
    ensures s.roomNumber == roomNumber
    ensures s == NewAirbnbSync(now).(icalUrl := icalUrl, propertyId := propertyId,
                                     propertyName := propertyName, roomNumber := roomNumber)
  {
    AirbnbSync(None, icalUrl, None, propertyId, propertyName, None, roomNumber, None,
               Some(BIDIRECTIONAL), None, Some(true), Some(now))
  }

  /** `new BookingSync()` at clock reading `now`: both directions, active, every other field unset. */
  function NewBookingSync(now: nat): (s: BookingSync)
    ensures s.syncDirection == Some(BIDIRECTIONAL) && s.isActive == Some(true) && s.createdAt == Some(now)
    ensures s.id.None? && s.icalUrl.None? && s.exportIcalUrl.None? && s.propertyId.None?
    ensures s.propertyName.None? && s.calendarName.None? && s.roomNumber.None? && s.lastSync.None?
  {
    BookingSync(None, None, None, None, None, None, None, Some(BIDIRECTIONAL), None, Some(true), Some(now))
  }

  /** An id as the `Long` the generated `equals` compares. */
  function AsLong(id: Option<nat>): (r: Option<int>)
    ensures r.Some? <==> id.Some?
    ensures id.Some? ==> r.value == id.value
  {
    match id
    case None => None
    case Some(v) => Some(v)
  }

  /** `AirbnbSync.equals`: equal ids, two unsaved connections counting as equal. */
  function AirbnbSyncEquals(a: AirbnbSync, b: AirbnbSync): (r: bool)
    ensures r <==> a.id == b.id
  {
    Identity.IdEquals(AsLong(a.id), AsLong(b.id))
  }

  /** `AirbnbSync.hashCode`. */
  function AirbnbSyncHash(s: AirbnbSync): (h: int)
    requires s.id.Some? ==> Identity.IsLong(s.id.value)
    ensures Identity.IsInt(h)
    ensures s.id.None? ==> h == 31
  {
    Identity.HashCode(AsLong(s.id))
  }

  /** Equal connections hash alike, and equality ignores every field but the id. */
  lemma AirbnbSyncEqualsConsistent(a: AirbnbSync, b: AirbnbSync)
    requires a.id.Some? ==> Identity.IsLong(a.id.value)
    requires b.id.Some? ==> Identity.IsLong(b.id.value)
    ensures AirbnbSyncEquals(a, b) ==> AirbnbSyncHash(a) == AirbnbSyncHash(b)
    ensures AirbnbSyncEquals(a, b) <==> AirbnbSyncEquals(a.(propertyId := b.propertyId, roomId := b.roomId), b)
  {
    Identity.HashCodeConsistent(AsLong(a.id), AsLong(b.id));
  }

  /**
   * `getAssociatedRoomNumber()`: the linked room's own number when a room
   * is linked, otherwise the stored room number. A link to a room that is
   * not in the table is a failed load.
   */
  function AssociatedRoomNumber(s: AirbnbSync, rooms: seq<Rooms.Room>): (r: Result<Option<int>>)
    ensures s.roomId.None? ==> r == Ok(s.roomNumber)
    ensures s.roomId.Some? ==>
      (r.Ok? <==> exists i :: 0 <= i < |rooms| && rooms[i].id == s.roomId.value)
    ensures s.roomId.Some? && r.Ok? ==>
      exists i :: 0 <= i < |rooms| && rooms[i].id == s.roomId.value && r.value == rooms[i].number
  {
    match s.roomId
    case None => Ok(s.roomNumber)
    case Some(id) =>
      match Hostel.RoomById(rooms, id)
      case Err(_) => Err(Runtime)
      case Ok(i) => Ok(rooms[i].number)
  }

  /** A linked room decides the number even when the stored number says otherwise. */
  lemma LinkedRoomWins(s: AirbnbSync, rooms: seq<Rooms.Room>, i: nat)
    requires i < |rooms| && s.roomId == Some(rooms[i].id)
    requires forall j :: 0 <= j < |rooms| && j != i ==> rooms[j].id != rooms[i].id
    ensures AssociatedRoomNumber(s, rooms) == Ok(rooms[i].number)
  {
  }

  /** The query condition `propertyId = id` (`IS NULL` for a null id). */
  function AirbnbPropertyIs(propertyId: Option<string>): AirbnbSync -> bool
  {
    (s: AirbnbSync) => s.propertyId == propertyId
  }

  /** The query condition `propertyId = id` (`IS NULL` for a null id). */
  function BookingPropertyIs(propertyId: Option<string>): BookingSync -> bool
  {
    (s: BookingSync) => s.propertyId == propertyId
  }

  /** The query condition `isActive = true`. */
  predicate IsActiveAirbnb(s: AirbnbSync) { s.isActive == Some(true) }

  /** The query condition `isActive = true`. */
  predicate IsActiveBooking(s: BookingSync) { s.isActive == Some(true) }

  /** `findByPropertyId`: the one connection with that property id (a null id matches unset ones); two or more is a failure. */
  function AirbnbSyncByPropertyId(syncs: seq<AirbnbSync>, propertyId: Option<string>): (r: Result<Option<nat>>)
    ensures r.Ok? && r.value.Some? ==> r.value.value < |syncs| && syncs[r.value.value].propertyId == propertyId
    ensures r == Ok(None) <==> forall i :: 0 <= i < |syncs| ==> syncs[i].propertyId != propertyId
    ensures r.Err? ==> r.error == Runtime
  {
    Seqs.SingleResult(syncs, AirbnbPropertyIs(propertyId))
  }

  /** `findByPropertyId` on the Booking.com connections. */
  function BookingSyncByPropertyId(syncs: seq<BookingSync>, propertyId: Option<string>): (r: Result<Option<nat>>)
    ensures r.Ok? && r.value.Some? ==> r.value.value < |syncs| && syncs[r.value.value].propertyId == propertyId
    ensures r == Ok(None) <==> forall i :: 0 <= i < |syncs| ==> syncs[i].propertyId != propertyId
    ensures r.Err? ==> r.error == Runtime
  {
    Seqs.SingleResult(syncs, BookingPropertyIs(propertyId))
  }

  /** `findByIsActiveTrue`: the active Airbnb connections, in table order. */
  function ActiveAirbnbSyncs(syncs: seq<AirbnbSync>): (r: seq<AirbnbSync>)
    ensures forall s :: s in r <==> s in syncs && s.isActive == Some(true)
  {
    Seqs.Filter(syncs, IsActiveAirbnb)
  }

  /** `findByIsActiveTrue`: the active Booking.com connections, in table order. */
  function ActiveBookingSyncs(syncs: seq<BookingSync>): (r: seq<BookingSync>)
    ensures forall s :: s in r <==> s in syncs && s.isActive == Some(true)
  {
    Seqs.Filter(syncs, IsActiveBooking)
  }

  /** The query condition `airbnbReservationId = uid` (`IS NULL` for a null uid). */
  function AirbnbUidIs(uid: Option<string>): AirbnbReservation -> bool
  {
    (x: AirbnbReservation) => x.airbnbReservationId == uid
  }

  /** The query condition `bookingReservationId = uid` (`IS NULL` for a null uid). */
  function BookingUidIs(uid: Option<string>): BookingReservation -> bool
  {
    (x: BookingReservation) => x.bookingReservationId == uid
  }

  /** `findByAirbnbReservationId`: the one stored event with that UID (a null UID matches stored null UIDs). */
  function AirbnbReservationByUid(rs: seq<AirbnbReservation>, uid: Option<string>): (r: Result<Option<nat>>)
    ensures r.Ok? && r.value.Some? ==> r.value.value < |rs| && rs[r.value.value].airbnbReservationId == uid
    ensures r == Ok(None) <==> forall i :: 0 <= i < |rs| ==> rs[i].airbnbReservationId != uid
    ensures r.Err? ==> r.error == Runtime
  {
    Seqs.SingleResult(rs, AirbnbUidIs(uid))
  }

  /** `findByBookingReservationId`: the one stored event with that UID (a null UID matches stored null UIDs). */
  function BookingReservationByUid(rs: seq<BookingReservation>, uid: Option<string>): (r: Result<Option<nat>>)
    ensures r.Ok? && r.value.Some? ==> r.value.value < |rs| && rs[r.value.value].bookingReservationId == uid
    ensures r == Ok(None) <==> forall i :: 0 <= i < |rs| ==> rs[i].bookingReservationId != uid
    ensures r.Err? ==> r.error == Runtime
  {
    Seqs.SingleResult(rs, BookingUidIs(uid))
  }

  /** No two stored Airbnb events share a UID. */
  predicate DistinctAirbnbUids(rs: seq<AirbnbReservation>)
  {
    forall i, j :: 0 <= i < j < |rs| ==> rs[i].airbnbReservationId != rs[j].airbnbReservationId
  }

  /** No two stored Booking.com events share a UID. */
  predicate DistinctBookingUids(rs: seq<BookingReservation>)
  {
    forall i, j :: 0 <= i < j < |rs| ==> rs[i].bookingReservationId != rs[j].bookingReservationId
  }

  /** A stored event carries the UID. */
  predicate HoldsAirbnbUid(rs: seq<AirbnbReservation>, uid: Option<string>)
  {
    exists j :: 0 <= j < |rs| && rs[j].airbnbReservationId == uid
  }

  /** A stored event carries the UID. */
  predicate HoldsBookingUid(rs: seq<BookingReservation>, uid: Option<string>)
  {
    exists j :: 0 <= j < |rs| && rs[j].bookingReservationId == uid
  }

  /** While the stored UIDs are distinct the lookup never fails, and it finds every stored UID. */
  lemma AirbnbUidLookupSucceeds(rs: seq<AirbnbReservation>, uid: Option<string>)
    requires DistinctAirbnbUids(rs)
    ensures AirbnbReservationByUid(rs, uid).Ok?
    ensures AirbnbReservationByUid(rs, uid).value.Some? <==> HoldsAirbnbUid(rs, uid)
  {
    Seqs.CountAtMostOne(rs, AirbnbUidIs(uid));
  }

  /** While the stored UIDs are distinct the lookup never fails, and it finds every stored UID. */
  lemma BookingUidLookupSucceeds(rs: seq<BookingReservation>, uid: Option<string>)
    requires DistinctBookingUids(rs)
    ensures BookingReservationByUid(rs, uid).Ok?
    ensures BookingReservationByUid(rs, uid).value.Some? <==> HoldsBookingUid(rs, uid)
  {
    Seqs.CountAtMostOne(rs, BookingUidIs(uid));
  }

  /**
   * The reservations an imported event still points at through its
   * `reserve_id` column. Neither import ever deletes or unlinks such a row,
   * so the database refuses to delete any of these reservations.
   */
  function LinkedReserveIds(airbnbRows: seq<AirbnbReservation>, bookingRows: seq<BookingReservation>): (r: set<nat>)
    ensures forall i :: 0 <= i < |airbnbRows| && airbnbRows[i].reserveId.Some? ==> airbnbRows[i].reserveId.value in r
    ensures forall i :: 0 <= i < |bookingRows| && bookingRows[i].reserveId.Some? ==> bookingRows[i].reserveId.value in r
    ensures forall id :: id in r ==>
      (exists i :: 0 <= i < |airbnbRows| && airbnbRows[i].reserveId == Some(id))
      || (exists i :: 0 <= i < |bookingRows| && bookingRows[i].reserveId == Some(id))
  {
    (set i | 0 <= i < |airbnbRows| && airbnbRows[i].reserveId.Some? :: airbnbRows[i].reserveId.value)
    + (set i | 0 <= i < |bookingRows| && bookingRows[i].reserveId.Some? :: bookingRows[i].reserveId.value)
  }

  /** The channel tables, each with its generated ids. */
  class ChannelStore {
    var airbnbSyncs: seq<AirbnbSync>
    var bookingSyncs: seq<BookingSync>
    var airbnbReservations: seq<AirbnbReservation>
    var bookingReservations: seq<BookingReservation>
    var nextId: nat

    constructor()
      ensures airbnbSyncs == [] && bookingSyncs == [] && airbnbReservations == [] && bookingReservations == []
      ensures nextId == 1
    {
      airbnbSyncs, bookingSyncs := [], [];
      airbnbReservations, bookingReservations := [], [];
      nextId := 1;
    }
  }

  /** The feed a connection's URL fetches (`fetch` maps a URL to its content, `None` on failure); no URL fetches nothing. */
  function FetchFeed(url: Option<string>, fetch: string -> Option<string>): (r: Option<string>)
    ensures url.None? ==> r.None?
  {
    if url.Some? then fetch(url.value) else None
  }
}
