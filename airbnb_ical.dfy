/**
 * The Airbnb importer: a connection's iCalendar feed cut into events, each
 * real booking turned into an `AirbnbReservation` row, and each new row
 * turned into an internal reservation through the hostel's Airbnb booking
 * path. The feed text and the clock readings are parameters.
 */
module AirbnbICal {
  import opened Wrappers
  import opened Text
  import opened Channels
  import ICal
  import Calendar
  import Rooms
  import Reserves
  import Occupations
  import Hostel
  import ReserveService

  const GuestNamePrefix: string := "Airbnb Hóspede - "

  // ------------------------------------------------------------ classifying a summary

  /**
   * The block markers, on the lower-cased summary. The source also tests
   * "(not available)", which already contains "not available".
   */
  predicate Blocked(lower: string)
  {
    Contains(lower, "blocked") || Contains(lower, "unavailable") || Contains(lower, "bloqueado")
    || Contains(lower, "indisponível") || Contains(lower, "not available")
  }

  /**
   * The booking markers, on the lower-cased summary. The source also tests
   * "reservation", which already contains "reserva".
   */
  predicate BookingWord(lower: string)
  {
    Contains(lower, "reserva") || Contains(lower, "reserved")
  }

  /**
   * `isRealReservation(summary)`: no summary or a block marker means a
   * block; otherwise a booking marker or a word after a space (the guest
   * name test) means a booking.
   */
  function IsRealReservation(summary: Option<string>): (r: bool)
    ensures summary.None? ==> !r
    ensures summary.Some? ==>
      (r <==> !Blocked(ToLower(summary.value))
              && (BookingWord(ToLower(summary.value)) || ICal.WordAfterSpace(summary.value)))
  {
    match summary
    case None => false
    case Some(s) =>
      var lower := ToLower(s);
      assert "(not available)"[1..14] == "not available";
      ContainsPart(lower, "(not available)", 1, 14);
      assert "reservation"[0..7] == "reserva";
      ContainsPart(lower, "reservation", 0, 7);
      if Contains(lower, "blocked") || Contains(lower, "unavailable") || Contains(lower, "bloqueado")
         || Contains(lower, "indisponível") || Contains(lower, "not available")
         || Contains(lower, "(not available)")
      then false
      else Contains(lower, "reservation") || Contains(lower, "reserva") || Contains(lower, "reserved")
           || ICal.ContainsGuestName(s)
  }

  /** Every string contains itself. */
  lemma ContainsSelf(s: string)
    ensures Contains(s, s)
  {
    assert OccursAt(s, s, 0);
  }

  /** Lower-casing a lower-cased character changes nothing. */
  lemma LowerCharIdempotent(c: char)
    ensures LowerChar(LowerChar(c)) == LowerChar(c)
  {
  }

  /** The classification reads the summary only up to case. */
  lemma IsRealIgnoresCase(s: string)
    ensures IsRealReservation(Some(ToLower(s))) == IsRealReservation(Some(s))
  {
    var lower := ToLower(s);
    forall i | 0 <= i < |s|
      ensures ToLower(lower)[i] == lower[i]
    {
      LowerCharIdempotent(s[i]);
    }
    assert ToLower(lower) == lower;
    ICal.WordAfterSpaceIgnoresCase(s);
  }

  /** Airbnb's own summary for a booking, "Reserved", counts as a booking. */
  lemma ReservedIsReal()
    ensures IsRealReservation(Some("Reserved"))
  {
    var lower := "reserved";
    assert ToLower("Reserved") == lower;
    MissingLetter(lower, "blocked", 0);
    MissingLetter(lower, "unavailable", 0);
    MissingLetter(lower, "bloqueado", 0);
    MissingLetter(lower, "indisponível", 0);
    MissingLetter(lower, "not available", 0);
    ContainsSelf(lower);
  }

  /** Airbnb's own summary for a block, "Airbnb (Not available)", counts as a block. */
  lemma NotAvailableIsBlock()
    ensures !IsRealReservation(Some("Airbnb (Not available)"))
  {
    var lower := "airbnb (not available)";
    assert ToLower("Airbnb (Not available)") == lower;
    assert OccursAt(lower, "not available", 8);
  }

  // ------------------------------------------------------------ the generated guest name

  /**
   * `generateUniqueAirbnbGuestName`: "Airbnb Hóspede - " and the upper-cased
   * UID, cut to its first and last eight characters joined by a hyphen
   * when it has sixteen or more. A missing UID is a failure.
   */
  function GenerateUniqueAirbnbGuestName(uid: Option<string>): (r: Result<string>)
    ensures r.Err? <==> uid.None?
    ensures r.Err? ==> r.error == Runtime
    ensures r.Ok? ==> StartsWith(r.value, GuestNamePrefix)
    ensures r.Ok? ==> |r.value| == |GuestNamePrefix| + if |uid.value| >= 16 then 17 else |uid.value|
  {
    match uid
    case None => Err(Runtime)
    case Some(id) =>
      var suffix := if |id| >= 16 then id[..8] + "-" + id[|id| - 8..] else id;
      var name := GuestNamePrefix + ToUpper(suffix);
      assert name[..|GuestNamePrefix|] == GuestNamePrefix;
      Ok(name)
  }

  /**
   * The name is not unique: two long UIDs that agree, up to case, on their
   * first and last eight characters give the same name.
   */
  lemma LongUidsShareName(a: string, b: string)
    requires |a| >= 16 && |b| >= 16
    requires ToUpper(a[..8]) == ToUpper(b[..8]) && ToUpper(a[|a| - 8..]) == ToUpper(b[|b| - 8..])
    ensures GenerateUniqueAirbnbGuestName(Some(a)) == GenerateUniqueAirbnbGuestName(Some(b))
  {
    var sa := a[..8] + "-" + a[|a| - 8..];
    var sb := b[..8] + "-" + b[|b| - 8..];
    forall i | 0 <= i < 17
      ensures ToUpper(sa)[i] == ToUpper(sb)[i]
    {
      if i < 8 {
        assert ToUpper(sa)[i] == ToUpper(a[..8])[i] && ToUpper(sb)[i] == ToUpper(b[..8])[i];
      } else if 8 < i {
        assert ToUpper(sa)[i] == ToUpper(a[|a| - 8..])[i - 9] && ToUpper(sb)[i] == ToUpper(b[|b| - 8..])[i - 9];
      }
    }
    assert ToUpper(sa) == ToUpper(sb);
  }

  /** A short UID is kept whole, so its name gives it back up to case. */
  lemma ShortUidNamesDiffer(a: string, b: string)
    requires |a| < 16 && |b| < 16
    requires GenerateUniqueAirbnbGuestName(Some(a)) == GenerateUniqueAirbnbGuestName(Some(b))
    ensures ToUpper(a) == ToUpper(b)
  {
    var na := GuestNamePrefix + ToUpper(a);
    var nb := GuestNamePrefix + ToUpper(b);
    assert na == nb;
    assert ToUpper(a) == na[|GuestNamePrefix|..];
    assert ToUpper(b) == nb[|GuestNamePrefix|..];
  }

  // ------------------------------------------------------------ parsing a feed

  /** A row as the parser produces it: unsaved, confirmed, not yet processed, named after its UID. */
  predicate Imported(x: AirbnbReservation, syncId: Option<nat>, now: nat)
  {
    x.id.None? && x.reserveId.None? && x.syncId == syncId
    && x.status == Some(ICal.Confirmed) && x.isProcessed == Some(false) && x.lastModified == Some(now)
    && x.airbnbReservationId.Some? && x.guestName.Some?
    && GenerateUniqueAirbnbGuestName(x.airbnbReservationId) == Ok(x.guestName.value)
    && (x.checkIn.Some? <==> x.checkOut.Some?)
  }

  /**
   * `parseEvent`: the UID, the stay dates when both are given, and the
   * summary. A block, a missing UID or an unreadable date gives no row.
   * `now` is the clock reading stored as the last modification.
   */
  function ParseEvent(chunk: string, syncId: Option<nat>, now: nat): (r: Option<AirbnbReservation>)
    ensures r.Some? <==>
      IsRealReservation(ICal.ExtractProperty(chunk, ICal.SummaryProperty))
      && ICal.ExtractProperty(chunk, ICal.UidProperty).Some? && ICal.DatesReadable(chunk)
    ensures r.Some? ==> Imported(r.value, syncId, now)
    ensures r.Some? ==> r.value.airbnbReservationId == ICal.ExtractProperty(chunk, ICal.UidProperty)
    ensures r.Some? ==>
      (r.value.checkIn.Some? <==>
         ICal.ExtractProperty(chunk, ICal.DtStartProperty).Some? && ICal.ExtractProperty(chunk, ICal.DtEndProperty).Some?)
    ensures r.Some? && r.value.checkIn.Some? ==>
      ICal.ParseICalDate(ICal.ExtractProperty(chunk, ICal.DtStartProperty).value) == Ok(r.value.checkIn.value)
      && ICal.ParseICalDate(ICal.ExtractProperty(chunk, ICal.DtEndProperty).value) == Ok(r.value.checkOut.value)
  {
    var uid := ICal.ExtractProperty(chunk, ICal.UidProperty);
    var dtStart := ICal.ExtractProperty(chunk, ICal.DtStartProperty);
    var dtEnd := ICal.ExtractProperty(chunk, ICal.DtEndProperty);
    var checkIn := if dtStart.Some? && dtEnd.Some? then Some(ICal.ParseICalDate(dtStart.value)) else None;
    var checkOut := if dtStart.Some? && dtEnd.Some? then Some(ICal.ParseICalDate(dtEnd.value)) else None;
    if (checkIn.Some? && checkIn.value.Err?) || (checkOut.Some? && checkOut.value.Err?) then None
    else
      var summary := ICal.ExtractProperty(chunk, ICal.SummaryProperty);
      if summary.Some? && IsRealReservation(summary) then
        match GenerateUniqueAirbnbGuestName(uid)
        case Err(_) => None
        case Ok(name) =>
          Some(AirbnbReservation(
            None, uid, Some(name),
            if checkIn.Some? then Some(checkIn.value.value) else None,
            if checkOut.Some? then Some(checkOut.value.value) else None,
            Some(ICal.Confirmed), Some(now), Some(false), syncId, None))
      else None
  }

  /** One piece of the split feed: kept when it closes an event and parses to a row. */
  function ParseChunk(chunk: string, syncId: Option<nat>, now: nat): Option<AirbnbReservation>
  {
    if Contains(chunk, ICal.EndEvent) then ParseEvent(chunk, syncId, now) else None
  }

  /** The rows parsed from the pieces of a feed, in feed order. */
  function ParsedEvents(chunks: seq<string>, syncId: Option<nat>, now: nat): (r: seq<AirbnbReservation>)
    ensures |r| <= |chunks|
    ensures forall k :: 0 <= k < |r| ==> Imported(r[k], syncId, now)
  {
    if chunks == [] then []
    else
      var init := ParsedEvents(chunks[..|chunks| - 1], syncId, now);
      match ParseChunk(chunks[|chunks| - 1], syncId, now)
      case None => init
      case Some(x) => init + [x]
  }

  /** One more feed piece parsed: its row, if any, follows the rows of the pieces before it. */
  lemma ParsedEventsStep(chunks: seq<string>, i: nat, syncId: Option<nat>, now: nat)
    requires i < |chunks|
    ensures ParsedEvents(chunks[..i + 1], syncId, now)
            == ParsedEvents(chunks[..i], syncId, now)
               + match ParseChunk(chunks[i], syncId, now) case None => [] case Some(x) => [x]
  {
    assert chunks[..i + 1][..i] == chunks[..i];
  }

  /** Parsing a feed piece by piece is parsing its parts one after the other. */
  lemma {:induction false} ParsedEventsAppend(a: seq<string>, b: seq<string>, syncId: Option<nat>, now: nat)
    ensures ParsedEvents(a + b, syncId, now) == ParsedEvents(a, syncId, now) + ParsedEvents(b, syncId, now)
    decreases |b|
  {
    if b != [] {
      var b' := b[..|b| - 1];
      assert (a + b)[..|a + b| - 1] == a + b';
      assert (a + b)[|a + b| - 1] == b[|b| - 1];
      ParsedEventsAppend(a, b', syncId, now);
    } else {
      assert a + b == a;
    }
  }

  /** A feed without any "BEGIN:VEVENT" is one piece, parsed whole when it holds "END:VEVENT". */
  lemma FeedWithoutBegin(content: string, syncId: Option<nat>, now: nat)
    requires !Contains(content, ICal.BeginEvent)
    ensures ParsedEvents(ICal.EventChunks(content), syncId, now)
            == match ParseChunk(content, syncId, now) case None => [] case Some(x) => [x]
  {
    assert ICal.EventChunks(content) == [content];
    assert [content][..0] == [];
  }

  /**
   * `parseICalContent`: split the feed at "BEGIN:VEVENT" and keep, in
   * order, the rows of the pieces that hold "END:VEVENT" and parse.
   */
  method ParseICalContent(content: string, syncId: Option<nat>, now: nat) returns (rows: seq<AirbnbReservation>)
    ensures rows == ParsedEvents(ICal.EventChunks(content), syncId, now)
    ensures forall k :: 0 <= k < |rows| ==> Imported(rows[k], syncId, now)
  {
    var events := ICal.EventChunks(content);
    rows := [];
    for i := 0 to |events|
      invariant rows == ParsedEvents(events[..i], syncId, now)
    {
      ParsedEventsStep(events, i, syncId, now);
      if Contains(events[i], ICal.EndEvent) {
        var row := ParseEvent(events[i], syncId, now);
        if row.Some? {
          rows := rows + [row.value];
        }
      }
    }
    assert events[..|events|] == events;
  }

  // ------------------------------------------------------------ the internal reservation

  /** `new ReservesionRequest(dates, guestName, roomNumber)`. */
  datatype ReserveRequest = ReserveRequest(dates: set<int>, guestName: string, roomNumber: Option<int>)

  /**
   * The room createInternalReserve books: the linked room's number, else
   * the stored number, else none. Looking the stored number up only logs,
   * except that several rooms with the number make the lookup fail.
   */
  function TargetRoomNumber(sync: AirbnbSync, rooms: seq<Rooms.Room>): (r: Result<Option<int>>)
    ensures r.Err? ==> r.error == Runtime
    ensures r.Ok? ==> r == AssociatedRoomNumber(sync, rooms)
    ensures r.Err? <==>
      AssociatedRoomNumber(sync, rooms).Err?
      || (sync.roomId.None? && sync.roomNumber.Some?
          && Hostel.RoomByNumber(rooms, sync.roomNumber.value) == Err(Runtime))
  {
    match sync.roomId
    case Some(_) => AssociatedRoomNumber(sync, rooms)
    case None =>
      match sync.roomNumber
      case None => Ok(None)
      case Some(n) => if Hostel.RoomByNumber(rooms, n) == Err(Runtime) then Err(Runtime) else Ok(Some(n))
  }

  /** The request createInternalReserve builds, or the failure that comes first. */
  function Request(res: AirbnbReservation, sync: AirbnbSync, rooms: seq<Rooms.Room>): (r: Result<ReserveRequest>)
    ensures r.Err? ==> r.error == Runtime
    ensures r.Ok? <==>
      res.checkIn.Some? && res.checkOut.Some? && TargetRoomNumber(sync, rooms).Ok? && res.airbnbReservationId.Some?
    ensures r.Ok? ==> forall d :: d in r.value.dates <==> res.checkIn.value <= d < res.checkOut.value
    ensures r.Ok? ==> GenerateUniqueAirbnbGuestName(res.airbnbReservationId) == Ok(r.value.guestName)
    ensures r.Ok? ==> AssociatedRoomNumber(sync, rooms) == Ok(r.value.roomNumber)
  {
    if res.checkIn.None? || res.checkOut.None? then Err(Runtime)
    else
      Calendar.SpanMembers(res.checkIn.value, res.checkOut.value);
      match TargetRoomNumber(sync, rooms)
      case Err(_) => Err(Runtime)
      case Ok(room) =>
        match GenerateUniqueAirbnbGuestName(res.airbnbReservationId)
        case Err(_) => Err(Runtime)
        case Ok(name) => Ok(ReserveRequest(Calendar.Span(res.checkIn.value, res.checkOut.value), name, room))
  }

  /** The decision of createInternalReserve against the given tables. */
  function Plan(res: AirbnbReservation, sync: AirbnbSync, guests: seq<Reserves.Guest>, rooms: seq<Rooms.Room>,
                beds: seq<Rooms.Bed>, roomOccs: seq<Occupations.RoomOccupation>, bedOccs: seq<Occupations.BedOccupation>,
                nextId: nat, emailClock: string, rgClock: string): (r: Result<ReserveService.Booking>)
    ensures r.Err? ==> r.error == Runtime
    ensures r.Ok? ==> Request(res, sync, rooms).Ok? && Request(res, sync, rooms).value.roomNumber.Some?
    ensures r.Ok? ==> r.value.room.number == Request(res, sync, rooms).value.roomNumber
    ensures r.Ok? ==> r.value.reserve.reservedDays == Request(res, sync, rooms).value.dates
  {
    match Request(res, sync, rooms)
    case Err(_) => Err(Runtime)
    case Ok(req) =>
      if req.roomNumber.None? then Err(Runtime)
      else ReserveService.PlanReserveForAirbnb(guests, rooms, beds, roomOccs, bedOccs, req.guestName,
                                               req.roomNumber.value, req.dates, nextId, emailClock, rgClock)
  }

  /**
   * Whether a failed createInternalReserve leaves the enclosing transaction
   * rollback-only: the failure came out of a transactional call (the room
   * repository's lookup by number finding several rooms, or
   * createReserveForAirbnb, which is reached once the dates, the room and
   * the name are known, even without a room number) rather than from the
   * service's own code (missing stay dates, a missing UID, a dangling room
   * link).
   */
  predicate MarksRollbackOnly(res: AirbnbReservation, sync: AirbnbSync, rooms: seq<Rooms.Room>,
                              plan: Result<ReserveService.Booking>)
  {
    plan.Err? && res.checkIn.Some? && res.checkOut.Some?
    && ((sync.roomId.None? && sync.roomNumber.Some?
         && Hostel.RoomByNumber(rooms, sync.roomNumber.value) == Err(Runtime))
        || Request(res, sync, rooms).Ok?)
  }

  /**
   * `createInternalReserve`: the dates, the room and the guest name, then
   * createReserveForAirbnb. The name is written into the row before the
   * booking is tried, so it stays even when the booking fails; the row is
   * linked to the new reservation only on success. Every failure reaches
   * the caller as a runtime failure, with the hostel tables untouched;
   * `marked` tells whether it also left the transaction rollback-only.
   */
  method CreateInternalReserve(db: Hostel.Database, res: AirbnbReservation, sync: AirbnbSync,
                               emailClock: string, rgClock: string)
    returns (named: AirbnbReservation, r: Result<Reserves.Reserve>, marked: bool)
    requires db.NoDoubleBooking()
    modifies db`guests, db`reserves, db`roomOccupations, db`bedOccupations, db`nextId
    ensures db.NoDoubleBooking()
    ensures var req := Request(res, sync, db.rooms);
      named == if req.Err? then res
               else res.(guestName := Some(req.value.guestName),
                         reserveId := if r.Ok? then Some(r.value.id) else res.reserveId)
    ensures var plan := Plan(res, sync, old(db.guests), db.rooms, db.beds, old(db.roomOccupations),
                             old(db.bedOccupations), old(db.nextId), emailClock, rgClock);
      (r.Ok? <==> plan.Ok?)
      && (r.Ok? ==> r.value == plan.value.reserve
                    && ReserveService.Recorded(plan.value, db.beds, old(db.reserves), old(db.roomOccupations),
                                               old(db.bedOccupations), db.guests, db.reserves,
                                               db.roomOccupations, db.bedOccupations)
                    && db.nextId == ReserveService.NextIdAfter(plan.value))
      && marked == MarksRollbackOnly(res, sync, db.rooms, plan)
    ensures r.Err? ==>
      r.error == Runtime && db.guests == old(db.guests) && db.reserves == old(db.reserves)
      && db.roomOccupations == old(db.roomOccupations) && db.bedOccupations == old(db.bedOccupations)
      && db.nextId == old(db.nextId)
  {
    named, marked := res, false;
    if res.checkIn.None? || res.checkOut.None? {
      return named, Err(Runtime), false;
    }
    var dates := Calendar.DatesBetween(res.checkIn.value, res.checkOut.value);
    var room := TargetRoomNumber(sync, db.rooms);
    if room.Err? {
      return named, Err(Runtime), sync.roomId.None?;
    }
    var name := GenerateUniqueAirbnbGuestName(res.airbnbReservationId);
    if name.Err? {
      return named, Err(Runtime), false;
    }
    named := named.(guestName := Some(name.value));
    if room.value.None? {
      return named, Err(Runtime), true;
    }
    r := ReserveService.CreateReserveForAirbnb(db, name.value, room.value.value, dates, emailClock, rgClock);
    marked := r.Err?;
    if r.Ok? {
      named := named.(reserveId := Some(r.value.id));
    }
  }

  // ------------------------------------------------------------ importing one row

  /** What processing one parsed row did. */
  datatype Outcome = LookupFailed | AlreadyStored | Stored(processed: bool)

  /**
   * What an import carries from row to row inside its one transaction: the
   * stored Airbnb rows, the channel tables' id counter, the hostel tables,
   * and whether a failure has left the transaction rollback-only.
   */
  datatype ImportState = ImportState(rows: seq<AirbnbReservation>, nextId: nat, tables: Hostel.Tables,
                                     rollbackOnly: bool)

  /**
   * The effect of processAirbnbReservation on the import state: a failing
   * UID lookup (several stored rows with the UID) changes no table but
   * dooms the transaction; a known UID changes nothing; otherwise the row
   * is stored.
   */
  function ImportRow(s: ImportState, res: AirbnbReservation, sync: AirbnbSync, rooms: seq<Rooms.Room>,
                     beds: seq<Rooms.Bed>, emailClock: string, rgClock: string): (r: ImportState)
    ensures s.rollbackOnly ==> r.rollbackOnly
  {
    match AirbnbReservationByUid(s.rows, res.airbnbReservationId)
    case Err(_) => s.(rollbackOnly := true)
    case Ok(Some(_)) => s
    case Ok(None) => StoreRow(s, res, sync, rooms, beds, emailClock, rgClock)
  }

  /**
   * Importing the same feed row again, once its UID is stored, changes
   * nothing (whatever the clocks then read): the row is found and skipped.
   */
  lemma ReimportChangesNothing(s: ImportState, res: AirbnbReservation, sync: AirbnbSync, rooms: seq<Rooms.Room>,
                               beds: seq<Rooms.Bed>, emailClock: string, rgClock: string,
                               emailClock2: string, rgClock2: string)
    requires AirbnbReservationByUid(s.rows, res.airbnbReservationId).Ok?
    ensures var r := ImportRow(s, res, sync, rooms, beds, emailClock, rgClock);
      ImportRow(r, res, sync, rooms, beds, emailClock2, rgClock2) == r
  {
    var uid := res.airbnbReservationId;
    if AirbnbReservationByUid(s.rows, uid) == Ok(None) {
      var r := StoreRow(s, res, sync, rooms, beds, emailClock, rgClock);
      var n := |s.rows|;
      Seqs.CountAtMostOne(r.rows, AirbnbUidIs(uid));
      assert AirbnbUidIs(uid)(r.rows[n]);
    }
  }

  /**
   * A new row stored: appended with the next id and its outcome, the
   * booking (when the plan succeeds) written to the hostel tables, and the
   * transaction doomed by a failure that crossed a transactional call.
   */
  function StoreRow(s: ImportState, res: AirbnbReservation, sync: AirbnbSync, rooms: seq<Rooms.Room>,
                    beds: seq<Rooms.Bed>, emailClock: string, rgClock: string): (r: ImportState)
    ensures s.rollbackOnly ==> r.rollbackOnly
    ensures |r.rows| == |s.rows| + 1 && r.rows[..|s.rows|] == s.rows && r.nextId == s.nextId + 1
    ensures r.rows[|s.rows|].airbnbReservationId == res.airbnbReservationId
  {
      var t := s.tables;
      var req := Request(res, sync, rooms);
      var plan := Plan(res, sync, t.guests, rooms, beds, t.roomOccupations, t.bedOccupations, t.nextId,
                       emailClock, rgClock);
      var row := res.(id := Some(s.nextId), isProcessed := Some(plan.Ok?),
                      guestName := if req.Ok? then Some(req.value.guestName) else res.guestName,
                      reserveId := if plan.Ok? then Some(plan.value.reserve.id) else None);
      ImportState(s.rows + [row], s.nextId + 1,
                  if plan.Ok? then ReserveService.AfterBooking(plan.value, beds, t) else t,
                  s.rollbackOnly || MarksRollbackOnly(res, sync, rooms, plan))
  }

  /**
   * The part of processAirbnbReservation for a row whose UID is not stored
   * yet: the row is saved (taking the next id), the internal reservation is
   * attempted, and the row is saved again with the outcome.
   */
  method StoreNewRow(store: ChannelStore, db: Hostel.Database, res: AirbnbReservation, sync: AirbnbSync,
                     emailClock: string, rgClock: string)
    returns (processed: bool, marked: bool)
    requires res.id.None? && res.reserveId.None?
    requires AirbnbReservationByUid(store.airbnbReservations, res.airbnbReservationId) == Ok(None)
    requires db.NoDoubleBooking()
    modifies store`airbnbReservations, store`nextId
    modifies db`guests, db`reserves, db`roomOccupations, db`bedOccupations, db`nextId
    ensures db.NoDoubleBooking()
    ensures StoreRow(ImportState(old(store.airbnbReservations), old(store.nextId), old(db.BookingState()), false),
                     res, sync, db.rooms, db.beds, emailClock, rgClock)
            == ImportState(store.airbnbReservations, store.nextId, db.BookingState(), marked)
  {
    ghost var tables0 := db.BookingState();
    var id := store.nextId;
    var n := |store.airbnbReservations|;
    store.airbnbReservations := store.airbnbReservations + [res.(id := Some(id))];
    store.nextId := id + 1;
    var named, made, doomed := CreateInternalReserve(db, res, sync, emailClock, rgClock);
    store.airbnbReservations := store.airbnbReservations[n := named.(id := Some(id), isProcessed := Some(made.Ok?))];
    processed, marked := made.Ok?, doomed;
    assert store.airbnbReservations[n].airbnbReservationId == res.airbnbReservationId;
    StoredRowIsImportRow(ImportState(old(store.airbnbReservations), old(store.nextId), tables0, false), res, sync,
                         db.rooms, db.beds, emailClock, rgClock, store.airbnbReservations, db.BookingState(), marked);
  }

  /**
   * `processAirbnbReservation`: a row whose UID is already stored is
   * skipped; otherwise it is saved (taking the next id), the internal
   * reservation is attempted, and the row is saved again with the outcome.
   * A failing lookup (two stored rows with the UID) is caught and changes
   * nothing.
   */
  method ProcessAirbnbReservation(store: ChannelStore, db: Hostel.Database, res: AirbnbReservation,
                                  sync: AirbnbSync, emailClock: string, rgClock: string)
    returns (outcome: Outcome, marked: bool)
    requires res.id.None? && res.reserveId.None?
    requires db.NoDoubleBooking()
    modifies store`airbnbReservations, store`nextId
    modifies db`guests, db`reserves, db`roomOccupations, db`bedOccupations, db`nextId
    ensures db.NoDoubleBooking()
    ensures var found := AirbnbReservationByUid(old(store.airbnbReservations), res.airbnbReservationId);
      (outcome == LookupFailed <==> found.Err?) && (outcome == AlreadyStored <==> found.Ok? && found.value.Some?)
    ensures ImportRow(ImportState(old(store.airbnbReservations), old(store.nextId), old(db.BookingState()), false),
                      res, sync, db.rooms, db.beds, emailClock, rgClock)
            == ImportState(store.airbnbReservations, store.nextId, db.BookingState(), marked)
  {
    var found := AirbnbReservationByUid(store.airbnbReservations, res.airbnbReservationId);
    if found.Err? {
      return LookupFailed, true;
    }
    if found.value.Some? {
      return AlreadyStored, false;
    }
    var processed;
    processed, marked := StoreNewRow(store, db, res, sync, emailClock, rgClock);
    outcome := Stored(processed);
  }

  /** The tables processAirbnbReservation leaves after storing a new row are the ones StoreRow describes. */
  lemma StoredRowIsImportRow(s: ImportState, res: AirbnbReservation, sync: AirbnbSync, rooms: seq<Rooms.Room>,
                             beds: seq<Rooms.Bed>, emailClock: string, rgClock: string,
                             rows: seq<AirbnbReservation>, tables: Hostel.Tables, marked: bool)
    requires !s.rollbackOnly && AirbnbReservationByUid(s.rows, res.airbnbReservationId) == Ok(None)
    requires var t := s.tables;
      var req := Request(res, sync, rooms);
      var plan := Plan(res, sync, t.guests, rooms, beds, t.roomOccupations, t.bedOccupations, t.nextId,
                       emailClock, rgClock);
      && |rows| == |s.rows| + 1 && rows[..|s.rows|] == s.rows
      && rows[|s.rows|] == res.(id := Some(s.nextId), isProcessed := Some(plan.Ok?),
                                guestName := if req.Ok? then Some(req.value.guestName) else res.guestName,
                                reserveId := if plan.Ok? then Some(plan.value.reserve.id) else None)
      && (plan.Ok? ==> ReserveService.Recorded(plan.value, beds, t.reserves, t.roomOccupations, t.bedOccupations,
                                               tables.guests, tables.reserves, tables.roomOccupations,
                                               tables.bedOccupations)
                       && tables.nextId == ReserveService.NextIdAfter(plan.value))
      && (plan.Err? ==> tables == t)
      && marked == MarksRollbackOnly(res, sync, rooms, plan)
    ensures ImportRow(s, res, sync, rooms, beds, emailClock, rgClock) == ImportState(rows, s.nextId + 1, tables, marked)
  {
    var t := s.tables;
    var plan := Plan(res, sync, t.guests, rooms, beds, t.roomOccupations, t.bedOccupations, t.nextId,
                     emailClock, rgClock);
    if plan.Ok? {
      ReserveService.RecordedIsAfterBooking(plan.value, beds, t, tables);
    }
    assert rows == s.rows + [rows[|s.rows|]];
  }

  // ------------------------------------------------------------ one synchronisation

  /** What a synchronisation counted. */
  datatype SyncCounts = SyncCounts(processed: nat, errors: nat)

  /** The rows a feed yields for a connection. */
  function FeedRows(content: string, sync: AirbnbSync, now: nat): (r: seq<AirbnbReservation>)
    ensures forall k :: 0 <= k < |r| ==> Imported(r[k], sync.id, now)
  {
    ParsedEvents(ICal.EventChunks(content), sync.id, now)
  }

  /** A UID stays held when rows are only appended. */
  lemma HoldsAfterAppend(a: seq<AirbnbReservation>, b: seq<AirbnbReservation>, uid: Option<string>)
    requires a <= b && HoldsAirbnbUid(a, uid)
    ensures HoldsAirbnbUid(b, uid)
  {
    var j :| 0 <= j < |a| && a[j].airbnbReservationId == uid;
    assert b[j] == a[j];
  }

  /**
   * The import state after the first `k` of the given rows were processed
   * in order from `s`; `emailClock(j)` and `rgClock(j)` are the clock texts
   * read while the j-th row is processed.
   */
  function ImportPrefix(s: ImportState, rows: seq<AirbnbReservation>, k: nat, sync: AirbnbSync,
                        rooms: seq<Rooms.Room>, beds: seq<Rooms.Bed>, emailClock: nat -> string,
                        rgClock: nat -> string): (r: ImportState)
    requires k <= |rows|
    decreases k, 0
  {
    if k == 0 then s else ImportStep(s, rows, k - 1, sync, rooms, beds, emailClock, rgClock)
  }

  /** The import state once the j-th row has been processed after the rows before it. */
  function ImportStep(s: ImportState, rows: seq<AirbnbReservation>, j: nat, sync: AirbnbSync,
                      rooms: seq<Rooms.Room>, beds: seq<Rooms.Bed>, emailClock: nat -> string,
                      rgClock: nat -> string): (r: ImportState)
    requires j < |rows|
    decreases j, 2
  {
    ImportRowAt(s, rows, j, sync, rooms, beds, emailClock, rgClock)
  }

  /** The j-th row processed from the state the rows before it left. */
  function ImportRowAt(s: ImportState, rows: seq<AirbnbReservation>, j: nat, sync: AirbnbSync,
                      rooms: seq<Rooms.Room>, beds: seq<Rooms.Bed>, emailClock: nat -> string,
                      rgClock: nat -> string): (r: ImportState)
    requires j < |rows|
    decreases j, 1
  {
    ImportRow(ImportPrefix(s, rows, j, sync, rooms, beds, emailClock, rgClock), rows[j], sync, rooms, beds,
              emailClock(j), rgClock(j))
  }

  /** The import state after all the given rows were processed in order from `s`. */
  function ImportRun(s: ImportState, rows: seq<AirbnbReservation>, sync: AirbnbSync, rooms: seq<Rooms.Room>,
                     beds: seq<Rooms.Bed>, emailClock: nat -> string, rgClock: nat -> string): ImportState
  {
    ImportPrefix(s, rows, |rows|, sync, rooms, beds, emailClock, rgClock)
  }

  /**
   * A feed row that reaches createInternalReserve (its UID not yet stored)
   * and fails there through a transactional call rolls the whole import
   * back.
   */
  lemma FailedBookingDoomsImport(s: ImportState, rows: seq<AirbnbReservation>, k: nat, sync: AirbnbSync,
                                 rooms: seq<Rooms.Room>, beds: seq<Rooms.Bed>,
                                 emailClock: nat -> string, rgClock: nat -> string)
    requires k < |rows|
    requires var before := ImportPrefix(s, rows, k, sync, rooms, beds, emailClock, rgClock);
      var t := before.tables;
      AirbnbReservationByUid(before.rows, rows[k].airbnbReservationId) == Ok(None)
      && Request(rows[k], sync, rooms).Ok?
      && Plan(rows[k], sync, t.guests, rooms, beds, t.roomOccupations, t.bedOccupations, t.nextId,
              emailClock(k), rgClock(k)).Err?
    ensures ImportRun(s, rows, sync, rooms, beds, emailClock, rgClock).rollbackOnly
  {
    var before := ImportPrefix(s, rows, k, sync, rooms, beds, emailClock, rgClock);
    FailedRowMarks(before, rows[k], sync, rooms, beds, emailClock(k), rgClock(k));
    ImportPrefixStep(s, rows, k, sync, rooms, beds, emailClock, rgClock);
    ImportMarkPersists(s, rows, k + 1, |rows|, sync, rooms, beds, emailClock, rgClock);
  }

  /** A row whose booking fails once the request is complete marks the import rollback-only. */
  lemma FailedRowMarks(s: ImportState, res: AirbnbReservation, sync: AirbnbSync, rooms: seq<Rooms.Room>,
                       beds: seq<Rooms.Bed>, emailClock: string, rgClock: string)
    requires var t := s.tables;
      AirbnbReservationByUid(s.rows, res.airbnbReservationId) == Ok(None)
      && Request(res, sync, rooms).Ok?
      && Plan(res, sync, t.guests, rooms, beds, t.roomOccupations, t.bedOccupations, t.nextId, emailClock, rgClock).Err?
    ensures ImportRow(s, res, sync, rooms, beds, emailClock, rgClock).rollbackOnly
  {
  }

  /** Once the import is rollback-only, processing more rows does not undo it. */
  lemma {:induction false} ImportMarkPersists(s: ImportState, rows: seq<AirbnbReservation>, i: nat, j: nat,
                                              sync: AirbnbSync, rooms: seq<Rooms.Room>, beds: seq<Rooms.Bed>,
                                              emailClock: nat -> string, rgClock: nat -> string)
    requires i <= j <= |rows|
    requires ImportPrefix(s, rows, i, sync, rooms, beds, emailClock, rgClock).rollbackOnly
    ensures ImportPrefix(s, rows, j, sync, rooms, beds, emailClock, rgClock).rollbackOnly
    decreases j
  {
    if i < j {
      ImportMarkPersists(s, rows, i, j - 1, sync, rooms, beds, emailClock, rgClock);
      ImportPrefixStep(s, rows, j - 1, sync, rooms, beds, emailClock, rgClock);
    }
  }

  /**
   * While the stored UIDs are distinct, processing a row keeps them
   * distinct, only appends, and leaves the row's UID stored.
   */
  lemma ImportRowKeepsUidsDistinct(s: ImportState, res: AirbnbReservation, sync: AirbnbSync, rooms: seq<Rooms.Room>,
                                   beds: seq<Rooms.Bed>, emailClock: string, rgClock: string)
    requires DistinctAirbnbUids(s.rows)
    ensures var r := ImportRow(s, res, sync, rooms, beds, emailClock, rgClock);
      s.rows <= r.rows && DistinctAirbnbUids(r.rows) && HoldsAirbnbUid(r.rows, res.airbnbReservationId)
  {
    var uid := res.airbnbReservationId;
    AirbnbUidLookupSucceeds(s.rows, uid);
    if AirbnbReservationByUid(s.rows, uid) == Ok(None) {
      var r := StoreRow(s, res, sync, rooms, beds, emailClock, rgClock);
      assert r.rows == s.rows + [r.rows[|s.rows|]];
      assert r.rows[|s.rows|].airbnbReservationId == uid;
    }
  }

  /**
   * One more processed row: when rows `a` held the UIDs of the first `k`
   * feed rows and row `k`'s processing only appended (to `b`), kept the
   * UIDs distinct and stored its UID, `b` holds the first `k + 1`.
   */
  lemma KeepsUidsAfterRow(base: seq<AirbnbReservation>, a: seq<AirbnbReservation>, b: seq<AirbnbReservation>, rows: seq<AirbnbReservation>, k: nat)
    requires k < |rows| && base <= a && a <= b && DistinctAirbnbUids(b) && HoldsAirbnbUid(b, rows[k].airbnbReservationId)
    requires forall m :: 0 <= m < k ==> HoldsAirbnbUid(a, rows[m].airbnbReservationId)
    ensures base <= b && forall m :: 0 <= m < k + 1 ==> HoldsAirbnbUid(b, rows[m].airbnbReservationId)
  {
    forall m | 0 <= m < k
      ensures HoldsAirbnbUid(b, rows[m].airbnbReservationId)
    {
      HoldsAfterAppend(a, b, rows[m].airbnbReservationId);
    }
  }

  /** The j-th row's step, while the stored UIDs are distinct, keeps them so, only appends, and stores its UID. */
  lemma ImportStepKeepsUidsDistinct(s: ImportState, rows: seq<AirbnbReservation>, j: nat, sync: AirbnbSync,
                                    rooms: seq<Rooms.Room>, beds: seq<Rooms.Bed>, emailClock: nat -> string,
                                    rgClock: nat -> string)
    requires j < |rows| && DistinctAirbnbUids(ImportPrefix(s, rows, j, sync, rooms, beds, emailClock, rgClock).rows)
    ensures var before := ImportPrefix(s, rows, j, sync, rooms, beds, emailClock, rgClock).rows;
      var after := ImportPrefix(s, rows, j + 1, sync, rooms, beds, emailClock, rgClock).rows;
      before <= after && DistinctAirbnbUids(after) && HoldsAirbnbUid(after, rows[j].airbnbReservationId)
  {
    ImportPrefixStep(s, rows, j, sync, rooms, beds, emailClock, rgClock);
    ImportRowKeepsUidsDistinct(ImportPrefix(s, rows, j, sync, rooms, beds, emailClock, rgClock), rows[j], sync,
                               rooms, beds, emailClock(j), rgClock(j));
  }

  /**
   * While the stored UIDs are distinct, processing the first `k` rows
   * keeps them distinct, only appends, and leaves every processed row's
   * UID stored.
   */
  lemma {:induction false} ImportPrefixKeepsUidsDistinct(s: ImportState, rows: seq<AirbnbReservation>, k: nat,
                                                         sync: AirbnbSync, rooms: seq<Rooms.Room>,
                                                         beds: seq<Rooms.Bed>, emailClock: nat -> string,
                                                         rgClock: nat -> string)
    requires k <= |rows| && DistinctAirbnbUids(s.rows)
    ensures var r := ImportPrefix(s, rows, k, sync, rooms, beds, emailClock, rgClock);
      s.rows <= r.rows && DistinctAirbnbUids(r.rows)
      && forall m :: 0 <= m < k ==> HoldsAirbnbUid(r.rows, rows[m].airbnbReservationId)
  {
    if k > 0 {
      ImportPrefixKeepsUidsDistinct(s, rows, k - 1, sync, rooms, beds, emailClock, rgClock);
      ImportStepKeepsUidsDistinct(s, rows, k - 1, sync, rooms, beds, emailClock, rgClock);
      KeepsUidsAfterRow(s.rows, ImportPrefix(s, rows, k - 1, sync, rooms, beds, emailClock, rgClock).rows,
                        ImportPrefix(s, rows, k, sync, rooms, beds, emailClock, rgClock).rows, rows, k - 1);
    }
  }

  /** Importing a connection's feed from `s` (a state no failure has marked yet). */
  function FeedImport(s: ImportState, sync: AirbnbSync, content: string, now: nat, rooms: seq<Rooms.Room>,
                      beds: seq<Rooms.Bed>, emailClock: nat -> string, rgClock: nat -> string): ImportState
  {
    ImportRun(s.(rollbackOnly := false), FeedRows(content, sync, now), sync, rooms, beds, emailClock, rgClock)
  }

  /** One pass of processAll's loop: the k-th row processed after the rows before it. */
  method ProcessNext(store: ChannelStore, db: Hostel.Database, rows: seq<AirbnbReservation>, sync: AirbnbSync,
                     emailClock: nat -> string, rgClock: nat -> string, ghost s0: ImportState, k: nat, doomed: bool)
    returns (doomedAfter: bool)
    requires k < |rows| && rows[k].id.None? && rows[k].reserveId.None?
    requires db.NoDoubleBooking()
    requires ImportPrefix(s0, rows, k, sync, db.rooms, db.beds, emailClock, rgClock)
             == ImportState(store.airbnbReservations, store.nextId, db.BookingState(), doomed)
    modifies store`airbnbReservations, store`nextId
    modifies db`guests, db`reserves, db`roomOccupations, db`bedOccupations, db`nextId
    ensures db.NoDoubleBooking()
    ensures ImportPrefix(s0, rows, k + 1, sync, db.rooms, db.beds, emailClock, rgClock)
            == ImportState(store.airbnbReservations, store.nextId, db.BookingState(), doomedAfter)
  {
    ghost var rowsA, nextIdA, tablesA := store.airbnbReservations, store.nextId, db.BookingState();
    var outcome, marked := ProcessAirbnbReservation(store, db, rows[k], sync, emailClock(k), rgClock(k));
    ImportPrefixAdvance(s0, rows, k, sync, db.rooms, db.beds, emailClock, rgClock, rowsA, nextIdA, tablesA, doomed,
                        ImportState(store.airbnbReservations, store.nextId, db.BookingState(), marked));
    doomedAfter := doomed || marked;
  }

  /**
   * The loop of syncAirbnbReservations: each parsed row processed in turn.
   * Processing catches its own failures, so every row counts as processed
   * and none as an error; while the stored UIDs are distinct, every row's
   * UID is stored afterwards. `doomed` tells whether a failure left the
   * transaction rollback-only.
   */
  method ProcessAll(store: ChannelStore, db: Hostel.Database, rows: seq<AirbnbReservation>, sync: AirbnbSync,
                    emailClock: nat -> string, rgClock: nat -> string)
    returns (counts: SyncCounts, doomed: bool)
    requires forall k :: 0 <= k < |rows| ==> rows[k].id.None? && rows[k].reserveId.None?
    requires db.NoDoubleBooking()
    modifies store`airbnbReservations, store`nextId
    modifies db`guests, db`reserves, db`roomOccupations, db`bedOccupations, db`nextId
    ensures db.NoDoubleBooking()
    ensures counts == SyncCounts(|rows|, 0)
    ensures ImportRun(ImportState(old(store.airbnbReservations), old(store.nextId), old(db.BookingState()), false),
                      rows, sync, db.rooms, db.beds, emailClock, rgClock)
            == ImportState(store.airbnbReservations, store.nextId, db.BookingState(), doomed)
  {
    var processed, errors := 0, 0;
    doomed := false;
    ghost var s0 := ImportState(store.airbnbReservations, store.nextId, db.BookingState(), false);
    var k := 0;
    while k < |rows|
      invariant k <= |rows| && processed == k && errors == 0
      invariant db.NoDoubleBooking()
      invariant ImportPrefix(s0, rows, k, sync, db.rooms, db.beds, emailClock, rgClock)
                == ImportState(store.airbnbReservations, store.nextId, db.BookingState(), doomed)
    {
      doomed := ProcessNext(store, db, rows, sync, emailClock, rgClock, s0, k, doomed);
      processed := processed + 1;
      k := k + 1;
    }
    counts := SyncCounts(processed, errors);
  }

  /**
   * One more row processed: the row's own step, applied to the state before
   * it with the mark cleared, and the earlier mark kept.
   */
  lemma ImportPrefixAdvance(s: ImportState, rows: seq<AirbnbReservation>, k: nat, sync: AirbnbSync,
                            rooms: seq<Rooms.Room>, beds: seq<Rooms.Bed>, emailClock: nat -> string,
                            rgClock: nat -> string, rowsA: seq<AirbnbReservation>, nextIdA: nat,
                            tablesA: Hostel.Tables, mark: bool, after: ImportState)
    requires k < |rows|
    requires ImportPrefix(s, rows, k, sync, rooms, beds, emailClock, rgClock) == ImportState(rowsA, nextIdA, tablesA, mark)
    requires ImportRow(ImportState(rowsA, nextIdA, tablesA, false), rows[k], sync, rooms, beds, emailClock(k), rgClock(k))
             == after
    ensures ImportPrefix(s, rows, k + 1, sync, rooms, beds, emailClock, rgClock)
            == after.(rollbackOnly := mark || after.rollbackOnly)
  {
    ImportPrefixStep(s, rows, k, sync, rooms, beds, emailClock, rgClock);
  }

  /** One more row processed: the row's own step applied to the state before it. */
  lemma ImportPrefixStep(s: ImportState, rows: seq<AirbnbReservation>, k: nat, sync: AirbnbSync,
                         rooms: seq<Rooms.Room>, beds: seq<Rooms.Bed>, emailClock: nat -> string, rgClock: nat -> string)
    requires k < |rows|
    ensures ImportPrefix(s, rows, k + 1, sync, rooms, beds, emailClock, rgClock)
         == ImportRow(ImportPrefix(s, rows, k, sync, rooms, beds, emailClock, rgClock), rows[k], sync, rooms, beds,
                      emailClock(k), rgClock(k))
  {
    assert ImportPrefix(s, rows, k + 1, sync, rooms, beds, emailClock, rgClock)
        == ImportStep(s, rows, k, sync, rooms, beds, emailClock, rgClock);
    assert ImportStep(s, rows, k, sync, rooms, beds, emailClock, rgClock)
        == ImportRowAt(s, rows, k, sync, rooms, beds, emailClock, rgClock);
  }

  /**
   * What syncAirbnbReservations makes of the tables `s`: the tables after
   * the feed is imported, when the property id finds exactly one
   * connection, the feed (`fetched`) was fetched and no row's failure left
   * the transaction rollback-only; a failure otherwise.
   */
  function SyncImport(syncs: seq<AirbnbSync>, propertyId: Option<string>, fetched: Option<string>, now: nat,
                      s: ImportState, rooms: seq<Rooms.Room>, beds: seq<Rooms.Bed>, emailClock: nat -> string,
                      rgClock: nat -> string): (r: Result<ImportState>)
    ensures r.Ok? ==> !r.value.rollbackOnly
    ensures r.Err? ==> r.error == Runtime
  {
    var cfg := AirbnbSyncByPropertyId(syncs, propertyId);
    if cfg.Err? || cfg.value.None? || fetched.None? then Err(Runtime)
    else
      var run := FeedImport(s, syncs[cfg.value.value], fetched.value, now, rooms, beds, emailClock, rgClock);
      if run.rollbackOnly then Err(Runtime) else Ok(run)
  }

  /**
   * A synchronisation whose feed holds a new row whose booking fails once
   * its request is complete fails as a whole.
   */
  lemma FailedBookingFailsSync(syncs: seq<AirbnbSync>, propertyId: Option<string>, fetched: Option<string>, now: nat,
                               s: ImportState, rooms: seq<Rooms.Room>, beds: seq<Rooms.Bed>,
                               emailClock: nat -> string, rgClock: nat -> string, k: nat)
    requires AirbnbSyncByPropertyId(syncs, propertyId).Ok? && AirbnbSyncByPropertyId(syncs, propertyId).value.Some?
    requires fetched.Some?
    requires var sync := syncs[AirbnbSyncByPropertyId(syncs, propertyId).value.value];
      var rows := FeedRows(fetched.value, sync, now);
      k < |rows|
      && var before := ImportPrefix(s.(rollbackOnly := false), rows, k, sync, rooms, beds, emailClock, rgClock);
         var t := before.tables;
         AirbnbReservationByUid(before.rows, rows[k].airbnbReservationId) == Ok(None)
         && Request(rows[k], sync, rooms).Ok?
         && Plan(rows[k], sync, t.guests, rooms, beds, t.roomOccupations, t.bedOccupations, t.nextId,
                 emailClock(k), rgClock(k)).Err?
    ensures SyncImport(syncs, propertyId, fetched, now, s, rooms, beds, emailClock, rgClock).Err?
  {
    var sync := syncs[AirbnbSyncByPropertyId(syncs, propertyId).value.value];
    FailedBookingDoomsImport(s.(rollbackOnly := false), FeedRows(fetched.value, sync, now), k, sync, rooms, beds,
                             emailClock, rgClock);
  }

  /**
   * `syncAirbnbReservations`: find the connection by property id, parse its
   * feed (`fetched`, the result of fetching the feed URL: `None` when the
   * fetch fails), process every row and stamp the
   * connection with the time of the synchronisation. `emailClock(k)` and
   * `rgClock(k)` are the clock texts read while the k-th row is processed.
   * The whole synchronisation is one transaction: when a row's failure has
   * left it rollback-only, the commit fails and nothing it wrote stays.
   */
  method SyncAirbnbReservations(store: ChannelStore, db: Hostel.Database, propertyId: Option<string>,
                                fetched: Option<string>, now: nat, emailClock: nat -> string, rgClock: nat -> string)
    returns (r: Result<SyncCounts>)
    requires db.NoDoubleBooking()
    modifies store`airbnbSyncs, store`airbnbReservations, store`nextId
    modifies db`guests, db`reserves, db`roomOccupations, db`bedOccupations, db`nextId
    ensures db.NoDoubleBooking()
    ensures var out := SyncImport(old(store.airbnbSyncs), propertyId, fetched, now,
                                  ImportState(old(store.airbnbReservations), old(store.nextId), old(db.BookingState()),
                                              false), db.rooms, db.beds, emailClock, rgClock);
      r.Ok? == out.Ok? && (r.Err? ==> r.error == Runtime)
    ensures r.Err? ==>
      store.airbnbSyncs == old(store.airbnbSyncs) && store.airbnbReservations == old(store.airbnbReservations)
      && store.nextId == old(store.nextId) && db.BookingState() == old(db.BookingState())
    ensures r.Ok? ==>
      var i := AirbnbSyncByPropertyId(old(store.airbnbSyncs), propertyId).value.value;
      var sync := old(store.airbnbSyncs)[i];
      var rows := FeedRows(fetched.value, sync, now);
      r.value == SyncCounts(|rows|, 0)
      && store.airbnbSyncs == old(store.airbnbSyncs)[i := sync.(lastSync := Some(now))]
      && var run := SyncImport(old(store.airbnbSyncs), propertyId, fetched, now,
                               ImportState(old(store.airbnbReservations), old(store.nextId), old(db.BookingState()),
                                           false), db.rooms, db.beds, emailClock, rgClock).value;
         store.airbnbReservations == run.rows && store.nextId == run.nextId && db.BookingState() == run.tables
  {
    var cfg := AirbnbSyncByPropertyId(store.airbnbSyncs, propertyId);
    if cfg.Err? || cfg.value.None? {
      return Err(Runtime);
    }
    var i := cfg.value.value;
    var sync := store.airbnbSyncs[i];
    if fetched.None? {
      return Err(Runtime);
    }
    var rows := ParseICalContent(fetched.value, sync.id, now);
    var counts, committed := ImportTransaction(store, db, rows, sync, emailClock, rgClock);
    if !committed {
      return Err(Runtime);
    }
    store.airbnbSyncs := store.airbnbSyncs[i := sync.(lastSync := Some(now))];
    r := Ok(counts);
  }

  /**
   * The rows processed inside the synchronisation's transaction: committed
   * when no failure left it rollback-only, and otherwise rolled back, so
   * that none of the rows, guests, reserves or occupations written stay.
   */
  method ImportTransaction(store: ChannelStore, db: Hostel.Database, rows: seq<AirbnbReservation>, sync: AirbnbSync,
                           emailClock: nat -> string, rgClock: nat -> string)
    returns (counts: SyncCounts, committed: bool)
    requires forall k :: 0 <= k < |rows| ==> rows[k].id.None? && rows[k].reserveId.None?
    requires db.NoDoubleBooking()
    modifies store`airbnbReservations, store`nextId
    modifies db`guests, db`reserves, db`roomOccupations, db`bedOccupations, db`nextId
    ensures db.NoDoubleBooking()
    ensures var run := ImportRun(ImportState(old(store.airbnbReservations), old(store.nextId), old(db.BookingState()),
                                             false), rows, sync, db.rooms, db.beds, emailClock, rgClock);
      committed == !run.rollbackOnly
      && (committed ==>
            counts == SyncCounts(|rows|, 0)
            && store.airbnbReservations == run.rows && store.nextId == run.nextId && db.BookingState() == run.tables)
    ensures !committed ==>
      store.airbnbReservations == old(store.airbnbReservations) && store.nextId == old(store.nextId)
      && db.guests == old(db.guests) && db.reserves == old(db.reserves)
      && db.roomOccupations == old(db.roomOccupations) && db.bedOccupations == old(db.bedOccupations)
      && db.nextId == old(db.nextId)
  {
    var rows0, nextId0 := store.airbnbReservations, store.nextId;
    var guests0, reserves0, roomOccs0, bedOccs0, dbNextId0 := db.guests, db.reserves, db.roomOccupations,
                                                              db.bedOccupations, db.nextId;
    var doomed;
    counts, doomed := ProcessAll(store, db, rows, sync, emailClock, rgClock);
    committed := !doomed;
    if doomed {
      store.airbnbReservations, store.nextId := rows0, nextId0;
      db.guests, db.reserves, db.roomOccupations, db.bedOccupations, db.nextId
        := guests0, reserves0, roomOccs0, bedOccs0, dbNextId0;
    }
  }
}
