/**
 * The Booking.com importer: the same feed parsing as the Airbnb importer,
 * with Booking.com's own block filter, the guest name read from the
 * summary, and internal reservations made through the ordinary booking
 * path in the connection's room (room 101 when it has none).
 */
module BookingICal {
  import opened Wrappers
  import opened Text
  import opened Channels
  import ICal
  import Calendar
  import Reserves
  import Rooms
  import Occupations
  import Hostel
  import ReserveService
  import AirbnbICal
  import Seqs

  /** The room booked for a connection without a room number. */
  const DefaultRoomNumber: int := 101
  const GuestNameMarker: string := "reservation for"

  // ------------------------------------------------------------ classifying a summary

  /** The block markers, on the lower-cased summary. */
  predicate Blocked(lower: string)
  {
    Contains(lower, "blocked") || Contains(lower, "unavailable") || Contains(lower, "bloqueado")
    || Contains(lower, "indisponível")
  }

  /**
   * `isRealReservation(summary)`: no summary or a block marker means a
   * block; otherwise "reserva" (which "reservation" contains) or a word
   * after a space means a booking. The guest name test runs on the
   * lower-cased text, where only its word-after-a-space half can hold.
   */
  function IsRealReservation(summary: Option<string>): (r: bool)
    ensures summary.None? ==> !r
    ensures summary.Some? ==>
      (r <==> !Blocked(ToLower(summary.value))
              && (Contains(ToLower(summary.value), "reserva") || ICal.WordAfterSpace(summary.value)))
  {
    match summary
    case None => false
    case Some(s) =>
      var lower := ToLower(s);
      assert "reservation"[0..7] == "reserva";
      ContainsPart(lower, "reservation", 0, 7);
      ICal.WordAfterSpaceIgnoresCase(s);
      if Contains(lower, "blocked") || Contains(lower, "unavailable") || Contains(lower, "bloqueado")
         || Contains(lower, "indisponível")
      then false
      else Contains(lower, "reservation") || Contains(lower, "reserva") || ICal.ContainsGuestName(lower)
  }

  /**
   * A summary with a word after a space and none of the letters k, u, q, p
   * (Booking.com's "CLOSED - Not available", for one) passes this
   * importer's filter; when it says "not available" the Airbnb importer's
   * filter rejects it.
   */
  lemma SpacedUnmarkedSummaryPasses(s: string)
    requires ICal.WordAfterSpace(s)
    requires 'k' !in s && 'K' !in s && 'u' !in s && 'U' !in s
    requires 'q' !in s && 'Q' !in s && 'p' !in s && 'P' !in s
    ensures IsRealReservation(Some(s))
    ensures Contains(ToLower(s), "not available") ==> !AirbnbICal.IsRealReservation(Some(s))
  {
    LowerLacks(s, 'k');
    LowerLacks(s, 'u');
    LowerLacks(s, 'q');
    LowerLacks(s, 'p');
    NotBlockedWithout(ToLower(s));
  }

  /** Lower-casing a string without a letter in either case does not produce it. */
  lemma LowerLacks(s: string, c: char)
    requires 'a' <= c <= 'z' && c !in s && (c as int - 32) as char !in s
    ensures c !in ToLower(s)
  {
    var lower := ToLower(s);
    forall i | 0 <= i < |s| ensures lower[i] != c {
    }
  }

  /** Without the letters k, u, q and p a summary holds no block marker. */
  lemma NotBlockedWithout(lower: string)
    requires 'k' !in lower && 'u' !in lower && 'q' !in lower && 'p' !in lower
    ensures !Blocked(lower)
  {
    MissingLetter(lower, "blocked", 4);
    MissingLetter(lower, "unavailable", 0);
    MissingLetter(lower, "bloqueado", 4);
    MissingLetter(lower, "indisponível", 5);
  }

  /**
   * Airbnb's "Reserved", which the Airbnb importer takes for a booking
   * (AirbnbICal.ReservedIsReal), has no Booking.com marker and no space,
   * so this importer skips it.
   */
  lemma ReservedIsSkipped()
    ensures !IsRealReservation(Some("Reserved"))
  {
    var lower := ToLower("Reserved");
    assert lower == "reserved";
    NotBlockedWithout(lower);
    MissingLetter(lower, "reserva", 6);
    MissingLetter("Reserved", " ", 0);
  }

  // ------------------------------------------------------------ the guest name

  /**
   * `extractGuestNameFromSummary`: the trimmed text after the first
   * "reservation for", found without regard to case, or the whole summary.
   */
  function ExtractGuestNameFromSummary(summary: string): (r: string)
    ensures |r| <= |summary|
    ensures exists k :: OccursAt(summary, r, k)
    ensures IndexOf(ToLower(summary), GuestNameMarker).None? ==> r == summary
    ensures IndexOf(ToLower(summary), GuestNameMarker).Some? ==> Trimmed(r)
  {
    var found := IndexOf(ToLower(summary), GuestNameMarker);
    if found.None? then
      assert OccursAt(summary, summary, 0);
      summary
    else
      TrimmedTail(summary, found.value + |GuestNameMarker|)
  }

  /** The trimmed text of `s` from position `from` on, a piece of `s`. */
  function TrimmedTail(s: string, from: nat): (r: string)
    requires from <= |s|
    ensures |r| <= |s| - from && Trimmed(r)
    ensures exists k :: OccursAt(s, r, k)
  {
    var rest := s[from..];
    var name := Trim(rest);
    var k :| OccursAt(rest, name, k);
    OccursInSuffix(s, from, name, k);
    name
  }

  /** An occurrence in a suffix is an occurrence in the whole string. */
  lemma OccursInSuffix(s: string, from: nat, needle: string, k: int)
    requires from <= |s| && OccursAt(s[from..], needle, k)
    ensures OccursAt(s, needle, from + k)
  {
    assert s[from + k..from + k + |needle|] == s[from..][k..k + |needle|];
  }

  /** A string that neither starts nor ends with a trimmable character. */
  predicate Trimmed(s: string) { s == [] || (!IsTrimmable(s[0]) && !IsTrimmable(s[|s| - 1])) }

  /** Trimming a space and a trimmed name gives the name back. */
  lemma TrimSpaceName(name: string)
    requires Trimmed(name)
    ensures Trim(" " + name) == name
  {
    var s := " " + name;
    assert s[1..] == name;
    assert TrimStart(s) == TrimStart(name);
    assert TrimStart(name) == name;
    assert TrimEnd(name) == name;
  }

  /** "Reservation for <name>" gives the name back. */
  lemma GuestNameRoundTrip(name: string)
    requires Trimmed(name)
    ensures ExtractGuestNameFromSummary("Reservation for " + name) == name
  {
    var summary := "Reservation for " + name;
    var lower := ToLower(summary);
    assert lower[..15] == GuestNameMarker;
    assert OccursAt(lower, GuestNameMarker, 0);
    assert IndexOf(lower, GuestNameMarker) == Some(0);
    assert summary[15..] == " " + name;
    TrimSpaceName(name);
  }

  // ------------------------------------------------------------ parsing a feed

  /** A row as the parser produces it: unsaved, confirmed, not yet processed, with a guest name. */
  predicate Imported(x: BookingReservation, syncId: Option<nat>, now: nat)
  {
    x.id.None? && x.reserveId.None? && x.syncId == syncId
    && x.status == Some(ICal.Confirmed) && x.isProcessed == Some(false) && x.lastModified == Some(now)
    && x.guestName.Some? && (x.checkIn.Some? <==> x.checkOut.Some?)
  }

  /**
   * `parseEvent`: the UID (which may be missing), the stay dates when both
   * are given, and the guest name from the summary. A block or an
   * unreadable date gives no row.
   */
  function ParseEvent(chunk: string, syncId: Option<nat>, now: nat): (r: Option<BookingReservation>)
    ensures r.Some? <==>
      IsRealReservation(ICal.ExtractProperty(chunk, ICal.SummaryProperty)) && ICal.DatesReadable(chunk)
    ensures r.Some? ==> Imported(r.value, syncId, now)
    ensures r.Some? ==> r.value.bookingReservationId == ICal.ExtractProperty(chunk, ICal.UidProperty)
    ensures r.Some? ==>
      r.value.guestName == Some(ExtractGuestNameFromSummary(ICal.ExtractProperty(chunk, ICal.SummaryProperty).value))
    ensures r.Some? ==>
      (r.value.checkIn.Some? <==>
         ICal.ExtractProperty(chunk, ICal.DtStartProperty).Some? && ICal.ExtractProperty(chunk, ICal.DtEndProperty).Some?)
    ensures r.Some? && r.value.checkIn.Some? ==>
      ICal.ParseICalDate(ICal.ExtractProperty(chunk, ICal.DtStartProperty).value) == Ok(r.value.checkIn.value)
      && ICal.ParseICalDate(ICal.ExtractProperty(chunk, ICal.DtEndProperty).value) == Ok(r.value.checkOut.value)
  {
    var uid := ICal.ExtractProperty(chunk, ICal.UidProperty);
    var dtStart := ICal.ExtractProperty(chunk, ICal.DtStartProperty);
    var dtEnd := ICal.ExtractProperty(chunk, ICal.DtEndProperty);
    var checkIn := if dtStart.Some? && dtEnd.Some? then Some(ICal.ParseICalDate(dtStart.value)) else None;
    var checkOut := if dtStart.Some? && dtEnd.Some? then Some(ICal.ParseICalDate(dtEnd.value)) else None;
    if (checkIn.Some? && checkIn.value.Err?) || (checkOut.Some? && checkOut.value.Err?) then None
    else
      var summary := ICal.ExtractProperty(chunk, ICal.SummaryProperty);
      if !IsRealReservation(summary) then None
      else
        Some(BookingReservation(
          None, uid, Some(ExtractGuestNameFromSummary(summary.value)),
          if checkIn.Some? then Some(checkIn.value.value) else None,
          if checkOut.Some? then Some(checkOut.value.value) else None,
          Some(ICal.Confirmed), Some(now), Some(false), syncId, None))
  }

  /** One piece of the split feed: kept when it closes an event and parses to a row. */
  function ParseChunk(chunk: string, syncId: Option<nat>, now: nat): Option<BookingReservation>
  {
    if Contains(chunk, ICal.EndEvent) then ParseEvent(chunk, syncId, now) else None
  }

  /** The rows parsed from the pieces of a feed, in feed order. */
  function ParsedEvents(chunks: seq<string>, syncId: Option<nat>, now: nat): (r: seq<BookingReservation>)
    ensures |r| <= |chunks|
    ensures forall k :: 0 <= k < |r| ==> Imported(r[k], syncId, now)
  {
    if chunks == [] then []
    else
      var init := ParsedEvents(chunks[..|chunks| - 1], syncId, now);
      match ParseChunk(chunks[|chunks| - 1], syncId, now)
      case None => init
      case Some(x) => init + [x]
  }

  /** One more feed piece parsed: its row, if any, follows the rows of the pieces before it. */
  lemma ParsedEventsStep(chunks: seq<string>, i: nat, syncId: Option<nat>, now: nat)
    requires i < |chunks|
    ensures ParsedEvents(chunks[..i + 1], syncId, now)
            == ParsedEvents(chunks[..i], syncId, now)
               + match ParseChunk(chunks[i], syncId, now) case None => [] case Some(x) => [x]
  {
    assert chunks[..i + 1][..i] == chunks[..i];
  }

  /**
   * `parseICalContent`: split the feed at "BEGIN:VEVENT" and keep, in
   * order, the rows of the pieces that hold "END:VEVENT" and parse.
   */
  method ParseICalContent(content: string, syncId: Option<nat>, now: nat) returns (rows: seq<BookingReservation>)
    ensures rows == ParsedEvents(ICal.EventChunks(content), syncId, now)
    ensures forall k :: 0 <= k < |rows| ==> Imported(rows[k], syncId, now)
  {
    var events := ICal.EventChunks(content);
    rows := [];
    for i := 0 to |events|
      invariant rows == ParsedEvents(events[..i], syncId, now)
    {
      ParsedEventsStep(events, i, syncId, now);
      if Contains(events[i], ICal.EndEvent) {
        var row := ParseEvent(events[i], syncId, now);
        if row.Some? {
          rows := rows + [row.value];
        }
      }
    }
    assert events[..|events|] == events;
  }

  // ------------------------------------------------------------ the internal reservation

  /** The room createInternalReserve books: the connection's room number, else room 101. */
  function TargetRoomNumber(sync: BookingSync): (n: int)
    ensures sync.roomNumber.Some? ==> n == sync.roomNumber.value
    ensures sync.roomNumber.None? ==> n == DefaultRoomNumber
  {
    match sync.roomNumber
    case Some(n) => n
    case None => DefaultRoomNumber
  }

  /**
   * The decision of createInternalReserve: both stay dates and a guest name
   * are needed, then createReserve decides for the stay's nights in the
   * target room, under the row's guest name.
   */
  function Plan(res: BookingReservation, sync: BookingSync, guests: seq<Reserves.Guest>, rooms: seq<Rooms.Room>,
                beds: seq<Rooms.Bed>, roomOccs: seq<Occupations.RoomOccupation>,
                bedOccs: seq<Occupations.BedOccupation>, nextId: nat): (r: Result<ReserveService.Booking>)
    ensures res.checkIn.None? || res.checkOut.None? || res.guestName.None? ==> r.Err?
    ensures r.Ok? ==> r.value.room.number == Some(TargetRoomNumber(sync))
    ensures r.Ok? ==> forall d :: d in r.value.reserve.reservedDays <==> res.checkIn.value <= d < res.checkOut.value
  {
    if res.checkIn.None? || res.checkOut.None? || res.guestName.None? then Err(Runtime)
    else
      Calendar.SpanMembers(res.checkIn.value, res.checkOut.value);
      ReserveService.PlanCreateReserve(guests, rooms, beds, roomOccs, bedOccs, res.guestName.value,
                                       TargetRoomNumber(sync), Calendar.Span(res.checkIn.value, res.checkOut.value),
                                       nextId)
  }


  /**
   * Whether a failed createInternalReserve leaves the enclosing transaction
   * rollback-only: once both stay dates are known the failure comes out of
   * createReserve, a transactional call (a missing guest name fails there
   * too, as no guest has it); without the dates it comes from the
   * service's own code.
   */
  predicate MarksRollbackOnly(res: BookingReservation, plan: Result<ReserveService.Booking>)
  {
    plan.Err? && res.checkIn.Some? && res.checkOut.Some?
  }

  /**
   * `createInternalReserve`: the stay's nights in the target room under the
   * row's guest name, through createReserve; the row is linked to the new
   * reservation on success. A failure leaves the hostel tables untouched;
   * `marked` tells whether it also left the transaction rollback-only.
   */
  method CreateInternalReserve(db: Hostel.Database, res: BookingReservation, sync: BookingSync)
    returns (linked: BookingReservation, r: Result<Reserves.Reserve>, marked: bool)
    requires db.NoDoubleBooking()
    modifies db`reserves, db`roomOccupations, db`bedOccupations, db`nextId
    ensures db.NoDoubleBooking()
    ensures linked == if r.Ok? then res.(reserveId := Some(r.value.id)) else res
    ensures var plan := Plan(res, sync, db.guests, db.rooms, db.beds, old(db.roomOccupations),
                             old(db.bedOccupations), old(db.nextId));
      (r.Ok? <==> plan.Ok?)
      && (r.Ok? ==> r.value == plan.value.reserve
                    && ReserveService.Recorded(plan.value, db.beds, old(db.reserves), old(db.roomOccupations),
                                               old(db.bedOccupations), db.guests, db.reserves,
                                               db.roomOccupations, db.bedOccupations)
                    && db.nextId == ReserveService.NextIdAfter(plan.value))
      && marked == MarksRollbackOnly(res, plan)
    ensures r.Err? ==>
      db.reserves == old(db.reserves) && db.roomOccupations == old(db.roomOccupations)
      && db.bedOccupations == old(db.bedOccupations) && db.nextId == old(db.nextId)
  {
    linked := res;
    if res.checkIn.None? || res.checkOut.None? {
      return linked, Err(Runtime), false;
    }
    if res.guestName.None? {
      return linked, Err(Runtime), true;
    }
    var dates := Calendar.DatesBetween(res.checkIn.value, res.checkOut.value);
    r := ReserveService.CreateReserve(db, res.guestName.value, TargetRoomNumber(sync), dates);
    marked := r.Err?;
    if r.Ok? {
      linked := res.(reserveId := Some(r.value.id));
    }
  }

  // ------------------------------------------------------------ importing one row

  /** What processing one parsed row did. */
  datatype Outcome = LookupFailed | AlreadyStored | Stored(processed: bool)

  /**
   * What an import carries from row to row inside its one transaction: the
   * stored Booking.com rows, the channel tables' id counter, the hostel
   * tables, and whether a failure has left the transaction rollback-only.
   */
  datatype ImportState = ImportState(rows: seq<BookingReservation>, nextId: nat, tables: Hostel.Tables,
                                     rollbackOnly: bool)

  /**
   * The effect of processBookingReservation on the import state: a failing
   * UID lookup (several stored rows with the UID) changes no table but
   * dooms the transaction; a known UID changes nothing; otherwise the row
   * is stored.
   */
  function ImportRow(s: ImportState, res: BookingReservation, sync: BookingSync, rooms: seq<Rooms.Room>,
                     beds: seq<Rooms.Bed>): (r: ImportState)
    ensures s.rollbackOnly ==> r.rollbackOnly
  {
    match BookingReservationByUid(s.rows, res.bookingReservationId)
    case Err(_) => s.(rollbackOnly := true)
    case Ok(Some(_)) => s
    case Ok(None) => StoreRow(s, res, sync, rooms, beds)
  }

  /**
   * A new row stored: appended with the next id and its outcome, the
   * booking (when the plan succeeds) written to the hostel tables, and the
   * transaction doomed by a failure that crossed a transactional call.
   */
  function StoreRow(s: ImportState, res: BookingReservation, sync: BookingSync, rooms: seq<Rooms.Room>,
                    beds: seq<Rooms.Bed>): (r: ImportState)
    ensures s.rollbackOnly ==> r.rollbackOnly
    ensures |r.rows| == |s.rows| + 1 && r.rows[..|s.rows|] == s.rows && r.nextId == s.nextId + 1
    ensures r.rows[|s.rows|].bookingReservationId == res.bookingReservationId
  {
    var t := s.tables;
    var plan := Plan(res, sync, t.guests, rooms, beds, t.roomOccupations, t.bedOccupations, t.nextId);
    var row := res.(id := Some(s.nextId), isProcessed := Some(plan.Ok?),
                    reserveId := if plan.Ok? then Some(plan.value.reserve.id) else None);
    ImportState(s.rows + [row], s.nextId + 1,
                if plan.Ok? then ReserveService.AfterBooking(plan.value, beds, t) else t,
                s.rollbackOnly || MarksRollbackOnly(res, plan))
  }

  /** Importing the same feed row again, once its UID is stored, changes nothing: the row is found and skipped. */
  lemma ReimportChangesNothing(s: ImportState, res: BookingReservation, sync: BookingSync, rooms: seq<Rooms.Room>,
                               beds: seq<Rooms.Bed>)
    requires BookingReservationByUid(s.rows, res.bookingReservationId).Ok?
    ensures var r := ImportRow(s, res, sync, rooms, beds);
      ImportRow(r, res, sync, rooms, beds) == r
  {
    var uid := res.bookingReservationId;
    if BookingReservationByUid(s.rows, uid) == Ok(None) {
      var r := StoreRow(s, res, sync, rooms, beds);
      var n := |s.rows|;
      Seqs.CountAtMostOne(r.rows, BookingUidIs(uid));
      assert BookingUidIs(uid)(r.rows[n]);
    }
  }

  /**
   * The part of processBookingReservation for a row whose UID is not stored
   * yet: the row is saved (taking the next id), the internal reservation is
   * attempted, and the row is saved again with the outcome.
   */
  method StoreNewRow(store: ChannelStore, db: Hostel.Database, res: BookingReservation, sync: BookingSync)
    returns (processed: bool, marked: bool)
    requires res.id.None? && res.reserveId.None?
    requires BookingReservationByUid(store.bookingReservations, res.bookingReservationId) == Ok(None)
    requires db.NoDoubleBooking()
    modifies store`bookingReservations, store`nextId
    modifies db`reserves, db`roomOccupations, db`bedOccupations, db`nextId
    ensures db.NoDoubleBooking()
    ensures StoreRow(ImportState(old(store.bookingReservations), old(store.nextId), old(db.BookingState()), false),
                     res, sync, db.rooms, db.beds)
            == ImportState(store.bookingReservations, store.nextId, db.BookingState(), marked)
  {
    ghost var tables0 := db.BookingState();
    var id := store.nextId;
    var n := |store.bookingReservations|;
    store.bookingReservations := store.bookingReservations + [res.(id := Some(id))];
    store.nextId := id + 1;
    var linked, made, doomed := CreateInternalReserve(db, res, sync);
    store.bookingReservations := store.bookingReservations[n := linked.(id := Some(id), isProcessed := Some(made.Ok?))];
    processed, marked := made.Ok?, doomed;
    StoredRowIsImportRow(ImportState(old(store.bookingReservations), old(store.nextId), tables0, false), res, sync,
                         db.rooms, db.beds, store.bookingReservations, db.BookingState(), marked);
  }

  /**
   * `processBookingReservation`: a row whose UID is already stored is
   * skipped (a missing UID matches a stored row without one); otherwise
   * it is saved (taking the next id), the internal reservation is
   * attempted, and the row is saved again with the outcome. A failing
   * lookup is caught, changes no table, and leaves the transaction
   * rollback-only.
   */
  method ProcessBookingReservation(store: ChannelStore, db: Hostel.Database, res: BookingReservation,
                                   sync: BookingSync)
    returns (outcome: Outcome, marked: bool)
    requires res.id.None? && res.reserveId.None?
    requires db.NoDoubleBooking()
    modifies store`bookingReservations, store`nextId
    modifies db`reserves, db`roomOccupations, db`bedOccupations, db`nextId
    ensures db.NoDoubleBooking()
    ensures var found := BookingReservationByUid(old(store.bookingReservations), res.bookingReservationId);
      (outcome == LookupFailed <==> found.Err?) && (outcome == AlreadyStored <==> found.Ok? && found.value.Some?)
    ensures ImportRow(ImportState(old(store.bookingReservations), old(store.nextId), old(db.BookingState()), false),
                      res, sync, db.rooms, db.beds)
            == ImportState(store.bookingReservations, store.nextId, db.BookingState(), marked)
  {
    var found := BookingReservationByUid(store.bookingReservations, res.bookingReservationId);
    if found.Err? {
      return LookupFailed, true;
    }
    if found.value.Some? {
      return AlreadyStored, false;
    }
    var processed;
    processed, marked := StoreNewRow(store, db, res, sync);
    outcome := Stored(processed);
  }

  /** The tables processBookingReservation leaves after storing a new row are the ones StoreRow describes. */
  lemma StoredRowIsImportRow(s: ImportState, res: BookingReservation, sync: BookingSync, rooms: seq<Rooms.Room>,
                             beds: seq<Rooms.Bed>, rows: seq<BookingReservation>, tables: Hostel.Tables,
                             marked: bool)
    requires !s.rollbackOnly && BookingReservationByUid(s.rows, res.bookingReservationId) == Ok(None)
    requires var t := s.tables;
      var plan := Plan(res, sync, t.guests, rooms, beds, t.roomOccupations, t.bedOccupations, t.nextId);
      && |rows| == |s.rows| + 1 && rows[..|s.rows|] == s.rows
      && rows[|s.rows|] == res.(id := Some(s.nextId), isProcessed := Some(plan.Ok?),
                                reserveId := if plan.Ok? then Some(plan.value.reserve.id) else None)
      && (plan.Ok? ==> ReserveService.Recorded(plan.value, beds, t.reserves, t.roomOccupations, t.bedOccupations,
                                               tables.guests, tables.reserves, tables.roomOccupations,
                                               tables.bedOccupations)
                       && tables.nextId == ReserveService.NextIdAfter(plan.value))
      && (plan.Err? ==> tables == t)
      && marked == MarksRollbackOnly(res, plan)
    ensures ImportRow(s, res, sync, rooms, beds) == ImportState(rows, s.nextId + 1, tables, marked)
  {
    var t := s.tables;
    var plan := Plan(res, sync, t.guests, rooms, beds, t.roomOccupations, t.bedOccupations, t.nextId);
    if plan.Ok? {
      ReserveService.RecordedIsAfterBooking(plan.value, beds, t, tables);
    }
    assert rows == s.rows + [rows[|s.rows|]];
  }

  /**
   * Events without a UID: once one is stored, every later one matches it
   * and is skipped, so only the first UID-less event is ever imported.
   */
  lemma OnlyFirstMissingUidImported(rs: seq<BookingReservation>)
    requires DistinctBookingUids(rs) && HoldsBookingUid(rs, None)
    ensures BookingReservationByUid(rs, None).Ok? && BookingReservationByUid(rs, None).value.Some?
  {
    BookingUidLookupSucceeds(rs, None);
  }

  // ------------------------------------------------------------ one synchronisation

  /** What a synchronisation counted. */
  datatype SyncCounts = SyncCounts(processed: nat, errors: nat)

  /** The rows a feed yields for a connection. */
  function FeedRows(content: string, sync: BookingSync, now: nat): (r: seq<BookingReservation>)
    ensures forall k :: 0 <= k < |r| ==> Imported(r[k], sync.id, now)
  {
    ParsedEvents(ICal.EventChunks(content), sync.id, now)
  }

  /** A UID stays held when rows are only appended. */
  lemma HoldsAfterAppend(a: seq<BookingReservation>, b: seq<BookingReservation>, uid: Option<string>)
    requires a <= b && HoldsBookingUid(a, uid)
    ensures HoldsBookingUid(b, uid)
  {
    var j :| 0 <= j < |a| && a[j].bookingReservationId == uid;
    assert b[j] == a[j];
  }

  /** The import state after the first `k` of the given rows were processed in order from `s`. */
  function ImportPrefix(s: ImportState, rows: seq<BookingReservation>, k: nat, sync: BookingSync,
                        rooms: seq<Rooms.Room>, beds: seq<Rooms.Bed>): (r: ImportState)
    requires k <= |rows|
    decreases k, 0
  {
    if k == 0 then s else ImportStep(s, rows, k - 1, sync, rooms, beds)
  }

  /** The import state once the j-th row has been processed after the rows before it. */
  function ImportStep(s: ImportState, rows: seq<BookingReservation>, j: nat, sync: BookingSync,
                      rooms: seq<Rooms.Room>, beds: seq<Rooms.Bed>): (r: ImportState)
    requires j < |rows|
    decreases j, 2
  {
    ImportRowAt(s, rows, j, sync, rooms, beds)
  }

  /** The j-th row processed from the state the rows before it left. */
  function ImportRowAt(s: ImportState, rows: seq<BookingReservation>, j: nat, sync: BookingSync,
                       rooms: seq<Rooms.Room>, beds: seq<Rooms.Bed>): (r: ImportState)
    requires j < |rows|
    decreases j, 1
  {
    ImportRow(ImportPrefix(s, rows, j, sync, rooms, beds), rows[j], sync, rooms, beds)
  }

  /** The import state after all the given rows were processed in order from `s`. */
  function ImportRun(s: ImportState, rows: seq<BookingReservation>, sync: BookingSync, rooms: seq<Rooms.Room>,
                     beds: seq<Rooms.Bed>): ImportState
  {
    ImportPrefix(s, rows, |rows|, sync, rooms, beds)
  }

  /** One more row processed: the row's own step applied to the state before it. */
  lemma ImportPrefixStep(s: ImportState, rows: seq<BookingReservation>, k: nat, sync: BookingSync,
                         rooms: seq<Rooms.Room>, beds: seq<Rooms.Bed>)
    requires k < |rows|
    ensures ImportPrefix(s, rows, k + 1, sync, rooms, beds)
         == ImportRow(ImportPrefix(s, rows, k, sync, rooms, beds), rows[k], sync, rooms, beds)
  {
    assert ImportPrefix(s, rows, k + 1, sync, rooms, beds) == ImportStep(s, rows, k, sync, rooms, beds);
    assert ImportStep(s, rows, k, sync, rooms, beds) == ImportRowAt(s, rows, k, sync, rooms, beds);
  }

  /**
   * One more row processed: the row's own step, applied to the state before
   * it with the mark cleared, and the earlier mark kept.
   */
  lemma ImportPrefixAdvance(s: ImportState, rows: seq<BookingReservation>, k: nat, sync: BookingSync,
                            rooms: seq<Rooms.Room>, beds: seq<Rooms.Bed>, rowsA: seq<BookingReservation>,
                            nextIdA: nat, tablesA: Hostel.Tables, mark: bool, after: ImportState)
    requires k < |rows|
    requires ImportPrefix(s, rows, k, sync, rooms, beds) == ImportState(rowsA, nextIdA, tablesA, mark)
    requires ImportRow(ImportState(rowsA, nextIdA, tablesA, false), rows[k], sync, rooms, beds) == after
    ensures ImportPrefix(s, rows, k + 1, sync, rooms, beds) == after.(rollbackOnly := mark || after.rollbackOnly)
  {
    ImportPrefixStep(s, rows, k, sync, rooms, beds);
  }

  /** A new row with both stay dates whose booking fails marks the import rollback-only. */
  lemma FailedRowMarks(s: ImportState, res: BookingReservation, sync: BookingSync, rooms: seq<Rooms.Room>,
                       beds: seq<Rooms.Bed>)
    requires var t := s.tables;
      BookingReservationByUid(s.rows, res.bookingReservationId) == Ok(None)
      && res.checkIn.Some? && res.checkOut.Some?
      && Plan(res, sync, t.guests, rooms, beds, t.roomOccupations, t.bedOccupations, t.nextId).Err?
    ensures ImportRow(s, res, sync, rooms, beds).rollbackOnly
  {
  }

  /** Once the import is rollback-only, processing more rows does not undo it. */
  lemma {:induction false} ImportMarkPersists(s: ImportState, rows: seq<BookingReservation>, i: nat, j: nat,
                                              sync: BookingSync, rooms: seq<Rooms.Room>, beds: seq<Rooms.Bed>)
    requires i <= j <= |rows|
    requires ImportPrefix(s, rows, i, sync, rooms, beds).rollbackOnly
    ensures ImportPrefix(s, rows, j, sync, rooms, beds).rollbackOnly
    decreases j
  {
    if i < j {
      ImportMarkPersists(s, rows, i, j - 1, sync, rooms, beds);
      ImportPrefixStep(s, rows, j - 1, sync, rooms, beds);
    }
  }

  /**
   * A feed row that reaches createInternalReserve (its UID not yet stored)
   * with both stay dates and fails there rolls the whole import back.
   */
  lemma FailedBookingDoomsImport(s: ImportState, rows: seq<BookingReservation>, k: nat, sync: BookingSync,
                                 rooms: seq<Rooms.Room>, beds: seq<Rooms.Bed>)
    requires k < |rows|
    requires var before := ImportPrefix(s, rows, k, sync, rooms, beds);
      var t := before.tables;
      BookingReservationByUid(before.rows, rows[k].bookingReservationId) == Ok(None)
      && rows[k].checkIn.Some? && rows[k].checkOut.Some?
      && Plan(rows[k], sync, t.guests, rooms, beds, t.roomOccupations, t.bedOccupations, t.nextId).Err?
    ensures ImportRun(s, rows, sync, rooms, beds).rollbackOnly
  {
    var before := ImportPrefix(s, rows, k, sync, rooms, beds);
    FailedRowMarks(before, rows[k], sync, rooms, beds);
    ImportPrefixStep(s, rows, k, sync, rooms, beds);
    ImportMarkPersists(s, rows, k + 1, |rows|, sync, rooms, beds);
  }

  /**
   * While the stored UIDs are distinct, processing a row keeps them
   * distinct, only appends, and leaves the row's UID stored.
   */
  lemma ImportRowKeepsUidsDistinct(s: ImportState, res: BookingReservation, sync: BookingSync,
                                   rooms: seq<Rooms.Room>, beds: seq<Rooms.Bed>)
    requires DistinctBookingUids(s.rows)
    ensures var r := ImportRow(s, res, sync, rooms, beds);
      s.rows <= r.rows && DistinctBookingUids(r.rows) && HoldsBookingUid(r.rows, res.bookingReservationId)
  {
    var uid := res.bookingReservationId;
    BookingUidLookupSucceeds(s.rows, uid);
    if BookingReservationByUid(s.rows, uid) == Ok(None) {
      var r := StoreRow(s, res, sync, rooms, beds);
      assert r.rows == s.rows + [r.rows[|s.rows|]];
      assert r.rows[|s.rows|].bookingReservationId == uid;
    }
  }

  /**
   * One more processed row: when rows `a` held the UIDs of the first `k`
   * feed rows and row `k`'s processing only appended (to `b`), kept the
   * UIDs distinct and stored its UID, `b` holds the first `k + 1`.
   */
  lemma KeepsUidsAfterRow(base: seq<BookingReservation>, a: seq<BookingReservation>, b: seq<BookingReservation>, rows: seq<BookingReservation>, k: nat)
    requires k < |rows| && base <= a && a <= b && DistinctBookingUids(b) && HoldsBookingUid(b, rows[k].bookingReservationId)
    requires forall m :: 0 <= m < k ==> HoldsBookingUid(a, rows[m].bookingReservationId)
    ensures base <= b && forall m :: 0 <= m < k + 1 ==> HoldsBookingUid(b, rows[m].bookingReservationId)
  {
    forall m | 0 <= m < k
      ensures HoldsBookingUid(b, rows[m].bookingReservationId)
    {
      HoldsAfterAppend(a, b, rows[m].bookingReservationId);
    }
  }

  /** The j-th row's step, while the stored UIDs are distinct, keeps them so, only appends, and stores its UID. */
  lemma ImportStepKeepsUidsDistinct(s: ImportState, rows: seq<BookingReservation>, j: nat, sync: BookingSync,
                                    rooms: seq<Rooms.Room>, beds: seq<Rooms.Bed>)
    requires j < |rows| && DistinctBookingUids(ImportPrefix(s, rows, j, sync, rooms, beds).rows)
    ensures var before := ImportPrefix(s, rows, j, sync, rooms, beds).rows;
      var after := ImportPrefix(s, rows, j + 1, sync, rooms, beds).rows;
      before <= after && DistinctBookingUids(after) && HoldsBookingUid(after, rows[j].bookingReservationId)
  {
    ImportPrefixStep(s, rows, j, sync, rooms, beds);
    ImportRowKeepsUidsDistinct(ImportPrefix(s, rows, j, sync, rooms, beds), rows[j], sync, rooms, beds);
  }

  /**
   * While the stored UIDs are distinct, processing the first `k` rows
   * keeps them distinct, only appends, and leaves every processed row's
   * UID stored.
   */
  lemma {:induction false} ImportPrefixKeepsUidsDistinct(s: ImportState, rows: seq<BookingReservation>, k: nat,
                                                         sync: BookingSync, rooms: seq<Rooms.Room>,
                                                         beds: seq<Rooms.Bed>)
    requires k <= |rows| && DistinctBookingUids(s.rows)
    ensures var r := ImportPrefix(s, rows, k, sync, rooms, beds);
      s.rows <= r.rows && DistinctBookingUids(r.rows)
      && forall m :: 0 <= m < k ==> HoldsBookingUid(r.rows, rows[m].bookingReservationId)
  {
    if k > 0 {
      ImportPrefixKeepsUidsDistinct(s, rows, k - 1, sync, rooms, beds);
      ImportStepKeepsUidsDistinct(s, rows, k - 1, sync, rooms, beds);
      KeepsUidsAfterRow(s.rows, ImportPrefix(s, rows, k - 1, sync, rooms, beds).rows,
                        ImportPrefix(s, rows, k, sync, rooms, beds).rows, rows, k - 1);
    }
  }

  /** Importing a connection's feed from `s` (a state no failure has marked yet). */
  function FeedImport(s: ImportState, sync: BookingSync, content: string, now: nat, rooms: seq<Rooms.Room>,
                      beds: seq<Rooms.Bed>): ImportState
  {
    ImportRun(s.(rollbackOnly := false), FeedRows(content, sync, now), sync, rooms, beds)
  }

  /** One pass of processAll's loop: the k-th row processed after the rows before it. */
  method ProcessNext(store: ChannelStore, db: Hostel.Database, rows: seq<BookingReservation>, sync: BookingSync,
                     ghost s0: ImportState, k: nat, doomed: bool)
    returns (doomedAfter: bool)
    requires k < |rows| && rows[k].id.None? && rows[k].reserveId.None?
    requires db.NoDoubleBooking()
    requires ImportPrefix(s0, rows, k, sync, db.rooms, db.beds)
             == ImportState(store.bookingReservations, store.nextId, db.BookingState(), doomed)
    modifies store`bookingReservations, store`nextId
    modifies db`reserves, db`roomOccupations, db`bedOccupations, db`nextId
    ensures db.NoDoubleBooking()
    ensures ImportPrefix(s0, rows, k + 1, sync, db.rooms, db.beds)
            == ImportState(store.bookingReservations, store.nextId, db.BookingState(), doomedAfter)
  {
    ghost var rowsA, nextIdA, tablesA := store.bookingReservations, store.nextId, db.BookingState();
    var outcome, marked := ProcessBookingReservation(store, db, rows[k], sync);
    ImportPrefixAdvance(s0, rows, k, sync, db.rooms, db.beds, rowsA, nextIdA, tablesA, doomed,
                        ImportState(store.bookingReservations, store.nextId, db.BookingState(), marked));
    doomedAfter := doomed || marked;
  }

  /**
   * The loop of syncBookingReservations: each parsed row processed in
   * turn. Processing catches its own failures, so every row counts as
   * processed and none as an error. `doomed` tells whether a failure left
   * the transaction rollback-only.
   */
  method ProcessAll(store: ChannelStore, db: Hostel.Database, rows: seq<BookingReservation>, sync: BookingSync)
    returns (counts: SyncCounts, doomed: bool)
    requires forall k :: 0 <= k < |rows| ==> rows[k].id.None? && rows[k].reserveId.None?
    requires db.NoDoubleBooking()
    modifies store`bookingReservations, store`nextId
    modifies db`reserves, db`roomOccupations, db`bedOccupations, db`nextId
    ensures db.NoDoubleBooking()
    ensures counts == SyncCounts(|rows|, 0)
    ensures ImportRun(ImportState(old(store.bookingReservations), old(store.nextId), old(db.BookingState()), false),
                      rows, sync, db.rooms, db.beds)
            == ImportState(store.bookingReservations, store.nextId, db.BookingState(), doomed)
  {
    var processed, errors := 0, 0;
    doomed := false;
    ghost var s0 := ImportState(store.bookingReservations, store.nextId, db.BookingState(), false);
    var k := 0;
    while k < |rows|
      invariant k <= |rows| && processed == k && errors == 0
      invariant db.NoDoubleBooking()
      invariant ImportPrefix(s0, rows, k, sync, db.rooms, db.beds)
                == ImportState(store.bookingReservations, store.nextId, db.BookingState(), doomed)
    {
      doomed := ProcessNext(store, db, rows, sync, s0, k, doomed);
      processed := processed + 1;
      k := k + 1;
    }
    counts := SyncCounts(processed, errors);
  }

  /**
   * What syncBookingReservations makes of the tables `s`: the tables after
   * the feed is imported, when the property id finds exactly one
   * connection, the feed (`fetched`) was fetched and no row's failure left
   * the transaction rollback-only; a failure otherwise.
   */
  function SyncImport(syncs: seq<BookingSync>, propertyId: Option<string>, fetched: Option<string>, now: nat,
                      s: ImportState, rooms: seq<Rooms.Room>, beds: seq<Rooms.Bed>): (r: Result<ImportState>)
    ensures r.Ok? ==> !r.value.rollbackOnly
    ensures r.Err? ==> r.error == Runtime
  {
    var cfg := BookingSyncByPropertyId(syncs, propertyId);
    if cfg.Err? || cfg.value.None? || fetched.None? then Err(Runtime)
    else
      var run := FeedImport(s, syncs[cfg.value.value], fetched.value, now, rooms, beds);
      if run.rollbackOnly then Err(Runtime) else Ok(run)
  }

  /**
   * A synchronisation whose feed holds a new row with both stay dates
   * whose booking fails, fails as a whole.
   */
  lemma FailedBookingFailsSync(syncs: seq<BookingSync>, propertyId: Option<string>, fetched: Option<string>, now: nat,
                               s: ImportState, rooms: seq<Rooms.Room>, beds: seq<Rooms.Bed>, k: nat)
    requires BookingSyncByPropertyId(syncs, propertyId).Ok? && BookingSyncByPropertyId(syncs, propertyId).value.Some?
    requires fetched.Some?
    requires var sync := syncs[BookingSyncByPropertyId(syncs, propertyId).value.value];
      var rows := FeedRows(fetched.value, sync, now);
      k < |rows|
      && var before := ImportPrefix(s.(rollbackOnly := false), rows, k, sync, rooms, beds);
         var t := before.tables;
         BookingReservationByUid(before.rows, rows[k].bookingReservationId) == Ok(None)
         && rows[k].checkIn.Some? && rows[k].checkOut.Some?
         && Plan(rows[k], sync, t.guests, rooms, beds, t.roomOccupations, t.bedOccupations, t.nextId).Err?
    ensures SyncImport(syncs, propertyId, fetched, now, s, rooms, beds).Err?
  {
    var sync := syncs[BookingSyncByPropertyId(syncs, propertyId).value.value];
    FailedBookingDoomsImport(s.(rollbackOnly := false), FeedRows(fetched.value, sync, now), k, sync, rooms, beds);
  }

  /**
   * `syncBookingReservations`: find the connection by property id, parse
   * its feed (`fetched`, the result of fetching the feed URL: `None` when
   * the fetch fails), process every row and stamp the connection with the
   * time of the synchronisation. The whole synchronisation is one
   * transaction: when a row's failure has left it rollback-only, the
   * commit fails and nothing it wrote stays.
   */
  method SyncBookingReservations(store: ChannelStore, db: Hostel.Database, propertyId: Option<string>,
                                 fetched: Option<string>, now: nat)
    returns (r: Result<SyncCounts>)
    requires db.NoDoubleBooking()
    modifies store`bookingSyncs, store`bookingReservations, store`nextId
    modifies db`reserves, db`roomOccupations, db`bedOccupations, db`nextId
    ensures db.NoDoubleBooking()
    ensures var out := SyncImport(old(store.bookingSyncs), propertyId, fetched, now,
                                  ImportState(old(store.bookingReservations), old(store.nextId),
                                              old(db.BookingState()), false), db.rooms, db.beds);
      r.Ok? == out.Ok? && (r.Err? ==> r.error == Runtime)
    ensures r.Err? ==>
      store.bookingSyncs == old(store.bookingSyncs) && store.bookingReservations == old(store.bookingReservations)
      && store.nextId == old(store.nextId) && db.BookingState() == old(db.BookingState())
    ensures r.Ok? ==>
      var i := BookingSyncByPropertyId(old(store.bookingSyncs), propertyId).value.value;
      var sync := old(store.bookingSyncs)[i];
      var rows := FeedRows(fetched.value, sync, now);
      r.value == SyncCounts(|rows|, 0)
      && store.bookingSyncs == old(store.bookingSyncs)[i := sync.(lastSync := Some(now))]
      && var run := SyncImport(old(store.bookingSyncs), propertyId, fetched, now,
                               ImportState(old(store.bookingReservations), old(store.nextId),
                                           old(db.BookingState()), false), db.rooms, db.beds).value;
         store.bookingReservations == run.rows && store.nextId == run.nextId && db.BookingState() == run.tables
  {
    var cfg := BookingSyncByPropertyId(store.bookingSyncs, propertyId);
    if cfg.Err? || cfg.value.None? {
      return Err(Runtime);
    }
    var i := cfg.value.value;
    var sync := store.bookingSyncs[i];
    if fetched.None? {
      return Err(Runtime);
    }
    var rows := ParseICalContent(fetched.value, sync.id, now);
    var counts, committed := ImportTransaction(store, db, rows, sync);
    if !committed {
      return Err(Runtime);
    }
    store.bookingSyncs := store.bookingSyncs[i := sync.(lastSync := Some(now))];
    r := Ok(counts);
  }

  /**
   * The rows processed inside the synchronisation's transaction: committed
   * when no failure left it rollback-only, and otherwise rolled back, so
   * that none of the rows, reserves or occupations written stay.
   */
  method ImportTransaction(store: ChannelStore, db: Hostel.Database, rows: seq<BookingReservation>,
                           sync: BookingSync)
    returns (counts: SyncCounts, committed: bool)
    requires forall k :: 0 <= k < |rows| ==> rows[k].id.None? && rows[k].reserveId.None?
    requires db.NoDoubleBooking()
    modifies store`bookingReservations, store`nextId
    modifies db`reserves, db`roomOccupations, db`bedOccupations, db`nextId
    ensures db.NoDoubleBooking()
    ensures var run := ImportRun(ImportState(old(store.bookingReservations), old(store.nextId),
                                             old(db.BookingState()), false), rows, sync, db.rooms, db.beds);
      committed == !run.rollbackOnly
      && (committed ==>
            counts == SyncCounts(|rows|, 0)
            && store.bookingReservations == run.rows && store.nextId == run.nextId && db.BookingState() == run.tables)
    ensures !committed ==>
      store.bookingReservations == old(store.bookingReservations) && store.nextId == old(store.nextId)
      && db.reserves == old(db.reserves) && db.roomOccupations == old(db.roomOccupations)
      && db.bedOccupations == old(db.bedOccupations) && db.nextId == old(db.nextId)
  {
    var rows0, nextId0 := store.bookingReservations, store.nextId;
    var reserves0, roomOccs0, bedOccs0, dbNextId0 := db.reserves, db.roomOccupations, db.bedOccupations, db.nextId;
    var doomed;
    counts, doomed := ProcessAll(store, db, rows, sync);
    committed := !doomed;
    if doomed {
      store.bookingReservations, store.nextId := rows0, nextId0;
      db.reserves, db.roomOccupations, db.bedOccupations, db.nextId := reserves0, roomOccs0, bedOccs0, dbNextId0;
    }
  }
}
