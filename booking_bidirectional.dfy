/**
 * The Booking.com bidirectional controller: checking a Booking.com
 * calendar URL, setting up a connection (import URL, generated export
 * URL, the requested room number), and synchronising every active
 * connection with a report of what went through.
 */
module BookingBidirectional {
  import opened Wrappers
  import opened Text
  import opened Channels
  import opened SyncResponses
  import Seqs
  import Hostel
  import ICalExport
  import BookingICal

  const BookingHost: string := "booking.com"
  const IcsSuffix: string := ".ics"
  const InvalidUrl: string := "URL iCal da Booking inválida. Deve ser uma URL válida do Booking.com calendar."
  const InvalidCalendarUrl: string := "URL iCal da Booking inválida."
  const DuplicatePrefix: string := "Já existe uma configuração para o Property ID: "
  /** The body of a setup that failed unexpectedly (the exception's own message is not modelled). */
  const SetupFailed: string := "Erro na configuração: "
  /** The same for the calendar setup. */
  const CalendarSetupFailed: string := "Erro na configuração do calendário: "
  const NoActiveConnections: string := "Nenhuma conexão ativa da Booking encontrada."

  // ------------------------------------------------------------ URL check

  /** isValidBookingICalUrl: a non-blank URL that mentions the Booking.com host and ".ics". */
  function IsValidBookingICalUrl(url: Option<string>): (r: bool)
    ensures url.None? ==> !r
    ensures url.Some? && IsBlank(url.value) ==> !r
    ensures r ==> Contains(url.value, BookingHost) && Contains(url.value, IcsSuffix)
  {
    if url.None? || IsBlank(url.value) then false
    else Contains(url.value, BookingHost) && Contains(url.value, IcsSuffix)
  }

  /** Mentioning the host already makes a URL non-blank, so the blank check never decides a present URL. */
  lemma BookingUrlNeedsHostAndSuffix(url: string)
    ensures IsValidBookingICalUrl(Some(url)) <==> Contains(url, BookingHost) && Contains(url, IcsSuffix)
  {
    PartCarriesItsTail(url, BookingHost, 0);
  }

  // ------------------------------------------------------------ setup

  /** The request body of a setup; `None` stands for a field left null. */
  datatype SetupRequest = SetupRequest(bookingIcalUrl: Option<string>, propertyId: Option<string>,
                                       propertyName: Option<string>, calendarName: Option<string>,
                                       roomNumber: Option<int>)

  /** The outcome of the checks of a setup: an error answer, or go on. */
  datatype Verdict = Reject(status: int, response: Response) | Go

  /**
   * The checks before anything is saved, in order: the URL (400 with
   * `invalidUrl`), then an existing connection for the property (400), a
   * lookup that finds several counting as an unexpected failure (500 with
   * `failed`).
   */
  function ConnectionVerdict(syncs: seq<BookingSync>, url: Option<string>, propertyId: Option<string>,
                             invalidUrl: string, failed: string): (v: Verdict)
    ensures v.Go? <==> IsValidBookingICalUrl(url) && forall i :: 0 <= i < |syncs| ==> syncs[i].propertyId != propertyId
    ensures !IsValidBookingICalUrl(url) ==> v == Reject(400, CreateErrorResponse(invalidUrl))
    ensures IsValidBookingICalUrl(url) && BookingSyncByPropertyId(syncs, propertyId).Ok? ==>
      (v.Reject? ==> v == Reject(400, CreateErrorResponse(DuplicatePrefix + ValueOf(propertyId))))
    ensures v.Reject? && v.status == 500 ==>
      v.response == CreateErrorResponse(failed) && Seqs.Count(syncs, BookingPropertyIs(propertyId)) >= 2
  {
    if !IsValidBookingICalUrl(url) then Reject(400, CreateErrorResponse(invalidUrl))
    else
      match BookingSyncByPropertyId(syncs, propertyId)
      case Err(_) => Reject(500, CreateErrorResponse(failed))
      case Ok(Some(_)) => Reject(400, CreateErrorResponse(DuplicatePrefix + ValueOf(propertyId)))
      case Ok(None) => Go
  }

  /** The connection a setup saves: both directions, active, synchronised now, with the request's fields. */
  function NewConnection(req: SetupRequest, exportUrl: string, id: nat, now: nat): (s: BookingSync)
    ensures s.id == Some(id) && s.icalUrl == req.bookingIcalUrl && s.exportIcalUrl == Some(exportUrl)
    ensures s.propertyId == req.propertyId && s.propertyName == req.propertyName
    ensures s.calendarName == req.calendarName && s.roomNumber == req.roomNumber
    ensures s.syncDirection == Some(BIDIRECTIONAL) && s.isActive == Some(true) && s.lastSync == Some(now)
  {
    NewBookingSync(now).(id := Some(id), icalUrl := req.bookingIcalUrl, exportIcalUrl := Some(exportUrl),
                         propertyId := req.propertyId, propertyName := req.propertyName,
                         calendarName := req.calendarName, roomNumber := req.roomNumber,
                         lastSync := Some(now))
  }

  /**
   * setupBidirectional: the URL and duplicate checks, then the export URL
   * (`baseUrl` followed by the generated path, `uuid` the random UUID
   * behind its token) and the new connection. The first synchronisation it
   * starts in the background is not part of this model.
   */
  method SetupBidirectional(store: ChannelStore, req: SetupRequest, baseUrl: string, uuid: string, now: nat)
    returns (status: int, response: Response)
    requires |Seqs.Filter(uuid, (c: char) => c != '-')| >= 16
    modifies store`bookingSyncs, store`nextId
    ensures var check := ConnectionVerdict(old(store.bookingSyncs), req.bookingIcalUrl, req.propertyId,
                                           InvalidUrl, SetupFailed);
      (status == 200 <==> check.Go?) && (check.Reject? ==> status == check.status && response == check.response)
    ensures status != 200 ==> store.bookingSyncs == old(store.bookingSyncs) && store.nextId == old(store.nextId)
    ensures status == 200 ==>
      var exportUrl := baseUrl + ICalExport.GenerateExportUrl(ValueOf(req.propertyId), uuid);
      var id := old(store.nextId);
      store.bookingSyncs == old(store.bookingSyncs) + [NewConnection(req, exportUrl, id, now)]
      && store.nextId == id + 1
      && response == SetupDone(exportUrl, id, None, req.roomNumber)
  {
    var check := ConnectionVerdict(store.bookingSyncs, req.bookingIcalUrl, req.propertyId, InvalidUrl, SetupFailed);
    if check.Reject? {
      return check.status, check.response;
    }
    var exportUrl := baseUrl + ICalExport.GenerateExportUrl(ValueOf(req.propertyId), uuid);
    var id := store.nextId;
    store.bookingSyncs := store.bookingSyncs + [NewConnection(req, exportUrl, id, now)];
    store.nextId := id + 1;
    status, response := 200, SetupDone(exportUrl, id, None, req.roomNumber);
  }

  /**
   * setupCalendarBidirectional: the same checks and connection, with a
   * calendar export URL; the background synchronisation is not part of
   * this model.
   */
  method SetupCalendarBidirectional(store: ChannelStore, req: SetupRequest, baseUrl: string, uuid: string, now: nat)
    returns (status: int, response: Response)
    requires |Seqs.Filter(uuid, (c: char) => c != '-')| >= 16
    modifies store`bookingSyncs, store`nextId
    ensures var check := ConnectionVerdict(old(store.bookingSyncs), req.bookingIcalUrl, req.propertyId,
                                           InvalidCalendarUrl, CalendarSetupFailed);
      (status == 200 <==> check.Go?) && (check.Reject? ==> status == check.status && response == check.response)
    ensures status != 200 ==> store.bookingSyncs == old(store.bookingSyncs) && store.nextId == old(store.nextId)
    ensures status == 200 ==>
      var exportUrl := baseUrl + ICalExport.GenerateCalendarExportUrl(ValueOf(req.propertyId), uuid);
      var id := old(store.nextId);
      store.bookingSyncs == old(store.bookingSyncs) + [NewConnection(req, exportUrl, id, now)]
      && store.nextId == id + 1
      && response == SetupDone(exportUrl, id, None, req.roomNumber)
  {
    var check := ConnectionVerdict(store.bookingSyncs, req.bookingIcalUrl, req.propertyId,
                                   InvalidCalendarUrl, CalendarSetupFailed);
    if check.Reject? {
      return check.status, check.response;
    }
    var exportUrl := baseUrl + ICalExport.GenerateCalendarExportUrl(ValueOf(req.propertyId), uuid);
    var id := store.nextId;
    store.bookingSyncs := store.bookingSyncs + [NewConnection(req, exportUrl, id, now)];
    store.nextId := id + 1;
    status, response := 200, SetupDone(exportUrl, id, None, req.roomNumber);
  }

  /** Once a connection for a property is saved, setting the same property up again is refused as a duplicate. */
  lemma SetupTwiceIsDuplicate(syncs: seq<BookingSync>, c: BookingSync, url: Option<string>,
                              invalidUrl: string, failed: string)
    requires ConnectionVerdict(syncs, url, c.propertyId, invalidUrl, failed).Go?
    ensures ConnectionVerdict(syncs + [c], url, c.propertyId, invalidUrl, failed)
         == Reject(400, CreateErrorResponse(DuplicatePrefix + ValueOf(c.propertyId)))
  {
    var p := BookingPropertyIs(c.propertyId);
    Seqs.FilterAppend(syncs, [c], p);
    assert Seqs.Count(syncs, p) == 0;
    assert Seqs.Count(syncs + [c], p) == 1;
  }

  // ------------------------------------------------------------ synchronise every connection

  /** The tables syncAll works on: the connection rows, the imported events with the hostel tables, the report so far. */
  datatype SweepState = SweepState(syncs: seq<BookingSync>, imp: BookingICal.ImportState, results: seq<SyncResult>)

  /**
   * The tables once the connections before position `n` (of `syncs0`, the
   * rows read at the start) have been synchronised in order from `st0`.
   */
  function Sweep(syncs0: seq<BookingSync>, st0: SweepState, n: nat, fetch: string -> Option<string>, now: nat,
                 rooms: seq<Rooms.Room>, beds: seq<Rooms.Bed>): (r: SweepState)
    requires n <= |syncs0| == |st0.syncs|
    ensures |r.syncs| == |syncs0|
    decreases n, 0
  {
    if n == 0 then st0 else SweepStep(syncs0, st0, n - 1, fetch, now, rooms, beds)
  }

  /**
   * The j-th connection of syncAll: an inactive one is skipped; an active
   * one is synchronised against the tables the connections before it left
   * and reported, and stamped with `now` when it went through.
   */
  function SweepStep(syncs0: seq<BookingSync>, st0: SweepState, j: nat, fetch: string -> Option<string>, now: nat,
                     rooms: seq<Rooms.Room>, beds: seq<Rooms.Bed>): (r: SweepState)
    requires j < |syncs0| == |st0.syncs|
    ensures |r.syncs| == |syncs0|
    decreases j, 2
  {
    var st := Sweep(syncs0, st0, j, fetch, now, rooms, beds);
    var c := syncs0[j];
    if !IsActiveBooking(c) then st
    else
      match SweepRun(syncs0, st0, j, fetch, now, rooms, beds)
      case Ok(run) =>
        SweepState(st.syncs[j := c.(lastSync := Some(now))], run, st.results + [SyncResult(c.propertyId, c.propertyName, true)])
      case Err(_) => st.(results := st.results + [SyncResult(c.propertyId, c.propertyName, false)])
  }

  /** The synchronisation of the j-th connection against the tables the connections before it left. */
  function SweepRun(syncs0: seq<BookingSync>, st0: SweepState, j: nat, fetch: string -> Option<string>, now: nat,
                    rooms: seq<Rooms.Room>, beds: seq<Rooms.Bed>): Result<BookingICal.ImportState>
    requires j < |syncs0| == |st0.syncs|
    decreases j, 1
  {
    var st := Sweep(syncs0, st0, j, fetch, now, rooms, beds);
    BookingICal.SyncImport(st.syncs, syncs0[j].propertyId, FetchFeed(syncs0[j].icalUrl, fetch), now, st.imp, rooms,
                          beds)
  }

  /** One more connection: its synchronisation runs against the tables the connections before it left. */
  lemma SweepRunIs(syncs0: seq<BookingSync>, st0: SweepState, j: nat, fetch: string -> Option<string>, now: nat,
                   rooms: seq<Rooms.Room>, beds: seq<Rooms.Bed>, st: SweepState)
    requires j < |syncs0| == |st0.syncs|
    requires Sweep(syncs0, st0, j, fetch, now, rooms, beds) == st
    ensures SweepRun(syncs0, st0, j, fetch, now, rooms, beds)
            == BookingICal.SyncImport(st.syncs, syncs0[j].propertyId, FetchFeed(syncs0[j].icalUrl, fetch), now, st.imp,
                                     rooms, beds)
  {
  }

  /**
   * One more connection: when the j-th connection is skipped, or its
   * synchronisation against the tables the connections before it left
   * decides `ok` and the tables as SweepStep says, the sweep over the first
   * j + 1 rows ends in `after`.
   */
  lemma SweepAdvance(syncs0: seq<BookingSync>, st0: SweepState, j: nat, fetch: string -> Option<string>, now: nat,
                     rooms: seq<Rooms.Room>, beds: seq<Rooms.Bed>, before: SweepState, ok: bool, after: SweepState)
    requires j < |syncs0| == |st0.syncs|
    requires Sweep(syncs0, st0, j, fetch, now, rooms, beds) == before
    requires !IsActiveBooking(syncs0[j]) ==> after == before
    requires IsActiveBooking(syncs0[j]) ==>
      var c := syncs0[j];
      var run := BookingICal.SyncImport(before.syncs, c.propertyId, FetchFeed(c.icalUrl, fetch), now, before.imp,
                                       rooms, beds);
      ok == run.Ok?
      && (ok ==> after == SweepState(before.syncs[j := c.(lastSync := Some(now))], run.value,
                                     before.results + [SyncResult(c.propertyId, c.propertyName, true)]))
      && (!ok ==> after == before.(results := before.results + [SyncResult(c.propertyId, c.propertyName, false)]))
    ensures Sweep(syncs0, st0, j + 1, fetch, now, rooms, beds) == after
  {
    assert Sweep(syncs0, st0, j + 1, fetch, now, rooms, beds)
        == SweepStep(syncs0, st0, j, fetch, now, rooms, beds);
    SweepRunIs(syncs0, st0, j, fetch, now, rooms, beds, before);
  }

  /** A report names the given connections, one entry each, in order. */
  predicate ReportsOn(results: seq<SyncResult>, cs: seq<BookingSync>)
  {
    |results| == |cs|
    && forall k :: 0 <= k < |cs| ==> results[k].propertyId == cs[k].propertyId && results[k].propertyName == cs[k].propertyName
  }

  /** Rows hold the same property ids, position by position. */
  predicate SamePropertyIds(a: seq<BookingSync>, b: seq<BookingSync>)
  {
    |a| == |b| && forall j :: 0 <= j < |a| ==> a[j].propertyId == b[j].propertyId
  }

  /** The report of the first `n` rows has one entry per active connection among them, in table order. */
  lemma {:induction false} SweepReports(syncs0: seq<BookingSync>, imp0: BookingICal.ImportState, n: nat,
                                        fetch: string -> Option<string>, now: nat, rooms: seq<Rooms.Room>,
                                        beds: seq<Rooms.Bed>)
    requires n <= |syncs0|
    ensures ReportsOn(Sweep(syncs0, SweepState(syncs0, imp0, []), n, fetch, now, rooms, beds).results,
                      Seqs.FilterUpTo(syncs0, n, IsActiveBooking))
  {
    if n > 0 {
      SweepReports(syncs0, imp0, n - 1, fetch, now, rooms, beds);
    }
  }

  /** The report of syncAll's loop has one entry per active connection, in table order. */
  lemma SweepReportsActive(syncs0: seq<BookingSync>, imp0: BookingICal.ImportState, fetch: string -> Option<string>,
                           now: nat, rooms: seq<Rooms.Room>, beds: seq<Rooms.Bed>, results: seq<SyncResult>)
    requires Sweep(syncs0, SweepState(syncs0, imp0, []), |syncs0|, fetch, now, rooms, beds).results == results
    ensures ReportsOn(results, ActiveBookingSyncs(syncs0))
  {
    SweepReports(syncs0, imp0, |syncs0|, fetch, now, rooms, beds);
    Seqs.FilterUpToIsFilter(syncs0, |syncs0|, IsActiveBooking);
    assert syncs0[..|syncs0|] == syncs0;
  }

  /**
   * Synchronising the connections changes a row at most by stamping it,
   * and only an active row the loop has reached; the property ids stay.
   */
  lemma {:induction false} SweepStamps(syncs0: seq<BookingSync>, imp0: BookingICal.ImportState, n: nat,
                                       fetch: string -> Option<string>, now: nat, rooms: seq<Rooms.Room>,
                                       beds: seq<Rooms.Bed>)
    requires n <= |syncs0|
    ensures var r := Sweep(syncs0, SweepState(syncs0, imp0, []), n, fetch, now, rooms, beds).syncs;
      && (forall j :: 0 <= j < |syncs0| ==>
            r[j] == syncs0[j] || (j < n && IsActiveBooking(syncs0[j]) && r[j] == syncs0[j].(lastSync := Some(now))))
      && (forall j :: n <= j < |syncs0| ==> r[j] == syncs0[j])
      && SamePropertyIds(r, syncs0)
  {
    if n > 0 {
      SweepStamps(syncs0, imp0, n - 1, fetch, now, rooms, beds);
    }
  }

  /**
   * A connection that does not go through changes no table: when no entry
   * of the report went through, the rows and the tables are as they were.
   */
  lemma {:induction false} SweepWithoutSuccess(syncs0: seq<BookingSync>, imp0: BookingICal.ImportState, n: nat,
                                               fetch: string -> Option<string>, now: nat, rooms: seq<Rooms.Room>,
                                               beds: seq<Rooms.Bed>)
    requires n <= |syncs0|
    requires NoneWentThrough(Sweep(syncs0, SweepState(syncs0, imp0, []), n, fetch, now, rooms, beds).results)
    ensures var r := Sweep(syncs0, SweepState(syncs0, imp0, []), n, fetch, now, rooms, beds);
      r.syncs == syncs0 && r.imp == imp0
  {
    if n > 0 {
      var st0 := SweepState(syncs0, imp0, []);
      var before := Sweep(syncs0, st0, n - 1, fetch, now, rooms, beds);
      var after := Sweep(syncs0, st0, n, fetch, now, rooms, beds);
      assert after == SweepStep(syncs0, st0, n - 1, fetch, now, rooms, beds);
      if IsActiveBooking(syncs0[n - 1]) {
        var run := SweepRun(syncs0, st0, n - 1, fetch, now, rooms, beds);
        assert after.results[|before.results|].succeeded == run.Ok?;
      }
      assert NoneWentThrough(after.results);
      forall k | 0 <= k < |before.results|
        ensures !before.results[k].succeeded
      {
        assert after.results[k] == before.results[k];
      }
      SweepWithoutSuccess(syncs0, imp0, n - 1, fetch, now, rooms, beds);
    }
  }

  /** No entry of a report went through. */
  predicate NoneWentThrough(results: seq<SyncResult>)
  {
    forall k :: 0 <= k < |results| ==> !results[k].succeeded
  }

  /** A property-id lookup sees only the property ids, position by position. */
  lemma LookupSeesPropertyIds(a: seq<BookingSync>, b: seq<BookingSync>, propertyId: Option<string>)
    requires SamePropertyIds(a, b)
    ensures BookingSyncByPropertyId(a, propertyId) == BookingSyncByPropertyId(b, propertyId)
  {
    var p := BookingPropertyIs(propertyId);
    Seqs.SingleResultCongruent(a, p, b, p);
  }

  /**
   * One connection of syncAll: synchronise its property from its feed URL
   * and, when that goes through, stamp the connection (the copy read at
   * the start, `syncs0[i]`) with `now` and save it; a failure is only
   * reported and, its transaction rolled back, changes nothing.
   */
  method SyncConnection(store: ChannelStore, db: Hostel.Database, syncs0: seq<BookingSync>, i: nat,
                        fetch: string -> Option<string>, now: nat)
    returns (ok: bool)
    requires i < |syncs0| && IsActiveBooking(syncs0[i])
    requires |store.bookingSyncs| == |syncs0|
    requires db.NoDoubleBooking()
    modifies store`bookingSyncs, store`bookingReservations, store`nextId
    modifies db`reserves, db`roomOccupations, db`bedOccupations, db`nextId
    ensures db.NoDoubleBooking()
    ensures var run := BookingICal.SyncImport(old(store.bookingSyncs), syncs0[i].propertyId,
                                             FetchFeed(syncs0[i].icalUrl, fetch), now,
                                             BookingICal.ImportState(old(store.bookingReservations), old(store.nextId),
                                                                    old(db.BookingState()), false),
                                             db.rooms, db.beds);
      ok == run.Ok?
      && (ok ==> store.bookingSyncs == old(store.bookingSyncs)[i := syncs0[i].(lastSync := Some(now))]
                 && store.bookingReservations == run.value.rows && store.nextId == run.value.nextId
                 && db.BookingState() == run.value.tables)
      && (!ok ==> store.bookingSyncs == old(store.bookingSyncs) && store.bookingReservations == old(store.bookingReservations)
                  && store.nextId == old(store.nextId) && db.BookingState() == old(db.BookingState()))
  {
    var connection := syncs0[i];
    var rowsBefore := store.bookingSyncs;
    var synced := BookingICal.SyncBookingReservations(store, db, connection.propertyId,
                                                    FetchFeed(connection.icalUrl, fetch), now);
    ok := synced.Ok?;
    if ok {
      store.bookingSyncs := rowsBefore[i := connection.(lastSync := Some(now))];
    }
  }

  /**
   * The body of syncAll's loop: the i-th connection is skipped when
   * inactive and otherwise synchronised and reported; the tables move on
   * by one step of the sweep.
   */
  method SyncNext(store: ChannelStore, db: Hostel.Database, syncs0: seq<BookingSync>, ghost imp0: BookingICal.ImportState,
                  i: nat, fetch: string -> Option<string>, now: nat, results: seq<SyncResult>,
                  successCount: nat, errorCount: nat)
    returns (ok: bool, next: seq<SyncResult>, successes: nat, errors: nat)
    requires i < |syncs0| && db.NoDoubleBooking()
    requires successCount == SuccessCount(results) && successCount + errorCount == |results|
    requires Sweep(syncs0, SweepState(syncs0, imp0, []), i, fetch, now, db.rooms, db.beds)
             == SweepState(store.bookingSyncs, BookingICal.ImportState(store.bookingReservations, store.nextId,
                                                                     db.BookingState(), false), results)
    modifies store`bookingSyncs, store`bookingReservations, store`nextId
    modifies db`reserves, db`roomOccupations, db`bedOccupations, db`nextId
    ensures db.NoDoubleBooking()
    ensures Sweep(syncs0, SweepState(syncs0, imp0, []), i + 1, fetch, now, db.rooms, db.beds)
            == SweepState(store.bookingSyncs, BookingICal.ImportState(store.bookingReservations, store.nextId,
                                                                    db.BookingState(), false), next)
    ensures next == results + if IsActiveBooking(syncs0[i])
                              then [SyncResult(syncs0[i].propertyId, syncs0[i].propertyName, ok)] else []
    ensures successes == SuccessCount(next) && successes + errors == |next|
  {
    ghost var before := SweepState(store.bookingSyncs, BookingICal.ImportState(store.bookingReservations, store.nextId,
                                                                            db.BookingState(), false), results);
    var connection := syncs0[i];
    ok, next, successes, errors := false, results, successCount, errorCount;
    if IsActiveBooking(connection) {
      ok := SyncConnection(store, db, syncs0, i, fetch, now);
      next := results + [SyncResult(connection.propertyId, connection.propertyName, ok)];
      if ok {
        successes := successes + 1;
      } else {
        errors := errors + 1;
      }
      SuccessCountAppend(results, SyncResult(connection.propertyId, connection.propertyName, ok));
    }
    SweepAdvance(syncs0, SweepState(syncs0, imp0, []), i, fetch, now, db.rooms, db.beds,
                 before, ok, SweepState(store.bookingSyncs, BookingICal.ImportState(store.bookingReservations, store.nextId,
                                                                                  db.BookingState(), false), next));
  }

  /**
   * The loop of syncAll: every active connection in table order, one
   * report entry each, counting those that went through and those that
   * failed; the tables end as the connections' synchronisations, one
   * after the other, leave them.
   */
  method SyncEach(store: ChannelStore, db: Hostel.Database, fetch: string -> Option<string>, now: nat)
    returns (results: seq<SyncResult>, successCount: nat, errorCount: nat)
    requires db.NoDoubleBooking()
    modifies store`bookingSyncs, store`bookingReservations, store`nextId
    modifies db`reserves, db`roomOccupations, db`bedOccupations, db`nextId
    ensures db.NoDoubleBooking()
    ensures var syncs0 := old(store.bookingSyncs);
      var st0 := SweepState(syncs0, BookingICal.ImportState(old(store.bookingReservations), old(store.nextId),
                                                           old(db.BookingState()), false), []);
      var fin := Sweep(syncs0, st0, |syncs0|, fetch, now, db.rooms, db.beds);
      results == fin.results && store.bookingSyncs == fin.syncs
      && store.bookingReservations == fin.imp.rows && store.nextId == fin.imp.nextId && db.BookingState() == fin.imp.tables
    ensures ReportsOn(results, ActiveBookingSyncs(old(store.bookingSyncs)))
    ensures successCount == SuccessCount(results) && successCount + errorCount == |results|
  {
    var syncs0 := store.bookingSyncs;
    ghost var imp0 := BookingICal.ImportState(store.bookingReservations, store.nextId, db.BookingState(), false);
    ghost var st0 := SweepState(syncs0, imp0, []);
    results, successCount, errorCount := [], 0, 0;
    for i := 0 to |syncs0|
      invariant Sweep(syncs0, st0, i, fetch, now, db.rooms, db.beds)
                == SweepState(store.bookingSyncs, BookingICal.ImportState(store.bookingReservations, store.nextId,
                                                                        db.BookingState(), false), results)
      invariant successCount == SuccessCount(results) && successCount + errorCount == |results|
      invariant db.NoDoubleBooking()
    {
      var ok: bool;
      ok, results, successCount, errorCount :=
        SyncNext(store, db, syncs0, imp0, i, fetch, now, results, successCount, errorCount);
    }
    SweepReportsActive(syncs0, imp0, fetch, now, db.rooms, db.beds, results);
  }

  /**
   * syncAll: with no active connection, an error body (still a 200) and no
   * change; otherwise every active connection is synchronised in table
   * order (`fetch` gives each feed URL's content), a connection that went
   * through is stamped with `now`, and the report counts the connections
   * that went through and those that failed.
   */
  method SyncAll(store: ChannelStore, db: Hostel.Database, fetch: string -> Option<string>, now: nat)
    returns (status: int, response: Response)
    requires db.NoDoubleBooking()
    modifies store`bookingSyncs, store`bookingReservations, store`nextId
    modifies db`reserves, db`roomOccupations, db`bedOccupations, db`nextId
    ensures status == 200 && db.NoDoubleBooking()
    ensures var syncs0 := old(store.bookingSyncs);
      var active := ActiveBookingSyncs(syncs0);
      var st0 := SweepState(syncs0, BookingICal.ImportState(old(store.bookingReservations), old(store.nextId),
                                                           old(db.BookingState()), false), []);
      var fin := Sweep(syncs0, st0, |syncs0|, fetch, now, db.rooms, db.beds);
      ReportsOn(fin.results, active)
      && (active == [] ==> response == CreateErrorResponse(NoActiveConnections))
      && (active != [] ==>
            response == SyncReport(|active|, SuccessCount(fin.results), |active| - SuccessCount(fin.results), fin.results))
      && store.bookingSyncs == fin.syncs && store.bookingReservations == fin.imp.rows && store.nextId == fin.imp.nextId
      && db.BookingState() == fin.imp.tables
    ensures response.SyncReport? ==> response.successCount + response.errorCount == response.totalConnections
  {
    var syncs0 := store.bookingSyncs;
    var active := ActiveBookingSyncs(syncs0);
    if active == [] {
      ghost var imp0 := BookingICal.ImportState(store.bookingReservations, store.nextId, db.BookingState(), false);
      SweepReportsActive(syncs0, imp0, fetch, now, db.rooms, db.beds,
                         Sweep(syncs0, SweepState(syncs0, imp0, []), |syncs0|, fetch, now, db.rooms, db.beds).results);
      SweepWithoutSuccess(syncs0, imp0, |syncs0|, fetch, now, db.rooms, db.beds);
      return 200, CreateErrorResponse(NoActiveConnections);
    }
    var results, successCount, errorCount := SyncEach(store, db, fetch, now);
    status, response := 200, SyncReport(|active|, successCount, errorCount, results);
  }
}
