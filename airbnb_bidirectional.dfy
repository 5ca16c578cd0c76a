/**
 * The Airbnb bidirectional controller: checking an Airbnb calendar URL,
 * setting up a connection (import URL, generated export URL, optional
 * linked room), and synchronising every active connection with a report
 * of what went through.
 */
module AirbnbBidirectional {
  import opened Wrappers
  import opened Text
  import opened Channels
  import opened SyncResponses
  import Seqs
  import Rooms
  import Hostel
  import Occupations
  import ICalExport
  import AirbnbICal

  const AirbnbCalendarMarker: string := "airbnb.com/calendar/ical/"
  const InvalidUrl: string := "URL iCal do Airbnb inválida. Deve ser uma URL válida do Airbnb calendar."
  const InvalidCalendarUrl: string := "URL iCal do Airbnb inválida."
  const DuplicatePrefix: string := "Já existe uma configuração para o Property ID: "
  const RoomIdPrefix: string := "Quarto não encontrado com ID: "
  /** The body of a request that failed unexpectedly (the exception's own message is not modelled). */
  const SetupFailed: string := "Erro na configuração: "
  const NoActiveConnections: string := "Nenhuma conexão ativa encontrada."

  // ------------------------------------------------------------ URL check

  /** isValidAirbnbICalUrl: a non-blank URL holding the Airbnb calendar path and either ".ics" or "ical/". */
  function IsValidAirbnbICalUrl(url: Option<string>): (r: bool)
    ensures url.None? ==> !r
    ensures url.Some? && IsBlank(url.value) ==> !r
    ensures r ==> Contains(url.value, AirbnbCalendarMarker)
  {
    if url.None? || IsBlank(url.value) then false
    else Contains(url.value, AirbnbCalendarMarker) && (Contains(url.value, ".ics") || Contains(url.value, "ical/"))
  }

  /**
   * The Airbnb calendar path already ends in "ical/", and holding it makes
   * the URL non-blank, so a URL is valid exactly when it holds the path.
   */
  lemma AirbnbUrlNeedsOnlyThePath(url: string)
    ensures IsValidAirbnbICalUrl(Some(url)) <==> Contains(url, AirbnbCalendarMarker)
  {
    assert AirbnbCalendarMarker[20..25] == "ical/";
    PartCarriesItsTail(url, AirbnbCalendarMarker, 20);
  }

  // ------------------------------------------------------------ setup

  /** The request body of a setup; `None` stands for a field left null. */
  datatype SetupRequest = SetupRequest(airbnbIcalUrl: Option<string>, propertyId: Option<string>,
                                       propertyName: Option<string>, calendarName: Option<string>,
                                       roomNumber: Option<int>, roomId: Option<nat>)

  /** The outcome of one check of a setup: an error answer, or go on (with the linked room's position, if any). */
  datatype Verdict = Reject(status: int, response: Response) | Go(room: Option<nat>)

  /**
   * The checks before anything is saved, in order: the URL (400 with
   * `invalidUrl`), then an existing connection for the property (400), a
   * lookup that finds several counting as an unexpected failure (500).
   */
  function ConnectionVerdict(syncs: seq<AirbnbSync>, url: Option<string>, propertyId: Option<string>,
                             invalidUrl: string): (v: Verdict)
    ensures v.Go? <==> IsValidAirbnbICalUrl(url) && forall i :: 0 <= i < |syncs| ==> syncs[i].propertyId != propertyId
    ensures v.Go? ==> v.room.None?
    ensures !IsValidAirbnbICalUrl(url) ==> v == Reject(400, CreateErrorResponse(invalidUrl))
    ensures IsValidAirbnbICalUrl(url) && AirbnbSyncByPropertyId(syncs, propertyId).Ok? ==>
      (v.Reject? ==> v == Reject(400, CreateErrorResponse(DuplicatePrefix + ValueOf(propertyId))))
    ensures v.Reject? && v.status == 500 ==> Seqs.Count(syncs, AirbnbPropertyIs(propertyId)) >= 2
  {
    if !IsValidAirbnbICalUrl(url) then Reject(400, CreateErrorResponse(invalidUrl))
    else
      match AirbnbSyncByPropertyId(syncs, propertyId)
      case Err(_) => Reject(500, CreateErrorResponse(SetupFailed))
      case Ok(Some(_)) => Reject(400, CreateErrorResponse(DuplicatePrefix + ValueOf(propertyId)))
      case Ok(None) => Go(None)
  }

  /**
   * The room to link: by id when an id is given (an unknown id is a 400),
   * otherwise by number when a number is given (an unknown number links
   * nothing; several rooms with the number are an unexpected failure).
   */
  function RoomLink(rooms: seq<Rooms.Room>, roomId: Option<nat>, roomNumber: Option<int>): (v: Verdict)
    ensures v.Go? && v.room.Some? ==> v.room.value < |rooms|
    ensures roomId.Some? ==> (v.Go? <==> exists i :: 0 <= i < |rooms| && rooms[i].id == roomId.value)
    ensures roomId.Some? && v.Go? ==> v.room.Some? && rooms[v.room.value].id == roomId.value
    ensures roomId.Some? && v.Reject? ==>
      v == Reject(400, CreateErrorResponse(RoomIdPrefix + NatToString(roomId.value)))
    ensures roomId.None? && roomNumber.Some? && v.Go? && v.room.Some? ==>
      rooms[v.room.value].number == roomNumber
    ensures roomId.None? && roomNumber.Some? ==>
      ((forall i :: 0 <= i < |rooms| ==> rooms[i].number != roomNumber) ==> v == Go(None))
    ensures roomId.None? && v.Reject? ==> v == Reject(500, CreateErrorResponse(SetupFailed))
    ensures roomId.None? && roomNumber.None? ==> v == Go(None)
  {
    if roomId.Some? then
      match Hostel.RoomById(rooms, roomId.value)
      case Err(_) => Reject(400, CreateErrorResponse(RoomIdPrefix + NatToString(roomId.value)))
      case Ok(k) => Go(Some(k))
    else if roomNumber.Some? then
      match Hostel.RoomByNumber(rooms, roomNumber.value)
      case Ok(k) => Go(Some(k))
      case Err(NotFound) => Go(None)
      case Err(_) => Reject(500, CreateErrorResponse(SetupFailed))
    else Go(None)
  }

  /** The connection a setup saves: both directions, active, synchronised now, with the request's fields. */
  function NewConnection(req: SetupRequest, exportUrl: string, roomId: Option<nat>, roomNumber: Option<int>,
                         id: nat, now: nat): (s: AirbnbSync)
    ensures s.id == Some(id) && s.icalUrl == req.airbnbIcalUrl && s.exportIcalUrl == Some(exportUrl)
    ensures s.propertyId == req.propertyId && s.propertyName == req.propertyName
    ensures s.calendarName == req.calendarName && s.roomId == roomId && s.roomNumber == roomNumber
    ensures s.syncDirection == Some(BIDIRECTIONAL) && s.isActive == Some(true) && s.lastSync == Some(now)
  {
    NewAirbnbSync(now).(id := Some(id), icalUrl := req.airbnbIcalUrl, exportIcalUrl := Some(exportUrl),
                        propertyId := req.propertyId, propertyName := req.propertyName,
                        calendarName := req.calendarName, roomId := roomId, roomNumber := roomNumber,
                        lastSync := Some(now))
  }

  /**
   * setupBidirectional: the URL and duplicate checks, the room to link,
   * then the export URL (`baseUrl` followed by the generated path, `uuid`
   * the random UUID behind its token) and the new connection. The first
   * synchronisation it starts in the background is not part of this model.
   */
  method SetupBidirectional(store: ChannelStore, rooms: seq<Rooms.Room>, req: SetupRequest, baseUrl: string,
                            uuid: string, now: nat)
    returns (status: int, response: Response)
    requires |Seqs.Filter(uuid, (c: char) => c != '-')| >= 16
    modifies store`airbnbSyncs, store`nextId
    ensures var check := ConnectionVerdict(old(store.airbnbSyncs), req.airbnbIcalUrl, req.propertyId, InvalidUrl);
      var link := RoomLink(rooms, req.roomId, req.roomNumber);
      (status == 200 <==> check.Go? && link.Go?)
      && (check.Reject? ==> status == check.status && response == check.response)
      && (check.Go? && link.Reject? ==> status == link.status && response == link.response)
    ensures status != 200 ==> store.airbnbSyncs == old(store.airbnbSyncs) && store.nextId == old(store.nextId)
    ensures status == 200 ==>
      var link := RoomLink(rooms, req.roomId, req.roomNumber).room;
      var exportUrl := baseUrl + ICalExport.GenerateExportUrl(ValueOf(req.propertyId), uuid);
      var id := old(store.nextId);
      store.airbnbSyncs == old(store.airbnbSyncs)
        + [NewConnection(req, exportUrl, if link.Some? then Some(rooms[link.value].id) else None, req.roomNumber, id, now)]
      && store.nextId == id + 1
      && response == SetupDone(exportUrl, id, Some(link.Some?), if link.Some? then rooms[link.value].number else req.roomNumber)
  {
    var check := ConnectionVerdict(store.airbnbSyncs, req.airbnbIcalUrl, req.propertyId, InvalidUrl);
    if check.Reject? {
      return check.status, check.response;
    }
    var link := RoomLink(rooms, req.roomId, req.roomNumber);
    if link.Reject? {
      return link.status, link.response;
    }
    var exportUrl := baseUrl + ICalExport.GenerateExportUrl(ValueOf(req.propertyId), uuid);
    var roomId := if link.room.Some? then Some(rooms[link.room.value].id) else None;
    var id := store.nextId;
    store.airbnbSyncs := store.airbnbSyncs + [NewConnection(req, exportUrl, roomId, req.roomNumber, id, now)];
    store.nextId := id + 1;
    var roomNumber := if link.room.Some? then rooms[link.room.value].number else req.roomNumber;
    status, response := 200, SetupDone(exportUrl, id, Some(link.room.Some?), roomNumber);
  }

  /**
   * setupCalendarBidirectional: the same checks, a calendar export URL, and
   * a connection with no room; the background synchronisation is not part
   * of this model.
   */
  method SetupCalendarBidirectional(store: ChannelStore, req: SetupRequest, baseUrl: string, uuid: string, now: nat)
    returns (status: int, response: Response)
    requires |Seqs.Filter(uuid, (c: char) => c != '-')| >= 16
    modifies store`airbnbSyncs, store`nextId
    ensures var check := ConnectionVerdict(old(store.airbnbSyncs), req.airbnbIcalUrl, req.propertyId, InvalidCalendarUrl);
      (status == 200 <==> check.Go?) && (check.Reject? ==> status == check.status && response == check.response)
    ensures status != 200 ==> store.airbnbSyncs == old(store.airbnbSyncs) && store.nextId == old(store.nextId)
    ensures status == 200 ==>
      var exportUrl := baseUrl + ICalExport.GenerateCalendarExportUrl(ValueOf(req.propertyId), uuid);
      var id := old(store.nextId);
      store.airbnbSyncs == old(store.airbnbSyncs) + [NewConnection(req, exportUrl, None, None, id, now)]
      && store.nextId == id + 1
      && response == SetupDone(exportUrl, id, None, None)
  {
    var check := ConnectionVerdict(store.airbnbSyncs, req.airbnbIcalUrl, req.propertyId, InvalidCalendarUrl);
    if check.Reject? {
      return check.status, check.response;
    }
    var exportUrl := baseUrl + ICalExport.GenerateCalendarExportUrl(ValueOf(req.propertyId), uuid);
    var id := store.nextId;
    store.airbnbSyncs := store.airbnbSyncs + [NewConnection(req, exportUrl, None, None, id, now)];
    store.nextId := id + 1;
    status, response := 200, SetupDone(exportUrl, id, None, None);
  }

  /** Once a connection for a property is saved, setting the same property up again is refused as a duplicate. */
  lemma SetupTwiceIsDuplicate(syncs: seq<AirbnbSync>, c: AirbnbSync, url: Option<string>, invalidUrl: string)
    requires ConnectionVerdict(syncs, url, c.propertyId, invalidUrl).Go?
    ensures ConnectionVerdict(syncs + [c], url, c.propertyId, invalidUrl)
         == Reject(400, CreateErrorResponse(DuplicatePrefix + ValueOf(c.propertyId)))
  {
    var p := AirbnbPropertyIs(c.propertyId);
    Seqs.FilterAppend(syncs, [c], p);
    assert Seqs.Count(syncs, p) == 0;
    assert Seqs.Count(syncs + [c], p) == 1;
  }

  // ------------------------------------------------------------ synchronise every connection

  /** The tables syncAll works on: the connection rows, the imported events with the hostel tables, the report so far. */
  datatype SweepState = SweepState(syncs: seq<AirbnbSync>, imp: AirbnbICal.ImportState, results: seq<SyncResult>)

  /**
   * The tables once the connections before position `n` (of `syncs0`, the
   * rows read at the start) have been synchronised in order from `st0`.
   */
  function Sweep(syncs0: seq<AirbnbSync>, st0: SweepState, n: nat, fetch: string -> Option<string>, now: nat,
                 rooms: seq<Rooms.Room>, beds: seq<Rooms.Bed>, emailClock: nat -> nat -> string,
                 rgClock: nat -> nat -> string): (r: SweepState)
    requires n <= |syncs0| == |st0.syncs|
    ensures |r.syncs| == |syncs0|
    decreases n, 0
  {
    if n == 0 then st0 else SweepStep(syncs0, st0, n - 1, fetch, now, rooms, beds, emailClock, rgClock)
  }

  /**
   * The j-th connection of syncAll: an inactive one is skipped; an active
   * one is synchronised against the tables the connections before it left
   * and reported, and stamped with `now` when it went through.
   */
  function SweepStep(syncs0: seq<AirbnbSync>, st0: SweepState, j: nat, fetch: string -> Option<string>, now: nat,
                     rooms: seq<Rooms.Room>, beds: seq<Rooms.Bed>, emailClock: nat -> nat -> string,
                     rgClock: nat -> nat -> string): (r: SweepState)
    requires j < |syncs0| == |st0.syncs|
    ensures |r.syncs| == |syncs0|
    decreases j, 2
  {
    var st := Sweep(syncs0, st0, j, fetch, now, rooms, beds, emailClock, rgClock);
    var c := syncs0[j];
    if !IsActiveAirbnb(c) then st
    else
      match SweepRun(syncs0, st0, j, fetch, now, rooms, beds, emailClock, rgClock)
      case Ok(run) =>
        SweepState(st.syncs[j := c.(lastSync := Some(now))], run, st.results + [SyncResult(c.propertyId, c.propertyName, true)])
      case Err(_) => st.(results := st.results + [SyncResult(c.propertyId, c.propertyName, false)])
  }

  /** The synchronisation of the j-th connection against the tables the connections before it left. */
  function SweepRun(syncs0: seq<AirbnbSync>, st0: SweepState, j: nat, fetch: string -> Option<string>, now: nat,
                    rooms: seq<Rooms.Room>, beds: seq<Rooms.Bed>, emailClock: nat -> nat -> string,
                    rgClock: nat -> nat -> string): Result<AirbnbICal.ImportState>
    requires j < |syncs0| == |st0.syncs|
    decreases j, 1
  {
    var st := Sweep(syncs0, st0, j, fetch, now, rooms, beds, emailClock, rgClock);
    AirbnbICal.SyncImport(st.syncs, syncs0[j].propertyId, FetchFeed(syncs0[j].icalUrl, fetch), now, st.imp, rooms,
                          beds, emailClock(j), rgClock(j))
  }

  /** One more connection: its synchronisation runs against the tables the connections before it left. */
  lemma SweepRunIs(syncs0: seq<AirbnbSync>, st0: SweepState, j: nat, fetch: string -> Option<string>, now: nat,
                   rooms: seq<Rooms.Room>, beds: seq<Rooms.Bed>, emailClock: nat -> nat -> string,
                   rgClock: nat -> nat -> string, st: SweepState)
    requires j < |syncs0| == |st0.syncs|
    requires Sweep(syncs0, st0, j, fetch, now, rooms, beds, emailClock, rgClock) == st
    ensures SweepRun(syncs0, st0, j, fetch, now, rooms, beds, emailClock, rgClock)
            == AirbnbICal.SyncImport(st.syncs, syncs0[j].propertyId, FetchFeed(syncs0[j].icalUrl, fetch), now, st.imp,
                                     rooms, beds, emailClock(j), rgClock(j))
  {
  }

  /**
   * One more connection: when the j-th connection is skipped, or its
   * synchronisation against the tables the connections before it left
   * decides `ok` and the tables as SweepStep says, the sweep over the first
   * j + 1 rows ends in `after`.
   */
  lemma SweepAdvance(syncs0: seq<AirbnbSync>, st0: SweepState, j: nat, fetch: string -> Option<string>, now: nat,
                     rooms: seq<Rooms.Room>, beds: seq<Rooms.Bed>, emailClock: nat -> nat -> string,
                     rgClock: nat -> nat -> string, before: SweepState, ok: bool, after: SweepState)
    requires j < |syncs0| == |st0.syncs|
    requires Sweep(syncs0, st0, j, fetch, now, rooms, beds, emailClock, rgClock) == before
    requires !IsActiveAirbnb(syncs0[j]) ==> after == before
    requires IsActiveAirbnb(syncs0[j]) ==>
      var c := syncs0[j];
      var run := AirbnbICal.SyncImport(before.syncs, c.propertyId, FetchFeed(c.icalUrl, fetch), now, before.imp,
                                       rooms, beds, emailClock(j), rgClock(j));
      ok == run.Ok?
      && (ok ==> after == SweepState(before.syncs[j := c.(lastSync := Some(now))], run.value,
                                     before.results + [SyncResult(c.propertyId, c.propertyName, true)]))
      && (!ok ==> after == before.(results := before.results + [SyncResult(c.propertyId, c.propertyName, false)]))
    ensures Sweep(syncs0, st0, j + 1, fetch, now, rooms, beds, emailClock, rgClock) == after
  {
    assert Sweep(syncs0, st0, j + 1, fetch, now, rooms, beds, emailClock, rgClock)
        == SweepStep(syncs0, st0, j, fetch, now, rooms, beds, emailClock, rgClock);
    SweepRunIs(syncs0, st0, j, fetch, now, rooms, beds, emailClock, rgClock, before);
  }

  /** A report names the given connections, one entry each, in order. */
  predicate ReportsOn(results: seq<SyncResult>, cs: seq<AirbnbSync>)
  {
    |results| == |cs|
    && forall k :: 0 <= k < |cs| ==> results[k].propertyId == cs[k].propertyId && results[k].propertyName == cs[k].propertyName
  }

  /** Rows hold the same property ids, position by position. */
  predicate SamePropertyIds(a: seq<AirbnbSync>, b: seq<AirbnbSync>)
  {
    |a| == |b| && forall j :: 0 <= j < |a| ==> a[j].propertyId == b[j].propertyId
  }

  /** The report of the first `n` rows has one entry per active connection among them, in table order. */
  lemma {:induction false} SweepReports(syncs0: seq<AirbnbSync>, imp0: AirbnbICal.ImportState, n: nat,
                                        fetch: string -> Option<string>, now: nat, rooms: seq<Rooms.Room>,
                                        beds: seq<Rooms.Bed>, emailClock: nat -> nat -> string,
                                        rgClock: nat -> nat -> string)
    requires n <= |syncs0|
    ensures ReportsOn(Sweep(syncs0, SweepState(syncs0, imp0, []), n, fetch, now, rooms, beds, emailClock, rgClock).results,
                      Seqs.FilterUpTo(syncs0, n, IsActiveAirbnb))
  {
    if n > 0 {
      SweepReports(syncs0, imp0, n - 1, fetch, now, rooms, beds, emailClock, rgClock);
    }
  }

  /** The report of syncAll's loop has one entry per active connection, in table order. */
  lemma SweepReportsActive(syncs0: seq<AirbnbSync>, imp0: AirbnbICal.ImportState, fetch: string -> Option<string>,
                           now: nat, rooms: seq<Rooms.Room>, beds: seq<Rooms.Bed>, emailClock: nat -> nat -> string,
                           rgClock: nat -> nat -> string, results: seq<SyncResult>)
    requires Sweep(syncs0, SweepState(syncs0, imp0, []), |syncs0|, fetch, now, rooms, beds, emailClock,
                   rgClock).results == results
    ensures ReportsOn(results, ActiveAirbnbSyncs(syncs0))
  {
    SweepReports(syncs0, imp0, |syncs0|, fetch, now, rooms, beds, emailClock, rgClock);
    Seqs.FilterUpToIsFilter(syncs0, |syncs0|, IsActiveAirbnb);
    assert syncs0[..|syncs0|] == syncs0;
  }

  /**
   * Synchronising the connections changes a row at most by stamping it,
   * and only an active row the loop has reached; the property ids stay.
   */
  lemma {:induction false} SweepStamps(syncs0: seq<AirbnbSync>, imp0: AirbnbICal.ImportState, n: nat,
                                       fetch: string -> Option<string>, now: nat, rooms: seq<Rooms.Room>,
                                       beds: seq<Rooms.Bed>, emailClock: nat -> nat -> string,
                                       rgClock: nat -> nat -> string)
    requires n <= |syncs0|
    ensures var r := Sweep(syncs0, SweepState(syncs0, imp0, []), n, fetch, now, rooms, beds, emailClock, rgClock).syncs;
      && (forall j :: 0 <= j < |syncs0| ==>
            r[j] == syncs0[j] || (j < n && IsActiveAirbnb(syncs0[j]) && r[j] == syncs0[j].(lastSync := Some(now))))
      && (forall j :: n <= j < |syncs0| ==> r[j] == syncs0[j])
      && SamePropertyIds(r, syncs0)
  {
    if n > 0 {
      SweepStamps(syncs0, imp0, n - 1, fetch, now, rooms, beds, emailClock, rgClock);
    }
  }

  /**
   * A connection that does not go through changes no table: when no entry
   * of the report went through, the rows and the tables are as they were.
   */
  lemma {:induction false} SweepWithoutSuccess(syncs0: seq<AirbnbSync>, imp0: AirbnbICal.ImportState, n: nat,
                                               fetch: string -> Option<string>, now: nat, rooms: seq<Rooms.Room>,
                                               beds: seq<Rooms.Bed>, emailClock: nat -> nat -> string,
                                               rgClock: nat -> nat -> string)
    requires n <= |syncs0|
    requires NoneWentThrough(Sweep(syncs0, SweepState(syncs0, imp0, []), n, fetch, now, rooms, beds, emailClock,
                                   rgClock).results)
    ensures var r := Sweep(syncs0, SweepState(syncs0, imp0, []), n, fetch, now, rooms, beds, emailClock, rgClock);
      r.syncs == syncs0 && r.imp == imp0
  {
    if n > 0 {
      var st0 := SweepState(syncs0, imp0, []);
      var before := Sweep(syncs0, st0, n - 1, fetch, now, rooms, beds, emailClock, rgClock);
      var after := Sweep(syncs0, st0, n, fetch, now, rooms, beds, emailClock, rgClock);
      assert after == SweepStep(syncs0, st0, n - 1, fetch, now, rooms, beds, emailClock, rgClock);
      if IsActiveAirbnb(syncs0[n - 1]) {
        var run := SweepRun(syncs0, st0, n - 1, fetch, now, rooms, beds, emailClock, rgClock);
        assert after.results[|before.results|].succeeded == run.Ok?;
      }
      assert NoneWentThrough(after.results);
      forall k | 0 <= k < |before.results|
        ensures !before.results[k].succeeded
      {
        assert after.results[k] == before.results[k];
      }
      SweepWithoutSuccess(syncs0, imp0, n - 1, fetch, now, rooms, beds, emailClock, rgClock);
    }
  }

  /** No entry of a report went through. */
  predicate NoneWentThrough(results: seq<SyncResult>)
  {
    forall k :: 0 <= k < |results| ==> !results[k].succeeded
  }

  /** A property-id lookup sees only the property ids, position by position. */
  lemma LookupSeesPropertyIds(a: seq<AirbnbSync>, b: seq<AirbnbSync>, propertyId: Option<string>)
    requires SamePropertyIds(a, b)
    ensures AirbnbSyncByPropertyId(a, propertyId) == AirbnbSyncByPropertyId(b, propertyId)
  {
    var p := AirbnbPropertyIs(propertyId);
    Seqs.SingleResultCongruent(a, p, b, p);
  }

  /**
   * One connection of syncAll: synchronise its property from its feed URL
   * and, when that goes through, stamp the connection (the copy read at
   * the start, `syncs0[i]`) with `now` and save it; a failure is only
   * reported and, its transaction rolled back, changes nothing.
   * `emailClock(i)(k)` and `rgClock(i)(k)` are the clock texts read while
   * the k-th row of the feed is processed.
   */
  method SyncConnection(store: ChannelStore, db: Hostel.Database, syncs0: seq<AirbnbSync>, i: nat,
                        fetch: string -> Option<string>, now: nat,
                        emailClock: nat -> nat -> string, rgClock: nat -> nat -> string)
    returns (ok: bool)
    requires i < |syncs0| && IsActiveAirbnb(syncs0[i])
    requires |store.airbnbSyncs| == |syncs0|
    requires db.NoDoubleBooking()
    modifies store`airbnbSyncs, store`airbnbReservations, store`nextId
    modifies db`guests, db`reserves, db`roomOccupations, db`bedOccupations, db`nextId
    ensures db.NoDoubleBooking()
    ensures var run := AirbnbICal.SyncImport(old(store.airbnbSyncs), syncs0[i].propertyId,
                                             FetchFeed(syncs0[i].icalUrl, fetch), now,
                                             AirbnbICal.ImportState(old(store.airbnbReservations), old(store.nextId),
                                                                    old(db.BookingState()), false),
                                             db.rooms, db.beds, emailClock(i), rgClock(i));
      ok == run.Ok?
      && (ok ==> store.airbnbSyncs == old(store.airbnbSyncs)[i := syncs0[i].(lastSync := Some(now))]
                 && store.airbnbReservations == run.value.rows && store.nextId == run.value.nextId
                 && db.BookingState() == run.value.tables)
      && (!ok ==> store.airbnbSyncs == old(store.airbnbSyncs) && store.airbnbReservations == old(store.airbnbReservations)
                  && store.nextId == old(store.nextId) && db.BookingState() == old(db.BookingState()))
  {
    var connection := syncs0[i];
    var rowsBefore := store.airbnbSyncs;
    var synced := AirbnbICal.SyncAirbnbReservations(store, db, connection.propertyId,
                                                    FetchFeed(connection.icalUrl, fetch), now,
                                                    emailClock(i), rgClock(i));
    ok := synced.Ok?;
    if ok {
      store.airbnbSyncs := rowsBefore[i := connection.(lastSync := Some(now))];
    }
  }

  /**
   * The body of syncAll's loop: the i-th connection is skipped when
   * inactive and otherwise synchronised and reported; the tables move on
   * by one step of the sweep.
   */
  method SyncNext(store: ChannelStore, db: Hostel.Database, syncs0: seq<AirbnbSync>, ghost imp0: AirbnbICal.ImportState,
                  i: nat, fetch: string -> Option<string>, now: nat,
                  emailClock: nat -> nat -> string, rgClock: nat -> nat -> string, results: seq<SyncResult>,
                  successCount: nat, errorCount: nat)
    returns (ok: bool, next: seq<SyncResult>, successes: nat, errors: nat)
    requires i < |syncs0| && db.NoDoubleBooking()
    requires successCount == SuccessCount(results) && successCount + errorCount == |results|
    requires Sweep(syncs0, SweepState(syncs0, imp0, []), i, fetch, now, db.rooms, db.beds, emailClock, rgClock)
             == SweepState(store.airbnbSyncs, AirbnbICal.ImportState(store.airbnbReservations, store.nextId,
                                                                     db.BookingState(), false), results)
    modifies store`airbnbSyncs, store`airbnbReservations, store`nextId
    modifies db`guests, db`reserves, db`roomOccupations, db`bedOccupations, db`nextId
    ensures db.NoDoubleBooking()
    ensures Sweep(syncs0, SweepState(syncs0, imp0, []), i + 1, fetch, now, db.rooms, db.beds, emailClock, rgClock)
            == SweepState(store.airbnbSyncs, AirbnbICal.ImportState(store.airbnbReservations, store.nextId,
                                                                    db.BookingState(), false), next)
    ensures next == results + if IsActiveAirbnb(syncs0[i])
                              then [SyncResult(syncs0[i].propertyId, syncs0[i].propertyName, ok)] else []
    ensures successes == SuccessCount(next) && successes + errors == |next|
  {
    ghost var before := SweepState(store.airbnbSyncs, AirbnbICal.ImportState(store.airbnbReservations, store.nextId,
                                                                            db.BookingState(), false), results);
    var connection := syncs0[i];
    ok, next, successes, errors := false, results, successCount, errorCount;
    if IsActiveAirbnb(connection) {
      ok := SyncConnection(store, db, syncs0, i, fetch, now, emailClock, rgClock);
      next := results + [SyncResult(connection.propertyId, connection.propertyName, ok)];
      if ok {
        successes := successes + 1;
      } else {
        errors := errors + 1;
      }
      SuccessCountAppend(results, SyncResult(connection.propertyId, connection.propertyName, ok));
    }
    SweepAdvance(syncs0, SweepState(syncs0, imp0, []), i, fetch, now, db.rooms, db.beds, emailClock, rgClock,
                 before, ok, SweepState(store.airbnbSyncs, AirbnbICal.ImportState(store.airbnbReservations, store.nextId,
                                                                                  db.BookingState(), false), next));
  }

  /**
   * The loop of syncAll: every active connection in table order, one
   * report entry each, counting those that went through and those that
   * failed; the tables end as the connections' synchronisations, one
   * after the other, leave them.
   */
  method SyncEach(store: ChannelStore, db: Hostel.Database, fetch: string -> Option<string>, now: nat,
                  emailClock: nat -> nat -> string, rgClock: nat -> nat -> string)
    returns (results: seq<SyncResult>, successCount: nat, errorCount: nat)
    requires db.NoDoubleBooking()
    modifies store`airbnbSyncs, store`airbnbReservations, store`nextId
    modifies db`guests, db`reserves, db`roomOccupations, db`bedOccupations, db`nextId
    ensures db.NoDoubleBooking()
    ensures var syncs0 := old(store.airbnbSyncs);
      var st0 := SweepState(syncs0, AirbnbICal.ImportState(old(store.airbnbReservations), old(store.nextId),
                                                           old(db.BookingState()), false), []);
      var fin := Sweep(syncs0, st0, |syncs0|, fetch, now, db.rooms, db.beds, emailClock, rgClock);
      results == fin.results && store.airbnbSyncs == fin.syncs
      && store.airbnbReservations == fin.imp.rows && store.nextId == fin.imp.nextId && db.BookingState() == fin.imp.tables
    ensures ReportsOn(results, ActiveAirbnbSyncs(old(store.airbnbSyncs)))
    ensures successCount == SuccessCount(results) && successCount + errorCount == |results|
  {
    var syncs0 := store.airbnbSyncs;
    ghost var imp0 := AirbnbICal.ImportState(store.airbnbReservations, store.nextId, db.BookingState(), false);
    ghost var st0 := SweepState(syncs0, imp0, []);
    results, successCount, errorCount := [], 0, 0;
    for i := 0 to |syncs0|
      invariant Sweep(syncs0, st0, i, fetch, now, db.rooms, db.beds, emailClock, rgClock)
                == SweepState(store.airbnbSyncs, AirbnbICal.ImportState(store.airbnbReservations, store.nextId,
                                                                        db.BookingState(), false), results)
      invariant successCount == SuccessCount(results) && successCount + errorCount == |results|
      invariant db.NoDoubleBooking()
    {
      var ok: bool;
      ok, results, successCount, errorCount :=
        SyncNext(store, db, syncs0, imp0, i, fetch, now, emailClock, rgClock, results, successCount, errorCount);
    }
    SweepReportsActive(syncs0, imp0, fetch, now, db.rooms, db.beds, emailClock, rgClock, results);
  }

  /**
   * syncAll: with no active connection, an error body (still a 200) and no
   * change; otherwise every active connection is synchronised in table
   * order (`fetch` gives each feed URL's content), a connection that went
   * through is stamped with `now`, and the report counts the connections
   * that went through and those that failed. `emailClock(i)(k)` and
   * `rgClock(i)(k)` are the clock texts read while the k-th row of the i-th
   * connection is processed.
   */
  method SyncAll(store: ChannelStore, db: Hostel.Database, fetch: string -> Option<string>, now: nat,
                 emailClock: nat -> nat -> string, rgClock: nat -> nat -> string)
    returns (status: int, response: Response)
    requires db.NoDoubleBooking()
    modifies store`airbnbSyncs, store`airbnbReservations, store`nextId
    modifies db`guests, db`reserves, db`roomOccupations, db`bedOccupations, db`nextId
    ensures status == 200 && db.NoDoubleBooking()
    ensures var syncs0 := old(store.airbnbSyncs);
      var active := ActiveAirbnbSyncs(syncs0);
      var st0 := SweepState(syncs0, AirbnbICal.ImportState(old(store.airbnbReservations), old(store.nextId),
                                                           old(db.BookingState()), false), []);
      var fin := Sweep(syncs0, st0, |syncs0|, fetch, now, db.rooms, db.beds, emailClock, rgClock);
      ReportsOn(fin.results, active)
      && (active == [] ==> response == CreateErrorResponse(NoActiveConnections))
      && (active != [] ==>
            response == SyncReport(|active|, SuccessCount(fin.results), |active| - SuccessCount(fin.results), fin.results))
      && store.airbnbSyncs == fin.syncs && store.airbnbReservations == fin.imp.rows && store.nextId == fin.imp.nextId
      && db.BookingState() == fin.imp.tables
    ensures response.SyncReport? ==> response.successCount + response.errorCount == response.totalConnections
  {
    var syncs0 := store.airbnbSyncs;
    var active := ActiveAirbnbSyncs(syncs0);
    if active == [] {
      ghost var imp0 := AirbnbICal.ImportState(store.airbnbReservations, store.nextId, db.BookingState(), false);
      SweepReportsActive(syncs0, imp0, fetch, now, db.rooms, db.beds, emailClock, rgClock,
                         Sweep(syncs0, SweepState(syncs0, imp0, []), |syncs0|, fetch, now, db.rooms, db.beds,
                               emailClock, rgClock).results);
      SweepWithoutSuccess(syncs0, imp0, |syncs0|, fetch, now, db.rooms, db.beds, emailClock, rgClock);
      return 200, CreateErrorResponse(NoActiveConnections);
    }
    var results, successCount, errorCount := SyncEach(store, db, fetch, now, emailClock, rgClock);
    status, response := 200, SyncReport(|active|, successCount, errorCount, results);
  }
}
