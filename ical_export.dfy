/**
 * The iCal export: the reservations a connection publishes (those of its
 * room that are not cancelled and have dates and rooms), one all-day event
 * per reserved night, and the export URLs. ical4j's calendar is modelled
 * by its events; the text rendering is not part of this model.
 */
module ICalExport {
  import opened Wrappers
  import opened Text
  import opened Enums
  import opened Rooms
  import opened Reserves
  import Calendar
  import Hostel
  import Channels
  import Seqs

  // ------------------------------------------------------------ events

  /** A VEVENT: from 00:00 of `start` to 00:00 of `end` (epoch days), with its text properties. */
  datatype Event = Event(start: int, end: int, summary: string, description: string, uid: string)

  /** `LocalDate.toString()`: the year (four digits at least, signed outside 0..9999), month and day, hyphen-separated. */
  function DateToString(day: int): string
  {
    var c := Calendar.CivilOf(day);
    YearText(c.year) + TwoDigitField(c.month) + TwoDigitField(c.day)
  }

  /** The year of `LocalDate.toString()`: zero-padded to four digits, with "+" above 9999 and "-" below 0. */
  function YearText(y: int): (r: string)
    ensures 0 <= y <= 9999 ==> |r| == 4 && DigitsOnly(r) && DigitsValue(r) == y
  {
    if y > 9999 then "+" + NatToString(y)
    else if y >= 0 then PadNat(y, 4)
    else "-" + PadNat(-y, 4)
  }

  /** A month or day field: "-0" before a value under ten, "-" otherwise. */
  function TwoDigitField(n: int): (r: string)
    ensures |r| >= 2 && r[0] == '-'
    ensures 1 <= n <= 99 ==> |r| == 3 && DigitsOnly(r[1..]) && DigitsValue(r[1..]) == n
  {
    FieldDigits(n);
    if n < 10 then "-0" + IntToString(n) else "-" + IntToString(n)
  }

  /** The digits written for a field from 1 to 99 read back as its value. */
  lemma FieldDigits(n: int)
    ensures 1 <= n < 10 ==> DigitsOnly("0" + IntToString(n)) && DigitsValue("0" + IntToString(n)) == n
    ensures 10 <= n <= 99 ==> DigitsOnly(IntToString(n)) && DigitsValue(IntToString(n)) == n && |IntToString(n)| == 2
  {
    if 1 <= n {
      NatToStringRoundTrip(n);
      LeadingZeroValue(NatToString(n));
    }
  }

  predicate DigitsOnly(s: string) { forall i :: 0 <= i < |s| ==> IsDigit(s[i]) }

  const UidPrefix: string := "elohostel-"

  /** The UID of the event for reservation `id` on `day`: "elohostel-<id>-<date>". */
  function Uid(id: nat, day: int): (r: string)
    ensures StartsWith(r, UidPrefix)
  {
    UidPrefix + NatToString(id) + "-" + DateToString(day)
  }

  /** A UID names its reservation: two equal UIDs belong to the same reservation and the same date text. */
  lemma UidNamesReserve(a: nat, d: int, b: nat, e: int)
    requires Uid(a, d) == Uid(b, e)
    ensures a == b && DateToString(d) == DateToString(e)
  {
    UidSplits(NatToString(a), DateToString(d), NatToString(b), DateToString(e));
    NatToStringInjective(a, b);
  }

  /** "elohostel-<digits>-<rest>" splits only one way. */
  lemma UidSplits(x: string, s: string, y: string, t: string)
    requires DigitsOnly(x) && DigitsOnly(y)
    requires UidPrefix + x + "-" + s == UidPrefix + y + "-" + t
    ensures x == y && s == t
  {
    var p := |UidPrefix|;
    var u := UidPrefix + x + "-" + s;
    var w := UidPrefix + y + "-" + t;
    assert u[p..] == x + ("-" + s);
    assert w[p..] == y + ("-" + t);
    SplitAtFirstNonDigit(x, "-" + s, y, "-" + t);
    assert ("-" + s)[1..] == s;
    assert ("-" + t)[1..] == t;
  }

  /** Digits followed by a non-digit split only one way. */
  lemma SplitAtFirstNonDigit(x: string, u: string, y: string, v: string)
    requires DigitsOnly(x) && DigitsOnly(y) && u != [] && v != [] && !IsDigit(u[0]) && !IsDigit(v[0])
    requires x + u == y + v
    ensures x == y && u == v
  {
    assert x == (x + u)[..|x|];
    assert y == (y + v)[..|y|];
    assert u == (x + u)[|x|..];
    assert v == (y + v)[|y|..];
  }

  /** The start days of a list of events, in order. */
  function Starts(events: seq<Event>): (r: seq<int>)
    ensures |r| == |events| && forall k :: 0 <= k < |events| ==> r[k] == events[k].start
  {
    seq(|events|, k requires 0 <= k < |events| => events[k].start)
  }

  /**
   * `events` holds one event per day of `days` and no other: the start
   * days are exactly `days`, none twice, and each event is `make` of its
   * own start day.
   */
  ghost predicate OneEventPerDay(events: seq<Event>, days: set<int>, make: int -> Event)
  {
    var starts := Starts(events);
    |events| == |days|
    && (forall d :: d in starts <==> d in days)
    && (forall j, k :: 0 <= j < k < |starts| ==> starts[j] != starts[k])
    && (forall k :: 0 <= k < |events| ==> events[k] == make(events[k].start))
  }

  /**
   * The loop of createEventsFromReserve: one event per reserved date, in
   * the set's iteration order (any order), none for an empty set.
   */
  method EventsForDays(days: set<int>, make: int -> Event) returns (events: seq<Event>)
    requires forall d :: make(d).start == d
    ensures OneEventPerDay(events, days, make)
  {
    events := [];
    var rest := days;
    while rest != {}
      invariant rest <= days && |events| + |rest| == |days|
      invariant forall d :: d in Starts(events) <==> d in days && d !in rest
      invariant forall j, k :: 0 <= j < k < |events| ==> Starts(events)[j] != Starts(events)[k]
      invariant forall k :: 0 <= k < |events| ==> events[k] == make(events[k].start)
      decreases |rest|
    {
      Calendar.HasMember(rest);
      var d :| d in rest;
      var e := make(d);
      assert Starts(events + [e]) == Starts(events) + [d];
      events := events + [e];
      rest := rest - {d};
    }
  }

  /** The events of several reservations, reservation after reservation. */
  function Flatten(chunks: seq<seq<Event>>): seq<Event>
  {
    if chunks == [] then [] else Flatten(chunks[..|chunks| - 1]) + chunks[|chunks| - 1]
  }

  /** The number of reserved nights of a list of reservations. */
  function Nights(rs: seq<Reserve>): nat
  {
    if rs == [] then 0 else Nights(rs[..|rs| - 1]) + |rs[|rs| - 1].reservedDays|
  }

  /**
   * The loops of generateICalContent and exportCalendarICal: the events of
   * each reservation in list order, one per reserved night.
   */
  method EventsForReserves(rs: seq<Reserve>, make: (Reserve, int) -> Event)
    returns (events: seq<Event>, ghost chunks: seq<seq<Event>>)
    requires forall r, d :: make(r, d).start == d
    ensures |chunks| == |rs| && events == Flatten(chunks) && |events| == Nights(rs)
    ensures forall i :: 0 <= i < |rs| ==> OneEventPerDay(chunks[i], rs[i].reservedDays, d => make(rs[i], d))
  {
    events, chunks := [], [];
    for i := 0 to |rs|
      invariant |chunks| == i && events == Flatten(chunks) && |events| == Nights(rs[..i])
      invariant forall j :: 0 <= j < i ==> OneEventPerDay(chunks[j], rs[j].reservedDays, d => make(rs[j], d))
    {
      var r := rs[i];
      var mine := EventsForDays(r.reservedDays, d => make(r, d));
      assert chunks + [mine] == (chunks + [mine])[..i] + [mine];
      assert (chunks + [mine])[..i] == chunks;
      assert rs[..i + 1][..i] == rs[..i];
      events := events + mine;
      chunks := chunks + [mine];
    }
    assert rs[..|rs|] == rs;
  }

  // ------------------------------------------------------------ the rows a reservation links

  /** The room rows of a reservation's room ids, in order; an id with no row is skipped. */
  function RoomRows(ids: seq<nat>, rooms: seq<Room>): (r: seq<Room>)
    ensures |r| <= |ids|
    ensures forall x :: x in r ==> x in rooms && x.id in ids
    ensures forall k :: k in ids && Hostel.RoomById(rooms, k).Ok? ==> rooms[Hostel.RoomById(rooms, k).value] in r
    ensures (forall k :: k in ids ==> Hostel.RoomById(rooms, k).Ok?) ==> |r| == |ids|
  {
    if ids == [] then []
    else
      var tail := RoomRows(ids[1..], rooms);
      assert forall k :: k in ids[1..] ==> k in ids;
      match Hostel.RoomById(rooms, ids[0])
      case Ok(i) => [rooms[i]] + tail
      case Err(_) => tail
  }

  /** The reservation's first guest row (`getGuest().iterator().next()`), taken in guest-table order. */
  function FirstGuest(reserve: Reserve, guests: seq<Guest>): (r: Option<Guest>)
    ensures r.Some? ==> r.value in guests && r.value.id in reserve.guests
    ensures r.None? <==> forall g :: g in guests ==> g.id !in reserve.guests
  {
    match Seqs.FirstIndex(guests, (g: Guest) => g.id in reserve.guests)
    case None => None
    case Some(i) => Some(guests[i])
  }

  // ------------------------------------------------------------ the exported reservations

  /**
   * isReserveForTargetRoom: every reservation when the connection has no
   * room, otherwise those with a room of that number.
   */
  function IsReserveForTargetRoom(reserve: Reserve, rooms: seq<Room>, target: Option<int>): (r: bool)
    ensures target.None? ==> r
    ensures target.Some? ==>
      (r <==> exists x :: x in RoomRows(reserve.rooms, rooms) && x.number == target)
  {
    target.None? || Seqs.FirstIndex(RoomRows(reserve.rooms, rooms), (x: Room) => x.number == target).Some?
  }

  /** shouldExportReserve: not cancelled, with reserved dates and with rooms. */
  predicate ShouldExportReserve(reserve: Reserve)
  {
    reserve.status != Some(CANCELLED) && reserve.reservedDays != {} && reserve.rooms != []
  }

  /** The reservations generateICalContent publishes, in table order. */
  function ReservesToExport(reserves: seq<Reserve>, rooms: seq<Room>, target: Option<int>): (r: seq<Reserve>)
    ensures forall x :: x in r <==> x in reserves && IsReserveForTargetRoom(x, rooms, target) && ShouldExportReserve(x)
    ensures forall i :: 0 <= i < |r| ==> r[i].status != Some(CANCELLED) && r[i].reservedDays != {}
  {
    Seqs.Filter(reserves, (x: Reserve) => IsReserveForTargetRoom(x, rooms, target) && ShouldExportReserve(x))
  }

  /** A cancelled reservation is never published, whichever room it is in. */
  lemma CancelledNeverExported(reserves: seq<Reserve>, rooms: seq<Room>, target: Option<int>, x: Reserve)
    requires x.status == Some(CANCELLED)
    ensures x !in ReservesToExport(reserves, rooms, target)
  {
  }

  /** A connection without a room publishes every live reservation with dates and rooms. */
  lemma NoTargetExportsAllLive(reserves: seq<Reserve>, rooms: seq<Room>, x: Reserve)
    requires x in reserves && ShouldExportReserve(x)
    ensures x in ReservesToExport(reserves, rooms, None)
  {
  }

  // ------------------------------------------------------------ one event

  /** The guest named on the events: the first guest's name, "Hóspede Airbnb" without guests. */
  function EventGuestName(reserve: Reserve, guests: seq<Guest>): (r: string)
    ensures FirstGuest(reserve, guests).None? ==> r == "Hóspede Airbnb"
    ensures FirstGuest(reserve, guests).Some? ==> r == FirstGuest(reserve, guests).value.name
  {
    match FirstGuest(reserve, guests)
    case None => "Hóspede Airbnb"
    case Some(g) => g.name
  }

  /** The room named in the description: the first room's number ("null" when unset), "N/A" without rooms. */
  function EventRoomText(reserve: Reserve, rooms: seq<Room>): string
  {
    var rows := RoomRows(reserve.rooms, rooms);
    if rows == [] then "N/A"
    else match rows[0].number
      case None => "null"
      case Some(n) => IntToString(n)
  }

  /**
   * createEventFromReserveForDate: the night of `day`, the summary
   * "Reservado - <guest>", the description with the reservation number,
   * guest and room, and the UID of that reservation and date.
   */
  function EventForDate(reserve: Reserve, day: int, rooms: seq<Room>, guests: seq<Guest>): (e: Event)
    ensures e.start == day && e.end == day + 1
    ensures e.uid == Uid(reserve.id, day)
    ensures StartsWith(e.summary, "Reservado - ")
  {
    var guestName := EventGuestName(reserve, guests);
    Event(day, day + 1, "Reservado - " + guestName,
          "Reserva #" + NatToString(reserve.id) + " - Hóspede: " + guestName + " - Quarto: " + EventRoomText(reserve, rooms),
          Uid(reserve.id, day))
  }

  // ------------------------------------------------------------ the feed

  /** The exported calendar: its name (X-WR-CALNAME) and its events. */
  datatype ExportedCalendar = ExportedCalendar(calendarName: Option<string>, events: seq<Event>)

  /**
   * generateICalContent: the connection with that property id (none, or
   * several, is a failure), its target room (a link to a missing room is a
   * failure), and one event per night of each published reservation.
   */
  method GenerateICalContent(syncs: seq<Channels.AirbnbSync>, rooms: seq<Room>, reserves: seq<Reserve>,
                             guests: seq<Guest>, propertyId: Option<string>)
    returns (r: Result<ExportedCalendar>, ghost chunks: seq<seq<Event>>)
    ensures var cfg := Channels.AirbnbSyncByPropertyId(syncs, propertyId);
      r.Ok? <==> cfg.Ok? && cfg.value.Some? && Channels.AssociatedRoomNumber(syncs[cfg.value.value], rooms).Ok?
    ensures r.Err? ==> r.error == Runtime
    ensures r.Ok? ==>
      var sync := syncs[Channels.AirbnbSyncByPropertyId(syncs, propertyId).value.value];
      var exported := ReservesToExport(reserves, rooms, Channels.AssociatedRoomNumber(sync, rooms).value);
      r.value.calendarName == sync.calendarName
      && |chunks| == |exported| && r.value.events == Flatten(chunks) && |r.value.events| == Nights(exported)
      && forall i :: 0 <= i < |exported| ==>
           OneEventPerDay(chunks[i], exported[i].reservedDays, d => EventForDate(exported[i], d, rooms, guests))
  {
    chunks := [];
    var cfg := Channels.AirbnbSyncByPropertyId(syncs, propertyId);
    if cfg.Err? || cfg.value.None? {
      return Err(Runtime), chunks;
    }
    var sync := syncs[cfg.value.value];
    var target := Channels.AssociatedRoomNumber(sync, rooms);
    if target.Err? {
      return Err(Runtime), chunks;
    }
    var exported := ReservesToExport(reserves, rooms, target.value);
    var events;
    events, chunks := EventsForReserves(exported, (x, d) => EventForDate(x, d, rooms, guests));
    r := Ok(ExportedCalendar(sync.calendarName, events));
  }

  // ------------------------------------------------------------ export URLs

  const ExportPath: string := "/api/ical/export/"
  const CalendarExportPath: string := "/api/calendar/export/"

  /** The token of an export URL: the first sixteen characters of a random UUID with its hyphens removed. */
  function Token(uuid: string): (t: string)
    requires |Seqs.Filter(uuid, (c: char) => c != '-')| >= 16
    ensures |t| == 16 && '-' !in t
  {
    var hex := Seqs.Filter(uuid, (c: char) => c != '-');
    assert forall k :: 0 <= k < 16 ==> hex[..16][k] in hex;
    hex[..16]
  }

  /** "<path><propertyId>/<token>.ics". */
  function TokenUrl(path: string, propertyId: string, uuid: string): string
    requires |Seqs.Filter(uuid, (c: char) => c != '-')| >= 16
  {
    path + propertyId + "/" + Token(uuid) + ".ics"
  }

  /** generateExportUrl. */
  function GenerateExportUrl(propertyId: string, uuid: string): (url: string)
    requires |Seqs.Filter(uuid, (c: char) => c != '-')| >= 16
    ensures StartsWith(url, ExportPath) && EndsWith(url, ".ics")
  {
    TokenUrl(ExportPath, propertyId, uuid)
  }

  /** generateCalendarExportUrl. */
  function GenerateCalendarExportUrl(propertyId: string, uuid: string): (url: string)
    requires |Seqs.Filter(uuid, (c: char) => c != '-')| >= 16
    ensures StartsWith(url, CalendarExportPath) && EndsWith(url, ".ics")
  {
    TokenUrl(CalendarExportPath, propertyId, uuid)
  }

  /** The property id and the token are read back from their places in the URL. */
  lemma TokenUrlParts(path: string, propertyId: string, uuid: string)
    requires |Seqs.Filter(uuid, (c: char) => c != '-')| >= 16
    ensures var url := TokenUrl(path, propertyId, uuid);
      |url| == |path| + |propertyId| + 21
      && url[..|path|] == path
      && url[|path|..|url| - 21] == propertyId
      && url[|url| - 21] == '/'
      && url[|url| - 20..|url| - 4] == Token(uuid)
      && url[|url| - 4..] == ".ics"
  {
    var url := TokenUrl(path, propertyId, uuid);
    var n := |path| + |propertyId|;
    assert url == path + propertyId + "/" + Token(uuid) + ".ics";
    assert url[..|path|] == path;
    assert url[|path|..n] == propertyId;
    assert url[n + 1..n + 17] == Token(uuid);
    assert url[n + 17..] == ".ics";
  }
}
