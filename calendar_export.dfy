/**
 * The front-end calendar feed (`/api/calendar/export/<propertyId>/<token>.ics`):
 * every reservation that is not cancelled, one all-day event per reserved
 * night, with its own summary and description wording.
 */
module CalendarExport {
  import opened Wrappers
  import opened Text
  import opened Enums
  import opened Rooms
  import opened Reserves
  import Seqs
  import ICalExport

  const CalendarName: string := "Calendário Elohostel - Reservas"
  const NoGuest: string := "Hóspede não informado"
  const NoRoom: string := "Quarto não definido"
  /** The two characters backslash and n that the description puts between its lines. */
  const LineBreak: string := "\\n"

  /** isValidToken: every token is accepted. */
  function IsValidToken(propertyId: string, token: string): (r: bool)
    ensures r
  {
    true
  }

  /** The reservations exported: all but the cancelled ones (a reservation without a status included), in table order. */
  function ActiveReserves(reserves: seq<Reserve>): (r: seq<Reserve>)
    ensures forall x :: x in r <==> x in reserves && x.status != Some(CANCELLED)
    ensures |r| <= |reserves|
  {
    Seqs.Filter(reserves, (x: Reserve) => x.status != Some(CANCELLED))
  }

  /** The guest on the event: the first guest's name, "Hóspede não informado" without guests. */
  function GuestText(reserve: Reserve, guests: seq<Guest>): (r: string)
    ensures ICalExport.FirstGuest(reserve, guests).None? ==> r == NoGuest
    ensures ICalExport.FirstGuest(reserve, guests).Some? ==> r == ICalExport.FirstGuest(reserve, guests).value.name
  {
    match ICalExport.FirstGuest(reserve, guests)
    case None => NoGuest
    case Some(g) => g.name
  }

  /** The room on the event: "Quarto <number>" ("Quarto N/A" when unset), "Quarto não definido" without rooms. */
  function RoomInfo(reserve: Reserve, rooms: seq<Room>): (r: string)
    ensures StartsWith(r, "Quarto ")
  {
    var rows := ICalExport.RoomRows(reserve.rooms, rooms);
    if rows == [] then NoRoom
    else "Quarto " + match rows[0].number
      case None => "N/A"
      case Some(n) => IntToString(n)
  }

  /** The status as `String.valueOf` prints the enum: its name, or "null". */
  function StatusText(s: Option<ReserveStatus>): string
  {
    match s
    case None => "null"
    case Some(CONFIRMED) => "CONFIRMED"
    case Some(CANCELLED) => "CANCELLED"
  }

  /**
   * The description: reservation number, guest, room, status and date, then
   * the first check-in and check-out times when there are any (`timeText`
   * renders a timestamp as `LocalDateTime.toString` does).
   */
  function Description(reserve: Reserve, day: int, rooms: seq<Room>, guests: seq<Guest>, timeText: nat -> string): string
  {
    "Reserva #" + NatToString(reserve.id) + LineBreak
    + "Hóspede: " + GuestText(reserve, guests) + LineBreak
    + "Quarto: " + RoomInfo(reserve, rooms) + LineBreak
    + "Status: " + StatusText(reserve.status) + LineBreak
    + "Data: " + ICalExport.DateToString(day) + LineBreak
    + (if reserve.checkIn != [] then "Check-in: " + timeText(reserve.checkIn[0]) + LineBreak else "")
    + (if reserve.checkOut != [] then "Check-out: " + timeText(reserve.checkOut[0]) + LineBreak else "")
  }

  /** The event title, "RESERVADO - <guest> - Quarto <room info>". */
  function Summary(reserve: Reserve, rooms: seq<Room>, guests: seq<Guest>): string
  {
    "RESERVADO - " + GuestText(reserve, guests) + " - Quarto " + RoomInfo(reserve, rooms)
  }

  /**
   * createEventForDate: the night of `day`, the summary
   * "RESERVADO - <guest> - Quarto <room info>", the description, and the
   * UID of that reservation and date.
   */
  function EventForDate(reserve: Reserve, day: int, rooms: seq<Room>, guests: seq<Guest>, timeText: nat -> string)
    : (e: ICalExport.Event)
    ensures e.start == day && e.end == day + 1
    ensures e.uid == ICalExport.Uid(reserve.id, day)
    ensures e.summary == Summary(reserve, rooms, guests)
  {
    ICalExport.Event(day, day + 1, Summary(reserve, rooms, guests),
                     Description(reserve, day, rooms, guests, timeText),
                     ICalExport.Uid(reserve.id, day))
  }

  /**
   * The room info already begins with "Quarto ", and the summary puts
   * another "Quarto " before it, so every summary says "Quarto Quarto".
   */
  lemma SummarySaysRoomTwice(reserve: Reserve, rooms: seq<Room>, guests: seq<Guest>)
    ensures Contains(Summary(reserve, rooms, guests), "Quarto Quarto")
  {
    var head, info := "RESERVADO - " + GuestText(reserve, guests) + " - ", RoomInfo(reserve, rooms);
    assert Summary(reserve, rooms, guests) == head + "Quarto " + info;
    WordBeforeRoomInfo(head, info);
  }

  /** "Quarto " put before a text that already starts with "Quarto " reads "Quarto Quarto". */
  lemma WordBeforeRoomInfo(head: string, info: string)
    requires StartsWith(info, "Quarto ")
    ensures Contains(head + "Quarto " + info, "Quarto Quarto")
  {
    var s := head + "Quarto " + info;
    assert s[|head|..|head| + 7] == "Quarto ";
    assert s[|head| + 7..|head| + 13] == info[..6];
    assert s[|head|..|head| + 13] == "Quarto Quarto";
    assert OccursAt(s, "Quarto Quarto", |head|);
  }

  /**
   * exportCalendarICal: the token check (which always passes), then one
   * event per night of each reservation that is not cancelled, in the
   * named calendar; the status is 200.
   */
  method ExportCalendarICal(propertyId: string, token: string, reserves: seq<Reserve>, rooms: seq<Room>,
                            guests: seq<Guest>, timeText: nat -> string)
    returns (status: int, calendar: ICalExport.ExportedCalendar, ghost chunks: seq<seq<ICalExport.Event>>)
    ensures status == 200 && calendar.calendarName == Some(CalendarName)
    ensures var active := ActiveReserves(reserves);
      |chunks| == |active| && calendar.events == ICalExport.Flatten(chunks)
      && |calendar.events| == ICalExport.Nights(active)
      && forall i :: 0 <= i < |active| ==>
           ICalExport.OneEventPerDay(chunks[i], active[i].reservedDays,
                                     d => EventForDate(active[i], d, rooms, guests, timeText))
  {
    chunks := [];
    if !IsValidToken(propertyId, token) {
      return 403, ICalExport.ExportedCalendar(None, []), chunks;
    }
    var active := ActiveReserves(reserves);
    var events;
    events, chunks := ICalExport.EventsForReserves(active, (x, d) => EventForDate(x, d, rooms, guests, timeText));
    status, calendar := 200, ICalExport.ExportedCalendar(Some(CalendarName), events);
  }
}
