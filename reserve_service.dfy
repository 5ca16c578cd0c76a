/**
 * The reservation service: creating a reservation with its ledger entry,
 * cancelling and deleting it, changing its nights, rooms, guests and value,
 * and checking its guests in and out. Every operation reads and writes the
 * tables of a Hostel.Database; a @Transactional operation that fails leaves
 * the tables as they were.
 */
module ReserveService {
  import opened Wrappers
  import opened Enums
  import opened Rooms
  import opened Reserves
  import opened Occupations
  import Hostel
  import Allocation
  import Calendar
  import Seqs
  import Text
  import RoomOccupationRepository
  import BedOccupationRepository
  import BedRepository
  import Channels

  // ------------------------------------------------------------ validation

  /** validateNewDate: a night may be added from today up to one year ahead. */
  function ValidateNewDate(d: int, today: int): (r: Result<()>)
    ensures r.Err? ==> r.error == IllegalArgument
    ensures r.Ok? <==> today <= d && d <= Calendar.PlusOneYear(today)
  {
    if d < today then Err(IllegalArgument)
    else if d > Calendar.PlusOneYear(today) then Err(IllegalArgument)
    else Ok(())
  }

  /**
   * validateDates: both dates given, check-in not in the past, strictly
   * before check-out, and check-out at most one year ahead.
   */
  function ValidateDates(checkIn: Option<int>, checkOut: Option<int>, today: int): (r: Result<()>)
    ensures r.Err? ==> r.error == IllegalArgument
    ensures r.Ok? <==>
      checkIn.Some? && checkOut.Some? && today <= checkIn.value < checkOut.value <= Calendar.PlusOneYear(today)
  {
    if checkIn.None? || checkOut.None? then Err(IllegalArgument)
    else if checkIn.value < today then Err(IllegalArgument)
    else if checkIn.value >= checkOut.value then Err(IllegalArgument)
    else if checkOut.value > Calendar.PlusOneYear(today) then Err(IllegalArgument)
    else Ok(())
  }

  /**
   * A stay that passes validateDates has at least one night, and every one
   * of its nights would pass validateNewDate: the two windows agree.
   */
  lemma ValidStayNightsAreAddable(checkIn: int, checkOut: int, today: int)
    requires ValidateDates(Some(checkIn), Some(checkOut), today).Ok?
    ensures Calendar.Span(checkIn, checkOut) != {}
    ensures forall d :: d in Calendar.Span(checkIn, checkOut) ==> ValidateNewDate(d, today).Ok?
  {
    Calendar.SpanMembers(checkIn, checkOut);
    assert checkIn in Calendar.Span(checkIn, checkOut);
  }

  // ------------------------------------------------------------ creation

  /** Where a new stay is held: the whole-room ledger, a bed (an index into the bed table), or nowhere. */
  datatype Placement = InRoomLedger | OnBed(bed: nat) | Unbooked

  /**
   * The availability test and the entry choice of the creation paths
   * (validateDatesAvailability with createOccupations, and the inline copies
   * in createReserve and createReserveForAirbnb). A whole-room unit is
   * refused when one of its entries shares a night with `dates`; a shared
   * room takes its first bed, in table order, free on all of `dates`
   * (and VAGUE when `vagueOnly`, as createReserve demands); a room without a
   * type is booked in neither ledger.
   */
  function PlaceStay(room: Room, beds: seq<Bed>, roomOccs: seq<RoomOccupation>, bedOccs: seq<BedOccupation>,
                     dates: set<int>, vagueOnly: bool): (r: Result<Placement>)
    ensures r.Err? ==> r.error == IllegalState
    ensures Allocation.LedgerOf(room) == Allocation.WholeRoom ==>
      (r.Ok? <==> RoomOccupationRepository.IsRoomAvailableForDates(roomOccs, room.id, dates))
      && (r.Ok? ==> r.value == InRoomLedger)
    ensures Allocation.LedgerOf(room) == Allocation.PerBed ==>
      (r.Ok? <==> exists j :: 0 <= j < |beds| && Allocation.Pickable(beds, bedOccs, room.id, dates, vagueOnly, beds[j]))
      && (r.Ok? ==> r.value.OnBed?)
    ensures r.Ok? && r.value.OnBed? ==>
      r.value.bed < |beds| && Allocation.Pickable(beds, bedOccs, room.id, dates, vagueOnly, beds[r.value.bed])
      && forall j :: 0 <= j < r.value.bed ==> !Allocation.Pickable(beds, bedOccs, room.id, dates, vagueOnly, beds[j])
    ensures Allocation.LedgerOf(room) == Allocation.NoLedger ==> r == Ok(Unbooked)
  {
    match Allocation.LedgerOf(room)
    case WholeRoom =>
      if RoomOccupationRepository.ExistsConflictForRoomAndDates(roomOccs, room.id, dates) then Err(IllegalState)
      else Ok(InRoomLedger)
    case PerBed =>
      (match Allocation.FirstFreeBed(beds, bedOccs, room.id, dates, vagueOnly)
       case None => Err(IllegalState)
       case Some(k) => Ok(OnBed(k)))
    case NoLedger => Ok(Unbooked)
  }

  /**
   * A stay that PlaceStay accepted can be recorded without a double booking:
   * its room has no entry sharing a night with it, or its bed is free on
   * every night.
   */
  ghost predicate Placeable(p: Placement, room: Room, beds: seq<Bed>, roomOccs: seq<RoomOccupation>,
                            bedOccs: seq<BedOccupation>, dates: set<int>)
  {
    match p
    case InRoomLedger => RoomOccupationRepository.IsRoomAvailableForDates(roomOccs, room.id, dates)
    case OnBed(k) => k < |beds| && BedOccupationRepository.IsBedAvailableForDates(bedOccs, beds[k].id, dates)
    case Unbooked => true
  }

  /** The ledgers after a stay of `reserveId` was recorded as `p` says, with `id` for the new entry. */
  ghost predicate BookedAs(p: Placement, beds: seq<Bed>, roomId: nat, reserveId: nat, dates: set<int>, id: nat,
                           roomOccs0: seq<RoomOccupation>, bedOccs0: seq<BedOccupation>,
                           roomOccs1: seq<RoomOccupation>, bedOccs1: seq<BedOccupation>)
  {
    match p
    case InRoomLedger =>
      roomOccs1 == roomOccs0 + [RoomOccupation(id, roomId, reserveId, dates)] && bedOccs1 == bedOccs0
    case OnBed(k) =>
      k < |beds| && bedOccs1 == bedOccs0 + [BedOccupation(id, beds[k].id, reserveId, dates)] && roomOccs1 == roomOccs0
    case Unbooked =>
      roomOccs1 == roomOccs0 && bedOccs1 == bedOccs0
  }

  /**
   * createOccupations: one new entry holding exactly `dates`, in the
   * ledger the placement names. An accepted placement keeps both ledgers
   * free of double bookings.
   */
  method RecordStay(db: Hostel.Database, p: Placement, room: Room, reserveId: nat, dates: set<int>)
    requires Placeable(p, room, db.beds, db.roomOccupations, db.bedOccupations, dates)
    requires db.NoDoubleBooking()
    modifies db`roomOccupations, db`bedOccupations, db`nextId
    ensures db.NoDoubleBooking()
    ensures BookedAs(p, db.beds, room.id, reserveId, dates, old(db.nextId),
                     old(db.roomOccupations), old(db.bedOccupations), db.roomOccupations, db.bedOccupations)
    ensures db.nextId == if p.Unbooked? then old(db.nextId) else old(db.nextId) + 1
  {
    match p
    case InRoomLedger =>
      var o := RoomOccupation(db.nextId, room.id, reserveId, dates);
      Allocation.AppendRoomEntry(db.roomOccupations, o);
      db.roomOccupations := db.roomOccupations + [o];
      db.nextId := db.nextId + 1;
    case OnBed(k) =>
      var o := BedOccupation(db.nextId, db.beds[k].id, reserveId, dates);
      Allocation.AppendBedEntry(db.bedOccupations, o);
      db.bedOccupations := db.bedOccupations + [o];
      db.nextId := db.nextId + 1;
    case Unbooked =>
  }

  /**
   * The reservation the creation paths save: CONFIRMED, holding exactly the
   * requested nights, the guests and the one room, priced from the room,
   * with the other fields at their defaults.
   */
  function NewBooking(id: nat, dates: set<int>, guests: set<nat>, room: Room): (r: Reserve)
    ensures r.id == id && r.reservedDays == dates && r.guests == guests && r.rooms == [room.id]
    ensures r.status == Some(CONFIRMED) && r.initialValue == room.price && r.useCustomValue == Some(false)
    ensures r.customValue.None? && r.financialProcessed == Some(false) && r.extraGuestFee == DefaultExtraGuestFee
    ensures r.checkIn == [] && r.checkOut == []
  {
    NewReserve(id).(reservedDays := dates, status := Some(CONFIRMED), guests := guests, rooms := [room.id],
                    initialValue := room.price, useCustomValue := Some(false))
  }

  /**
   * A new reservation is priced from its room: every night costs the room's
   * price (zero when it has none) plus the default fee for each guest after
   * the first.
   */
  lemma NewBookingPrice(id: nat, dates: set<int>, guests: set<nat>, room: Room)
    ensures CalculateTotalValue(NewBooking(id, dates, guests, room)) ==
      |dates| * ((if room.price.Some? then room.price.value else 0)
                 + DefaultExtraGuestFee * (if |guests| == 0 then 0 else |guests| - 1))
  {
  }

  /** What a creation decides before it writes: the guest table, the reservation to save, its room and its placement. */
  datatype Booking = Booking(guests: seq<Guest>, reserve: Reserve, room: Room, placement: Placement)

  /**
   * The tables after a booking was written: the guest table it carries, the
   * reservation appended, and its stay recorded with the id after the
   * reservation's.
   */
  ghost predicate Recorded(b: Booking, beds: seq<Bed>, reserves0: seq<Reserve>, roomOccs0: seq<RoomOccupation>,
                           bedOccs0: seq<BedOccupation>, guests1: seq<Guest>, reserves1: seq<Reserve>,
                           roomOccs1: seq<RoomOccupation>, bedOccs1: seq<BedOccupation>)
  {
    guests1 == b.guests && reserves1 == reserves0 + [b.reserve]
    && BookedAs(b.placement, beds, b.room.id, b.reserve.id, b.reserve.reservedDays, b.reserve.id + 1,
                roomOccs0, bedOccs0, roomOccs1, bedOccs1)
  }

  /** The identity generator after a booking was written: one id for the reservation, one for its ledger entry. */
  function NextIdAfter(b: Booking): nat
  {
    if b.placement.Unbooked? then b.reserve.id + 1 else b.reserve.id + 2
  }

  /** The tables after a booking was written over `t`: the value form of Recorded. */
  function AfterBooking(b: Booking, beds: seq<Bed>, t: Hostel.Tables): (r: Hostel.Tables)
    ensures r.guests == b.guests && r.reserves == t.reserves + [b.reserve] && r.nextId == NextIdAfter(b)
  {
    var id, days := b.reserve.id + 1, b.reserve.reservedDays;
    match b.placement
    case InRoomLedger =>
      t.(guests := b.guests, reserves := t.reserves + [b.reserve], nextId := NextIdAfter(b),
         roomOccupations := t.roomOccupations + [RoomOccupation(id, b.room.id, b.reserve.id, days)])
    case OnBed(k) =>
      t.(guests := b.guests, reserves := t.reserves + [b.reserve], nextId := NextIdAfter(b),
         bedOccupations := if k < |beds| then t.bedOccupations + [BedOccupation(id, beds[k].id, b.reserve.id, days)]
                           else t.bedOccupations)
    case Unbooked => t.(guests := b.guests, reserves := t.reserves + [b.reserve], nextId := NextIdAfter(b))
  }

  /** Tables that record a booking, with the identity generator past it, are the tables AfterBooking gives. */
  lemma RecordedIsAfterBooking(b: Booking, beds: seq<Bed>, t: Hostel.Tables, u: Hostel.Tables)
    requires Recorded(b, beds, t.reserves, t.roomOccupations, t.bedOccupations,
                      u.guests, u.reserves, u.roomOccupations, u.bedOccupations)
    requires u.nextId == NextIdAfter(b)
    ensures u == AfterBooking(b, beds, t)
  {
  }

  /**
   * The decision the creation paths share once the guests are known: the
   * room looked up by number (none is NotFound), then the stay placed (no
   * room or bed free is IllegalState). The reservation names `guestIds`
   * and takes the id `nextId`.
   */
  function PlanStay(guests: seq<Guest>, rooms: seq<Room>, beds: seq<Bed>, roomOccs: seq<RoomOccupation>,
                    bedOccs: seq<BedOccupation>, guestIds: set<nat>, roomNumber: int, dates: set<int>, nextId: nat,
                    vagueOnly: bool)
    : (r: Result<Booking>)
    ensures Hostel.RoomByNumber(rooms, roomNumber).Err? ==> r == Err(Hostel.RoomByNumber(rooms, roomNumber).error)
    ensures Hostel.RoomByNumber(rooms, roomNumber).Ok? ==>
      var room := rooms[Hostel.RoomByNumber(rooms, roomNumber).value];
      var p := PlaceStay(room, beds, roomOccs, bedOccs, dates, vagueOnly);
      (r.Ok? <==> p.Ok?) && (r.Err? ==> r.error == IllegalState)
      && (r.Ok? ==> r.value == Booking(guests, NewBooking(nextId, dates, guestIds, room), room, p.value))
    ensures r.Ok? ==> Placeable(r.value.placement, r.value.room, beds, roomOccs, bedOccs, dates)
  {
    match Hostel.RoomByNumber(rooms, roomNumber)
    case Err(e) => Err(e)
    case Ok(k) =>
      match PlaceStay(rooms[k], beds, roomOccs, bedOccs, dates, vagueOnly)
      case Err(e) => Err(e)
      case Ok(p) => Ok(Booking(guests, NewBooking(nextId, dates, guestIds, rooms[k]), rooms[k], p))
  }

  /**
   * The shared tail of the creation paths: the save of the reservation,
   * then createOccupations. A failure writes nothing; a success appends the
   * reservation and its one ledger entry, with no room or bed then held
   * twice on a night.
   */
  method BookStay(db: Hostel.Database, guestIds: set<nat>, roomNumber: int, dates: set<int>, vagueOnly: bool)
    returns (r: Result<Reserve>)
    requires db.NoDoubleBooking()
    modifies db`reserves, db`roomOccupations, db`bedOccupations, db`nextId
    ensures db.NoDoubleBooking()
    ensures var plan := PlanStay(db.guests, db.rooms, db.beds, old(db.roomOccupations), old(db.bedOccupations),
                                 guestIds, roomNumber, dates, old(db.nextId), vagueOnly);
      (r.Ok? <==> plan.Ok?) && (r.Err? ==> r.error == plan.error)
      && (r.Ok? ==> r.value == plan.value.reserve
                    && Recorded(plan.value, db.beds, old(db.reserves), old(db.roomOccupations), old(db.bedOccupations),
                                db.guests, db.reserves, db.roomOccupations, db.bedOccupations)
                    && db.nextId == NextIdAfter(plan.value))
    ensures r.Err? ==>
      db.reserves == old(db.reserves) && db.roomOccupations == old(db.roomOccupations)
      && db.bedOccupations == old(db.bedOccupations) && db.nextId == old(db.nextId)
  {
    var plan := PlanStay(db.guests, db.rooms, db.beds, db.roomOccupations, db.bedOccupations,
                         guestIds, roomNumber, dates, db.nextId, vagueOnly);
    if plan.Err? {
      return Err(plan.error);
    }
    Commit(db, plan.value);
    r := Ok(plan.value.reserve);
  }

  /** Writes a decided booking: the reservation appended, then its stay recorded. */
  method Commit(db: Hostel.Database, b: Booking)
    requires db.NoDoubleBooking() && db.guests == b.guests && b.reserve.id == db.nextId
    requires Placeable(b.placement, b.room, db.beds, db.roomOccupations, db.bedOccupations, b.reserve.reservedDays)
    modifies db`reserves, db`roomOccupations, db`bedOccupations, db`nextId
    ensures db.NoDoubleBooking()
    ensures Recorded(b, db.beds, old(db.reserves), old(db.roomOccupations), old(db.bedOccupations),
                     db.guests, db.reserves, db.roomOccupations, db.bedOccupations)
    ensures db.nextId == NextIdAfter(b)
  {
    db.reserves := db.reserves + [b.reserve];
    db.nextId := db.nextId + 1;
    RecordStay(db, b.placement, b.room, b.reserve.id, b.reserve.reservedDays);
  }

  /**
   * The decision of createReserve: the guest looked up by name (none is
   * NotFound, several a runtime failure), then the shared decision with a
   * VAGUE bed demanded for a shared room.
   */
  function PlanCreateReserve(guests: seq<Guest>, rooms: seq<Room>, beds: seq<Bed>, roomOccs: seq<RoomOccupation>,
                             bedOccs: seq<BedOccupation>, guestName: string, roomNumber: int, dates: set<int>, nextId: nat)
    : (r: Result<Booking>)
    ensures Hostel.ExistingGuestByName(guests, guestName).Err? ==>
      r == Err(Hostel.ExistingGuestByName(guests, guestName).error)
    ensures Hostel.ExistingGuestByName(guests, guestName).Ok? ==>
      var g := Hostel.ExistingGuestByName(guests, guestName).value;
      r == PlanStay(guests, rooms, beds, roomOccs, bedOccs, {guests[g].id}, roomNumber, dates, nextId, true)
  {
    match Hostel.ExistingGuestByName(guests, guestName)
    case Err(e) => Err(e)
    case Ok(g) => PlanStay(guests, rooms, beds, roomOccs, bedOccs, {guests[g].id}, roomNumber, dates, nextId, true)
  }

  /** createReserve, all or nothing as the plan decides. */
  method CreateReserve(db: Hostel.Database, guestName: string, roomNumber: int, dates: set<int>)
    returns (r: Result<Reserve>)
    requires db.NoDoubleBooking()
    modifies db`reserves, db`roomOccupations, db`bedOccupations, db`nextId
    ensures db.NoDoubleBooking()
    ensures var plan := PlanCreateReserve(db.guests, db.rooms, db.beds, old(db.roomOccupations),
                                          old(db.bedOccupations), guestName, roomNumber, dates, old(db.nextId));
      (r.Ok? <==> plan.Ok?) && (r.Err? ==> r.error == plan.error)
      && (r.Ok? ==> r.value == plan.value.reserve
                    && Recorded(plan.value, db.beds, old(db.reserves), old(db.roomOccupations), old(db.bedOccupations),
                                db.guests, db.reserves, db.roomOccupations, db.bedOccupations)
                    && db.nextId == NextIdAfter(plan.value))
    ensures r.Err? ==>
      db.reserves == old(db.reserves) && db.roomOccupations == old(db.roomOccupations)
      && db.bedOccupations == old(db.bedOccupations) && db.nextId == old(db.nextId)
  {
    var g := Hostel.ExistingGuestByName(db.guests, guestName);
    if g.Err? {
      return Err(g.error);
    }
    r := BookStay(db, {db.guests[g.value].id}, roomNumber, dates, true);
  }

  // ------------------------------------------------------------ guests of a new reservation

  /** The guest fields of a creation request; `None` stands for a null field. */
  datatype GuestInfo = GuestInfo(name: string, rg: Option<string>, phone: Option<string>, email: Option<string>)

  /** The placeholder stored for a contact field the request left out. */
  const NotInformed: string := "Não informado"

  /** An existing guest's contact field: replaced by a given, non-blank value, otherwise kept. */
  function MergeField(current: Option<string>, given: Option<string>): (r: Option<string>)
    ensures given.Some? && !Text.IsBlank(given.value) ==> r == given
    ensures given.None? || Text.IsBlank(given.value) ==> r == current
  {
    if given.Some? && !Text.IsBlank(given.value) then given else current
  }

  /** A new guest's contact field: the given value, blank or not, or `default` when none is given. */
  function FieldOrDefault(given: Option<string>, default: string): (r: string)
    ensures given.Some? ==> r == given.value
    ensures given.None? ==> r == default
  {
    if given.Some? then given.value else default
  }

  /** The guest table after resolving one guest, the guest's id, and the next free id. */
  datatype Resolved = Resolved(guests: seq<Guest>, id: nat, nextId: nat)

  /** Each row keeps its id and name; rows may only be appended. */
  ghost predicate KeepsIdentities(g0: seq<Guest>, g1: seq<Guest>)
  {
    |g0| <= |g1| && forall i :: 0 <= i < |g0| ==> g1[i].id == g0[i].id && g1[i].name == g0[i].name
  }

  /** The guest with id `id` is called `name`. */
  ghost predicate Names(guests: seq<Guest>, id: nat, name: string)
  {
    exists i :: 0 <= i < |guests| && guests[i].id == id && guests[i].name == name
  }

  /**
   * findOrCreateGuestWithCompleteInfo: a guest found by name has each
   * contact field the request gives (non-blank) overwritten; otherwise a new
   * guest is appended with the given fields, the placeholder standing in
   * for a missing RG or phone and the empty string for a missing email.
   * More than one guest with the name is a runtime failure.
   */
  function FindOrCreateGuest(guests: seq<Guest>, info: GuestInfo, freshId: nat): (r: Result<Resolved>)
    ensures r.Err? <==> Hostel.GuestByName(guests, info.name).Err?
    ensures r.Err? ==> r.error == Runtime
    ensures r.Ok? ==> KeepsIdentities(guests, r.value.guests) && Names(r.value.guests, r.value.id, info.name)
    ensures r.Ok? ==> r.value.nextId >= freshId
    ensures Hostel.GuestByName(guests, info.name) == Ok(None) ==>
      r == Ok(Resolved(guests + [Guest(freshId, info.name, Some(FieldOrDefault(info.rg, NotInformed)),
                                       Some(FieldOrDefault(info.phone, NotInformed)), Some(FieldOrDefault(info.email, "")))],
                       freshId, freshId + 1))
    ensures var found := Hostel.GuestByName(guests, info.name);
      found.Ok? && found.value.Some? ==>
      var i := found.value.value;
      r == Ok(Resolved(guests[i := guests[i].(rg := MergeField(guests[i].rg, info.rg),
                                              phone := MergeField(guests[i].phone, info.phone),
                                              email := MergeField(guests[i].email, info.email))],
                       guests[i].id, freshId))
  {
    match Hostel.GuestByName(guests, info.name)
    case Err(e) => Err(Runtime)
    case Ok(None) =>
      var g := Guest(freshId, info.name, Some(FieldOrDefault(info.rg, NotInformed)),
                     Some(FieldOrDefault(info.phone, NotInformed)), Some(FieldOrDefault(info.email, "")));
      var gs := guests + [g];
      assert gs[|guests|] == g;
      Ok(Resolved(gs, freshId, freshId + 1))
    case Ok(Some(i)) =>
      var g := guests[i].(rg := MergeField(guests[i].rg, info.rg),
                          phone := MergeField(guests[i].phone, info.phone),
                          email := MergeField(guests[i].email, info.email));
      var gs := guests[i := g];
      assert gs[i] == g;
      Ok(Resolved(gs, guests[i].id, freshId))
  }

  /** The guest table after resolving a list of guests, their ids in request order, and the next free id. */
  datatype GuestBatch = GuestBatch(guests: seq<Guest>, ids: seq<nat>, nextId: nat)

  /**
   * The request's guests resolved one after the other (`stream().map(...)`),
   * each seeing the guests created before it; the first failure stops the
   * batch.
   */
  function ResolveAll(guests: seq<Guest>, infos: seq<GuestInfo>, nextId: nat): (r: Result<GuestBatch>)
    ensures r.Err? ==> r.error == Runtime
    ensures r.Ok? ==> |r.value.ids| == |infos| && KeepsIdentities(guests, r.value.guests) && r.value.nextId >= nextId
    ensures r.Ok? ==> forall k :: 0 <= k < |infos| ==> Names(r.value.guests, r.value.ids[k], infos[k].name)
    decreases |infos|
  {
    if infos == [] then Ok(GuestBatch(guests, [], nextId))
    else
      match ResolveAll(guests, infos[..|infos| - 1], nextId)
      case Err(e) => Err(e)
      case Ok(b) =>
        match FindOrCreateGuest(b.guests, infos[|infos| - 1], b.nextId)
        case Err(e) => Err(e)
        case Ok(step) =>
          var r := GuestBatch(step.guests, b.ids + [step.id], step.nextId);
          assert forall k :: 0 <= k < |infos| - 1 ==> Names(r.guests, r.ids[k], infos[k].name) by {
            forall k | 0 <= k < |infos| - 1 ensures Names(r.guests, r.ids[k], infos[k].name) {
              assert Names(b.guests, b.ids[k], infos[..|infos| - 1][k].name);
              var i :| 0 <= i < |b.guests| && b.guests[i].id == b.ids[k] && b.guests[i].name == infos[k].name;
              assert r.guests[i].id == b.ids[k] && r.guests[i].name == infos[k].name;
            }
          }
          Ok(r)
  }

  /** Once a prefix of the request fails, the whole request fails. */
  lemma {:induction false} ResolveAllStopsAtError(guests: seq<Guest>, infos: seq<GuestInfo>, nextId: nat, k: nat)
    requires k <= |infos| && ResolveAll(guests, infos[..k], nextId).Err?
    ensures ResolveAll(guests, infos, nextId).Err?
    decreases |infos|
  {
    if k < |infos| {
      var front := infos[..|infos| - 1];
      assert front[..k] == infos[..k];
      ResolveAllStopsAtError(guests, front, nextId, k);
    } else {
      assert infos[..k] == infos;
    }
  }

  /** The loop over the request's guests, writing each resolved guest to the table as it goes. */
  method ResolveGuests(db: Hostel.Database, infos: seq<GuestInfo>) returns (r: Result<seq<nat>>)
    modifies db`guests, db`nextId
    ensures var spec := ResolveAll(old(db.guests), infos, old(db.nextId));
      (r.Ok? <==> spec.Ok?) && (r.Err? ==> r.error == Runtime)
      && (r.Ok? ==> r.value == spec.value.ids && db.guests == spec.value.guests && db.nextId == spec.value.nextId)
  {
    var ids := [];
    var k := 0;
    while k < |infos|
      invariant 0 <= k <= |infos|
      invariant ResolveAll(old(db.guests), infos[..k], old(db.nextId)) == Ok(GuestBatch(db.guests, ids, db.nextId))
    {
      var step := FindOrCreateGuest(db.guests, infos[k], db.nextId);
      assert infos[..k + 1][..k] == infos[..k];
      assert infos[..k + 1][k] == infos[k];
      if step.Err? {
        ResolveAllStopsAtError(old(db.guests), infos, old(db.nextId), k + 1);
        return Err(Runtime);
      }
      db.guests, db.nextId := step.value.guests, step.value.nextId;
      ids := ids + [step.value.id];
      k := k + 1;
    }
    assert infos[..k] == infos;
    r := Ok(ids);
  }

  /** The ids of a list, as a set (`guests.forEach(reserve.getGuest()::add)`). */
  function IdSet(ids: seq<nat>): (s: set<nat>)
    ensures forall x :: x in s <==> x in ids
  {
    set x | x in ids
  }

  /**
   * The decision of createReservationWithGuest: at least one guest (else
   * IllegalArgument); every guest resolved or created; then the shared
   * decision, taking any free bed of a shared room whatever its status,
   * with the first id after the new guests. Every failure reaches the
   * caller re-wrapped as a runtime failure.
   */
  function PlanReservationWithGuest(guests: seq<Guest>, rooms: seq<Room>, beds: seq<Bed>, roomOccs: seq<RoomOccupation>,
                                    bedOccs: seq<BedOccupation>, infos: seq<GuestInfo>, roomNumber: int, dates: set<int>,
                                    nextId: nat)
    : (r: Result<Booking>)
    ensures r.Err? ==> r.error == Runtime
    ensures infos == [] || ResolveAll(guests, infos, nextId).Err? ==> r.Err?
    ensures infos != [] && ResolveAll(guests, infos, nextId).Ok? ==>
      var batch := ResolveAll(guests, infos, nextId).value;
      var plan := PlanStay(batch.guests, rooms, beds, roomOccs, bedOccs, IdSet(batch.ids), roomNumber, dates,
                           batch.nextId, false);
      (r.Ok? <==> plan.Ok?) && (r.Ok? ==> r == plan)
  {
    if infos == [] then Err(Runtime)
    else
      match ResolveAll(guests, infos, nextId)
      case Err(_) => Err(Runtime)
      case Ok(batch) =>
        match PlanStay(batch.guests, rooms, beds, roomOccs, bedOccs, IdSet(batch.ids), roomNumber, dates,
                       batch.nextId, false)
        case Err(_) => Err(Runtime)
        case Ok(b) => Ok(b)
  }

  /**
   * createReservationWithGuest. The guests are resolved and written one by
   * one; a later failure rolls them back.
   */
  method CreateReservationWithGuest(db: Hostel.Database, infos: seq<GuestInfo>, roomNumber: int, dates: set<int>)
    returns (r: Result<Reserve>)
    requires db.NoDoubleBooking()
    modifies db`guests, db`reserves, db`roomOccupations, db`bedOccupations, db`nextId
    ensures db.NoDoubleBooking()
    ensures var plan := PlanReservationWithGuest(old(db.guests), db.rooms, db.beds, old(db.roomOccupations),
                                                 old(db.bedOccupations), infos, roomNumber, dates, old(db.nextId));
      (r.Ok? <==> plan.Ok?) && (r.Err? ==> r.error == Runtime)
      && (r.Ok? ==> r.value == plan.value.reserve
                    && Recorded(plan.value, db.beds, old(db.reserves), old(db.roomOccupations), old(db.bedOccupations),
                                db.guests, db.reserves, db.roomOccupations, db.bedOccupations)
                    && db.nextId == NextIdAfter(plan.value))
    ensures r.Err? ==>
      db.guests == old(db.guests) && db.reserves == old(db.reserves) && db.roomOccupations == old(db.roomOccupations)
      && db.bedOccupations == old(db.bedOccupations) && db.nextId == old(db.nextId)
  {
    if infos == [] {
      return Err(Runtime);
    }
    var guests0, nextId0 := db.guests, db.nextId;
    var ids := ResolveGuests(db, infos);
    if ids.Err? {
      db.guests, db.nextId := guests0, nextId0;
      return Err(Runtime);
    }
    r := BookStay(db, IdSet(ids.value), roomNumber, dates, false);
    if r.Err? {
      db.guests, db.nextId := guests0, nextId0;
      return Err(Runtime);
    }
  }

  /** An ASCII letter or digit, what `replaceAll("[^a-zA-Z0-9]", "")` keeps. */
  predicate IsAsciiAlnum(c: char) { 'a' <= c <= 'z' || 'A' <= c <= 'Z' || '0' <= c <= '9' }

  /** The guest name reduced to lower-case ASCII letters and digits. */
  function CleanName(name: string): (r: string)
    ensures |r| <= |name|
    ensures forall i :: 0 <= i < |r| ==> 'a' <= r[i] <= 'z' || '0' <= r[i] <= '9'
  {
    Text.ToLower(Seqs.Filter(name, IsAsciiAlnum))
  }

  /**
   * generateAirbnbGuestEmail: "airbnb_", the cleaned name, "_", the clock
   * reading's decimal text from its ninth digit on, "@elohostel.com". A
   * reading shorter than eight digits makes `substring(8)` fail.
   */
  function AirbnbGuestEmail(name: string, clock: string): (r: Result<string>)
    ensures r.Err? <==> |clock| < 8
    ensures r.Err? ==> r.error == Runtime
    ensures r.Ok? ==> Text.StartsWith(r.value, "airbnb_") && Text.EndsWith(r.value, "@elohostel.com")
    ensures r.Ok? ==> |r.value| == 22 + |CleanName(name)| + |clock| - 8
  {
    if |clock| < 8 then Err(Runtime)
    else
      var e := "airbnb_" + CleanName(name) + "_" + clock[8..] + "@elohostel.com";
      assert e[..7] == "airbnb_";
      assert e[|e| - 14..] == "@elohostel.com";
      Ok(e)
  }

  /**
   * findOrCreateAirbnbGuest: the guest with the name when there is one,
   * untouched; otherwise a new guest with a generated email, the phone
   * placeholder and the RG "Airbnb-" followed by the clock reading.
   * `emailClock` and `rgClock` are the decimal texts of the two clock
   * readings the source takes.
   */
  function FindOrCreateAirbnbGuest(guests: seq<Guest>, name: string, freshId: nat, emailClock: string, rgClock: string)
    : (r: Result<Resolved>)
    ensures r.Err? ==> r.error == Runtime
    ensures r.Err? <==> Hostel.GuestByName(guests, name).Err? || (Hostel.GuestByName(guests, name) == Ok(None) && |emailClock| < 8)
    ensures var found := Hostel.GuestByName(guests, name);
      found.Ok? && found.value.Some? ==> r == Ok(Resolved(guests, guests[found.value.value].id, freshId))
    ensures r.Ok? && Hostel.GuestByName(guests, name) == Ok(None) ==>
      r.value.id == freshId && r.value.nextId == freshId + 1 && |r.value.guests| == |guests| + 1
      && r.value.guests[..|guests|] == guests
      && var g := r.value.guests[|guests|];
      g.id == freshId && g.name == name && g.phone == Some(NotInformed) && g.rg == Some("Airbnb-" + rgClock)
      && g.email == Some(AirbnbGuestEmail(name, emailClock).value)
  {
    match Hostel.GuestByName(guests, name)
    case Err(e) => Err(Runtime)
    case Ok(Some(i)) => Ok(Resolved(guests, guests[i].id, freshId))
    case Ok(None) =>
      match AirbnbGuestEmail(name, emailClock)
      case Err(e) => Err(Runtime)
      case Ok(email) =>
        var gs := guests + [Guest(freshId, name, Some("Airbnb-" + rgClock), Some(NotInformed), Some(email))];
        assert gs[..|guests|] == guests;
        Ok(Resolved(gs, freshId, freshId + 1))
  }

  /**
   * The decision of createReserveForAirbnb: the guest found or created,
   * then the shared decision, taking any free bed of a shared room, with
   * the first id after a new guest's. Every failure reaches the caller
   * re-wrapped as a runtime failure.
   */
  function PlanReserveForAirbnb(guests: seq<Guest>, rooms: seq<Room>, beds: seq<Bed>, roomOccs: seq<RoomOccupation>,
                                bedOccs: seq<BedOccupation>, guestName: string, roomNumber: int, dates: set<int>,
                                nextId: nat, emailClock: string, rgClock: string)
    : (r: Result<Booking>)
    ensures r.Err? ==> r.error == Runtime
    ensures FindOrCreateAirbnbGuest(guests, guestName, nextId, emailClock, rgClock).Err? ==> r.Err?
    ensures FindOrCreateAirbnbGuest(guests, guestName, nextId, emailClock, rgClock).Ok? ==>
      var g := FindOrCreateAirbnbGuest(guests, guestName, nextId, emailClock, rgClock).value;
      var plan := PlanStay(g.guests, rooms, beds, roomOccs, bedOccs, {g.id}, roomNumber, dates, g.nextId, false);
      (r.Ok? <==> plan.Ok?) && (r.Ok? ==> r == plan)
  {
    match FindOrCreateAirbnbGuest(guests, guestName, nextId, emailClock, rgClock)
    case Err(_) => Err(Runtime)
    case Ok(g) =>
      match PlanStay(g.guests, rooms, beds, roomOccs, bedOccs, {g.id}, roomNumber, dates, g.nextId, false)
      case Err(_) => Err(Runtime)
      case Ok(b) => Ok(b)
  }

  /** createReserveForAirbnb: the guest written first, rolled back with the rest on a failure. */
  method CreateReserveForAirbnb(db: Hostel.Database, guestName: string, roomNumber: int, dates: set<int>,
                                emailClock: string, rgClock: string)
    returns (r: Result<Reserve>)
    requires db.NoDoubleBooking()
    modifies db`guests, db`reserves, db`roomOccupations, db`bedOccupations, db`nextId
    ensures db.NoDoubleBooking()
    ensures var plan := PlanReserveForAirbnb(old(db.guests), db.rooms, db.beds, old(db.roomOccupations),
                                             old(db.bedOccupations), guestName, roomNumber, dates, old(db.nextId),
                                             emailClock, rgClock);
      (r.Ok? <==> plan.Ok?) && (r.Err? ==> r.error == Runtime)
      && (r.Ok? ==> r.value == plan.value.reserve
                    && Recorded(plan.value, db.beds, old(db.reserves), old(db.roomOccupations), old(db.bedOccupations),
                                db.guests, db.reserves, db.roomOccupations, db.bedOccupations)
                    && db.nextId == NextIdAfter(plan.value))
    ensures r.Err? ==>
      db.guests == old(db.guests) && db.reserves == old(db.reserves) && db.roomOccupations == old(db.roomOccupations)
      && db.bedOccupations == old(db.bedOccupations) && db.nextId == old(db.nextId)
  {
    var g := FindOrCreateAirbnbGuest(db.guests, guestName, db.nextId, emailClock, rgClock);
    if g.Err? {
      return Err(Runtime);
    }
    var guests0, nextId0 := db.guests, db.nextId;
    db.guests, db.nextId := g.value.guests, g.value.nextId;
    r := BookStay(db, {g.value.id}, roomNumber, dates, false);
    if r.Err? {
      db.guests, db.nextId := guests0, nextId0;
      return Err(Runtime);
    }
  }

  // ------------------------------------------------------------ changes to one reservation row

  /**
   * The shape of the operations that change one reservation and save it:
   * the row looked up by id (none is NotFound), then replaced by `change`
   * applied to it.
   */
  method ChangeReserve(db: Hostel.Database, reserveId: nat, change: Reserve -> Reserve) returns (r: Result<Reserve>)
    modifies db`reserves
    ensures var k := Hostel.ReserveById(old(db.reserves), reserveId);
      (r.Err? <==> k.Err?) && (r.Err? ==> r.error == NotFound && db.reserves == old(db.reserves))
      && (r.Ok? ==> r.value == change(old(db.reserves)[k.value]) && db.reserves == old(db.reserves)[k.value := r.value])
  {
    var k := Hostel.ReserveById(db.reserves, reserveId);
    if k.Err? {
      return Err(NotFound);
    }
    var row := change(db.reserves[k.value]);
    db.reserves := db.reserves[k.value := row];
    r := Ok(row);
  }

  /** setCustomValue: the given value becomes the total whatever the nights, guests and fee; nothing else changes. */
  function WithCustomValue(r: Reserve, v: int): (r': Reserve)
    ensures UsesCustomValue(r') && CalculateTotalValue(r') == v
    ensures r'.(customValue := r.customValue, useCustomValue := r.useCustomValue) == r
  {
    r.(customValue := Some(v), useCustomValue := Some(true))
  }

  /** setAutoValue: the custom value is dropped and the total is computed from the nights, the guests and the fee. */
  function WithAutoValue(r: Reserve): (r': Reserve)
    ensures !UsesCustomValue(r') && r'.customValue.None?
    ensures CalculateTotalValue(r') == NumberOfDays(r) * (BaseValue(r) + r.extraGuestFee * NumberOfExtraGuests(r))
    ensures r'.(customValue := r.customValue, useCustomValue := r.useCustomValue) == r
  {
    r.(useCustomValue := Some(false), customValue := None)
  }

  /** Switching back to the computed value forgets any custom value that was set. */
  lemma AutoValueForgetsCustomValue(r: Reserve, v: int)
    ensures WithAutoValue(WithCustomValue(r, v)) == WithAutoValue(r)
  {
  }

  /** updateExtraGuestFee: a computed total charges the new fee; a custom total is unaffected. */
  function WithExtraGuestFee(r: Reserve, fee: int): (r': Reserve)
    ensures !UsesCustomValue(r) ==>
      CalculateTotalValue(r') == NumberOfDays(r) * (BaseValue(r) + fee * NumberOfExtraGuests(r))
    ensures UsesCustomValue(r) ==> CalculateTotalValue(r') == CalculateTotalValue(r)
    ensures r'.(extraGuestFee := r.extraGuestFee) == r
  {
    r.(extraGuestFee := fee)
  }

  /** The fields reserveUpdateExtra may overwrite; `None` stands for a null field of the request. */
  datatype ValueUpdate = ValueUpdate(customValue: Option<int>, extraGuestFee: Option<int>,
                                     useCustomValue: Option<bool>, initialValue: Option<int>)

  /** updateData: every field the update carries overwrites the row's; an absent one leaves it alone. */
  function ApplyValueUpdate(r: Reserve, u: ValueUpdate): (r': Reserve)
    ensures u.customValue.Some? ==> r'.customValue == u.customValue
    ensures u.customValue.None? ==> r'.customValue == r.customValue
    ensures u.extraGuestFee.Some? ==> r'.extraGuestFee == u.extraGuestFee.value
    ensures u.extraGuestFee.None? ==> r'.extraGuestFee == r.extraGuestFee
    ensures u.useCustomValue.Some? ==> r'.useCustomValue == u.useCustomValue
    ensures u.useCustomValue.None? ==> r'.useCustomValue == r.useCustomValue
    ensures u.initialValue.Some? ==> r'.initialValue == u.initialValue
    ensures u.initialValue.None? ==> r'.initialValue == r.initialValue
    ensures r'.(customValue := r.customValue, extraGuestFee := r.extraGuestFee,
                useCustomValue := r.useCustomValue, initialValue := r.initialValue) == r
  {
    var r1 := if u.customValue.Some? then r.(customValue := u.customValue) else r;
    var r2 := if u.extraGuestFee.Some? then r1.(extraGuestFee := u.extraGuestFee.value) else r1;
    var r3 := if u.useCustomValue.Some? then r2.(useCustomValue := u.useCustomValue) else r2;
    if u.initialValue.Some? then r3.(initialValue := u.initialValue) else r3
  }

  /** Applying the same update twice is applying it once; an empty update changes nothing. */
  lemma ValueUpdateIdempotent(r: Reserve, u: ValueUpdate)
    ensures ApplyValueUpdate(ApplyValueUpdate(r, u), u) == ApplyValueUpdate(r, u)
    ensures ApplyValueUpdate(r, ValueUpdate(None, None, None, None)) == r
  {
  }

  /** setCustomValue. */
  method SetCustomValue(db: Hostel.Database, reserveId: nat, v: int) returns (r: Result<Reserve>)
    modifies db`reserves
    ensures var k := Hostel.ReserveById(old(db.reserves), reserveId);
      (r.Err? <==> k.Err?) && (r.Err? ==> r.error == NotFound && db.reserves == old(db.reserves))
      && (r.Ok? ==> r.value == WithCustomValue(old(db.reserves)[k.value], v)
                    && db.reserves == old(db.reserves)[k.value := r.value])
  {
    r := ChangeReserve(db, reserveId, (x: Reserve) => WithCustomValue(x, v));
  }

  /** setAutoValue. */
  method SetAutoValue(db: Hostel.Database, reserveId: nat) returns (r: Result<Reserve>)
    modifies db`reserves
    ensures var k := Hostel.ReserveById(old(db.reserves), reserveId);
      (r.Err? <==> k.Err?) && (r.Err? ==> r.error == NotFound && db.reserves == old(db.reserves))
      && (r.Ok? ==> r.value == WithAutoValue(old(db.reserves)[k.value])
                    && db.reserves == old(db.reserves)[k.value := r.value])
  {
    r := ChangeReserve(db, reserveId, WithAutoValue);
  }

  /** updateExtraGuestFee. */
  method UpdateExtraGuestFee(db: Hostel.Database, reserveId: nat, fee: int) returns (r: Result<Reserve>)
    modifies db`reserves
    ensures var k := Hostel.ReserveById(old(db.reserves), reserveId);
      (r.Err? <==> k.Err?) && (r.Err? ==> r.error == NotFound && db.reserves == old(db.reserves))
      && (r.Ok? ==> r.value == WithExtraGuestFee(old(db.reserves)[k.value], fee)
                    && db.reserves == old(db.reserves)[k.value := r.value])
  {
    r := ChangeReserve(db, reserveId, (x: Reserve) => WithExtraGuestFee(x, fee));
  }

  /**
   * reserveUpdateExtra: `getReferenceById` hands out a proxy, so a missing
   * row surfaces as a runtime failure when the update first touches it.
   */
  method ReserveUpdateExtra(db: Hostel.Database, reserveId: nat, u: ValueUpdate) returns (r: Result<Reserve>)
    modifies db`reserves
    ensures var k := Hostel.ReserveById(old(db.reserves), reserveId);
      (r.Err? <==> k.Err?) && (r.Err? ==> r.error == Runtime && db.reserves == old(db.reserves))
      && (r.Ok? ==> r.value == ApplyValueUpdate(old(db.reserves)[k.value], u)
                    && db.reserves == old(db.reserves)[k.value := r.value])
  {
    r := ChangeReserve(db, reserveId, (x: Reserve) => ApplyValueUpdate(x, u));
    if r.Err? {
      r := Err(Runtime);
    }
  }

  /** reserve.getGuest().add(guest): the guest joins the reservation; one more extra guest costs the fee every night. */
  function AddingGuest(r: Reserve, g: nat): (r': Reserve)
    ensures g in r'.guests && forall x :: x != g ==> (x in r'.guests <==> x in r.guests)
    ensures r'.(guests := r.guests) == r
    ensures !UsesCustomValue(r) && |r.guests| >= 1 && g !in r.guests ==>
      CalculateTotalValue(r') == CalculateTotalValue(r) + r.extraGuestFee * NumberOfDays(r)
  {
    if !UsesCustomValue(r) && |r.guests| >= 1 && g !in r.guests then
      ExtraGuestCostsFeePerNight(r, g);
      r.(guests := r.guests + {g})
    else r.(guests := r.guests + {g})
  }

  /** reserve.getGuest().remove(guest): the guest leaves the reservation. */
  function RemovingGuest(r: Reserve, g: nat): (r': Reserve)
    ensures g !in r'.guests && forall x :: x != g ==> (x in r'.guests <==> x in r.guests)
    ensures r'.(guests := r.guests) == r
  {
    r.(guests := r.guests - {g})
  }

  /** Removing a guest that was just added restores the reservation. */
  lemma GuestRoundTrip(r: Reserve, g: nat)
    requires g !in r.guests
    ensures RemovingGuest(AddingGuest(r, g), g) == r
  {
    assert r.guests + {g} - {g} == r.guests;
  }

  /** addGuestForReserve: the guest looked up by name first, then the reservation. */
  method AddGuestForReserve(db: Hostel.Database, reserveId: nat, guestName: string) returns (r: Result<Reserve>)
    modifies db`reserves
    ensures var g := Hostel.ExistingGuestByName(db.guests, guestName);
            var k := Hostel.ReserveById(old(db.reserves), reserveId);
      (g.Err? ==> r == Err(g.error))
      && (g.Ok? ==> (r.Err? <==> k.Err?) && (r.Err? ==> r.error == NotFound)
                    && (r.Ok? ==> r.value == AddingGuest(old(db.reserves)[k.value], db.guests[g.value].id)
                                  && db.reserves == old(db.reserves)[k.value := r.value]))
    ensures r.Err? ==> db.reserves == old(db.reserves)
  {
    var g := Hostel.ExistingGuestByName(db.guests, guestName);
    if g.Err? {
      return Err(g.error);
    }
    var id := db.guests[g.value].id;
    r := ChangeReserve(db, reserveId, (x: Reserve) => AddingGuest(x, id));
  }

  /** removeGuestForReserve: the guest looked up by name first, then the reservation. */
  method RemoveGuestForReserve(db: Hostel.Database, guestName: string, reserveId: nat) returns (r: Result<Reserve>)
    modifies db`reserves
    ensures var g := Hostel.ExistingGuestByName(db.guests, guestName);
            var k := Hostel.ReserveById(old(db.reserves), reserveId);
      (g.Err? ==> r == Err(g.error))
      && (g.Ok? ==> (r.Err? <==> k.Err?) && (r.Err? ==> r.error == NotFound)
                    && (r.Ok? ==> r.value == RemovingGuest(old(db.reserves)[k.value], db.guests[g.value].id)
                                  && db.reserves == old(db.reserves)[k.value := r.value]))
    ensures r.Err? ==> db.reserves == old(db.reserves)
  {
    var g := Hostel.ExistingGuestByName(db.guests, guestName);
    if g.Err? {
      return Err(g.error);
    }
    var id := db.guests[g.value].id;
    r := ChangeReserve(db, reserveId, (x: Reserve) => RemovingGuest(x, id));
  }

  /**
   * reserve.getRooms().add(room): the room joins the reservation once, after
   * the rooms it already has; a reservation whose only room it then is takes
   * its price as the nightly base.
   */
  function AddingRoom(r: Reserve, room: Room): (r': Reserve)
    ensures forall k :: k in r'.rooms <==> k in r.rooms || k == room.id
    ensures r.rooms != [] ==> r'.rooms[0] == r.rooms[0]
    ensures Seqs.Distinct(r.rooms) ==> Seqs.Distinct(r'.rooms)
    ensures |r'.rooms| == 1 ==> r'.initialValue == room.price
    ensures |r'.rooms| != 1 ==> r'.initialValue == r.initialValue
    ensures r'.(rooms := r.rooms, initialValue := r.initialValue) == r
  {
    var rooms := if room.id in r.rooms then r.rooms else r.rooms + [room.id];
    if |rooms| == 1 then r.(rooms := rooms, initialValue := room.price) else r.(rooms := rooms)
  }

  /** reserve.getRooms().remove(room): the room leaves the reservation; without rooms the nightly base is zero. */
  function RemovingRoom(r: Reserve, roomId: nat): (r': Reserve)
    ensures forall k :: k in r'.rooms <==> k in r.rooms && k != roomId
    ensures Seqs.Distinct(r.rooms) ==> Seqs.Distinct(r'.rooms)
    ensures r'.rooms == [] ==> r'.initialValue == Some(0)
    ensures r'.rooms != [] ==> r'.initialValue == r.initialValue
    ensures r'.(rooms := r.rooms, initialValue := r.initialValue) == r
  {
    var rooms := Seqs.Filter(r.rooms, (k: nat) => k != roomId);
    assert Seqs.Distinct(r.rooms) ==> Seqs.Distinct(rooms) by {
      if Seqs.Distinct(r.rooms) {
        Seqs.FilterDistinct(r.rooms, (k: nat) => k != roomId);
      }
    }
    if rooms == [] then r.(rooms := rooms, initialValue := Some(0)) else r.(rooms := rooms)
  }

  /** Removing a room that was just added to a reservation with other rooms restores it. */
  lemma RoomRoundTrip(r: Reserve, room: Room)
    requires room.id !in r.rooms && r.rooms != []
    ensures RemovingRoom(AddingRoom(r, room), room.id) == r
  {
    var p := (k: nat) => k != room.id;
    Seqs.FilterAppend(r.rooms, [room.id], p);
    Seqs.FilterKeepsAll(r.rooms, p);
    assert Seqs.Filter([room.id], p) == [];
  }

  /**
   * The checks addRoom and removeRoom share: the reservation (NotFound),
   * then the room by number, then a cancelled reservation refused.
   */
  function RoomChangeTarget(reserves: seq<Reserve>, rooms: seq<Room>, reserveId: nat, roomNumber: int)
    : (r: Result<(nat, Room)>)
    ensures Hostel.ReserveById(reserves, reserveId).Err? ==> r == Err(NotFound)
    ensures Hostel.ReserveById(reserves, reserveId).Ok? && Hostel.RoomByNumber(rooms, roomNumber).Err? ==>
      r == Err(Hostel.RoomByNumber(rooms, roomNumber).error)
    ensures r.Ok? ==> r.value.0 < |reserves| && reserves[r.value.0].id == reserveId
                      && r.value.0 == Hostel.ReserveById(reserves, reserveId).value
                      && r.value.1 == rooms[Hostel.RoomByNumber(rooms, roomNumber).value]
    ensures Hostel.ReserveById(reserves, reserveId).Ok? && Hostel.RoomByNumber(rooms, roomNumber).Ok? ==>
      (r.Ok? <==> reserves[Hostel.ReserveById(reserves, reserveId).value].status != Some(CANCELLED))
      && (r.Err? ==> r.error == IllegalState)
  {
    match Hostel.ReserveById(reserves, reserveId)
    case Err(e) => Err(e)
    case Ok(k) =>
      match Hostel.RoomByNumber(rooms, roomNumber)
      case Err(e) => Err(e)
      case Ok(j) => if reserves[k].status == Some(CANCELLED) then Err(IllegalState) else Ok((k, rooms[j]))
  }

  /** addRoom. */
  method AddRoom(db: Hostel.Database, reserveId: nat, roomNumber: int) returns (r: Result<Reserve>)
    modifies db`reserves
    ensures var t := RoomChangeTarget(old(db.reserves), db.rooms, reserveId, roomNumber);
      (r.Err? <==> t.Err?) && (r.Err? ==> r.error == t.error && db.reserves == old(db.reserves))
      && (r.Ok? ==> r.value == AddingRoom(old(db.reserves)[t.value.0], t.value.1)
                    && db.reserves == old(db.reserves)[t.value.0 := r.value])
  {
    var t := RoomChangeTarget(db.reserves, db.rooms, reserveId, roomNumber);
    if t.Err? {
      return Err(t.error);
    }
    var row := AddingRoom(db.reserves[t.value.0], t.value.1);
    db.reserves := db.reserves[t.value.0 := row];
    r := Ok(row);
  }

  /** removeRoom. */
  method RemoveRoom(db: Hostel.Database, reserveId: nat, roomNumber: int) returns (r: Result<Reserve>)
    modifies db`reserves
    ensures var t := RoomChangeTarget(old(db.reserves), db.rooms, reserveId, roomNumber);
      (r.Err? <==> t.Err?) && (r.Err? ==> r.error == t.error && db.reserves == old(db.reserves))
      && (r.Ok? ==> r.value == RemovingRoom(old(db.reserves)[t.value.0], t.value.1.id)
                    && db.reserves == old(db.reserves)[t.value.0 := r.value])
  {
    var t := RoomChangeTarget(db.reserves, db.rooms, reserveId, roomNumber);
    if t.Err? {
      return Err(t.error);
    }
    var row := RemovingRoom(db.reserves[t.value.0], t.value.1.id);
    db.reserves := db.reserves[t.value.0 := row];
    r := Ok(row);
  }

  /** removeDate: the night leaves the reservation, which then costs one nightly price less. */
  function WithoutNight(r: Reserve, d: int): (r': Reserve)
    ensures d !in r'.reservedDays && forall x :: x != d ==> (x in r'.reservedDays <==> x in r.reservedDays)
    ensures r'.(reservedDays := r.reservedDays) == r
    ensures !UsesCustomValue(r) && d in r.reservedDays ==>
      CalculateTotalValue(r) == CalculateTotalValue(r') + BaseValue(r) + r.extraGuestFee * NumberOfExtraGuests(r)
  {
    var r' := r.(reservedDays := r.reservedDays - {d});
    if !UsesCustomValue(r) && d in r.reservedDays then
      ExtraNightCostsDailyRate(r', d);
      assert r'.(reservedDays := r'.reservedDays + {d}) == r;
      r'
    else r'
  }

  /**
   * removeDate. Unlike the other changes to the nights it checks neither
   * the status nor the window, and it leaves both ledgers as they are.
   */
  method RemoveDate(db: Hostel.Database, reserveId: nat, d: int) returns (r: Result<Reserve>)
    modifies db`reserves
    ensures var k := Hostel.ReserveById(old(db.reserves), reserveId);
      (r.Err? <==> k.Err?) && (r.Err? ==> r.error == NotFound && db.reserves == old(db.reserves))
      && (r.Ok? ==> r.value == WithoutNight(old(db.reserves)[k.value], d)
                    && db.reserves == old(db.reserves)[k.value := r.value])
  {
    r := ChangeReserve(db, reserveId, (x: Reserve) => WithoutNight(x, d));
  }

  // ------------------------------------------------------------ cancelling and deleting

  /** removeOccupations on the room ledger: every entry of the reservation deleted, the others kept. */
  function ReleaseRoomEntries(occs: seq<RoomOccupation>, reserveId: nat): (r: seq<RoomOccupation>)
    ensures forall o :: o in r <==> o in occs && o.reserveId != reserveId
    ensures Allocation.RoomLedgerDisjoint(occs) ==> Allocation.RoomLedgerDisjoint(r)
  {
    var r := Seqs.Filter(occs, (o: RoomOccupation) => o.reserveId != reserveId);
    assert Allocation.RoomLedgerDisjoint(occs) ==> Allocation.RoomLedgerDisjoint(r) by {
      if Allocation.RoomLedgerDisjoint(occs) {
        Allocation.RemovingRoomEntries(occs, r);
      }
    }
    r
  }

  /** removeOccupations on the bed ledger. */
  function ReleaseBedEntries(occs: seq<BedOccupation>, reserveId: nat): (r: seq<BedOccupation>)
    ensures forall o :: o in r <==> o in occs && o.reserveId != reserveId
    ensures Allocation.BedLedgerDisjoint(occs) ==> Allocation.BedLedgerDisjoint(r)
  {
    var r := Seqs.Filter(occs, (o: BedOccupation) => o.reserveId != reserveId);
    assert Allocation.BedLedgerDisjoint(occs) ==> Allocation.BedLedgerDisjoint(r) by {
      if Allocation.BedLedgerDisjoint(occs) {
        Allocation.RemovingBedEntries(occs, r);
      }
    }
    r
  }

  /**
   * Once a reservation's entries are released, a room whose only entries on
   * some nights were that reservation's passes the creation paths'
   * availability test for those nights.
   */
  lemma ReleasedNightsAreBookable(occs: seq<RoomOccupation>, reserveId: nat, roomId: nat, dates: set<int>)
    requires forall o :: o in occs && o.roomId == roomId && o.reserveId != reserveId ==> o.days * dates == {}
    ensures RoomOccupationRepository.IsRoomAvailableForDates(ReleaseRoomEntries(occs, reserveId), roomId, dates)
  {
  }

  /**
   * What cancelReserve does to the tables: NotFound for a missing
   * reservation; IllegalState for one already cancelled or already checked
   * in; otherwise the row marked CANCELLED (and kept) and its entries
   * released from both ledgers. A failure writes nothing.
   */
  ghost predicate Cancelled(reserveId: nat, r: Result<Reserve>,
                            reserves0: seq<Reserve>, roomOccs0: seq<RoomOccupation>, bedOccs0: seq<BedOccupation>,
                            reserves1: seq<Reserve>, roomOccs1: seq<RoomOccupation>, bedOccs1: seq<BedOccupation>)
  {
    var k := Hostel.ReserveById(reserves0, reserveId);
    (k.Err? ==> r == Err(NotFound))
    && (k.Ok? ==>
          var row := reserves0[k.value];
          (r.Ok? <==> row.status != Some(CANCELLED) && row.checkIn == [])
          && (r.Err? ==> r.error == IllegalState)
          && (r.Ok? ==> r.value == row.(status := Some(CANCELLED)) && reserves1 == reserves0[k.value := r.value]
                        && roomOccs1 == ReleaseRoomEntries(roomOccs0, reserveId)
                        && bedOccs1 == ReleaseBedEntries(bedOccs0, reserveId)))
    && (r.Err? ==> reserves1 == reserves0 && roomOccs1 == roomOccs0 && bedOccs1 == bedOccs0)
  }

  /** cancelReserve. Releasing entries never creates a double booking. */
  method CancelReserve(db: Hostel.Database, reserveId: nat) returns (r: Result<Reserve>)
    requires db.NoDoubleBooking()
    modifies db`reserves, db`roomOccupations, db`bedOccupations
    ensures db.NoDoubleBooking()
    ensures Cancelled(reserveId, r, old(db.reserves), old(db.roomOccupations), old(db.bedOccupations),
                      db.reserves, db.roomOccupations, db.bedOccupations)
  {
    var k := Hostel.ReserveById(db.reserves, reserveId);
    if k.Err? {
      return Err(NotFound);
    }
    var row := db.reserves[k.value];
    if row.status == Some(CANCELLED) || row.checkIn != [] {
      return Err(IllegalState);
    }
    var cancelled := row.(status := Some(CANCELLED));
    db.reserves := db.reserves[k.value := cancelled];
    db.roomOccupations := ReleaseRoomEntries(db.roomOccupations, reserveId);
    db.bedOccupations := ReleaseBedEntries(db.bedOccupations, reserveId);
    r := Ok(cancelled);
  }

  /** The first reservation, in table order, naming the guest and holding exactly `dates`. */
  function ReserveOfGuestOnDates(reserves: seq<Reserve>, guestId: nat, dates: set<int>): (r: Option<nat>)
    ensures r.Some? ==> r.value < |reserves| && guestId in reserves[r.value].guests && reserves[r.value].reservedDays == dates
    ensures r.Some? ==> forall j :: 0 <= j < r.value ==> !(guestId in reserves[j].guests && reserves[j].reservedDays == dates)
    ensures r.None? <==> forall j :: 0 <= j < |reserves| ==> !(guestId in reserves[j].guests && reserves[j].reservedDays == dates)
  {
    Seqs.FirstIndex(reserves, (x: Reserve) => guestId in x.guests && x.reservedDays == dates)
  }

  /**
   * cancelReserveByGuestAndDates: the guest by name, then the first of the
   * guest's reservations holding exactly those nights (none is NotFound),
   * then cancelReserve on its id.
   */
  method CancelReserveByGuestAndDates(db: Hostel.Database, guestName: string, dates: set<int>) returns (r: Result<Reserve>)
    requires db.NoDoubleBooking()
    modifies db`reserves, db`roomOccupations, db`bedOccupations
    ensures db.NoDoubleBooking()
    ensures var g := Hostel.ExistingGuestByName(db.guests, guestName);
      (g.Err? ==> r == Err(g.error))
      && (g.Ok? && ReserveOfGuestOnDates(old(db.reserves), db.guests[g.value].id, dates).None? ==> r == Err(NotFound))
      && (g.Ok? && ReserveOfGuestOnDates(old(db.reserves), db.guests[g.value].id, dates).Some? ==>
            var i := ReserveOfGuestOnDates(old(db.reserves), db.guests[g.value].id, dates).value;
            Cancelled(old(db.reserves)[i].id, r, old(db.reserves), old(db.roomOccupations), old(db.bedOccupations),
                      db.reserves, db.roomOccupations, db.bedOccupations))
    ensures r.Err? ==>
      db.reserves == old(db.reserves) && db.roomOccupations == old(db.roomOccupations)
      && db.bedOccupations == old(db.bedOccupations)
  {
    var g := Hostel.ExistingGuestByName(db.guests, guestName);
    if g.Err? {
      return Err(g.error);
    }
    var i := ReserveOfGuestOnDates(db.reserves, db.guests[g.value].id, dates);
    if i.None? {
      return Err(NotFound);
    }
    r := CancelReserve(db, db.reserves[i.value].id);
  }

  /** reserveRepo.delete: the reservation's rows leave the table, the others keep their order. */
  function WithoutReserve(reserves: seq<Reserve>, reserveId: nat): (r: seq<Reserve>)
    ensures forall x :: x in r <==> x in reserves && x.id != reserveId
    ensures Hostel.ReserveById(r, reserveId).Err?
  {
    var r := Seqs.Filter(reserves, (x: Reserve) => x.id != reserveId);
    assert forall i :: 0 <= i < |r| ==> r[i] in r;
    r
  }

  /**
   * delete: the reservation's entries released from both ledgers and its
   * row deleted. An imported Airbnb or Booking.com event that still links
   * to the reservation makes the delete fail on its foreign key, and the
   * transaction restores what was released. Every failure, a missing
   * reservation included, reaches the caller re-wrapped as a runtime
   * failure.
   */
  method Delete(db: Hostel.Database, store: Channels.ChannelStore, reserveId: nat) returns (r: Result<()>)
    requires db.NoDoubleBooking()
    modifies db`reserves, db`roomOccupations, db`bedOccupations
    ensures db.NoDoubleBooking()
    ensures r.Err? <==>
      Hostel.ReserveById(old(db.reserves), reserveId).Err?
      || reserveId in Channels.LinkedReserveIds(store.airbnbReservations, store.bookingReservations)
    ensures r.Err? ==>
      r.error == Runtime && db.reserves == old(db.reserves) && db.roomOccupations == old(db.roomOccupations)
      && db.bedOccupations == old(db.bedOccupations)
    ensures r.Ok? ==>
      db.reserves == WithoutReserve(old(db.reserves), reserveId)
      && db.roomOccupations == ReleaseRoomEntries(old(db.roomOccupations), reserveId)
      && db.bedOccupations == ReleaseBedEntries(old(db.bedOccupations), reserveId)
  {
    var k := Hostel.ReserveById(db.reserves, reserveId);
    if k.Err? {
      return Err(Runtime);
    }
    var reserves0, roomOccs0, bedOccs0 := db.reserves, db.roomOccupations, db.bedOccupations;
    db.roomOccupations := ReleaseRoomEntries(db.roomOccupations, reserveId);
    db.bedOccupations := ReleaseBedEntries(db.bedOccupations, reserveId);
    db.reserves := WithoutReserve(db.reserves, reserveId);
    if reserveId in Channels.LinkedReserveIds(store.airbnbReservations, store.bookingReservations) {
      db.reserves, db.roomOccupations, db.bedOccupations := reserves0, roomOccs0, bedOccs0;
      return Err(Runtime);
    }
    r := Ok(());
  }

  // ------------------------------------------------------------ changing the nights

  /** Every room the reservation names exists (the join table's foreign key). */
  predicate RoomsOf(rooms: seq<Room>, row: Reserve)
  {
    forall k :: k in row.rooms ==> Hostel.RoomById(rooms, k).Ok?
  }

  /** The reservation's first room (`getRooms().iterator().next()`); a reservation without rooms fails. */
  function FirstRoom(rooms: seq<Room>, row: Reserve): (r: Result<Room>)
    requires RoomsOf(rooms, row)
    ensures r.Err? <==> row.rooms == []
    ensures r.Err? ==> r.error == Runtime
    ensures r.Ok? ==> r.value in rooms && r.value.id == row.rooms[0]
  {
    if row.rooms == [] then Err(Runtime) else Ok(rooms[Hostel.RoomById(rooms, row.rooms[0]).value])
  }

  /**
   * validateAvailability for one night on the reservation's room: a
   * whole-room unit must not be held on `d` by another reservation, a shared
   * room needs a bed no other reservation holds on `d`, and a room without a
   * type is refused.
   */
  function ValidateAvailability(room: Room, beds: seq<Bed>, roomOccs: seq<RoomOccupation>, bedOccs: seq<BedOccupation>,
                                reserveId: nat, d: int): (r: Result<()>)
    ensures r.Err? ==> r.error == IllegalState
    ensures Allocation.LedgerOf(room) == Allocation.WholeRoom ==>
      (r.Ok? <==> !Allocation.RoomHeldByOther(roomOccs, room.id, reserveId, d))
    ensures Allocation.LedgerOf(room) == Allocation.PerBed ==>
      (r.Ok? <==> Allocation.FirstBedFreeOnDate(beds, bedOccs, room.id, d, reserveId).Some?)
    ensures Allocation.LedgerOf(room) == Allocation.NoLedger ==> r.Err?
  {
    match Allocation.LedgerOf(room)
    case WholeRoom => if Allocation.RoomHeldByOther(roomOccs, room.id, reserveId, d) then Err(IllegalState) else Ok(())
    case PerBed => if Allocation.FirstBedFreeOnDate(beds, bedOccs, room.id, d, reserveId).None? then Err(IllegalState) else Ok(())
    case NoLedger => Err(IllegalState)
  }

  /** One pass of the validation loop: validateNewDate, then validateAvailability on the first room. */
  function ValidateNight(rooms: seq<Room>, beds: seq<Bed>, l: Ledgers, row: Reserve, d: int, today: int): (r: Result<()>)
    requires RoomsOf(rooms, row)
    ensures ValidateNewDate(d, today).Err? ==> r == Err(IllegalArgument)
    ensures ValidateNewDate(d, today).Ok? && row.rooms == [] ==> r == Err(Runtime)
    ensures ValidateNewDate(d, today).Ok? && row.rooms != [] ==>
      r == ValidateAvailability(FirstRoom(rooms, row).value, beds, l.rooms, l.beds, row.id, d)
  {
    match ValidateNewDate(d, today)
    case Err(e) => Err(e)
    case Ok(_) =>
      match FirstRoom(rooms, row)
      case Err(e) => Err(e)
      case Ok(room) => ValidateAvailability(room, beds, l.rooms, l.beds, row.id, d)
  }

  /** The validation loop of updateReserveDates and addDates: the first night, in iteration order, that fails decides. */
  function NightsCheck(rooms: seq<Room>, beds: seq<Bed>, l: Ledgers, row: Reserve, nights: seq<int>, today: int)
    : (r: Result<()>)
    requires RoomsOf(rooms, row)
    ensures r.Ok? <==> forall i :: 0 <= i < |nights| ==> ValidateNight(rooms, beds, l, row, nights[i], today).Ok?
    ensures r.Err? ==> exists i :: 0 <= i < |nights| && r == ValidateNight(rooms, beds, l, row, nights[i], today)
                                   && forall j :: 0 <= j < i ==> ValidateNight(rooms, beds, l, row, nights[j], today).Ok?
  {
    if nights == [] then Ok(())
    else
      match ValidateNight(rooms, beds, l, row, nights[0], today)
      case Err(e) => Err(e)
      case Ok(_) =>
        var rest := NightsCheck(rooms, beds, l, row, nights[1..], today);
        assert forall i :: 1 <= i < |nights| ==> nights[1..][i - 1] == nights[i];
        rest
  }

  /** The validation loop itself. */
  method CheckNights(rooms: seq<Room>, beds: seq<Bed>, l: Ledgers, row: Reserve, nights: seq<int>, today: int)
    returns (r: Result<()>)
    requires RoomsOf(rooms, row)
    ensures r == NightsCheck(rooms, beds, l, row, nights, today)
  {
    for k := 0 to |nights|
      invariant NightsCheck(rooms, beds, l, row, nights, today) == NightsCheck(rooms, beds, l, row, nights[k..], today)
    {
      assert nights[k..][0] == nights[k] && nights[k..][1..] == nights[k + 1..];
      var v := ValidateNight(rooms, beds, l, row, nights[k], today);
      if v.Err? {
        return v;
      }
    }
    assert nights[|nights|..] == [];
    return Ok(());
  }

  /** The two occupation ledgers, as one value. */
  datatype Ledgers = Ledgers(rooms: seq<RoomOccupation>, beds: seq<BedOccupation>)

  /** No room and no bed is held twice on the same night. */
  predicate Disjoint(l: Ledgers)
  {
    Allocation.RoomLedgerDisjoint(l.rooms) && Allocation.BedLedgerDisjoint(l.beds)
  }

  /**
   * updateOccupations: the reservation's entries released from both
   * ledgers, then one new entry holding all of `dates`: on its first room
   * when no remaining entry of that room shares a night with them, or on the
   * first bed of its shared room, whatever the bed's status, free on all of
   * them. A room without a type gets no entry.
   */
  function Rebook(rooms: seq<Room>, beds: seq<Bed>, l: Ledgers, row: Reserve, dates: set<int>, freshId: nat)
    : (r: Result<Ledgers>)
    requires RoomsOf(rooms, row)
    ensures row.rooms == [] <==> r == Err(Runtime)
    ensures r.Err? ==> r.error == IllegalState || r.error == Runtime
    ensures Disjoint(l) && r.Ok? ==> Disjoint(r.value)
    ensures r.Ok? ==> forall o: RoomOccupation :: o.reserveId != row.id ==> (o in r.value.rooms <==> o in l.rooms)
    ensures r.Ok? ==> forall o: BedOccupation :: o.reserveId != row.id ==> (o in r.value.beds <==> o in l.beds)
    ensures row.rooms != [] ==>
      var room := FirstRoom(rooms, row).value;
      var released := Ledgers(ReleaseRoomEntries(l.rooms, row.id), ReleaseBedEntries(l.beds, row.id));
      (Allocation.LedgerOf(room) == Allocation.WholeRoom ==>
         (r.Ok? <==> RoomOccupationRepository.IsRoomAvailableForDates(released.rooms, room.id, dates))
         && (r.Ok? ==> r.value == Ledgers(released.rooms + [RoomOccupation(freshId, room.id, row.id, dates)], released.beds)))
      && (Allocation.LedgerOf(room) == Allocation.PerBed ==>
         (r.Ok? <==> Allocation.FirstFreeBed(beds, released.beds, room.id, dates, false).Some?)
         && (r.Ok? ==> exists k :: 0 <= k < |beds| && beds[k].roomId == room.id
                                  && r.value == Ledgers(released.rooms, released.beds + [BedOccupation(freshId, beds[k].id, row.id, dates)])))
      && (Allocation.LedgerOf(room) == Allocation.NoLedger ==> r == Ok(released))
  {
    var released := Ledgers(ReleaseRoomEntries(l.rooms, row.id), ReleaseBedEntries(l.beds, row.id));
    match FirstRoom(rooms, row)
    case Err(e) => Err(e)
    case Ok(room) =>
      match Allocation.LedgerOf(room)
      case WholeRoom =>
        if RoomOccupationRepository.ExistsConflictForRoomAndDates(released.rooms, room.id, dates) then Err(IllegalState)
        else
          var o := RoomOccupation(freshId, room.id, row.id, dates);
          assert Allocation.RoomLedgerDisjoint(released.rooms) ==> Allocation.RoomLedgerDisjoint(released.rooms + [o]) by {
            if Allocation.RoomLedgerDisjoint(released.rooms) {
              Allocation.AppendRoomEntry(released.rooms, o);
            }
          }
          Ok(Ledgers(released.rooms + [o], released.beds))
      case PerBed =>
        (match Allocation.FirstFreeBed(beds, released.beds, room.id, dates, false)
         case None => Err(IllegalState)
         case Some(k) =>
           var o := BedOccupation(freshId, beds[k].id, row.id, dates);
           assert Allocation.BedLedgerDisjoint(released.beds) ==> Allocation.BedLedgerDisjoint(released.beds + [o]) by {
             if Allocation.BedLedgerDisjoint(released.beds) {
               Allocation.AppendBedEntry(released.beds, o);
             }
           }
           Ok(Ledgers(released.rooms, released.beds + [o])))
      case NoLedger => Ok(released)
  }

  /** The outcome of a change to a reservation's nights: its row index, its new row and the new ledgers. */
  datatype Rescheduled = Rescheduled(index: nat, row: Reserve, ledgers: Ledgers)

  /** The set of the nights listed. */
  function NightSet(nights: seq<int>): (s: set<int>)
    ensures forall d :: d in s <==> exists i :: 0 <= i < |nights| && nights[i] == d
  {
    set i | 0 <= i < |nights| :: nights[i]
  }

  /**
   * The decision of updateReserveDates: the reservation (NotFound), not
   * cancelled (IllegalState), every new night validated in iteration order,
   * the nights replaced, and the reservation rebooked on them.
   */
  function PlanReserveDates(rooms: seq<Room>, beds: seq<Bed>, reserves: seq<Reserve>, l: Ledgers, reserveId: nat,
                            newDates: seq<int>, today: int, freshId: nat): (r: Result<Rescheduled>)
    requires forall i :: 0 <= i < |reserves| ==> RoomsOf(rooms, reserves[i])
    ensures Hostel.ReserveById(reserves, reserveId).Err? ==> r == Err(NotFound)
    ensures Hostel.ReserveById(reserves, reserveId).Ok? ==>
      var k := Hostel.ReserveById(reserves, reserveId).value;
      var row := reserves[k];
      (row.status == Some(CANCELLED) ==> r == Err(IllegalState))
      && (row.status != Some(CANCELLED) && NightsCheck(rooms, beds, l, row, newDates, today).Err? ==>
            r == Err(NightsCheck(rooms, beds, l, row, newDates, today).error))
      && (row.status != Some(CANCELLED) && NightsCheck(rooms, beds, l, row, newDates, today).Ok? ==>
            var b := Rebook(rooms, beds, l, row, NightSet(newDates), freshId);
            (r.Ok? <==> b.Ok?) && (r.Err? ==> r.error == b.error)
            && (r.Ok? ==> r.value == Rescheduled(k, row.(reservedDays := NightSet(newDates)), b.value)))
  {
    match Hostel.ReserveById(reserves, reserveId)
    case Err(e) => Err(e)
    case Ok(k) =>
      var row := reserves[k];
      if row.status == Some(CANCELLED) then Err(IllegalState)
      else
        match NightsCheck(rooms, beds, l, row, newDates, today)
        case Err(e) => Err(e)
        case Ok(_) =>
          match Rebook(rooms, beds, l, row, NightSet(newDates), freshId)
          case Err(e) => Err(e)
          case Ok(l') => Ok(Rescheduled(k, row.(reservedDays := NightSet(newDates)), l'))
  }

  /**
   * updateReserveDates, with `newDates` in the set's iteration order. It
   * never double-books: the new entry is checked against every entry left
   * once the reservation's own are released.
   */
  method UpdateReserveDates(db: Hostel.Database, reserveId: nat, newDates: seq<int>, today: int)
    returns (r: Result<Reserve>)
    requires db.NoDoubleBooking() && db.RoomsResolve()
    modifies db`reserves, db`roomOccupations, db`bedOccupations, db`nextId
    ensures db.NoDoubleBooking()
    ensures var plan := PlanReserveDates(db.rooms, db.beds, old(db.reserves),
                                         Ledgers(old(db.roomOccupations), old(db.bedOccupations)),
                                         reserveId, newDates, today, old(db.nextId));
      (r.Ok? <==> plan.Ok?) && (r.Err? ==> r.error == plan.error)
      && (r.Ok? ==> r.value == plan.value.row && db.reserves == old(db.reserves)[plan.value.index := r.value]
                    && db.roomOccupations == plan.value.ledgers.rooms && db.bedOccupations == plan.value.ledgers.beds
                    && db.nextId == old(db.nextId) + 1)
    ensures r.Err? ==>
      db.reserves == old(db.reserves) && db.roomOccupations == old(db.roomOccupations)
      && db.bedOccupations == old(db.bedOccupations) && db.nextId == old(db.nextId)
  {
    var l := Ledgers(db.roomOccupations, db.bedOccupations);
    assert forall i :: 0 <= i < |db.reserves| ==> RoomsOf(db.rooms, db.reserves[i]);
    ghost var plan := PlanReserveDates(db.rooms, db.beds, db.reserves, l, reserveId, newDates, today, db.nextId);
    var k := Hostel.ReserveById(db.reserves, reserveId);
    if k.Err? {
      return Err(NotFound);
    }
    var row := db.reserves[k.value];
    if row.status == Some(CANCELLED) {
      return Err(IllegalState);
    }
    var v := CheckNights(db.rooms, db.beds, l, row, newDates, today);
    if v.Err? {
      assert plan == Err(v.error);
      return Err(v.error);
    }
    var b := Rebook(db.rooms, db.beds, l, row, NightSet(newDates), db.nextId);
    if b.Err? {
      assert plan == Err(b.error);
      return Err(b.error);
    }
    var row' := row.(reservedDays := NightSet(newDates));
    assert plan == Ok(Rescheduled(k.value, row', b.value));
    Reschedule(db, Rescheduled(k.value, row', b.value), 1);
    r := Ok(row');
  }

  /** Writes a decided change of nights: the new row, the new ledgers, and `used` identity values consumed. */
  method Reschedule(db: Hostel.Database, s: Rescheduled, used: nat)
    requires s.index < |db.reserves|
    modifies db`reserves, db`roomOccupations, db`bedOccupations, db`nextId
    ensures Disjoint(s.ledgers) ==> db.NoDoubleBooking()
    ensures db.reserves == old(db.reserves)[s.index := s.row]
    ensures db.roomOccupations == s.ledgers.rooms && db.bedOccupations == s.ledgers.beds
    ensures db.nextId == old(db.nextId) + used
  {
    db.reserves := db.reserves[s.index := s.row];
    db.roomOccupations, db.bedOccupations := s.ledgers.rooms, s.ledgers.beds;
    db.nextId := db.nextId + used;
  }

  /** Some entry of the reservation, in either ledger, holds night `x`. */
  predicate Holds(l: Ledgers, reserveId: nat, x: int)
  {
    Allocation.RoomNightHeld(l.rooms, reserveId, x) || Allocation.BedNightHeld(l.beds, reserveId, x)
  }

  /**
   * updateOccupationsForNewDate: the night added to the reservation's entry
   * in its first room's ledger. Every night the reservation held stays held
   * and `d` is held too; a shared room with no bed free on `d` fails.
   */
  function AddNight(rooms: seq<Room>, beds: seq<Bed>, l: Ledgers, row: Reserve, d: int, freshId: nat): (r: Result<Ledgers>)
    requires RoomsOf(rooms, row)
    ensures row.rooms == [] ==> r == Err(Runtime)
    ensures r.Err? ==> r.error == Runtime || r.error == IllegalState
    ensures row.rooms != [] ==>
      var room := FirstRoom(rooms, row).value;
      (Allocation.LedgerOf(room) == Allocation.WholeRoom ==>
         r == Ok(Ledgers(Allocation.AddDayToRoomLedger(l.rooms, row.id, room.id, d, freshId), l.beds)))
      && (Allocation.LedgerOf(room) == Allocation.PerBed ==>
         var b := Allocation.AddDayToBedLedger(beds, l.beds, row.id, room.id, d, freshId);
         (r.Ok? <==> b.Ok?) && (r.Ok? ==> r.value == Ledgers(l.rooms, b.value)))
      && (Allocation.LedgerOf(room) == Allocation.NoLedger ==> r == Ok(l))
      && (r.Ok? && Allocation.LedgerOf(room) != Allocation.NoLedger ==> Holds(r.value, row.id, d))
    ensures r.Ok? ==> forall x :: Holds(l, row.id, x) ==> Holds(r.value, row.id, x)
  {
    match FirstRoom(rooms, row)
    case Err(e) => Err(e)
    case Ok(room) =>
      match Allocation.LedgerOf(room)
      case WholeRoom => Ok(Ledgers(Allocation.AddDayToRoomLedger(l.rooms, row.id, room.id, d, freshId), l.beds))
      case PerBed =>
        (match Allocation.AddDayToBedLedger(beds, l.beds, row.id, room.id, d, freshId)
         case Err(e) => Err(e)
         case Ok(b) => Ok(Ledgers(l.rooms, b)))
      case NoLedger => Ok(l)
  }

  /**
   * The decision of addDate: the reservation (NotFound), not cancelled
   * (IllegalState), the night validated, not already reserved
   * (IllegalState), then added to the nights and to the ledger.
   */
  function PlanAddDate(rooms: seq<Room>, beds: seq<Bed>, reserves: seq<Reserve>, l: Ledgers, reserveId: nat, d: int,
                       today: int, freshId: nat): (r: Result<Rescheduled>)
    requires forall i :: 0 <= i < |reserves| ==> RoomsOf(rooms, reserves[i])
    ensures Hostel.ReserveById(reserves, reserveId).Err? ==> r == Err(NotFound)
    ensures Hostel.ReserveById(reserves, reserveId).Ok? ==>
      var k := Hostel.ReserveById(reserves, reserveId).value;
      var row := reserves[k];
      (row.status == Some(CANCELLED) ==> r == Err(IllegalState))
      && (row.status != Some(CANCELLED) && ValidateNight(rooms, beds, l, row, d, today).Err? ==>
            r == Err(ValidateNight(rooms, beds, l, row, d, today).error))
      && (row.status != Some(CANCELLED) && ValidateNight(rooms, beds, l, row, d, today).Ok? && d in row.reservedDays ==>
            r == Err(IllegalState))
      && (r.Ok? ==> r.value.index == k && r.value.row == row.(reservedDays := row.reservedDays + {d})
                    && d !in row.reservedDays)
  {
    match Hostel.ReserveById(reserves, reserveId)
    case Err(e) => Err(e)
    case Ok(k) =>
      var row := reserves[k];
      if row.status == Some(CANCELLED) then Err(IllegalState)
      else
        match ValidateNight(rooms, beds, l, row, d, today)
        case Err(e) => Err(e)
        case Ok(_) =>
          if d in row.reservedDays then Err(IllegalState)
          else
            var row' := row.(reservedDays := row.reservedDays + {d});
            match AddNight(rooms, beds, l, row', d, freshId)
            case Err(e) => Err(e)
            case Ok(l') => Ok(Rescheduled(k, row', l'))
  }

  /**
   * A night addDate accepts is held by the reservation in the ledger
   * afterwards, every night it held before is still held, and a computed
   * total grows by one nightly price.
   */
  lemma AddedNightIsHeld(rooms: seq<Room>, beds: seq<Bed>, reserves: seq<Reserve>, l: Ledgers, reserveId: nat, d: int,
                         today: int, freshId: nat)
    requires forall i :: 0 <= i < |reserves| ==> RoomsOf(rooms, reserves[i])
    requires PlanAddDate(rooms, beds, reserves, l, reserveId, d, today, freshId).Ok?
    ensures var s := PlanAddDate(rooms, beds, reserves, l, reserveId, d, today, freshId).value;
            var row := reserves[s.index];
      Holds(s.ledgers, reserveId, d)
      && (forall x :: Holds(l, reserveId, x) ==> Holds(s.ledgers, reserveId, x))
      && (!UsesCustomValue(row) ==>
            CalculateTotalValue(s.row) == CalculateTotalValue(row) + BaseValue(row) + row.extraGuestFee * NumberOfExtraGuests(row))
  {
    var k := Hostel.ReserveById(reserves, reserveId).value;
    var row := reserves[k];
    var row' := row.(reservedDays := row.reservedDays + {d});
    assert ValidateNight(rooms, beds, l, row, d, today).Ok?;
    assert AddNight(rooms, beds, l, row', d, freshId).Ok?;
    if !UsesCustomValue(row) {
      ExtraNightCostsDailyRate(row, d);
    }
  }

  /**
   * addDate. It can double-book a bed (Allocation.BedMoveCanDoubleBook); on
   * a whole-room unit it cannot when the reservation has one entry, on its
   * first room (Allocation.AddDayKeepsRoomLedgerDisjoint).
   */
  method AddDate(db: Hostel.Database, reserveId: nat, d: int, today: int) returns (r: Result<Reserve>)
    requires db.RoomsResolve()
    modifies db`reserves, db`roomOccupations, db`bedOccupations, db`nextId
    ensures var plan := PlanAddDate(db.rooms, db.beds, old(db.reserves),
                                    Ledgers(old(db.roomOccupations), old(db.bedOccupations)),
                                    reserveId, d, today, old(db.nextId));
      (r.Ok? <==> plan.Ok?) && (r.Err? ==> r.error == plan.error)
      && (r.Ok? ==> r.value == plan.value.row && db.reserves == old(db.reserves)[plan.value.index := r.value]
                    && db.roomOccupations == plan.value.ledgers.rooms && db.bedOccupations == plan.value.ledgers.beds
                    && db.nextId == old(db.nextId) + 1)
    ensures r.Err? ==>
      db.reserves == old(db.reserves) && db.roomOccupations == old(db.roomOccupations)
      && db.bedOccupations == old(db.bedOccupations) && db.nextId == old(db.nextId)
  {
    var l := Ledgers(db.roomOccupations, db.bedOccupations);
    assert forall i :: 0 <= i < |db.reserves| ==> RoomsOf(db.rooms, db.reserves[i]);
    ghost var plan := PlanAddDate(db.rooms, db.beds, db.reserves, l, reserveId, d, today, db.nextId);
    var k := Hostel.ReserveById(db.reserves, reserveId);
    if k.Err? {
      return Err(NotFound);
    }
    var row := db.reserves[k.value];
    if row.status == Some(CANCELLED) {
      return Err(IllegalState);
    }
    var v := ValidateNight(db.rooms, db.beds, l, row, d, today);
    if v.Err? {
      return Err(v.error);
    }
    if d in row.reservedDays {
      return Err(IllegalState);
    }
    var row' := row.(reservedDays := row.reservedDays + {d});
    var b := AddNight(db.rooms, db.beds, l, row', d, db.nextId);
    if b.Err? {
      assert plan == Err(b.error);
      return Err(b.error);
    }
    assert plan == Ok(Rescheduled(k.value, row', b.value));
    Reschedule(db, Rescheduled(k.value, row', b.value), 1);
    r := Ok(row');
  }

  /** The duplicate loop's verdict: no night is already reserved and none is listed twice. */
  predicate FreshNights(days: set<int>, nights: seq<int>)
  {
    Seqs.Distinct(nights) && forall i :: 0 <= i < |nights| ==> nights[i] !in days
  }

  /** The nights of a list are those of all but its last entry, and the last. */
  lemma NightSetSnoc(nights: seq<int>)
    requires nights != []
    ensures NightSet(nights) == NightSet(nights[..|nights| - 1]) + {nights[|nights| - 1]}
  {
    var m := |nights| - 1;
    forall x | x in NightSet(nights[..m]) ensures x in NightSet(nights) {
      var i :| 0 <= i < m && nights[..m][i] == x;
      assert nights[i] == x;
    }
    forall x | x in NightSet(nights) && x != nights[m] ensures x in NightSet(nights[..m]) {
      var i :| 0 <= i < |nights| && nights[i] == x;
      assert nights[..m][i] == x;
    }
  }

  /** The nights of a list without repetitions are as many as its entries. */
  lemma {:induction false} NightSetSize(nights: seq<int>)
    requires Seqs.Distinct(nights)
    ensures |NightSet(nights)| == |nights|
  {
    if nights != [] {
      var m := |nights| - 1;
      var front := nights[..m];
      assert Seqs.Distinct(front) by {
        forall i, j | 0 <= i < j < m ensures front[i] != front[j] {
          assert front[i] == nights[i] && front[j] == nights[j];
        }
      }
      NightSetSize(front);
      NightSetSnoc(nights);
      forall i | 0 <= i < m ensures front[i] != nights[m] {
        assert front[i] == nights[i];
      }
    }
  }

  /**
   * The duplicate loop of addDates: the nights are added one by one to the
   * reserved ones, and a night already present (reserved, or listed
   * earlier) is refused.
   */
  method MergeNights(days: set<int>, nights: seq<int>) returns (r: Result<set<int>>)
    ensures r.Ok? <==> FreshNights(days, nights)
    ensures r.Err? ==> r.error == IllegalState
    ensures r.Ok? ==> r.value == days + NightSet(nights)
  {
    var updated := days;
    for k := 0 to |nights|
      invariant updated == days + NightSet(nights[..k])
      invariant FreshNights(days, nights[..k])
    {
      if nights[k] in updated {
        if nights[k] !in days {
          var j :| 0 <= j < k && nights[..k][j] == nights[k];
          assert nights[j] == nights[k];
        }
        return Err(IllegalState);
      }
      assert nights[..k + 1][..k] == nights[..k];
      NightSetSnoc(nights[..k + 1]);
      updated := updated + {nights[k]};
    }
    assert nights[..|nights|] == nights;
    return Ok(updated);
  }

  /**
   * The update loop of addDates: updateOccupationsForNewDate for each night
   * in turn, the i-th with identity value `freshId + i` for an entry it
   * creates. A failure stops the loop.
   */
  function AddNights(rooms: seq<Room>, beds: seq<Bed>, l: Ledgers, row: Reserve, nights: seq<int>, freshId: nat)
    : (r: Result<Ledgers>)
    requires RoomsOf(rooms, row)
    ensures r.Ok? ==> forall x :: Holds(l, row.id, x) ==> Holds(r.value, row.id, x)
  {
    if nights == [] then Ok(l)
    else
      var m := |nights| - 1;
      match AddNights(rooms, beds, l, row, nights[..m], freshId)
      case Err(e) => Err(e)
      case Ok(l1) => AddNight(rooms, beds, l1, row, nights[m], freshId + m)
  }

  /** A night added to a room that keeps a ledger is held afterwards. */
  lemma AddNightHolds(rooms: seq<Room>, beds: seq<Bed>, l: Ledgers, row: Reserve, d: int, freshId: nat)
    requires RoomsOf(rooms, row)
    requires row.rooms != [] && Allocation.LedgerOf(FirstRoom(rooms, row).value) != Allocation.NoLedger
    requires AddNight(rooms, beds, l, row, d, freshId).Ok?
    ensures Holds(AddNight(rooms, beds, l, row, d, freshId).value, row.id, d)
  {
  }

  /** Every listed night is held by the reservation in the ledgers. */
  predicate HoldsAll(l: Ledgers, reserveId: nat, nights: seq<int>)
  {
    forall i :: 0 <= i < |nights| ==> Holds(l, reserveId, nights[i])
  }

  /** When the reservation's first room keeps a ledger, every night the loop added is held afterwards. */
  lemma {:induction false} AddNightsHoldAll(rooms: seq<Room>, beds: seq<Bed>, l: Ledgers, row: Reserve,
                                            nights: seq<int>, freshId: nat)
    requires RoomsOf(rooms, row)
    requires row.rooms != [] && Allocation.LedgerOf(FirstRoom(rooms, row).value) != Allocation.NoLedger
    requires AddNights(rooms, beds, l, row, nights, freshId).Ok?
    ensures HoldsAll(AddNights(rooms, beds, l, row, nights, freshId).value, row.id, nights)
  {
    if nights != [] {
      var m := |nights| - 1;
      var front := nights[..m];
      AddNightsHoldAll(rooms, beds, l, row, front, freshId);
      var l1 := AddNights(rooms, beds, l, row, front, freshId).value;
      var step := AddNight(rooms, beds, l1, row, nights[m], freshId + m);
      assert AddNights(rooms, beds, l, row, nights, freshId) == step;
      var r := step.value;
      AddNightHolds(rooms, beds, l1, row, nights[m], freshId + m);
      HoldsAllSnoc(l1, r, row.id, nights);
    }
  }

  /** Ledgers that keep every night of the first and hold the last night hold the whole list. */
  lemma HoldsAllSnoc(l1: Ledgers, r: Ledgers, reserveId: nat, nights: seq<int>)
    requires nights != [] && HoldsAll(l1, reserveId, nights[..|nights| - 1])
    requires forall x :: Holds(l1, reserveId, x) ==> Holds(r, reserveId, x)
    requires Holds(r, reserveId, nights[|nights| - 1])
    ensures HoldsAll(r, reserveId, nights)
  {
    var m := |nights| - 1;
    forall i | 0 <= i < m ensures Holds(r, reserveId, nights[i]) {
      assert nights[..m][i] == nights[i];
    }
  }

  /** Once a prefix of the nights fails, the whole loop fails the same way. */
  lemma {:induction false} AddNightsStopsAtError(rooms: seq<Room>, beds: seq<Bed>, l: Ledgers, row: Reserve,
                                                 nights: seq<int>, freshId: nat, k: nat)
    requires RoomsOf(rooms, row)
    requires k <= |nights| && AddNights(rooms, beds, l, row, nights[..k], freshId).Err?
    ensures AddNights(rooms, beds, l, row, nights, freshId) == AddNights(rooms, beds, l, row, nights[..k], freshId)
    decreases |nights|
  {
    if k < |nights| {
      var m := |nights| - 1;
      assert nights[..m][..k] == nights[..k];
      AddNightsStopsAtError(rooms, beds, l, row, nights[..m], freshId, k);
    } else {
      assert nights[..k] == nights;
    }
  }

  /** One more turn of the update loop, after a successful prefix. */
  lemma AddNightsStep(rooms: seq<Room>, beds: seq<Bed>, l: Ledgers, row: Reserve, nights: seq<int>, freshId: nat, k: nat)
    requires RoomsOf(rooms, row)
    requires k < |nights| && AddNights(rooms, beds, l, row, nights[..k], freshId).Ok?
    ensures AddNights(rooms, beds, l, row, nights[..k + 1], freshId)
         == AddNight(rooms, beds, AddNights(rooms, beds, l, row, nights[..k], freshId).value, row, nights[k], freshId + k)
  {
    assert nights[..k + 1][..k] == nights[..k];
  }

  /** The update loop itself. */
  method ApplyNights(rooms: seq<Room>, beds: seq<Bed>, l: Ledgers, row: Reserve, nights: seq<int>, freshId: nat)
    returns (r: Result<Ledgers>)
    requires RoomsOf(rooms, row)
    ensures r == AddNights(rooms, beds, l, row, nights, freshId)
  {
    var cur := l;
    assert nights[..0] == [];
    for k := 0 to |nights|
      invariant AddNights(rooms, beds, l, row, nights[..k], freshId) == Ok(cur)
    {
      AddNightsStep(rooms, beds, l, row, nights, freshId, k);
      var step := AddNight(rooms, beds, cur, row, nights[k], freshId + k);
      if step.Err? {
        AddNightsStopsAtError(rooms, beds, l, row, nights, freshId, k + 1);
        return step;
      }
      cur := step.value;
    }
    assert nights[..|nights|] == nights;
    return Ok(cur);
  }

  /**
   * The decision of addDates: the reservation (NotFound), not cancelled
   * (IllegalState), every night validated against the ledgers as they
   * were, no night already reserved or listed twice (IllegalState), then
   * the nights added and each recorded in the ledger in turn.
   */
  function PlanAddDates(rooms: seq<Room>, beds: seq<Bed>, reserves: seq<Reserve>, l: Ledgers, reserveId: nat,
                        nights: seq<int>, today: int, freshId: nat): (r: Result<Rescheduled>)
    requires forall i :: 0 <= i < |reserves| ==> RoomsOf(rooms, reserves[i])
    ensures Hostel.ReserveById(reserves, reserveId).Err? ==> r == Err(NotFound)
    ensures Hostel.ReserveById(reserves, reserveId).Ok? ==>
      var k := Hostel.ReserveById(reserves, reserveId).value;
      var row := reserves[k];
      (row.status == Some(CANCELLED) ==> r == Err(IllegalState))
      && (row.status != Some(CANCELLED) && NightsCheck(rooms, beds, l, row, nights, today).Err? ==>
            r == Err(NightsCheck(rooms, beds, l, row, nights, today).error))
      && (row.status != Some(CANCELLED) && NightsCheck(rooms, beds, l, row, nights, today).Ok?
          && !FreshNights(row.reservedDays, nights) ==>
            r == Err(IllegalState))
      && (r.Ok? ==> r.value.index == k && r.value.row == row.(reservedDays := row.reservedDays + NightSet(nights))
                    && FreshNights(row.reservedDays, nights))
  {
    match Hostel.ReserveById(reserves, reserveId)
    case Err(e) => Err(e)
    case Ok(k) =>
      var row := reserves[k];
      if row.status == Some(CANCELLED) then Err(IllegalState)
      else
        match NightsCheck(rooms, beds, l, row, nights, today)
        case Err(e) => Err(e)
        case Ok(_) =>
          if !FreshNights(row.reservedDays, nights) then Err(IllegalState)
          else
            var row' := row.(reservedDays := row.reservedDays + NightSet(nights));
            match AddNights(rooms, beds, l, row', nights, freshId)
            case Err(e) => Err(e)
            case Ok(l') => Ok(Rescheduled(k, row', l'))
  }

  /**
   * The nights addDates accepts are all held by the reservation in the
   * ledger afterwards, every night it held before is still held, and the
   * reservation counts one more night per night listed.
   */
  lemma AddedNightsAreHeld(rooms: seq<Room>, beds: seq<Bed>, reserves: seq<Reserve>, l: Ledgers, reserveId: nat,
                           nights: seq<int>, today: int, freshId: nat)
    requires forall i :: 0 <= i < |reserves| ==> RoomsOf(rooms, reserves[i])
    requires PlanAddDates(rooms, beds, reserves, l, reserveId, nights, today, freshId).Ok?
    ensures var s := PlanAddDates(rooms, beds, reserves, l, reserveId, nights, today, freshId).value;
      (forall i :: 0 <= i < |nights| ==> Holds(s.ledgers, reserveId, nights[i]))
      && (forall x :: Holds(l, reserveId, x) ==> Holds(s.ledgers, reserveId, x))
      && NumberOfDays(s.row) == NumberOfDays(reserves[s.index]) + |nights|
  {
    var k := Hostel.ReserveById(reserves, reserveId).value;
    var row := reserves[k];
    var row' := row.(reservedDays := row.reservedDays + NightSet(nights));
    assert NightsCheck(rooms, beds, l, row, nights, today).Ok?;
    if nights != [] {
      assert ValidateNight(rooms, beds, l, row, nights[0], today).Ok?;
    }
    if row.rooms != [] && Allocation.LedgerOf(FirstRoom(rooms, row).value) != Allocation.NoLedger {
      AddNightsHoldAll(rooms, beds, l, row', nights, freshId);
    }
    NightSetSize(nights);
    assert row.reservedDays * NightSet(nights) == {};
  }

  /** addDates, with the nights in the request's iteration order. */
  method AddDates(db: Hostel.Database, reserveId: nat, nights: seq<int>, today: int) returns (r: Result<Reserve>)
    requires db.RoomsResolve()
    modifies db`reserves, db`roomOccupations, db`bedOccupations, db`nextId
    ensures var plan := PlanAddDates(db.rooms, db.beds, old(db.reserves),
                                     Ledgers(old(db.roomOccupations), old(db.bedOccupations)),
                                     reserveId, nights, today, old(db.nextId));
      (r.Ok? <==> plan.Ok?) && (r.Err? ==> r.error == plan.error)
      && (r.Ok? ==> r.value == plan.value.row && db.reserves == old(db.reserves)[plan.value.index := r.value]
                    && db.roomOccupations == plan.value.ledgers.rooms && db.bedOccupations == plan.value.ledgers.beds
                    && db.nextId == old(db.nextId) + |nights|)
    ensures r.Err? ==>
      db.reserves == old(db.reserves) && db.roomOccupations == old(db.roomOccupations)
      && db.bedOccupations == old(db.bedOccupations) && db.nextId == old(db.nextId)
  {
    var l := Ledgers(db.roomOccupations, db.bedOccupations);
    assert forall i :: 0 <= i < |db.reserves| ==> RoomsOf(db.rooms, db.reserves[i]);
    ghost var plan := PlanAddDates(db.rooms, db.beds, db.reserves, l, reserveId, nights, today, db.nextId);
    var k := Hostel.ReserveById(db.reserves, reserveId);
    if k.Err? {
      return Err(NotFound);
    }
    var row := db.reserves[k.value];
    if row.status == Some(CANCELLED) {
      return Err(IllegalState);
    }
    var v := CheckNights(db.rooms, db.beds, l, row, nights, today);
    if v.Err? {
      return Err(v.error);
    }
    var merged := MergeNights(row.reservedDays, nights);
    if merged.Err? {
      return Err(IllegalState);
    }
    var row' := row.(reservedDays := merged.value);
    var b := ApplyNights(db.rooms, db.beds, l, row', nights, db.nextId);
    if b.Err? {
      assert plan == Err(b.error);
      return Err(b.error);
    }
    assert plan == Ok(Rescheduled(k.value, row', b.value));
    Reschedule(db, Rescheduled(k.value, row', b.value), |nights|);
    r := Ok(row');
  }

  // ------------------------------------------------------------ check-in and checkout

  /** Every listed room id names a room. */
  predicate Resolves(rooms: seq<Room>, ids: seq<nat>)
  {
    forall k :: k in ids ==> Hostel.RoomById(rooms, k).Ok?
  }

  lemma ResolvesKeptByStatus(rooms: seq<Room>, rooms': seq<Room>, ids: seq<nat>)
    requires Hostel.RoomStatusOnly(rooms, rooms') && Resolves(rooms, ids)
    ensures Resolves(rooms', ids)
  {
    forall k | k in ids ensures Hostel.RoomById(rooms', k).Ok? {
      Hostel.RoomByIdKeptByStatus(rooms, rooms', k);
    }
  }

  /** The row of bed `bedId` among the beds of room `roomId`. */
  function BedInRoomIndex(beds: seq<Bed>, bedId: nat, roomId: nat): (r: Option<nat>)
    ensures r.Some? ==> r.value < |beds| && beds[r.value].id == bedId && beds[r.value].roomId == roomId
    ensures r.None? <==> !BedOccupationRepository.BedInRoom(beds, bedId, roomId)
  {
    Seqs.FirstIndex(beds, (b: Bed) => b.id == bedId && b.roomId == roomId)
  }

  /** checkIn's test on a shared room: every bed of the room is OCCUPIED. */
  predicate AllBedsOccupied(beds: seq<Bed>, roomId: nat)
  {
    forall b :: b in BedsOfRoom(beds, roomId) ==> b.status == Some(BedOccupied)
  }

  /**
   * One turn of checkIn's loop, on the room with id `k`: a room let whole
   * becomes OCCUPIED; in a shared room the bed of the reservation's entry
   * (findByReserveAndRoom: a runtime failure for several entries,
   * IllegalState for none) becomes OCCUPIED, and the room too once all its
   * beds are; a room without a type is left alone.
   */
  function CheckInRoom(rooms: seq<Room>, beds: seq<Bed>, bedOccs: seq<BedOccupation>, reserveId: nat, k: nat)
    : (r: Result<(seq<Room>, seq<Bed>)>)
    requires Hostel.RoomById(rooms, k).Ok?
    ensures r.Err? ==> r.error == Runtime || r.error == IllegalState
    ensures r.Ok? ==> Hostel.RoomStatusOnly(rooms, r.value.0) && Hostel.BedStatusOnly(beds, r.value.1)
    ensures r.Ok? ==> forall i :: 0 <= i < |rooms| && r.value.0[i] != rooms[i] ==>
      i == Hostel.RoomById(rooms, k).value && r.value.0[i].status == Some(OCCUPIED)
    ensures r.Ok? ==> forall j :: 0 <= j < |beds| && r.value.1[j] != beds[j] ==> r.value.1[j].status == Some(BedOccupied)
    ensures r.Ok? ==> forall j :: 0 <= j < |beds| && r.value.1[j] != beds[j] ==>
      var found := BedOccupationRepository.FindByReserveAndRoom(bedOccs, beds, reserveId, k);
      found.Ok? && found.value.Some? && BedInRoomIndex(beds, found.value.value.bedId, k) == Some(j)
    ensures var i := Hostel.RoomById(rooms, k).value;
      var found := BedOccupationRepository.FindByReserveAndRoom(bedOccs, beds, reserveId, k);
      (Allocation.LedgerOf(rooms[i]) == Allocation.WholeRoom ==> r.Ok? && r.value.0[i].status == Some(OCCUPIED))
      && (Allocation.LedgerOf(rooms[i]) == Allocation.NoLedger ==> r == Ok((rooms, beds)))
      && (Allocation.LedgerOf(rooms[i]) == Allocation.PerBed ==>
            (found.Err? ==> r == Err(Runtime))
            && (found == Ok(None) ==> r == Err(IllegalState))
            && (found.Ok? && found.value.Some? ==>
                  r.Ok? && BedInRoomIndex(beds, found.value.value.bedId, k).Some?
                  && r.value.1[BedInRoomIndex(beds, found.value.value.bedId, k).value].status == Some(BedOccupied)
                  && (AllBedsOccupied(r.value.1, k) ==> r.value.0[i].status == Some(OCCUPIED))))
  {
    var i := Hostel.RoomById(rooms, k).value;
    match Allocation.LedgerOf(rooms[i])
    case WholeRoom => Ok((Hostel.WithRoomStatus(rooms, i, Some(OCCUPIED)), beds))
    case NoLedger => Ok((rooms, beds))
    case PerBed =>
      match BedOccupationRepository.FindByReserveAndRoom(bedOccs, beds, reserveId, k)
      case Err(e) => Err(e)
      case Ok(None) => Err(IllegalState)
      case Ok(Some(o)) =>
        match BedInRoomIndex(beds, o.bedId, k)
        case None => assert false; Err(Runtime)
        case Some(j) =>
          var beds' := Hostel.WithBedStatus(beds, j, BedOccupied);
          if AllBedsOccupied(beds', k) then Ok((Hostel.WithRoomStatus(rooms, i, Some(OCCUPIED)), beds'))
          else Ok((rooms, beds'))
  }

  /** The tables as a room-by-room visit left them, and the failure that stopped it, if any. */
  datatype Visit = Visit(rooms: seq<Room>, beds: seq<Bed>, failure: Option<ErrorKind>)

  /**
   * checkIn's loop over the reservation's rooms, in iteration order. A
   * failure stops it; the beds saved before it stay saved.
   */
  function CheckInFrom(rooms: seq<Room>, beds: seq<Bed>, bedOccs: seq<BedOccupation>, reserveId: nat, ids: seq<nat>)
    : (v: Visit)
    requires Resolves(rooms, ids)
    ensures Hostel.RoomStatusOnly(rooms, v.rooms) && Hostel.BedStatusOnly(beds, v.beds)
    ensures forall i :: 0 <= i < |rooms| && v.rooms[i] != rooms[i] ==>
      rooms[i].id in ids && v.rooms[i].status == Some(OCCUPIED)
    ensures forall j :: 0 <= j < |beds| && v.beds[j] != beds[j] ==> v.beds[j].status == Some(BedOccupied)
    ensures v.failure.Some? ==> v.failure.value == Runtime || v.failure.value == IllegalState
    decreases |ids|
  {
    if ids == [] then Visit(rooms, beds, None)
    else
      match CheckInRoom(rooms, beds, bedOccs, reserveId, ids[0])
      case Err(e) => Visit(rooms, beds, Some(e))
      case Ok(step) =>
        ResolvesKeptByStatus(rooms, step.0, ids[1..]);
        CheckInFrom(step.0, step.1, bedOccs, reserveId, ids[1..])
  }

  /** A check-in that goes through marks every room of the reservation that is let whole OCCUPIED. */
  lemma {:induction false} CheckInOccupiesWholeRooms(rooms: seq<Room>, beds: seq<Bed>, bedOccs: seq<BedOccupation>,
                                                     reserveId: nat, ids: seq<nat>, k: nat)
    requires Resolves(rooms, ids) && k in ids
    requires Allocation.LedgerOf(rooms[Hostel.RoomById(rooms, k).value]) == Allocation.WholeRoom
    requires CheckInFrom(rooms, beds, bedOccs, reserveId, ids).failure.None?
    ensures CheckInFrom(rooms, beds, bedOccs, reserveId, ids).rooms[Hostel.RoomById(rooms, k).value].status == Some(OCCUPIED)
    decreases |ids|
  {
    var step := CheckInRoom(rooms, beds, bedOccs, reserveId, ids[0]).value;
    ResolvesKeptByStatus(rooms, step.0, ids[1..]);
    if ids[0] != k {
      assert k in ids[1..];
      Hostel.RoomByIdKeptByStatus(rooms, step.0, k);
      CheckInOccupiesWholeRooms(step.0, step.1, bedOccs, reserveId, ids[1..], k);
    }
  }

  /**
   * checkIn: the reservation (NotFound), then each of its rooms in turn;
   * on success the rooms are saved and the check-in instant `now` is
   * appended to the reservation. checkIn is not transactional: a failure
   * keeps the beds saved before it and drops the rest.
   */
  method CheckIn(db: Hostel.Database, reserveId: nat, now: nat) returns (r: Result<Reserve>)
    requires db.RoomsResolve()
    modifies db`rooms, db`beds, db`reserves
    ensures Hostel.ReserveById(old(db.reserves), reserveId).Err? ==>
      r == Err(NotFound) && db.rooms == old(db.rooms) && db.beds == old(db.beds) && db.reserves == old(db.reserves)
    ensures Hostel.ReserveById(old(db.reserves), reserveId).Ok? ==>
      var k := Hostel.ReserveById(old(db.reserves), reserveId).value;
      var row := old(db.reserves)[k];
      Resolves(old(db.rooms), row.rooms)
      && var v := CheckInFrom(old(db.rooms), old(db.beds), db.bedOccupations, reserveId, row.rooms);
      db.beds == v.beds
      && (v.failure.None? ==>
            r == Ok(row.(checkIn := row.checkIn + [now])) && db.rooms == v.rooms
            && db.reserves == old(db.reserves)[k := r.value])
      && (v.failure.Some? ==> r == Err(v.failure.value) && db.rooms == old(db.rooms) && db.reserves == old(db.reserves))
  {
    var k := Hostel.ReserveById(db.reserves, reserveId);
    if k.Err? {
      return Err(NotFound);
    }
    var row := db.reserves[k.value];
    assert Resolves(db.rooms, row.rooms);
    var v := VisitForCheckIn(db.rooms, db.beds, db.bedOccupations, reserveId, row.rooms);
    if v.failure.Some? {
      db.beds := v.beds;
      return Err(v.failure.value);
    }
    var row' := row.(checkIn := row.checkIn + [now]);
    db.rooms, db.beds, db.reserves := v.rooms, v.beds, db.reserves[k.value := row'];
    return Ok(row');
  }

  /** checkIn's loop: the rooms in turn, stopping at the first failure. */
  method VisitForCheckIn(rooms0: seq<Room>, beds0: seq<Bed>, bedOccs: seq<BedOccupation>, reserveId: nat, ids: seq<nat>)
    returns (v: Visit)
    requires Resolves(rooms0, ids)
    ensures v == CheckInFrom(rooms0, beds0, bedOccs, reserveId, ids)
  {
    var rooms, beds := rooms0, beds0;
    assert ids[0..] == ids;
    for n := 0 to |ids|
      invariant Resolves(rooms, ids[n..])
      invariant CheckInFrom(rooms, beds, bedOccs, reserveId, ids[n..]) == CheckInFrom(rooms0, beds0, bedOccs, reserveId, ids)
    {
      assert ids[n..][0] == ids[n] && ids[n..][1..] == ids[n + 1..];
      var step := CheckInRoom(rooms, beds, bedOccs, reserveId, ids[n]);
      if step.Err? {
        return Visit(rooms, beds, Some(step.error));
      }
      ResolvesKeptByStatus(rooms, step.value.0, ids[n + 1..]);
      rooms, beds := step.value.0, step.value.1;
    }
    assert ids[|ids|..] == [];
    return Visit(rooms, beds, None);
  }

  /**
   * updateSharedRoomStatus: OCCUPIED when every bed of the room is
   * occupied, VAGUE when none is, otherwise the status is kept.
   */
  function SharedRoomStatus(current: Option<RoomStatus>, occupied: nat, total: nat): (s: Option<RoomStatus>)
    requires occupied <= total
    ensures s == Some(OCCUPIED) <==> occupied == total || (occupied != 0 && current == Some(OCCUPIED))
    ensures s == Some(VAGUE) <==> occupied != total && (occupied == 0 || current == Some(VAGUE))
    ensures s != current ==> s == Some(OCCUPIED) || s == Some(VAGUE)
  {
    if occupied == total then Some(OCCUPIED)
    else if occupied == 0 then Some(VAGUE)
    else current
  }

  /** findBedForReserveInRoom: the row of the bed of the reservation's first bed entry lying in the room. */
  function ReservedBedIn(beds: seq<Bed>, bedOccs: seq<BedOccupation>, reserveId: nat, k: nat): (r: Option<nat>)
    ensures r.Some? ==>
      r.value < |beds| && beds[r.value].roomId == k
      && exists o :: o in bedOccs && o.reserveId == reserveId && o.bedId == beds[r.value].id
    ensures r.None? <==> forall o :: o in bedOccs && o.reserveId == reserveId ==> !BedOccupationRepository.BedInRoom(beds, o.bedId, k)
  {
    match Seqs.FirstIndex(bedOccs, (o: BedOccupation) => o.reserveId == reserveId && BedOccupationRepository.BedInRoom(beds, o.bedId, k))
    case None => None
    case Some(n) =>
      assert bedOccs[n] in bedOccs;
      BedInRoomIndex(beds, bedOccs[n].bedId, k)
  }

  /** `b.getBedStatus() == OCCUPIED`. */
  function IsOccupiedBed(): Bed -> bool
  {
    (b: Bed) => b.status == Some(BedOccupied)
  }

  /**
   * One turn of checkout's loop, on the room with id `k`: a room let whole
   * becomes VAGUE; in a shared room the reservation's bed becomes VAGUE and
   * the room's status follows its beds (SharedRoomStatus); a shared room
   * without a bed of the reservation, and a room without a type, are left
   * alone.
   */
  function CheckoutRoom(rooms: seq<Room>, beds: seq<Bed>, bedOccs: seq<BedOccupation>, reserveId: nat, k: nat)
    : (r: (seq<Room>, seq<Bed>))
    requires Hostel.RoomById(rooms, k).Ok?
    ensures Hostel.RoomStatusOnly(rooms, r.0) && Hostel.BedStatusOnly(beds, r.1)
    ensures forall i :: 0 <= i < |rooms| && r.0[i] != rooms[i] ==> i == Hostel.RoomById(rooms, k).value
    ensures forall i :: 0 <= i < |rooms| && r.0[i].status == Some(OCCUPIED) ==> rooms[i].status == Some(OCCUPIED)
    ensures forall i :: 0 <= i < |rooms| && r.0[i] != rooms[i] && Allocation.LedgerOf(rooms[i]) == Allocation.WholeRoom ==>
      r.0[i].status == Some(VAGUE)
    ensures forall j :: 0 <= j < |beds| && r.1[j] != beds[j] ==>
      r.1[j].status == Some(BedVague) && ReservedBedIn(beds, bedOccs, reserveId, k) == Some(j)
    ensures var i := Hostel.RoomById(rooms, k).value;
      var bed := ReservedBedIn(beds, bedOccs, reserveId, k);
      (Allocation.LedgerOf(rooms[i]) == Allocation.WholeRoom ==> r.0[i].status == Some(VAGUE) && r.1 == beds)
      && (Allocation.LedgerOf(rooms[i]) == Allocation.PerBed && bed.Some? ==> r.1[bed.value].status == Some(BedVague))
      && (Allocation.LedgerOf(rooms[i]) == Allocation.PerBed && bed.None? ==> r == (rooms, beds))
      && (Allocation.LedgerOf(rooms[i]) == Allocation.NoLedger ==> r == (rooms, beds))
  {
    var i := Hostel.RoomById(rooms, k).value;
    match Allocation.LedgerOf(rooms[i])
    case WholeRoom => (Hostel.WithRoomStatus(rooms, i, Some(VAGUE)), beds)
    case NoLedger => (rooms, beds)
    case PerBed =>
      match ReservedBedIn(beds, bedOccs, reserveId, k)
      case None => (rooms, beds)
      case Some(j) =>
        var beds' := Hostel.WithBedStatus(beds, j, BedVague);
        var inRoom := BedsOfRoom(beds', k);
        var occupied := Seqs.Count(inRoom, IsOccupiedBed());
        assert occupied < |inRoom| by {
          assert beds'[j] in inRoom;
          var t :| 0 <= t < |inRoom| && inRoom[t] == beds'[j];
          Seqs.FilterDropsOne(inRoom, IsOccupiedBed(), t);
        }
        (Hostel.WithRoomStatus(rooms, i, SharedRoomStatus(rooms[i].status, occupied, |inRoom|)), beds')
  }

  /** checkout's loop over the reservation's rooms, in iteration order. */
  function CheckoutFrom(rooms: seq<Room>, beds: seq<Bed>, bedOccs: seq<BedOccupation>, reserveId: nat, ids: seq<nat>)
    : (r: (seq<Room>, seq<Bed>))
    requires Resolves(rooms, ids)
    ensures Hostel.RoomStatusOnly(rooms, r.0) && Hostel.BedStatusOnly(beds, r.1)
    ensures forall i :: 0 <= i < |rooms| && r.0[i] != rooms[i] ==> rooms[i].id in ids
    ensures forall i :: 0 <= i < |rooms| && r.0[i].status == Some(OCCUPIED) ==> rooms[i].status == Some(OCCUPIED)
    ensures forall i :: 0 <= i < |rooms| && r.0[i] != rooms[i] && Allocation.LedgerOf(rooms[i]) == Allocation.WholeRoom ==>
      r.0[i].status == Some(VAGUE)
    ensures forall j :: 0 <= j < |beds| && r.1[j] != beds[j] ==> r.1[j].status == Some(BedVague)
    decreases |ids|
  {
    if ids == [] then (rooms, beds)
    else
      var step := CheckoutRoom(rooms, beds, bedOccs, reserveId, ids[0]);
      ResolvesKeptByStatus(rooms, step.0, ids[1..]);
      CheckoutFrom(step.0, step.1, bedOccs, reserveId, ids[1..])
  }

  /** checkout marks every room of the reservation that is let whole VAGUE. */
  lemma {:induction false} CheckoutFreesWholeRooms(rooms: seq<Room>, beds: seq<Bed>, bedOccs: seq<BedOccupation>,
                                                   reserveId: nat, ids: seq<nat>, k: nat)
    requires Resolves(rooms, ids) && k in ids
    requires Allocation.LedgerOf(rooms[Hostel.RoomById(rooms, k).value]) == Allocation.WholeRoom
    ensures CheckoutFrom(rooms, beds, bedOccs, reserveId, ids).0[Hostel.RoomById(rooms, k).value].status == Some(VAGUE)
    decreases |ids|
  {
    var step := CheckoutRoom(rooms, beds, bedOccs, reserveId, ids[0]);
    ResolvesKeptByStatus(rooms, step.0, ids[1..]);
    if ids[0] != k {
      assert k in ids[1..];
      Hostel.RoomByIdKeptByStatus(rooms, step.0, k);
      CheckoutFreesWholeRooms(step.0, step.1, bedOccs, reserveId, ids[1..], k);
    }
  }

  /**
   * checkout: the reservation (NotFound), then each of its rooms in turn;
   * the rooms and beds are saved and the checkout instant `now` is
   * appended to the reservation.
   */
  method Checkout(db: Hostel.Database, reserveId: nat, now: nat) returns (r: Result<Reserve>)
    requires db.RoomsResolve()
    modifies db`rooms, db`beds, db`reserves
    ensures Hostel.ReserveById(old(db.reserves), reserveId).Err? ==>
      r == Err(NotFound) && db.rooms == old(db.rooms) && db.beds == old(db.beds) && db.reserves == old(db.reserves)
    ensures Hostel.ReserveById(old(db.reserves), reserveId).Ok? ==>
      var k := Hostel.ReserveById(old(db.reserves), reserveId).value;
      var row := old(db.reserves)[k];
      Resolves(old(db.rooms), row.rooms)
      && (db.rooms, db.beds) == CheckoutFrom(old(db.rooms), old(db.beds), db.bedOccupations, reserveId, row.rooms)
      && r == Ok(row.(checkOut := row.checkOut + [now]))
      && db.reserves == old(db.reserves)[k := r.value]
  {
    var k := Hostel.ReserveById(db.reserves, reserveId);
    if k.Err? {
      return Err(NotFound);
    }
    var row := db.reserves[k.value];
    assert Resolves(db.rooms, row.rooms);
    var rooms, beds := VisitForCheckout(db.rooms, db.beds, db.bedOccupations, reserveId, row.rooms);
    var row' := row.(checkOut := row.checkOut + [now]);
    db.rooms, db.beds, db.reserves := rooms, beds, db.reserves[k.value := row'];
    return Ok(row');
  }

  /** checkout's loop: the rooms in turn. */
  method VisitForCheckout(rooms0: seq<Room>, beds0: seq<Bed>, bedOccs: seq<BedOccupation>, reserveId: nat, ids: seq<nat>)
    returns (rooms: seq<Room>, beds: seq<Bed>)
    requires Resolves(rooms0, ids)
    ensures (rooms, beds) == CheckoutFrom(rooms0, beds0, bedOccs, reserveId, ids)
  {
    rooms, beds := rooms0, beds0;
    assert ids[0..] == ids;
    for n := 0 to |ids|
      invariant Resolves(rooms, ids[n..])
      invariant CheckoutFrom(rooms, beds, bedOccs, reserveId, ids[n..]) == CheckoutFrom(rooms0, beds0, bedOccs, reserveId, ids)
    {
      assert ids[n..][0] == ids[n] && ids[n..][1..] == ids[n + 1..];
      var step := CheckoutRoom(rooms, beds, bedOccs, reserveId, ids[n]);
      ResolvesKeptByStatus(rooms, step.0, ids[n + 1..]);
      rooms, beds := step.0, step.1;
    }
    assert ids[|ids|..] == [];
  }

  // ------------------------------------------------------------ availability

  /**
   * The answer of checkAvailability: the verdict, the number of free beds
   * (shared rooms only), the requested nights and the room type's label.
   */
  datatype Availability = Availability(available: bool, freeBeds: Option<nat>, dates: set<int>, nights: nat,
                                       description: string)

  /** checkAvailability's count: the VAGUE beds of the room with no entry sharing a day with `dates`. */
  function VagueFreeBedCount(beds: seq<Bed>, bedOccs: seq<BedOccupation>, roomId: nat, dates: set<int>): (n: nat)
    ensures n == 0 <==> Allocation.FirstFreeBed(beds, bedOccs, roomId, dates, true).None?
  {
    var vague := BedRepository.FindByRoomAndBedStatus(beds, roomId, BedVague);
    var n := Seqs.Count(vague, (b: Bed) => BedOccupationRepository.IsBedAvailableForDates(bedOccs, b.id, dates));
    assert n == 0 <==> forall j :: 0 <= j < |beds| ==> !Allocation.Pickable(beds, bedOccs, roomId, dates, true, beds[j]) by {
      if n != 0 {
        var t :| 0 <= t < |vague| && BedOccupationRepository.IsBedAvailableForDates(bedOccs, vague[t].id, dates);
        assert vague[t] in vague;
        var j :| 0 <= j < |beds| && beds[j] == vague[t];
        assert Allocation.Pickable(beds, bedOccs, roomId, dates, true, beds[j]);
      }
    }
    n
  }

  /**
   * checkAvailability: the dates are validated (IllegalArgument), the
   * nights from check-in up to check-out are listed, the room is looked up
   * by number (NotFound; a runtime failure when several rooms share it) and
   * its type labelled (a runtime failure for a room without a type). A room
   * let whole is available when no entry of it shares a night with the
   * stay; a shared room when at least one of its VAGUE beds is free on
   * every night. The verdict is exactly whether createReserve would find
   * the stay a place.
   */
  method CheckAvailability(db: Hostel.Database, roomNumber: int, checkIn: Option<int>, checkOut: Option<int>, today: int)
    returns (r: Result<Availability>)
    ensures ValidateDates(checkIn, checkOut, today).Err? ==> r == Err(IllegalArgument)
    ensures ValidateDates(checkIn, checkOut, today).Ok? ==>
      var dates := Calendar.Span(checkIn.value, checkOut.value);
      var found := Hostel.RoomByNumber(db.rooms, roomNumber);
      (found.Err? ==> r == Err(found.error))
      && (found.Ok? && db.rooms[found.value].roomType.None? ==> r == Err(Runtime))
      && (found.Ok? && db.rooms[found.value].roomType.Some? ==>
            var room := db.rooms[found.value];
            r.Ok? && r.value.dates == dates && r.value.nights == checkOut.value - checkIn.value
            && r.value.description == RoomTypeDescription(room).value
            && (r.value.available <==> PlaceStay(room, db.beds, db.roomOccupations, db.bedOccupations, dates, true).Ok?)
            && (Allocation.LedgerOf(room) == Allocation.PerBed ==>
                  r.value.freeBeds == Some(VagueFreeBedCount(db.beds, db.bedOccupations, room.id, dates)))
            && (Allocation.LedgerOf(room) == Allocation.WholeRoom ==> r.value.freeBeds.None?))
  {
    var v := ValidateDates(checkIn, checkOut, today);
    if v.Err? {
      return Err(IllegalArgument);
    }
    var dates := Calendar.DatesBetween(checkIn.value, checkOut.value);
    var found := Hostel.RoomByNumber(db.rooms, roomNumber);
    if found.Err? {
      return Err(found.error);
    }
    var room := db.rooms[found.value];
    var description := RoomTypeDescription(room);
    if description.Err? {
      return Err(Runtime);
    }
    var nights := |dates|;
    if IsAnyExclusiveType(room) {
      var conflict := RoomOccupationRepository.ExistsConflictForRoomAndDates(db.roomOccupations, room.id, dates);
      return Ok(Availability(!conflict, None, dates, nights, description.value));
    } else {
      // a typed room that is not let whole is shared: the "unrecognised type" answer cannot be reached
      assert IsSharedRoom(room);
      var free := VagueFreeBedCount(db.beds, db.bedOccupations, room.id, dates);
      return Ok(Availability(free > 0, Some(free), dates, nights, description.value));
    }
  }
}
