/**
 * The occupation, bed and reservation queries. Each query is a function of
 * the table it reads (a sequence of rows in insertion order); a JPQL
 * `EXISTS (... od IN :dates)` is a non-empty intersection of day sets and
 * `BETWEEN` a closed interval.
 */
module RoomOccupationRepository {
  import opened Occupations
  import Seqs
  import Calendar

  /** `findConflicts`: the entries of the room that share a day with `dates`. */
  function FindConflicts(occs: seq<RoomOccupation>, roomId: nat, dates: set<int>): (r: seq<RoomOccupation>)
    ensures forall o :: o in r <==> o in occs && o.roomId == roomId && o.days * dates != {}
    ensures dates == {} ==> r == []
  {
    var r := Seqs.Filter(occs, (o: RoomOccupation) => o.roomId == roomId && o.days * dates != {});
    assert r != [] ==> r[0] in r;
    r
  }

  /** `existsConflictForRoomAndDates`: some entry of the room shares a day with `dates`. */
  function ExistsConflictForRoomAndDates(occs: seq<RoomOccupation>, roomId: nat, dates: set<int>): (b: bool)
    ensures b <==> FindConflicts(occs, roomId, dates) != []
    ensures b <==> exists i :: 0 <= i < |occs| && occs[i].roomId == roomId && occs[i].days * dates != {}
  {
    var r := FindConflicts(occs, roomId, dates);
    assert r != [] ==> r[0] in r;
    assert forall i :: 0 <= i < |occs| ==> occs[i] in occs;
    r != []
  }

  /** `isRoomAvailableForDates`: the negation of the conflict test. */
  function IsRoomAvailableForDates(occs: seq<RoomOccupation>, roomId: nat, dates: set<int>): (b: bool)
    ensures b <==> !ExistsConflictForRoomAndDates(occs, roomId, dates)
    ensures b <==> forall o :: o in occs && o.roomId == roomId ==> o.days * dates == {}
  {
    var r := FindConflicts(occs, roomId, dates);
    assert r != [] ==> r[0] in r;
    r == []
  }

  /** `findByRoomAndOccupiedDaysContaining`: the entries of the room holding `date`. */
  function FindByRoomAndDate(occs: seq<RoomOccupation>, roomId: nat, date: int): (r: seq<RoomOccupation>)
    ensures forall o :: o in r <==> o in occs && o.roomId == roomId && date in o.days
  {
    Seqs.Filter(occs, (o: RoomOccupation) => o.roomId == roomId && date in o.days)
  }

  /** Holding one date is conflicting on the singleton set of that date. */
  lemma {:induction false} SingleDateIsConflictOnSingleton(occs: seq<RoomOccupation>, roomId: nat, date: int)
    ensures FindByRoomAndDate(occs, roomId, date) == FindConflicts(occs, roomId, {date})
  {
    forall o: RoomOccupation ensures date in o.days <==> o.days * {date} != {} {
      if date in o.days {
        assert date in o.days * {date};
      }
    }
    Seqs.FilterCongruent(occs, (o: RoomOccupation) => o.roomId == roomId && date in o.days,
                               (o: RoomOccupation) => o.roomId == roomId && o.days * {date} != {});
  }

  /** `findConflictsBetween`: the entries of the room with some day in [start, end]. */
  function FindConflictsBetween(occs: seq<RoomOccupation>, roomId: nat, start: int, end: int): (r: seq<RoomOccupation>)
    ensures forall o :: o in r <==> o in occs && o.roomId == roomId && exists d :: d in o.days && start <= d <= end
  {
    Seqs.Filter(occs, (o: RoomOccupation) => o.roomId == roomId && exists d :: d in o.days && start <= d <= end)
  }

  /** The interval query is the conflict query on the closed interval's days. */
  lemma {:induction false} BetweenIsClosedInterval(occs: seq<RoomOccupation>, roomId: nat, start: int, end: int)
    ensures FindConflictsBetween(occs, roomId, start, end) == FindConflicts(occs, roomId, Calendar.Span(start, end + 1))
  {
    var span := Calendar.Span(start, end + 1);
    Calendar.SpanMembers(start, end + 1);
    forall o: RoomOccupation
      ensures (exists d :: d in o.days && start <= d <= end) <==> o.days * span != {}
    {
      if exists d :: d in o.days && start <= d <= end {
        var d :| d in o.days && start <= d <= end;
        assert d in o.days * span;
      }
    }
    Seqs.FilterCongruent(occs,
      (o: RoomOccupation) => o.roomId == roomId && exists d :: d in o.days && start <= d <= end,
      (o: RoomOccupation) => o.roomId == roomId && o.days * span != {});
  }

  /** `findByReserve`: the entries of one reservation. */
  function FindByReserve(occs: seq<RoomOccupation>, reserveId: nat): (r: seq<RoomOccupation>)
    ensures forall o :: o in r <==> o in occs && o.reserveId == reserveId
  {
    Seqs.Filter(occs, (o: RoomOccupation) => o.reserveId == reserveId)
  }

  /** `findAllByRoom`: the entries of one room. */
  function FindAllByRoom(occs: seq<RoomOccupation>, roomId: nat): (r: seq<RoomOccupation>)
    ensures forall o :: o in r <==> o in occs && o.roomId == roomId
  {
    Seqs.Filter(occs, (o: RoomOccupation) => o.roomId == roomId)
  }

  /** `findByDate`: the entries, of any room, holding `date`. */
  function FindByDate(occs: seq<RoomOccupation>, date: int): (r: seq<RoomOccupation>)
    ensures forall o :: o in r <==> o in occs && date in o.days
  {
    Seqs.Filter(occs, (o: RoomOccupation) => date in o.days)
  }
}

module BedOccupationRepository {
  import opened Wrappers
  import opened Occupations
  import opened Rooms
  import Seqs
  import Calendar

  /** `findConflicts`: the entries of the bed that share a day with `dates`. */
  function FindConflicts(occs: seq<BedOccupation>, bedId: nat, dates: set<int>): (r: seq<BedOccupation>)
    ensures forall o :: o in r <==> o in occs && o.bedId == bedId && o.days * dates != {}
    ensures dates == {} ==> r == []
  {
    var r := Seqs.Filter(occs, (o: BedOccupation) => o.bedId == bedId && o.days * dates != {});
    assert r != [] ==> r[0] in r;
    r
  }

  /**
   * `existsByBedAndOccupiedDaysIn` (and `existsByBedIdAndOccupiedDaysIn`,
   * the same query by bed id): some entry of the bed shares a day with `dates`.
   */
  function ExistsByBedAndOccupiedDaysIn(occs: seq<BedOccupation>, bedId: nat, dates: set<int>): (b: bool)
    ensures b <==> FindConflicts(occs, bedId, dates) != []
    ensures b <==> exists i :: 0 <= i < |occs| && occs[i].bedId == bedId && occs[i].days * dates != {}
  {
    var r := FindConflicts(occs, bedId, dates);
    assert r != [] ==> r[0] in r;
    assert forall i :: 0 <= i < |occs| ==> occs[i] in occs;
    r != []
  }

  /** `isBedAvailableForDates`: no entry of the bed shares a day with `dates`. */
  function IsBedAvailableForDates(occs: seq<BedOccupation>, bedId: nat, dates: set<int>): (b: bool)
    ensures b <==> !ExistsByBedAndOccupiedDaysIn(occs, bedId, dates)
    ensures b <==> forall o :: o in occs && o.bedId == bedId ==> o.days * dates == {}
  {
    var r := FindConflicts(occs, bedId, dates);
    assert r != [] ==> r[0] in r;
    r == []
  }

  /** `findByBedAndOccupiedDaysContaining`: the entries of the bed holding `date`. */
  function FindByBedAndDate(occs: seq<BedOccupation>, bedId: nat, date: int): (r: seq<BedOccupation>)
    ensures forall o :: o in r <==> o in occs && o.bedId == bedId && date in o.days
  {
    Seqs.Filter(occs, (o: BedOccupation) => o.bedId == bedId && date in o.days)
  }

  /** `findByReserve`: all and only the entries of one reservation. */
  function FindByReserve(occs: seq<BedOccupation>, reserveId: nat): (r: seq<BedOccupation>)
    ensures forall o :: o in r <==> o in occs && o.reserveId == reserveId
  {
    Seqs.Filter(occs, (o: BedOccupation) => o.reserveId == reserveId)
  }

  /** `findByBed` (and `findAllByBed`, the same query): the entries of one bed. */
  function FindByBed(occs: seq<BedOccupation>, bedId: nat): (r: seq<BedOccupation>)
    ensures forall o :: o in r <==> o in occs && o.bedId == bedId
  {
    Seqs.Filter(occs, (o: BedOccupation) => o.bedId == bedId)
  }

  /** `findByOccupiedDaysIn`: the entries, of any bed, sharing a day with `dates`. */
  function FindByOccupiedDaysIn(occs: seq<BedOccupation>, dates: set<int>): (r: seq<BedOccupation>)
    ensures forall o :: o in r <==> o in occs && o.days * dates != {}
  {
    Seqs.Filter(occs, (o: BedOccupation) => o.days * dates != {})
  }

  /** `findByOccupiedDaysBetween`: the entries with some day in the closed interval [start, end]. */
  function FindByOccupiedDaysBetween(occs: seq<BedOccupation>, start: int, end: int): (r: seq<BedOccupation>)
    ensures forall o :: o in r <==> o in occs && exists d :: d in o.days && start <= d <= end
  {
    Seqs.Filter(occs, (o: BedOccupation) => exists d :: d in o.days && start <= d <= end)
  }

  /** The interval query includes both ends: it is the days-in query on [start, end]. */
  lemma {:induction false} BetweenIsClosedInterval(occs: seq<BedOccupation>, start: int, end: int)
    ensures FindByOccupiedDaysBetween(occs, start, end) == FindByOccupiedDaysIn(occs, Calendar.Span(start, end + 1))
  {
    var span := Calendar.Span(start, end + 1);
    Calendar.SpanMembers(start, end + 1);
    forall o: BedOccupation
      ensures (exists d :: d in o.days && start <= d <= end) <==> o.days * span != {}
    {
      if exists d :: d in o.days && start <= d <= end {
        var d :| d in o.days && start <= d <= end;
        assert d in o.days * span;
      }
    }
    Seqs.FilterCongruent(occs,
      (o: BedOccupation) => exists d :: d in o.days && start <= d <= end,
      (o: BedOccupation) => o.days * span != {});
  }

  /** `findByOccupiedDaysContaining`: the entries, of any bed, holding `date`. */
  function FindByDate(occs: seq<BedOccupation>, date: int): (r: seq<BedOccupation>)
    ensures forall o :: o in r <==> o in occs && date in o.days
  {
    Seqs.Filter(occs, (o: BedOccupation) => date in o.days)
  }

  /** True when the bed with id `bedId` is a row of room `roomId` (`bo.bed.room = :room`). */
  predicate BedInRoom(beds: seq<Bed>, bedId: nat, roomId: nat)
  {
    exists i :: 0 <= i < |beds| && beds[i].id == bedId && beds[i].roomId == roomId
  }

  /**
   * `findByReserveAndRoom`: the entry of the reservation whose bed belongs to
   * the room. No such entry gives an empty result; more than one is an error.
   */
  function FindByReserveAndRoom(occs: seq<BedOccupation>, beds: seq<Bed>, reserveId: nat, roomId: nat)
    : (r: Result<Option<BedOccupation>>)
    ensures r.Ok? && r.value.Some? ==>
      r.value.value in occs && r.value.value.reserveId == reserveId && BedInRoom(beds, r.value.value.bedId, roomId)
    ensures r == Ok(None) <==>
      forall o :: o in occs && o.reserveId == reserveId ==> !BedInRoom(beds, o.bedId, roomId)
    ensures r.Err? ==> r.error == Runtime
  {
    var p := (o: BedOccupation) => o.reserveId == reserveId && BedInRoom(beds, o.bedId, roomId);
    match Seqs.SingleResult(occs, p)
    case Err(e) => Err(e)
    case Ok(None) =>
      assert forall o :: o in occs ==> !p(o);
      Ok(None)
    case Ok(Some(i)) => Ok(Some(occs[i]))
  }
}

module BedRepository {
  import opened Wrappers
  import opened Enums
  import opened Occupations
  import opened Rooms
  import Seqs
  import BedOccupationRepository

  /** No entry of the bed shares a day with `dates` (the `NOT EXISTS` sub-query). */
  predicate Unoccupied(occs: seq<BedOccupation>, bedId: nat, dates: set<int>)
  {
    forall i :: 0 <= i < |occs| && occs[i].bedId == bedId ==> occs[i].days * dates == {}
  }

  /** `findByRoom` / `findByRoomId`: the beds of a room. */
  function FindByRoom(beds: seq<Bed>, roomId: nat): (r: seq<Bed>)
    ensures forall b :: b in r <==> b in beds && b.roomId == roomId
  {
    Seqs.Filter(beds, (b: Bed) => b.roomId == roomId)
  }

  /** `findByRoomAndBedStatus` / `findByBedStatusAndRoomId`: the beds of a room in one status. */
  function FindByRoomAndBedStatus(beds: seq<Bed>, roomId: nat, status: BedStatus): (r: seq<Bed>)
    ensures forall b :: b in r <==> b in beds && b.roomId == roomId && b.status == Some(status)
  {
    Seqs.Filter(beds, (b: Bed) => b.roomId == roomId && b.status == Some(status))
  }

  /** `findByBedStatus`: the beds, of any room, in one status. */
  function FindByBedStatus(beds: seq<Bed>, status: BedStatus): (r: seq<Bed>)
    ensures forall b :: b in r <==> b in beds && b.status == Some(status)
  {
    Seqs.Filter(beds, (b: Bed) => b.status == Some(status))
  }

  /** `countByRoomAndStatus`: the number of beds of a room in one status. */
  function CountByRoomAndStatus(beds: seq<Bed>, roomId: nat, status: BedStatus): (n: nat)
    ensures n == |FindByRoomAndBedStatus(beds, roomId, status)|
    ensures n <= |FindByRoom(beds, roomId)|
  {
    var p := (b: Bed) => b.roomId == roomId && b.status == Some(status);
    Seqs.FilterAtMost(beds, p, (b: Bed) => b.roomId == roomId);
    Seqs.Count(beds, p)
  }

  /** `findBedsInRoomByStatus`: the beds of a room in one status with no entry sharing a day with `dates`. */
  function FindBedsInRoomByStatus(beds: seq<Bed>, occs: seq<BedOccupation>, roomId: nat, status: BedStatus, dates: set<int>)
    : (r: seq<Bed>)
    ensures forall b :: b in r <==>
      b in beds && b.roomId == roomId && b.status == Some(status) && Unoccupied(occs, b.id, dates)
  {
    Seqs.Filter(beds, (b: Bed) => b.roomId == roomId && b.status == Some(status) && Unoccupied(occs, b.id, dates))
  }

  /**
   * `findAvailableBedsInRoom` (and `findAvailableAndUnoccupiedBeds`, the same
   * query): the VAGUE beds of a room with no entry sharing a day with `dates`.
   */
  function FindAvailableBedsInRoom(beds: seq<Bed>, occs: seq<BedOccupation>, roomId: nat, dates: set<int>): (r: seq<Bed>)
    ensures forall b :: b in r <==>
      b in beds && b.roomId == roomId && b.status == Some(BedVague) && Unoccupied(occs, b.id, dates)
    ensures r == FindBedsInRoomByStatus(beds, occs, roomId, BedVague, dates)
  {
    FindBedsInRoomByStatus(beds, occs, roomId, BedVague, dates)
  }

  /** `findUnoccupiedBedsInRoom`: like the available query but ignoring the status. */
  function FindUnoccupiedBedsInRoom(beds: seq<Bed>, occs: seq<BedOccupation>, roomId: nat, dates: set<int>): (r: seq<Bed>)
    ensures forall b :: b in r <==> b in beds && b.roomId == roomId && Unoccupied(occs, b.id, dates)
  {
    Seqs.Filter(beds, (b: Bed) => b.roomId == roomId && Unoccupied(occs, b.id, dates))
  }

  /** Every available bed is unoccupied, and there are never more available beds than unoccupied ones. */
  lemma AvailableWithinUnoccupied(beds: seq<Bed>, occs: seq<BedOccupation>, roomId: nat, dates: set<int>)
    ensures forall b :: b in FindAvailableBedsInRoom(beds, occs, roomId, dates) ==> b in FindUnoccupiedBedsInRoom(beds, occs, roomId, dates)
    ensures |FindAvailableBedsInRoom(beds, occs, roomId, dates)| <= |FindUnoccupiedBedsInRoom(beds, occs, roomId, dates)|
  {
    Seqs.FilterAtMost(beds, (b: Bed) => b.roomId == roomId && b.status == Some(BedVague) && Unoccupied(occs, b.id, dates),
                      (b: Bed) => b.roomId == roomId && Unoccupied(occs, b.id, dates));
  }

  /** `countAvailableBedsInRoom`: the number of available beds. */
  function CountAvailableBedsInRoom(beds: seq<Bed>, occs: seq<BedOccupation>, roomId: nat, dates: set<int>): (n: nat)
    ensures n == |FindAvailableBedsInRoom(beds, occs, roomId, dates)|
    ensures n <= |FindByRoom(beds, roomId)|
  {
    Seqs.FilterAtMost(beds, (b: Bed) => b.roomId == roomId && b.status == Some(BedVague) && Unoccupied(occs, b.id, dates),
                      (b: Bed) => b.roomId == roomId);
    Seqs.Count(beds, (b: Bed) => b.roomId == roomId && b.status == Some(BedVague) && Unoccupied(occs, b.id, dates))
  }

  /** `isBedAvailable`: a VAGUE bed with that id exists and no entry of it shares a day with `dates`. */
  function IsBedAvailable(beds: seq<Bed>, occs: seq<BedOccupation>, bedId: nat, dates: set<int>): (ok: bool)
    ensures ok <==>
      (exists b :: b in beds && b.id == bedId && b.status == Some(BedVague))
      && BedOccupationRepository.IsBedAvailableForDates(occs, bedId, dates)
  {
    var r := Seqs.Filter(beds, (b: Bed) => b.id == bedId && b.status == Some(BedVague));
    assert r != [] ==> r[0] in r;
    r != [] && Unoccupied(occs, bedId, dates)
  }
}

module ReserveRepository {
  import opened Wrappers
  import opened Enums
  import opened Reserves
  import Seqs

  /** `findByReserveStatus`. */
  function FindByReserveStatus(rs: seq<Reserve>, status: ReserveStatus): (r: seq<Reserve>)
    ensures forall x :: x in r <==> x in rs && x.status == Some(status)
  {
    Seqs.Filter(rs, (x: Reserve) => x.status == Some(status))
  }

  /** `findByReserveStatusAndReservedDaysBetween`: status plus some reserved day in [start, end]. */
  function FindByStatusAndDaysBetween(rs: seq<Reserve>, status: ReserveStatus, start: int, end: int): (r: seq<Reserve>)
    ensures forall x :: x in r <==>
      x in rs && x.status == Some(status) && exists d :: d in x.reservedDays && start <= d <= end
  {
    Seqs.Filter(rs, (x: Reserve) => x.status == Some(status) && exists d :: d in x.reservedDays && start <= d <= end)
  }

  /**
   * `findByReserveStatusAndProcessedAndDateRange`: the previous query plus an
   * equality test on the processed flag; a null flag matches neither value.
   */
  function FindByStatusProcessedAndDateRange(rs: seq<Reserve>, status: ReserveStatus, processed: bool, start: int, end: int)
    : (r: seq<Reserve>)
    ensures forall x :: x in r <==>
      x in FindByStatusAndDaysBetween(rs, status, start, end) && x.financialProcessed == Some(processed)
  {
    Seqs.Filter(rs, (x: Reserve) =>
      x.status == Some(status) && x.financialProcessed == Some(processed)
      && exists d :: d in x.reservedDays && start <= d <= end)
  }

  /** `findByReserveStatusAndReservedDate`: status plus membership of `date`. */
  function FindByStatusAndDate(rs: seq<Reserve>, status: ReserveStatus, date: int): (r: seq<Reserve>)
    ensures forall x :: x in r <==> x in rs && x.status == Some(status) && date in x.reservedDays
  {
    Seqs.Filter(rs, (x: Reserve) => x.status == Some(status) && date in x.reservedDays)
  }

  /** `findByReserveStatusAndReservedDateContains`: written with a sub-query, the same condition. */
  function FindByStatusAndDateContains(rs: seq<Reserve>, status: ReserveStatus, date: int): (r: seq<Reserve>)
    ensures forall x :: x in r <==> x in rs && x.status == Some(status) && exists d :: d in x.reservedDays && d == date
  {
    Seqs.Filter(rs, (x: Reserve) => x.status == Some(status) && exists d :: d in x.reservedDays && d == date)
  }

  /** The two date-membership queries return the same reservations in the same order. */
  lemma {:induction false} DateQueriesAgree(rs: seq<Reserve>, status: ReserveStatus, date: int)
    ensures FindByStatusAndDate(rs, status, date) == FindByStatusAndDateContains(rs, status, date)
  {
    Seqs.FilterCongruent(rs,
      (x: Reserve) => x.status == Some(status) && date in x.reservedDays,
      (x: Reserve) => x.status == Some(status) && exists d :: d in x.reservedDays && d == date);
  }

  /** The rows a `mark...AsProcessed` update touches: the status matches and the flag IS NULL. */
  predicate MarkedByUpdate(x: Reserve, status: ReserveStatus)
  {
    x.status == Some(status) && x.financialProcessed.None?
  }

  /** `MarkedByUpdate` as a row filter, for counting the rows an update changes. */
  function UpdatedBy(status: ReserveStatus): Reserve -> bool
  {
    (x: Reserve) => MarkedByUpdate(x, status)
  }

  /** The table after a `mark...AsProcessed` update. */
  function MarkProcessed(rs: seq<Reserve>, status: ReserveStatus): (r: seq<Reserve>)
    ensures |r| == |rs|
    ensures forall i :: 0 <= i < |rs| ==>
      r[i] == if MarkedByUpdate(rs[i], status) then rs[i].(financialProcessed := Some(true)) else rs[i]
  {
    if rs == [] then []
    else [if MarkedByUpdate(rs[0], status) then rs[0].(financialProcessed := Some(true)) else rs[0]]
         + MarkProcessed(rs[1..], status)
  }
}
