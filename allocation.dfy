/**
 * The allocation decisions of the reservation service: which ledger a room
 * uses, how a conflict is detected, which bed is picked, and how a ledger
 * changes when one day is added. The service methods in module
 * ReserveService make these decisions on the current tables and write the
 * result back.
 */
module Allocation {
  import opened Wrappers
  import opened Enums
  import opened Rooms
  import opened Occupations
  import Seqs
  import RoomOccupationRepository
  import BedOccupationRepository

  /** The ledger a room is booked through. */
  datatype LedgerKind = WholeRoom | PerBed | NoLedger

  /**
   * The dispatch of validateDatesAvailability and createOccupations: the
   * whole-room types use the room ledger, SHARED the bed ledger, and a room
   * without a type uses neither.
   */
  function LedgerOf(room: Room): (k: LedgerKind)
    ensures k == WholeRoom <==> IsAnyExclusiveType(room)
    ensures k == PerBed <==> IsSharedRoom(room)
    ensures k == NoLedger <==> room.roomType.None?
  {
    if IsExclusiveRoom(room) || IsSharedBathroom(room) || IsStudio(room) || IsSuite(room) then WholeRoom
    else if IsSharedRoom(room) then PerBed
    else NoLedger
  }

  /** No two distinct entries of the room ledger hold the same room on the same day. */
  predicate RoomLedgerDisjoint(occs: seq<RoomOccupation>)
  {
    forall a, b :: a in occs && b in occs && a != b && a.roomId == b.roomId ==> a.days * b.days == {}
  }

  /** No two distinct entries of the bed ledger hold the same bed on the same day. */
  predicate BedLedgerDisjoint(occs: seq<BedOccupation>)
  {
    forall a, b :: a in occs && b in occs && a != b && a.bedId == b.bedId ==> a.days * b.days == {}
  }

  /** An entry that passed the room conflict test keeps the room ledger free of double bookings. */
  lemma AppendRoomEntry(occs: seq<RoomOccupation>, o: RoomOccupation)
    requires RoomLedgerDisjoint(occs)
    requires !RoomOccupationRepository.ExistsConflictForRoomAndDates(occs, o.roomId, o.days)
    ensures RoomLedgerDisjoint(occs + [o])
  {
    forall a | a in occs && a.roomId == o.roomId ensures a.days * o.days == {} {
      assert a !in RoomOccupationRepository.FindConflicts(occs, o.roomId, o.days);
    }
  }

  /** An entry on a bed that passed the bed conflict test keeps the bed ledger free of double bookings. */
  lemma AppendBedEntry(occs: seq<BedOccupation>, o: BedOccupation)
    requires BedLedgerDisjoint(occs)
    requires BedOccupationRepository.IsBedAvailableForDates(occs, o.bedId, o.days)
    ensures BedLedgerDisjoint(occs + [o])
  {
  }

  /** Deleting entries never creates a double booking. */
  lemma RemovingRoomEntries(occs: seq<RoomOccupation>, kept: seq<RoomOccupation>)
    requires RoomLedgerDisjoint(occs)
    requires forall o :: o in kept ==> o in occs
    ensures RoomLedgerDisjoint(kept)
  {
  }

  /** Deleting entries never creates a double booking. */
  lemma RemovingBedEntries(occs: seq<BedOccupation>, kept: seq<BedOccupation>)
    requires BedLedgerDisjoint(occs)
    requires forall o :: o in kept ==> o in occs
    ensures BedLedgerDisjoint(kept)
  {
  }

  /** A bed of the room that the creation paths may pick: free on `dates`, and VAGUE when `vagueOnly`. */
  predicate Pickable(beds: seq<Bed>, bedOccs: seq<BedOccupation>, roomId: nat, dates: set<int>, vagueOnly: bool, b: Bed)
  {
    b.roomId == roomId && (!vagueOnly || b.status == Some(BedVague))
    && BedOccupationRepository.IsBedAvailableForDates(bedOccs, b.id, dates)
  }

  /**
   * The bed creation picks: the first bed of the room, in table order, with
   * no entry sharing a day with `dates` (createReserve also demands VAGUE).
   */
  function FirstFreeBed(beds: seq<Bed>, bedOccs: seq<BedOccupation>, roomId: nat, dates: set<int>, vagueOnly: bool)
    : (r: Option<nat>)
    ensures r.Some? ==> r.value < |beds| && Pickable(beds, bedOccs, roomId, dates, vagueOnly, beds[r.value])
    ensures r.Some? ==> forall j :: 0 <= j < r.value ==> !Pickable(beds, bedOccs, roomId, dates, vagueOnly, beds[j])
    ensures r.None? <==> forall j :: 0 <= j < |beds| ==> !Pickable(beds, bedOccs, roomId, dates, vagueOnly, beds[j])
  {
    Seqs.FirstIndex(beds, (b: Bed) => Pickable(beds, bedOccs, roomId, dates, vagueOnly, b))
  }

  /** The number of beds of the room that are free on `dates` (validateDatesAvailability). */
  function FreeBedCount(beds: seq<Bed>, bedOccs: seq<BedOccupation>, roomId: nat, dates: set<int>): (n: nat)
    ensures n == 0 <==> FirstFreeBed(beds, bedOccs, roomId, dates, false).None?
  {
    Seqs.Count(beds, (b: Bed) => Pickable(beds, bedOccs, roomId, dates, false, b))
  }

  /** validateExclusiveRoomAvailability: another reservation's entry of the room holds `d`. */
  predicate RoomHeldByOther(occs: seq<RoomOccupation>, roomId: nat, reserveId: nat, d: int)
  {
    exists i :: 0 <= i < |occs| && occs[i].roomId == roomId && occs[i].reserveId != reserveId && d in occs[i].days
  }

  /** isBedAvailableOnDate: no other reservation's entry of the bed holds `d`. */
  predicate BedFreeOnDate(occs: seq<BedOccupation>, bedId: nat, d: int, reserveId: nat)
  {
    forall i :: 0 <= i < |occs| && occs[i].bedId == bedId && occs[i].reserveId != reserveId ==> d !in occs[i].days
  }

  /** findAvailableBedForDate: the first bed of the room free on `d` for this reservation. */
  function FirstBedFreeOnDate(beds: seq<Bed>, occs: seq<BedOccupation>, roomId: nat, d: int, reserveId: nat)
    : (r: Option<nat>)
    ensures r.Some? ==>
      r.value < |beds| && beds[r.value].roomId == roomId && BedFreeOnDate(occs, beds[r.value].id, d, reserveId)
    ensures r.Some? ==> forall j :: 0 <= j < r.value ==>
      !(beds[j].roomId == roomId && BedFreeOnDate(occs, beds[j].id, d, reserveId))
    ensures r.None? <==> forall j :: 0 <= j < |beds| ==>
      !(beds[j].roomId == roomId && BedFreeOnDate(occs, beds[j].id, d, reserveId))
  {
    Seqs.FirstIndex(beds, (b: Bed) => b.roomId == roomId && BedFreeOnDate(occs, b.id, d, reserveId))
  }

  /** The reservation's first room entry (`findByReserve(...).stream().findFirst()`). */
  function FirstRoomEntryOf(occs: seq<RoomOccupation>, reserveId: nat): (r: Option<nat>)
    ensures r.Some? ==> r.value < |occs| && occs[r.value].reserveId == reserveId
    ensures r.Some? ==> forall j :: 0 <= j < r.value ==> occs[j].reserveId != reserveId
    ensures r.None? <==> forall j :: 0 <= j < |occs| ==> occs[j].reserveId != reserveId
  {
    Seqs.FirstIndex(occs, (o: RoomOccupation) => o.reserveId == reserveId)
  }

  /** The reservation's first bed entry. */
  function FirstBedEntryOf(occs: seq<BedOccupation>, reserveId: nat): (r: Option<nat>)
    ensures r.Some? ==> r.value < |occs| && occs[r.value].reserveId == reserveId
    ensures r.Some? ==> forall j :: 0 <= j < r.value ==> occs[j].reserveId != reserveId
    ensures r.None? <==> forall j :: 0 <= j < |occs| ==> occs[j].reserveId != reserveId
  {
    Seqs.FirstIndex(occs, (o: BedOccupation) => o.reserveId == reserveId)
  }

  /** Some entry of the reservation in the room ledger holds night `x`. */
  predicate RoomNightHeld(occs: seq<RoomOccupation>, reserveId: nat, x: int)
  {
    exists i :: 0 <= i < |occs| && occs[i].reserveId == reserveId && x in occs[i].days
  }

  /** Some entry of the reservation in the bed ledger holds night `x`. */
  predicate BedNightHeld(occs: seq<BedOccupation>, reserveId: nat, x: int)
  {
    exists i :: 0 <= i < |occs| && occs[i].reserveId == reserveId && x in occs[i].days
  }

  /** Growing one entry's nights, or appending an entry, keeps every night the reservation held. */
  lemma GrowingRoomLedger(occs: seq<RoomOccupation>, r: seq<RoomOccupation>, reserveId: nat)
    requires |occs| <= |r|
    requires forall i :: 0 <= i < |occs| ==> r[i].reserveId == occs[i].reserveId && occs[i].days <= r[i].days
    ensures forall x :: RoomNightHeld(occs, reserveId, x) ==> RoomNightHeld(r, reserveId, x)
  {
    forall x | RoomNightHeld(occs, reserveId, x) ensures RoomNightHeld(r, reserveId, x) {
      var i :| 0 <= i < |occs| && occs[i].reserveId == reserveId && x in occs[i].days;
      assert r[i].reserveId == reserveId && x in r[i].days;
    }
  }

  /** The bed ledger counterpart: an entry may also change bed. */
  lemma GrowingBedLedger(occs: seq<BedOccupation>, r: seq<BedOccupation>, reserveId: nat)
    requires |occs| <= |r|
    requires forall i :: 0 <= i < |occs| ==> r[i].reserveId == occs[i].reserveId && occs[i].days <= r[i].days
    ensures forall x :: BedNightHeld(occs, reserveId, x) ==> BedNightHeld(r, reserveId, x)
  {
    forall x | BedNightHeld(occs, reserveId, x) ensures BedNightHeld(r, reserveId, x) {
      var i :| 0 <= i < |occs| && occs[i].reserveId == reserveId && x in occs[i].days;
      assert r[i].reserveId == reserveId && x in r[i].days;
    }
  }

  /**
   * updateRoomOccupationForNewDate: the reservation's first room entry gains
   * `d`; a reservation without one gets a new entry on its first room.
   */
  function AddDayToRoomLedger(occs: seq<RoomOccupation>, reserveId: nat, firstRoomId: nat, d: int, freshId: nat)
    : (r: seq<RoomOccupation>)
    ensures |r| == |occs| || |r| == |occs| + 1
    ensures exists o :: o in r && o.reserveId == reserveId && d in o.days
    ensures |r| == |occs| ==>
      exists i :: 0 <= i < |occs| && occs[i].reserveId == reserveId && r == occs[i := occs[i].(days := occs[i].days + {d})]
    ensures |r| == |occs| + 1 <==> (forall o :: o in occs ==> o.reserveId != reserveId)
    ensures |r| == |occs| + 1 ==> r == occs + [RoomOccupation(freshId, firstRoomId, reserveId, {d})]
    ensures RoomNightHeld(r, reserveId, d)
    ensures forall x :: RoomNightHeld(occs, reserveId, x) ==> RoomNightHeld(r, reserveId, x)
  {
    match FirstRoomEntryOf(occs, reserveId)
    case Some(i) =>
      var r := occs[i := occs[i].(days := occs[i].days + {d})];
      assert r[i] in r;
      GrowingRoomLedger(occs, r, reserveId);
      r
    case None =>
      var r := occs + [RoomOccupation(freshId, firstRoomId, reserveId, {d})];
      assert r[|occs|] in r;
      GrowingRoomLedger(occs, r, reserveId);
      r
  }

  /**
   * Adding a night to the room ledger keeps it free of double bookings when
   * no other reservation holds the room on that night and the reservation
   * has at most one entry, on that room: the shape createReserve and
   * updateReserveDates leave.
   */
  lemma {:induction false} AddDayKeepsRoomLedgerDisjoint(occs: seq<RoomOccupation>, reserveId: nat, roomId: nat, d: int,
                                                         freshId: nat)
    requires RoomLedgerDisjoint(occs)
    requires !RoomHeldByOther(occs, roomId, reserveId, d)
    requires forall j :: 0 <= j < |occs| && occs[j].reserveId == reserveId ==> occs[j].roomId == roomId
    requires forall j, k :: 0 <= j < k < |occs| ==> !(occs[j].reserveId == reserveId && occs[k].reserveId == reserveId)
    ensures RoomLedgerDisjoint(AddDayToRoomLedger(occs, reserveId, roomId, d, freshId))
  {
    var r := AddDayToRoomLedger(occs, reserveId, roomId, d, freshId);
    match FirstRoomEntryOf(occs, reserveId)
    case Some(i) =>
      var n := occs[i].(days := occs[i].days + {d});
      assert r == occs[i := n];
      forall a, b | a in r && b in r && a != b && a.roomId == b.roomId ensures a.days * b.days == {} {
        var ja :| 0 <= ja < |r| && r[ja] == a;
        var jb :| 0 <= jb < |r| && r[jb] == b;
        if ja == i {
          assert jb != i && b == occs[jb] && b.reserveId != reserveId;
          assert d !in b.days by { assert !(occs[jb].roomId == roomId && occs[jb].reserveId != reserveId && d in occs[jb].days); }
          assert occs[i] != b;
        } else if jb == i {
          assert a == occs[ja] && a.reserveId != reserveId;
          assert d !in a.days by { assert !(occs[ja].roomId == roomId && occs[ja].reserveId != reserveId && d in occs[ja].days); }
          assert occs[i] != a;
        } else {
          assert a == occs[ja] && b == occs[jb];
        }
      }
    case None =>
      assert !RoomOccupationRepository.ExistsConflictForRoomAndDates(occs, roomId, {d}) by {
        forall j | 0 <= j < |occs| && occs[j].roomId == roomId ensures occs[j].days * {d} == {} {
          assert occs[j].reserveId != reserveId;
          assert d !in occs[j].days;
        }
      }
      AppendRoomEntry(occs, RoomOccupation(freshId, roomId, reserveId, {d}));
  }

  /**
   * updateBedOccupationForNewDate. The reservation's first bed entry (or a
   * new entry on the first bed of the room free on `d`) gains `d`; when its
   * bed is held by another reservation on `d`, the WHOLE entry moves to the
   * first bed free on `d`. No free bed is an IllegalStateException.
   */
  function AddDayToBedLedger(beds: seq<Bed>, occs: seq<BedOccupation>, reserveId: nat, firstRoomId: nat, d: int, freshId: nat)
    : (r: Result<seq<BedOccupation>>)
    ensures r.Err? ==> r.error == IllegalState
    ensures r.Err? ==> FirstBedFreeOnDate(beds, occs, firstRoomId, d, reserveId).None?
    ensures r.Ok? ==>
      exists o :: o in r.value && o.reserveId == reserveId && d in o.days && BedFreeOnDate(occs, o.bedId, d, reserveId)
    ensures r.Ok? ==> BedNightHeld(r.value, reserveId, d)
    ensures r.Ok? ==> forall x :: BedNightHeld(occs, reserveId, x) ==> BedNightHeld(r.value, reserveId, x)
  {
    match FirstBedEntryOf(occs, reserveId)
    case Some(i) =>
      var o := occs[i];
      if BedFreeOnDate(occs, o.bedId, d, reserveId) then
        var r := occs[i := o.(days := o.days + {d})];
        assert r[i] in r;
        GrowingBedLedger(occs, r, reserveId);
        Ok(r)
      else
        (match FirstBedFreeOnDate(beds, occs, firstRoomId, d, reserveId)
         case None => Err(IllegalState)
         case Some(k) =>
           var r := occs[i := o.(bedId := beds[k].id, days := o.days + {d})];
           assert r[i] in r;
           GrowingBedLedger(occs, r, reserveId);
           Ok(r))
    case None =>
      match FirstBedFreeOnDate(beds, occs, firstRoomId, d, reserveId)
      case None => Err(IllegalState)
      case Some(k) =>
        var r := occs + [BedOccupation(freshId, beds[k].id, reserveId, {d})];
        assert r[|occs|] in r;
        GrowingBedLedger(occs, r, reserveId);
        Ok(r)
  }

  /**
   * Moving a whole bed entry can double-book the target bed: the target is
   * checked for the new day only. Reservation 7 holds bed 1 on day 1,
   * reservation 8 holds bed 1 on day 2 and reservation 9 holds bed 2 on
   * day 1. Adding day 2 to reservation 7 moves its entry, with day 1, onto
   * bed 2, which reservation 9 already holds on day 1.
   */
  lemma BedMoveCanDoubleBook()
    ensures var beds := [Bed(1, Some(BedVague), 10), Bed(2, Some(BedVague), 10)];
            var occs := [BedOccupation(100, 1, 7, {1}), BedOccupation(101, 1, 8, {2}), BedOccupation(102, 2, 9, {1})];
            var r := AddDayToBedLedger(beds, occs, 7, 10, 2, 200);
            BedLedgerDisjoint(occs) && FirstBedFreeOnDate(beds, occs, 10, 2, 7).Some?
            && r.Ok? && !BedLedgerDisjoint(r.value)
  {
    var beds := [Bed(1, Some(BedVague), 10), Bed(2, Some(BedVague), 10)];
    var occs := [BedOccupation(100, 1, 7, {1}), BedOccupation(101, 1, 8, {2}), BedOccupation(102, 2, 9, {1})];
    assert BedLedgerDisjoint(occs) by {
      forall a, b | a in occs && b in occs && a != b && a.bedId == b.bedId ensures a.days * b.days == {} {
        assert a.bedId == 1 && b.bedId == 1;
        assert {a.days, b.days} == {{1}, {2}};
      }
    }
    assert !BedFreeOnDate(occs, 1, 2, 7) by { assert occs[1].bedId == 1 && occs[1].reserveId != 7 && 2 in occs[1].days; }
    assert BedFreeOnDate(occs, 2, 2, 7);
    assert FirstBedFreeOnDate(beds, occs, 10, 2, 7) == Some(1);
    assert FirstBedEntryOf(occs, 7) == Some(0);
    assert occs[0].days + {2} == {1, 2};
    assert occs[0].(bedId := beds[1].id, days := occs[0].days + {2}) == BedOccupation(100, 2, 7, {1, 2});
    var moved := occs[0 := BedOccupation(100, 2, 7, {1, 2})];
    assert AddDayToBedLedger(beds, occs, 7, 10, 2, 200) == Ok(moved);
    assert moved[0] in moved && moved[2] in moved && moved[0] != moved[2];
    assert 1 in moved[0].days * moved[2].days;
  }
}
