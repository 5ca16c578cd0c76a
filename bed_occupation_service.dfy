/**
 * The bed ledger of shared rooms: which beds a reservation holds, how many
 * beds of each room are free on given dates, and the release of a checkout
 * day. The service updates the bed table, the bed-occupation table and the
 * identity generator of `Hostel.Database`.
 */
module BedOccupationService {
  import opened Wrappers
  import opened Enums
  import opened Rooms
  import opened Reserves
  import opened Occupations
  import Hostel
  import Seqs
  import Allocation
  import BedRepository
  import BedOccupationRepository

  // ---------------------------------------------------------------- queries

  /**
   * `findAvailableBedsInRoom`: the beds of the room in status AVAILABLE with
   * no entry sharing a day with `dates`.
   */
  function FindAvailableBedsInRoom(beds: seq<Bed>, occs: seq<BedOccupation>, roomId: nat, dates: set<int>): (r: seq<Bed>)
    ensures forall b :: b in r <==>
      b in beds && b.roomId == roomId && b.status == Some(AVAILABLE) && BedRepository.Unoccupied(occs, b.id, dates)
  {
    BedRepository.FindBedsInRoomByStatus(beds, occs, roomId, AVAILABLE, dates)
  }

  /**
   * The service's query asks for AVAILABLE beds, the repository's own
   * available-bed query for VAGUE ones: no bed is in both answers, and in a
   * room whose beds are all VAGUE, the status new beds get, the service finds
   * no available bed at all.
   */
  lemma AvailableQueriesDisagree(beds: seq<Bed>, occs: seq<BedOccupation>, roomId: nat, dates: set<int>)
    ensures forall b :: b in FindAvailableBedsInRoom(beds, occs, roomId, dates) ==>
      b !in BedRepository.FindAvailableBedsInRoom(beds, occs, roomId, dates)
    ensures (forall j :: 0 <= j < |beds| && beds[j].roomId == roomId ==> beds[j].status == Some(BedVague)) ==>
      FindAvailableBedsInRoom(beds, occs, roomId, dates) == []
  {
  }

  /**
   * `findAvailableBedsInRoomAlternative`: the unoccupied beds of the room,
   * then those in status AVAILABLE. The same beds in the same order as
   * `findAvailableBedsInRoom`.
   */
  function FindAvailableBedsInRoomAlternative(beds: seq<Bed>, occs: seq<BedOccupation>, roomId: nat, dates: set<int>)
    : (r: seq<Bed>)
    ensures r == FindAvailableBedsInRoom(beds, occs, roomId, dates)
  {
    Seqs.FilterTwice(beds,
      (b: Bed) => b.roomId == roomId && BedRepository.Unoccupied(occs, b.id, dates),
      (b: Bed) => b.status == Some(AVAILABLE),
      (b: Bed) => b.roomId == roomId && b.status == Some(AVAILABLE) && BedRepository.Unoccupied(occs, b.id, dates));
    Seqs.Filter(BedRepository.FindUnoccupiedBedsInRoom(beds, occs, roomId, dates), (b: Bed) => b.status == Some(AVAILABLE))
  }

  /**
   * `findAvailableAndUnoccupiedBeds`: the repository query of the same name,
   * which asks for VAGUE beds.
   */
  function FindAvailableAndUnoccupiedBeds(beds: seq<Bed>, occs: seq<BedOccupation>, roomId: nat, dates: set<int>)
    : (r: seq<Bed>)
    ensures forall b :: b in r <==>
      b in beds && b.roomId == roomId && b.status == Some(BedVague) && BedRepository.Unoccupied(occs, b.id, dates)
  {
    BedRepository.FindAvailableBedsInRoom(beds, occs, roomId, dates)
  }

  /** `countAvailableBedsInRoom`: the size of `findAvailableBedsInRoom`, never more than the room's beds. */
  function CountAvailableBedsInRoom(beds: seq<Bed>, occs: seq<BedOccupation>, roomId: nat, dates: set<int>): (n: nat)
    ensures n == |FindAvailableBedsInRoom(beds, occs, roomId, dates)|
    ensures n <= |BedRepository.FindByRoom(beds, roomId)|
  {
    Seqs.FilterAtMost(beds,
      (b: Bed) => b.roomId == roomId && b.status == Some(AVAILABLE) && BedRepository.Unoccupied(occs, b.id, dates),
      (b: Bed) => b.roomId == roomId);
    |FindAvailableBedsInRoom(beds, occs, roomId, dates)|
  }

  // ------------------------------------------------------- bed status updates

  /** `bed.setBedStatus(status); bedRepository.save(bed)`: the row with that id gets the status. */
  function MarkBed(beds: seq<Bed>, bedId: nat, status: BedStatus): (r: seq<Bed>)
    ensures Hostel.BedStatusOnly(beds, r)
    ensures forall j :: 0 <= j < |beds| ==>
      r[j] == if Hostel.BedById(beds, bedId) == Ok(j) then beds[j].(status := Some(status)) else beds[j]
  {
    match Hostel.BedById(beds, bedId)
    case Ok(j) => Hostel.WithBedStatus(beds, j, status)
    case Err(_) => beds
  }

  /** The bed of every entry of `list`, in turn, given `status`. */
  function MarkBeds(beds: seq<Bed>, list: seq<BedOccupation>, status: BedStatus): (r: seq<Bed>)
    ensures Hostel.BedStatusOnly(beds, r)
    ensures forall j :: 0 <= j < |beds| && r[j] != beds[j] ==> r[j].status == Some(status)
    ensures forall o :: o in list && Hostel.BedById(beds, o.bedId).Ok? ==>
      r[Hostel.BedById(beds, o.bedId).value].status == Some(status)
    decreases |list|
  {
    if list == [] then beds
    else
      var m := |list| - 1;
      var b := MarkBeds(beds, list[..m], status);
      Hostel.BedByIdKeptByStatus(beds, b, list[m].bedId);
      assert forall o :: o in list ==> o in list[..m] || o == list[m];
      MarkBed(b, list[m].bedId, status)
  }

  lemma MarkBedsSnoc(beds: seq<Bed>, list: seq<BedOccupation>, o: BedOccupation, status: BedStatus)
    ensures MarkBeds(beds, list + [o], status) == MarkBed(MarkBeds(beds, list, status), o.bedId, status)
  {
    assert (list + [o])[..|list|] == list;
  }

  lemma MarkBedsStep(beds: seq<Bed>, list: seq<BedOccupation>, n: nat, status: BedStatus)
    requires n < |list|
    ensures MarkBeds(beds, list[..n + 1], status) == MarkBed(MarkBeds(beds, list[..n], status), list[n].bedId, status)
  {
    assert list[..n + 1][..n] == list[..n];
  }

  // --------------------------------------------------------------- creation

  /**
   * `createBedOccupation`: a new entry holding `days` for the bed and the
   * reservation, and the bed's row OCCUPIED.
   */
  method CreateBedOccupation(db: Hostel.Database, bed: Bed, reserveId: nat, days: set<int>) returns (o: BedOccupation)
    modifies db`beds, db`bedOccupations, db`nextId
    ensures o == BedOccupation(old(db.nextId), bed.id, reserveId, days)
    ensures db.bedOccupations == old(db.bedOccupations) + [o]
    ensures db.beds == MarkBed(old(db.beds), bed.id, BedOccupied)
    ensures db.nextId == old(db.nextId) + 1
  {
    o := BedOccupation(db.nextId, bed.id, reserveId, days);
    db.beds := MarkBed(db.beds, bed.id, BedOccupied);
    db.bedOccupations := db.bedOccupations + [o];
    db.nextId := db.nextId + 1;
  }

  /** The tables `allocateBedsForRoom` changes. */
  datatype BedLedger = BedLedger(beds: seq<Bed>, occs: seq<BedOccupation>, nextId: nat)

  /** One candidate of `allocateBedsForRoom`: an entry for it when none of its entries shares a day with `days`. */
  function AllocateBed(l: BedLedger, b: Bed, reserveId: nat, days: set<int>): BedLedger
  {
    if BedOccupationRepository.IsBedAvailableForDates(l.occs, b.id, days) then
      BedLedger(MarkBed(l.beds, b.id, BedOccupied), l.occs + [BedOccupation(l.nextId, b.id, reserveId, days)], l.nextId + 1)
    else l
  }

  /**
   * The candidates in turn. The old entries stay in front, and every new one
   * has the next identity value, one of the candidate beds, the reservation
   * and exactly `days`; changed beds are OCCUPIED.
   */
  function AllocateBeds(l: BedLedger, candidates: seq<Bed>, reserveId: nat, days: set<int>): (r: BedLedger)
    ensures Hostel.BedStatusOnly(l.beds, r.beds)
    ensures forall j :: 0 <= j < |l.beds| && r.beds[j] != l.beds[j] ==> r.beds[j].status == Some(BedOccupied)
    ensures |l.occs| <= |r.occs| && r.occs[..|l.occs|] == l.occs
    ensures r.nextId == l.nextId + (|r.occs| - |l.occs|)
    ensures forall i :: |l.occs| <= i < |r.occs| ==>
      r.occs[i].id == l.nextId + (i - |l.occs|) && r.occs[i].reserveId == reserveId && r.occs[i].days == days
    ensures forall i :: |l.occs| <= i < |r.occs| ==> exists b :: b in candidates && b.id == r.occs[i].bedId
    decreases |candidates|
  {
    if candidates == [] then l
    else
      var m := |candidates| - 1;
      var p := AllocateBeds(l, candidates[..m], reserveId, days);
      assert forall b :: b in candidates[..m] ==> b in candidates;
      AllocateBed(p, candidates[m], reserveId, days)
  }

  /**
   * Every candidate gets an entry: not one bed per room but each available
   * bed, provided the candidates were free on `days` to begin with.
   */
  /** Some entry past the first `from` rows is for bed `bedId`. */
  predicate HasNewEntry(occs: seq<BedOccupation>, from: nat, bedId: nat)
  {
    exists i :: from <= i < |occs| && occs[i].bedId == bedId
  }

  lemma AllocateBedsSnoc(l: BedLedger, candidates: seq<Bed>, reserveId: nat, days: set<int>)
    requires candidates != []
    ensures AllocateBeds(l, candidates, reserveId, days) ==
      AllocateBed(AllocateBeds(l, candidates[..|candidates| - 1], reserveId, days), candidates[|candidates| - 1], reserveId, days)
  {
  }

  /** One step keeps every new entry, and gives bed `c` one when it was free on `days` before the first of them. */
  lemma AllocateBedCovers(p: BedLedger, from: nat, c: Bed, reserveId: nat, days: set<int>)
    requires from <= |p.occs| && BedRepository.Unoccupied(p.occs[..from], c.id, days)
    ensures var r := AllocateBed(p, c, reserveId, days);
      HasNewEntry(r.occs, from, c.id) &&
      forall id :: HasNewEntry(p.occs, from, id) ==> HasNewEntry(r.occs, from, id)
  {
    var r := AllocateBed(p, c, reserveId, days);
    assert forall i :: 0 <= i < |p.occs| ==> r.occs[i] == p.occs[i];
    if BedOccupationRepository.IsBedAvailableForDates(p.occs, c.id, days) {
      assert r.occs[|p.occs|].bedId == c.id;
    } else {
      var i :| 0 <= i < |p.occs| && p.occs[i].bedId == c.id && p.occs[i].days * days != {};
      assert i >= from;
      assert r.occs[i].bedId == c.id;
    }
    forall id | HasNewEntry(p.occs, from, id) ensures HasNewEntry(r.occs, from, id) {
      var i :| from <= i < |p.occs| && p.occs[i].bedId == id;
      assert r.occs[i] == p.occs[i];
    }
  }

  lemma {:induction false} AllocateBedsCoverCandidates(l: BedLedger, candidates: seq<Bed>, reserveId: nat, days: set<int>)
    requires forall b :: b in candidates ==> BedRepository.Unoccupied(l.occs, b.id, days)
    ensures forall b :: b in candidates ==> HasNewEntry(AllocateBeds(l, candidates, reserveId, days).occs, |l.occs|, b.id)
    decreases |candidates|
  {
    if candidates != [] {
      var m := |candidates| - 1;
      var c := candidates[m];
      var p := AllocateBeds(l, candidates[..m], reserveId, days);
      assert forall b :: b in candidates[..m] ==> b in candidates;
      AllocateBedsCoverCandidates(l, candidates[..m], reserveId, days);
      AllocateBedsSnoc(l, candidates, reserveId, days);
      var r := AllocateBed(p, c, reserveId, days);
      assert p.occs[..|l.occs|] == l.occs;
      assert c in candidates;
      AllocateBedCovers(p, |l.occs|, c, reserveId, days);
      forall b | b in candidates ensures HasNewEntry(r.occs, |l.occs|, b.id) {
        Seqs.InitOrLast(candidates, b);
      }
    }
  }

  /** Allocation keeps the bed ledger free of double bookings. */
  lemma {:induction false} AllocateBedsKeepDisjoint(l: BedLedger, candidates: seq<Bed>, reserveId: nat, days: set<int>)
    requires Allocation.BedLedgerDisjoint(l.occs)
    ensures Allocation.BedLedgerDisjoint(AllocateBeds(l, candidates, reserveId, days).occs)
    decreases |candidates|
  {
    if candidates != [] {
      var m := |candidates| - 1;
      var p := AllocateBeds(l, candidates[..m], reserveId, days);
      AllocateBedsKeepDisjoint(l, candidates[..m], reserveId, days);
      var o := BedOccupation(p.nextId, candidates[m].id, reserveId, days);
      if BedOccupationRepository.IsBedAvailableForDates(p.occs, o.bedId, days) {
        Allocation.AppendBedEntry(p.occs, o);
      }
    }
  }

  /**
   * `allocateBedsForRoom`: the AVAILABLE beds of the room free on the
   * reserved days, computed once, then each one still free when its turn
   * comes gets an entry.
   */
  method AllocateBedsForRoom(db: Hostel.Database, roomId: nat, reserve: Reserve)
    modifies db`beds, db`bedOccupations, db`nextId
    ensures BedLedger(db.beds, db.bedOccupations, db.nextId) == AllocateBeds(
      old(BedLedger(db.beds, db.bedOccupations, db.nextId)),
      FindAvailableBedsInRoom(old(db.beds), old(db.bedOccupations), roomId, reserve.reservedDays),
      reserve.id, reserve.reservedDays)
  {
    var days := reserve.reservedDays;
    var candidates := FindAvailableBedsInRoom(db.beds, db.bedOccupations, roomId, days);
    ghost var l0 := BedLedger(db.beds, db.bedOccupations, db.nextId);
    for n := 0 to |candidates|
      invariant BedLedger(db.beds, db.bedOccupations, db.nextId) == AllocateBeds(l0, candidates[..n], reserve.id, days)
    {
      var bed := candidates[n];
      assert candidates[..n + 1][..n] == candidates[..n];
      if BedOccupationRepository.IsBedAvailableForDates(db.bedOccupations, bed.id, days) {
        var _ := CreateBedOccupation(db, bed, reserve.id, days);
      }
    }
    assert candidates[..|candidates|] == candidates;
  }

  // ---------------------------------------------------------------- removal

  lemma FilterOutStep(s: seq<BedOccupation>, l: seq<BedOccupation>, n: nat)
    requires n < |l|
    ensures Seqs.Filter(Seqs.Filter(s, (x: BedOccupation) => x !in l[..n]), (x: BedOccupation) => x != l[n])
         == Seqs.Filter(s, (x: BedOccupation) => x !in l[..n + 1])
  {
    assert l[..n + 1] == l[..n] + [l[n]];
    Seqs.FilterTwice(s, (x: BedOccupation) => x !in l[..n], (x: BedOccupation) => x != l[n], (x: BedOccupation) => x !in l[..n + 1]);
  }

  /**
   * `removeExistingBedOccupations`: every entry of the reservation is
   * deleted, and its bed made AVAILABLE; the other entries stay in order.
   */
  method RemoveExistingBedOccupations(db: Hostel.Database, reserveId: nat)
    modifies db`beds, db`bedOccupations
    ensures db.bedOccupations == Seqs.Filter(old(db.bedOccupations), (o: BedOccupation) => o.reserveId != reserveId)
    ensures db.beds == MarkBeds(old(db.beds), BedOccupationRepository.FindByReserve(old(db.bedOccupations), reserveId), AVAILABLE)
  {
    var existing := BedOccupationRepository.FindByReserve(db.bedOccupations, reserveId);
    var occs, beds := db.bedOccupations, db.beds;
    ghost var occs0, beds0 := occs, beds;
    Seqs.FilterKeepsAll(occs0, (x: BedOccupation) => x !in existing[..0]);
    for n := 0 to |existing|
      invariant occs == Seqs.Filter(occs0, (x: BedOccupation) => x !in existing[..n])
      invariant beds == MarkBeds(beds0, existing[..n], AVAILABLE)
    {
      var o := existing[n];
      MarkBedsStep(beds0, existing, n, AVAILABLE);
      beds := MarkBed(beds, o.bedId, AVAILABLE);
      FilterOutStep(occs0, existing, n);
      occs := Seqs.Filter(occs, (x: BedOccupation) => x != o);
    }
    assert existing[..|existing|] == existing;
    Seqs.FilterCongruent(occs0, (x: BedOccupation) => x !in existing, (o: BedOccupation) => o.reserveId != reserveId);
    db.bedOccupations, db.beds := occs, beds;
  }

  // ------------------------------------------------------------------ update

  /** The tables after `removeExistingBedOccupations`. */
  function Cleared(l: BedLedger, reserveId: nat): (r: BedLedger)
    ensures forall o :: o in r.occs ==> o.reserveId != reserveId
    ensures forall o :: o in r.occs <==> o in l.occs && o.reserveId != reserveId
  {
    BedLedger(MarkBeds(l.beds, BedOccupationRepository.FindByReserve(l.occs, reserveId), AVAILABLE),
              Seqs.Filter(l.occs, (o: BedOccupation) => o.reserveId != reserveId),
              l.nextId)
  }

  /**
   * The rooms in turn, each with the AVAILABLE beds free on `days` at its
   * turn. Old entries stay in front; every new one belongs to the
   * reservation and holds exactly `days`.
   */
  function AllocateRooms(l: BedLedger, roomIds: seq<nat>, reserveId: nat, days: set<int>): (r: BedLedger)
    ensures Hostel.BedStatusOnly(l.beds, r.beds)
    ensures |l.occs| <= |r.occs| && r.occs[..|l.occs|] == l.occs
    ensures forall i :: |l.occs| <= i < |r.occs| ==> r.occs[i].reserveId == reserveId && r.occs[i].days == days
    decreases |roomIds|
  {
    if roomIds == [] then l
    else
      var m := |roomIds| - 1;
      var p := AllocateRooms(l, roomIds[..m], reserveId, days);
      var r := AllocateBeds(p, FindAvailableBedsInRoom(p.beds, p.occs, roomIds[m], days), reserveId, days);
      assert r.occs[..|l.occs|] == l.occs by {
        assert r.occs[..|l.occs|] == r.occs[..|p.occs|][..|l.occs|];
      }
      assert forall i :: |l.occs| <= i < |p.occs| ==> r.occs[i] == p.occs[i] by {
        assert r.occs[..|p.occs|] == p.occs;
      }
      r
  }

  /**
   * After `updateBedOccupations` the reservation's entries are exactly the
   * new ones: each holds the reserved days, and no bed is double-booked when
   * none was before.
   */
  lemma {:induction false} UpdateRebuildsReservation(l: BedLedger, roomIds: seq<nat>, reserveId: nat, days: set<int>)
    requires Allocation.BedLedgerDisjoint(l.occs)
    ensures var r := AllocateRooms(Cleared(l, reserveId), roomIds, reserveId, days);
      Allocation.BedLedgerDisjoint(r.occs) &&
      forall o :: o in r.occs && o.reserveId == reserveId ==> o.days == days
    decreases |roomIds|
  {
    var c := Cleared(l, reserveId);
    Allocation.RemovingBedEntries(l.occs, c.occs);
    AllocateRoomsKeepDisjoint(c, roomIds, reserveId, days);
    var r := AllocateRooms(c, roomIds, reserveId, days);
    forall o | o in r.occs && o.reserveId == reserveId ensures o.days == days {
      var i :| 0 <= i < |r.occs| && r.occs[i] == o;
    }
  }

  lemma {:induction false} AllocateRoomsKeepDisjoint(l: BedLedger, roomIds: seq<nat>, reserveId: nat, days: set<int>)
    requires Allocation.BedLedgerDisjoint(l.occs)
    ensures Allocation.BedLedgerDisjoint(AllocateRooms(l, roomIds, reserveId, days).occs)
    decreases |roomIds|
  {
    if roomIds != [] {
      var m := |roomIds| - 1;
      var p := AllocateRooms(l, roomIds[..m], reserveId, days);
      AllocateRoomsKeepDisjoint(l, roomIds[..m], reserveId, days);
      AllocateBedsKeepDisjoint(p, FindAvailableBedsInRoom(p.beds, p.occs, roomIds[m], days), reserveId, days);
    }
  }

  /** `updateBedOccupations`: the reservation's entries removed, then its rooms allocated in order. */
  method UpdateBedOccupations(db: Hostel.Database, reserve: Reserve)
    modifies db`beds, db`bedOccupations, db`nextId
    ensures BedLedger(db.beds, db.bedOccupations, db.nextId) ==
      AllocateRooms(Cleared(old(BedLedger(db.beds, db.bedOccupations, db.nextId)), reserve.id),
                    reserve.rooms, reserve.id, reserve.reservedDays)
  {
    ghost var l0 := BedLedger(db.beds, db.bedOccupations, db.nextId);
    RemoveExistingBedOccupations(db, reserve.id);
    ghost var l1 := BedLedger(db.beds, db.bedOccupations, db.nextId);
    assert l1 == Cleared(l0, reserve.id);
    for n := 0 to |reserve.rooms|
      invariant BedLedger(db.beds, db.bedOccupations, db.nextId) == AllocateRooms(l1, reserve.rooms[..n], reserve.id, reserve.reservedDays)
    {
      assert reserve.rooms[..n + 1][..n] == reserve.rooms[..n];
      AllocateBedsForRoom(db, reserve.rooms[n], reserve);
    }
    assert reserve.rooms[..|reserve.rooms|] == reserve.rooms;
  }

  // ------------------------------------------------------------ availability

  /** One row of `getBedAvailabilityByRoomAndDates`. */
  datatype BedAvailabilityInfo = BedAvailabilityInfo(roomNumber: Option<int>, totalBeds: nat, availableBeds: nat, dates: set<int>)

  /**
   * `getBedAvailabilityByRoomAndDates`: one row per room, in table order,
   * with its beds and its AVAILABLE beds free on `dates`; never more
   * available beds than beds.
   */
  method BedAvailabilityByRoomAndDates(db: Hostel.Database, dates: set<int>) returns (infos: seq<BedAvailabilityInfo>)
    ensures |infos| == |db.rooms|
    ensures forall i :: 0 <= i < |infos| ==>
      infos[i].roomNumber == db.rooms[i].number && infos[i].dates == dates &&
      infos[i].totalBeds == |BedRepository.FindByRoom(db.beds, db.rooms[i].id)| &&
      infos[i].availableBeds == |FindAvailableBedsInRoom(db.beds, db.bedOccupations, db.rooms[i].id, dates)|
    ensures forall i :: 0 <= i < |infos| ==> infos[i].availableBeds <= infos[i].totalBeds
  {
    infos := [];
    for n := 0 to |db.rooms|
      invariant |infos| == n
      invariant forall i :: 0 <= i < n ==>
        infos[i].roomNumber == db.rooms[i].number && infos[i].dates == dates &&
        infos[i].totalBeds == |BedRepository.FindByRoom(db.beds, db.rooms[i].id)| &&
        infos[i].availableBeds == |FindAvailableBedsInRoom(db.beds, db.bedOccupations, db.rooms[i].id, dates)|
      invariant forall i :: 0 <= i < n ==> infos[i].availableBeds <= infos[i].totalBeds
    {
      var room := db.rooms[n];
      var total := |BedRepository.FindByRoom(db.beds, room.id)|;
      var available := CountAvailableBedsInRoom(db.beds, db.bedOccupations, room.id, dates);
      infos := infos + [BedAvailabilityInfo(room.number, total, available, dates)];
    }
  }

  // ---------------------------------------------------------------- release

  /**
   * The entries after checkout day `d` is released, in table order: an entry
   * without `d` stays as it is, one whose only day was `d` is gone, any other
   * loses `d`.
   */
  function ReleaseDay(occs: seq<BedOccupation>, d: int): (r: seq<BedOccupation>)
    ensures |r| <= |occs|
    ensures forall o :: o in occs && o.days != {d} ==> o.(days := o.days - {d}) in r
    ensures forall x :: x in r ==> exists o :: o in occs && o.days != {d} && x == o.(days := o.days - {d})
    decreases |occs|
  {
    if occs == [] then []
    else
      var m := |occs| - 1;
      var o := occs[m];
      var kept := ReleaseDay(occs[..m], d);
      assert forall x :: x in occs ==> x in occs[..m] || x == o;
      if d !in o.days then
        assert o == o.(days := o.days - {d});
        kept + [o]
      else if o.days - {d} == {} then
        kept
      else
        kept + [o.(days := o.days - {d})]
  }

  /** No released day is still held, and releasing never creates a double booking. */
  lemma ReleaseKeepsLedger(occs: seq<BedOccupation>, d: int)
    ensures forall x :: x in ReleaseDay(occs, d) ==> d !in x.days
    ensures Allocation.BedLedgerDisjoint(occs) ==> Allocation.BedLedgerDisjoint(ReleaseDay(occs, d))
  {
    var r := ReleaseDay(occs, d);
    if Allocation.BedLedgerDisjoint(occs) {
      forall x, y | x in r && y in r && x != y && x.bedId == y.bedId ensures x.days * y.days == {} {
        var a :| a in occs && a.days != {d} && x == a.(days := a.days - {d});
        var b :| b in occs && b.days != {d} && y == b.(days := b.days - {d});
        assert a.days * b.days == {};
      }
    }
  }

  lemma FindByDateSnoc(occs: seq<BedOccupation>, n: nat, d: int)
    requires n < |occs|
    ensures BedOccupationRepository.FindByDate(occs[..n + 1], d) ==
      BedOccupationRepository.FindByDate(occs[..n], d) + if d in occs[n].days then [occs[n]] else []
  {
    var o := occs[n];
    var p := (x: BedOccupation) => d in x.days;
    assert occs[..n + 1] == occs[..n] + [o];
    Seqs.FilterAppend(occs[..n], [o], p);
    assert [o][1..] == [];
    assert Seqs.Filter([o], p) == if d in o.days then [o] else [];
  }

  lemma ReleaseBedsStep(beds: seq<Bed>, occs: seq<BedOccupation>, n: nat, d: int)
    requires n < |occs|
    ensures var o, marked := occs[n], MarkBeds(beds, BedOccupationRepository.FindByDate(occs[..n], d), AVAILABLE);
      MarkBeds(beds, BedOccupationRepository.FindByDate(occs[..n + 1], d), AVAILABLE)
        == if d in o.days then MarkBed(marked, o.bedId, AVAILABLE) else marked
  {
    var l := BedOccupationRepository.FindByDate(occs[..n], d);
    FindByDateSnoc(occs, n, d);
    if d in occs[n].days {
      MarkBedsSnoc(beds, l, occs[n], AVAILABLE);
    } else {
      assert l + [] == l;
    }
  }

  lemma ReleaseDayStep(occs: seq<BedOccupation>, n: nat, d: int)
    requires n < |occs|
    ensures var o, kept := occs[n], ReleaseDay(occs[..n], d);
      ReleaseDay(occs[..n + 1], d) ==
        if d !in o.days then kept + [o]
        else if o.days - {d} == {} then kept
        else kept + [o.(days := o.days - {d})]
  {
    assert occs[..n + 1][..n] == occs[..n];
  }

  /**
   * `releaseBedsByCheckout`: each entry holding `d` loses it, and is deleted
   * when nothing is left; the bed of each such entry becomes AVAILABLE.
   */
  method ReleaseBedsByCheckout(db: Hostel.Database, d: int)
    modifies db`beds, db`bedOccupations
    ensures db.bedOccupations == ReleaseDay(old(db.bedOccupations), d)
    ensures db.beds == MarkBeds(old(db.beds), BedOccupationRepository.FindByDate(old(db.bedOccupations), d), AVAILABLE)
  {
    var occs, beds := db.bedOccupations, db.beds;
    ghost var beds0 := beds;
    var kept: seq<BedOccupation> := [];
    for n := 0 to |occs|
      invariant kept == ReleaseDay(occs[..n], d)
      invariant beds == MarkBeds(beds0, BedOccupationRepository.FindByDate(occs[..n], d), AVAILABLE)
    {
      var o := occs[n];
      ReleaseBedsStep(beds0, occs, n, d);
      ReleaseDayStep(occs, n, d);
      if d in o.days {
        beds := MarkBed(beds, o.bedId, AVAILABLE);
        var released := o.(days := o.days - {d});
        if released.days != {} {
          kept := kept + [released];
        }
      } else {
        kept := kept + [o];
      }
    }
    assert occs[..|occs|] == occs;
    db.bedOccupations, db.beds := kept, beds;
  }
}
