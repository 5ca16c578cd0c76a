/**
 * The financial record of one day, month or year, its per-room-type
 * buckets, and the queries over the stored records. Money is in cents; the
 * occupancy rate is in hundredths of a percent; timestamps are opaque.
 */
module FinancialRecords {
  import opened Wrappers
  import opened Enums
  import Seqs
  import Calendar
  import Identity

  /** A stored per-room-type bucket (`@Embeddable RoomTypeRevenue`). */
  datatype BucketRow = BucketRow(roomType: Option<RoomType>, reservationsCount: int, nightsCount: int, revenue: int)

  /** A stored financial record. */
  datatype RecordRow = RecordRow(
    id: nat,
    recordDate: int,
    periodType: PeriodType,
    totalRevenue: int,
    averageDailyRate: int,
    occupancyRate: int,
    totalReservations: int,
    totalGuests: int,
    totalNights: int,
    revPAR: int,
    buckets: seq<BucketRow>,
    createdAt: nat,
    updatedAt: Option<nat>)

  /**
   * The per-room-type accumulator. The record keeps its buckets as stored
   * values (an embeddable has no identity of its own); a bucket being
   * updated is loaded into one of these, changed, and written back.
   */
  class RoomTypeRevenue {
    var roomType: Option<RoomType>
    var reservationsCount: int
    var nightsCount: int
    var revenue: int

    /** `new RoomTypeRevenue(roomType)`: the counters and the revenue start at zero. */
    constructor(roomType: Option<RoomType>)
      ensures this.roomType == roomType
      ensures reservationsCount == 0 && nightsCount == 0 && revenue == 0
    {
      this.roomType := roomType;
      reservationsCount, nightsCount, revenue := 0, 0, 0;
    }

    /** The bucket as it is read back from its stored row. */
    constructor FromRow(row: BucketRow)
      ensures Row() == row
    {
      roomType := row.roomType;
      reservationsCount, nightsCount, revenue := row.reservationsCount, row.nightsCount, row.revenue;
    }

    /** The stored form of the bucket. */
    function Row(): BucketRow
      reads this
    {
      BucketRow(roomType, reservationsCount, nightsCount, revenue)
    }

    /** `incrementReservations`: one more reservation, nothing else changes. */
    method IncrementReservations()
      modifies this
      ensures Row() == old(Row()).(reservationsCount := old(reservationsCount) + 1)
    {
      reservationsCount := reservationsCount + 1;
    }

    /** `addNights`: `nights` more nights, nothing else changes. */
    method AddNights(nights: int)
      modifies this
      ensures Row() == old(Row()).(nightsCount := old(nightsCount) + nights)
    {
      nightsCount := nightsCount + nights;
    }

    /** `addRevenue`: the revenue grows by `amount`; the counters are unchanged. */
    method AddRevenue(amount: int)
      modifies this
      ensures Row() == old(Row()).(revenue := old(revenue) + amount)
    {
      revenue := revenue + amount;
    }
  }

  /** At most one bucket per room type. */
  predicate TypesDistinct(rows: seq<BucketRow>)
  {
    forall i, j :: 0 <= i < j < |rows| ==> rows[i].roomType != rows[j].roomType
  }

  /** The index of the bucket of room type `t`, if there is one. */
  function BucketIndex(rows: seq<BucketRow>, t: Option<RoomType>): (r: Option<nat>)
    ensures r.Some? ==> r.value < |rows| && rows[r.value].roomType == t
    ensures r.None? <==> forall i :: 0 <= i < |rows| ==> rows[i].roomType != t
  {
    Seqs.FirstIndex(rows, (b: BucketRow) => b.roomType == t)
  }

  /**
   * The buckets after `addRoomTypeRevenue(record, t, revenue, nights,
   * reservations)`: the bucket of type `t` (a new one, appended, when there
   * is none) gains the revenue, the nights and the reservations.
   */
  function AddToBuckets(rows: seq<BucketRow>, t: Option<RoomType>, revenue: int, nights: int, reservations: nat)
    : (r: seq<BucketRow>)
    ensures BucketIndex(rows, t).None? ==> r == rows + [BucketRow(t, reservations, nights, revenue)]
    ensures BucketIndex(rows, t).Some? ==> |r| == |rows|
    ensures forall i :: 0 <= i < |rows| && rows[i].roomType != t ==> r[i] == rows[i]
  {
    match BucketIndex(rows, t)
    case None => rows + [BucketRow(t, reservations, nights, revenue)]
    case Some(i) =>
      rows[i := BucketRow(t, rows[i].reservationsCount + reservations, rows[i].nightsCount + nights,
                          rows[i].revenue + revenue)]
  }

  function SumRevenue(rows: seq<BucketRow>): int
  {
    if rows == [] then 0 else rows[0].revenue + SumRevenue(rows[1..])
  }

  function SumNights(rows: seq<BucketRow>): int
  {
    if rows == [] then 0 else rows[0].nightsCount + SumNights(rows[1..])
  }

  function SumReservations(rows: seq<BucketRow>): int
  {
    if rows == [] then 0 else rows[0].reservationsCount + SumReservations(rows[1..])
  }

  lemma {:induction false} SumsOfAppend(rows: seq<BucketRow>, b: BucketRow)
    ensures SumRevenue(rows + [b]) == SumRevenue(rows) + b.revenue
    ensures SumNights(rows + [b]) == SumNights(rows) + b.nightsCount
    ensures SumReservations(rows + [b]) == SumReservations(rows) + b.reservationsCount
  {
    if rows != [] {
      assert (rows + [b])[1..] == rows[1..] + [b];
      SumsOfAppend(rows[1..], b);
    }
  }

  lemma {:induction false} SumsOfUpdate(rows: seq<BucketRow>, i: nat, b: BucketRow)
    requires i < |rows|
    ensures SumRevenue(rows[i := b]) == SumRevenue(rows) - rows[i].revenue + b.revenue
    ensures SumNights(rows[i := b]) == SumNights(rows) - rows[i].nightsCount + b.nightsCount
    ensures SumReservations(rows[i := b]) == SumReservations(rows) - rows[i].reservationsCount + b.reservationsCount
  {
    if i > 0 {
      assert rows[i := b][1..] == rows[1..][i - 1 := b];
      SumsOfUpdate(rows[1..], i - 1, b);
    } else {
      assert rows[i := b][1..] == rows[1..];
    }
  }

  /**
   * Adding to the buckets keeps at most one bucket per room type, leaves
   * exactly one bucket of type `t`, and adds exactly the revenue, the nights
   * and the reservations to the bucket totals.
   */
  lemma {:induction false} AddToBucketsKeepsOnePerType(rows: seq<BucketRow>, t: Option<RoomType>, revenue: int,
                                                      nights: int, reservations: nat)
    requires TypesDistinct(rows)
    ensures var r := AddToBuckets(rows, t, revenue, nights, reservations);
            TypesDistinct(r) && BucketIndex(r, t).Some?
            && SumRevenue(r) == SumRevenue(rows) + revenue
            && SumNights(r) == SumNights(rows) + nights
            && SumReservations(r) == SumReservations(rows) + reservations
  {
    var r := AddToBuckets(rows, t, revenue, nights, reservations);
    match BucketIndex(rows, t)
    case None =>
      SumsOfAppend(rows, BucketRow(t, reservations, nights, revenue));
      assert r[|rows|].roomType == t;
    case Some(i) =>
      SumsOfUpdate(rows, i, r[i]);
      assert r[i].roomType == t;
  }

  /** A financial entity as the service holds it in memory. */
  class FinancialRecord {
    var id: Option<nat>
    var recordDate: int
    var periodType: PeriodType
    var totalRevenue: int
    var averageDailyRate: int
    var occupancyRate: int
    var totalReservations: int
    var totalGuests: int
    var totalNights: int
    var revPAR: int
    var roomTypeRevenues: seq<BucketRow>
    var createdAt: nat
    var updatedAt: Option<nat>

    /** `new FinancialRecord(recordDate, periodType)` at time `now`: every total is zero. */
    constructor(recordDate: int, periodType: PeriodType, now: nat)
      ensures id.None? && this.recordDate == recordDate && this.periodType == periodType
      ensures totalRevenue == 0 && totalReservations == 0 && totalGuests == 0 && totalNights == 0
      ensures averageDailyRate == 0 && occupancyRate == 0 && revPAR == 0
      ensures roomTypeRevenues == [] && createdAt == now && updatedAt.None?
    {
      id := None;
      this.recordDate, this.periodType := recordDate, periodType;
      totalRevenue, averageDailyRate, occupancyRate, revPAR := 0, 0, 0, 0;
      totalReservations, totalGuests, totalNights := 0, 0, 0;
      roomTypeRevenues := [];
      createdAt, updatedAt := now, None;
    }

    /** The entity as it is read back from its stored row. */
    constructor FromRow(row: RecordRow)
      ensures Snapshot() == row && id == Some(row.id)
    {
      id := Some(row.id);
      recordDate, periodType := row.recordDate, row.periodType;
      totalRevenue, averageDailyRate, occupancyRate, revPAR := row.totalRevenue, row.averageDailyRate, row.occupancyRate, row.revPAR;
      totalReservations, totalGuests, totalNights := row.totalReservations, row.totalGuests, row.totalNights;
      roomTypeRevenues := row.buckets;
      createdAt, updatedAt := row.createdAt, row.updatedAt;
    }

    /** The row `financialRecordRepo.save` writes (an unsaved entity gets id 0 here; see `Hostel`). */
    function Snapshot(): RecordRow
      reads this
    {
      RecordRow(if id.Some? then id.value else 0, recordDate, periodType, totalRevenue, averageDailyRate,
                occupancyRate, totalReservations, totalGuests, totalNights, revPAR, roomTypeRevenues,
                createdAt, updatedAt)
    }

    /** The buckets have distinct room types. */
    predicate Valid()
      reads this`roomTypeRevenues
    {
      TypesDistinct(roomTypeRevenues)
    }

    /** `addRevenue`: the revenue total grows by `amount`, and the record is stamped. */
    method AddRevenue(amount: int, now: nat)
      modifies this`totalRevenue, this`updatedAt
      ensures totalRevenue == old(totalRevenue) + amount
      ensures updatedAt == Some(now)
    {
      totalRevenue := totalRevenue + amount;
      updatedAt := Some(now);
    }

    /** `incrementReservations`: one more reservation. */
    method IncrementReservations(now: nat)
      modifies this`totalReservations, this`updatedAt
      ensures totalReservations == old(totalReservations) + 1
      ensures updatedAt == Some(now)
    {
      totalReservations := totalReservations + 1;
      updatedAt := Some(now);
    }

    /** `addGuests`: `guests` more guests. */
    method AddGuests(guests: int, now: nat)
      modifies this`totalGuests, this`updatedAt
      ensures totalGuests == old(totalGuests) + guests
      ensures updatedAt == Some(now)
    {
      totalGuests := totalGuests + guests;
      updatedAt := Some(now);
    }

    /** `addNights`: `nights` more nights. */
    method AddNights(nights: int, now: nat)
      modifies this`totalNights, this`updatedAt
      ensures totalNights == old(totalNights) + nights
      ensures updatedAt == Some(now)
    {
      totalNights := totalNights + nights;
      updatedAt := Some(now);
    }
  }

  /** `FinancialRecord.equals`: by id, two unsaved records being equal; consistent with `hashCode`. */
  function RecordEquals(a: FinancialRecord, b: FinancialRecord): (r: bool)
    reads a, b
    ensures r <==> a.id == b.id
    ensures a.id.None? && b.id.None? ==> r
    ensures r && (a.id.None? || Identity.IsLong(a.id.value)) ==>
      Identity.HashCode(if a.id.Some? then Some(a.id.value as int) else None)
      == Identity.HashCode(if b.id.Some? then Some(b.id.value as int) else None)
  {
    Identity.IdEquals(if a.id.Some? then Some(a.id.value as int) else None,
                      if b.id.Some? then Some(b.id.value as int) else None)
  }
}

/** `FinancialRecordRepository`: queries over the stored records. */
module FinancialRecordRepository {
  import opened Wrappers
  import opened Enums
  import opened FinancialRecords
  import Seqs
  import Calendar

  /** `findByRecordDateAndPeriodType`: at most one record; two matches are a runtime failure. */
  function FindByRecordDateAndPeriodType(rows: seq<RecordRow>, date: int, p: PeriodType): (r: Result<Option<nat>>)
    ensures r.Ok? && r.value.Some? ==>
      r.value.value < |rows| && rows[r.value.value].recordDate == date && rows[r.value.value].periodType == p
    ensures r == Ok(None) <==> forall i :: 0 <= i < |rows| ==> !(rows[i].recordDate == date && rows[i].periodType == p)
    ensures r.Err? ==> r.error == Runtime
  {
    Seqs.SingleResult(rows, (x: RecordRow) => x.recordDate == date && x.periodType == p)
  }

  /** `findByPeriodTypeAndRecordDateBetween`: the closed interval [start, end]. */
  function FindByPeriodTypeAndRecordDateBetween(rows: seq<RecordRow>, p: PeriodType, start: int, end: int)
    : (r: seq<RecordRow>)
    ensures forall x :: x in r <==> x in rows && x.periodType == p && start <= x.recordDate <= end
  {
    Seqs.Filter(rows, (x: RecordRow) => x.periodType == p && start <= x.recordDate && x.recordDate <= end)
  }

  /** `findByPeriodTypeAndYearAndMonth`. */
  function FindByPeriodTypeAndYearAndMonth(rows: seq<RecordRow>, p: PeriodType, year: int, month: int)
    : (r: seq<RecordRow>)
    ensures forall x :: x in r <==>
      x in rows && x.periodType == p && Calendar.Year(x.recordDate) == year && Calendar.MonthValue(x.recordDate) == month
  {
    Seqs.Filter(rows, (x: RecordRow) =>
      x.periodType == p && Calendar.Year(x.recordDate) == year && Calendar.MonthValue(x.recordDate) == month)
  }

  /** `a` may come before `b` in the requested order. */
  predicate Before(a: RecordRow, b: RecordRow, descending: bool)
  {
    if descending then a.recordDate >= b.recordDate else a.recordDate <= b.recordDate
  }

  /** Rows in order of record date, ascending or descending. */
  predicate SortedByDate(rows: seq<RecordRow>, descending: bool)
  {
    forall i, j :: 0 <= i < j < |rows| ==> Before(rows[i], rows[j], descending)
  }

  function InsertByDate(x: RecordRow, rows: seq<RecordRow>, descending: bool): (r: seq<RecordRow>)
    requires SortedByDate(rows, descending)
    ensures SortedByDate(r, descending)
    ensures multiset(r) == multiset(rows) + multiset{x}
  {
    if rows == [] then [x]
    else if Before(x, rows[0], descending) then
      FirstBeforeSorted(x, rows, descending);
      [x] + rows
    else
      var tail := InsertByDate(x, rows[1..], descending);
      assert rows == [rows[0]] + rows[1..];
      HeadBeforeInsert(rows, x, tail, descending);
      [rows[0]] + tail
  }

  /** A row before the head of a sorted sequence can go first. */
  lemma FirstBeforeSorted(x: RecordRow, rows: seq<RecordRow>, descending: bool)
    requires SortedByDate(rows, descending) && rows != [] && Before(x, rows[0], descending)
    ensures SortedByDate([x] + rows, descending)
  {
    var r := [x] + rows;
    forall i, j | 0 <= i < j < |r| ensures Before(r[i], r[j], descending) {
      if i == 0 {
        assert r[j] == rows[j - 1];
      } else {
        assert r[i] == rows[i - 1] && r[j] == rows[j - 1];
      }
    }
  }

  /** The head of a sorted sequence comes before every row of the insertion into its tail. */
  lemma HeadBeforeInsert(rows: seq<RecordRow>, x: RecordRow, tail: seq<RecordRow>, descending: bool)
    requires SortedByDate(rows, descending) && rows != [] && !Before(x, rows[0], descending)
    requires SortedByDate(tail, descending) && multiset(tail) == multiset(rows[1..]) + multiset{x}
    ensures SortedByDate([rows[0]] + tail, descending)
  {
    forall y | y in multiset(tail) ensures Before(rows[0], y, descending) {
      if y != x {
        assert y in multiset(rows[1..]);
        var j :| 0 <= j < |rows[1..]| && rows[1..][j] == y;
        assert rows[j + 1] == y;
      }
    }
    FirstBeforeAll(rows[0], tail, descending);
  }

  lemma FirstBeforeAll(h: RecordRow, tail: seq<RecordRow>, descending: bool)
    requires SortedByDate(tail, descending)
    requires forall y :: y in multiset(tail) ==> Before(h, y, descending)
    ensures SortedByDate([h] + tail, descending)
  {
    var r := [h] + tail;
    forall i, j | 0 <= i < j < |r| ensures Before(r[i], r[j], descending) {
      if i == 0 {
        assert r[j] == tail[j - 1] && tail[j - 1] in multiset(tail);
      } else {
        assert r[i] == tail[i - 1] && r[j] == tail[j - 1];
      }
    }
  }

  /** `ORDER BY recordDate` (`DESC` when `descending`): a sorted permutation of the rows. */
  function SortByDate(rows: seq<RecordRow>, descending: bool): (r: seq<RecordRow>)
    ensures SortedByDate(r, descending)
    ensures multiset(r) == multiset(rows)
  {
    if rows == [] then []
    else
      assert rows == [rows[0]] + rows[1..];
      InsertByDate(rows[0], SortByDate(rows[1..], descending), descending)
  }

  /** `findByPeriodTypeAndYear`: that year's records of the period type, by ascending record date. */
  function FindByPeriodTypeAndYear(rows: seq<RecordRow>, p: PeriodType, year: int): (r: seq<RecordRow>)
    ensures SortedByDate(r, false)
    ensures forall x :: x in r <==> x in rows && x.periodType == p && Calendar.Year(x.recordDate) == year
  {
    var r := SortByDate(Seqs.Filter(rows, (x: RecordRow) => x.periodType == p && Calendar.Year(x.recordDate) == year), false);
    assert forall x :: x in r <==> x in multiset(r);
    r
  }

  /** `findByPeriodTypeOrderByRecordDateDesc`. */
  function FindByPeriodTypeOrderByRecordDateDesc(rows: seq<RecordRow>, p: PeriodType): (r: seq<RecordRow>)
    ensures SortedByDate(r, true)
    ensures forall x :: x in r <==> x in rows && x.periodType == p
  {
    var r := SortByDate(Seqs.Filter(rows, (x: RecordRow) => x.periodType == p), true);
    assert forall x :: x in r <==> x in multiset(r);
    r
  }

  function SumOfRevenue(rows: seq<RecordRow>): int
  {
    if rows == [] then 0 else rows[0].totalRevenue + SumOfRevenue(rows[1..])
  }

  /**
   * `sumTotalRevenueByPeriodTypeAndDateRange`: `COALESCE(SUM(...), 0)`, so
   * zero (never null) when nothing matches, and never negative when no
   * matching record has a negative revenue.
   */
  function SumTotalRevenueByPeriodTypeAndDateRange(rows: seq<RecordRow>, p: PeriodType, start: int, end: int)
    : (total: int)
    ensures (forall x :: x in rows ==> !(x.periodType == p && start <= x.recordDate <= end)) ==> total == 0
    ensures (forall x :: x in rows && x.periodType == p && start <= x.recordDate <= end ==> x.totalRevenue >= 0)
            ==> total >= 0
  {
    var matching := FindByPeriodTypeAndRecordDateBetween(rows, p, start, end);
    NonNegativeSum(matching);
    assert matching != [] ==> matching[0] in matching;
    SumOfRevenue(matching)
  }

  lemma {:induction false} NonNegativeSum(rows: seq<RecordRow>)
    ensures (forall x :: x in rows ==> x.totalRevenue >= 0) ==> SumOfRevenue(rows) >= 0
  {
    if rows != [] {
      NonNegativeSum(rows[1..]);
      assert forall x :: x in rows[1..] ==> x in rows;
    }
  }
}
