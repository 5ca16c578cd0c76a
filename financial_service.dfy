/**
 * `FinancialRecordService`: turns the confirmed reservations of a day,
 * month or year into a financial record, marking each reservation counted
 * as processed so that later runs skip it.
 */
module FinancialService {
  import opened Wrappers
  import opened Enums
  import opened Reserves
  import opened FinancialRecords
  import opened Rooms
  import FinancialRecordRepository
  import ReserveRepository
  import Hostel
  import Money
  import Calendar
  import Seqs

  /**
   * `calculateDailyRevenue`: the reservation's total divided by its number
   * of nights, rounded half-up to the cent; zero for a reservation without
   * nights.
   */
  function DailyRevenue(x: Reserve): (v: int)
    ensures NumberOfDays(x) == 0 ==> v == 0
    ensures NumberOfDays(x) > 0 ==>
      -(NumberOfDays(x) as int) <= 2 * (CalculateTotalValue(x) - NumberOfDays(x) * v) <= NumberOfDays(x)
  {
    var days := NumberOfDays(x);
    if days == 0 then 0 else Money.HalfUpDiv(CalculateTotalValue(x), days)
  }

  /** A total that divides evenly over the nights is the nightly rate; a one-night stay yields its whole total. */
  lemma {:induction false} DailyRevenueExact(x: Reserve, rate: int)
    requires NumberOfDays(x) > 0 && CalculateTotalValue(x) == rate * NumberOfDays(x)
    ensures DailyRevenue(x) == rate
  {
    Money.HalfUpDivExact(CalculateTotalValue(x), NumberOfDays(x), rate);
  }

  /** `getDaysInPeriod`: one day, the length of the month, or the length of the year. */
  function DaysInPeriod(p: PeriodType, referenceDate: int): (n: int)
    ensures 1 <= n <= 366
    ensures p == DIARIO ==> n == 1
    ensures p == MENSAL ==> n == Calendar.LengthOfMonthAt(referenceDate)
    ensures p == ANUAL ==> n == Calendar.LengthOfYearAt(referenceDate)
  {
    match p
    case DIARIO => 1
    case MENSAL => Calendar.LengthOfMonthAt(referenceDate)
    case ANUAL => Calendar.LengthOfYearAt(referenceDate)
  }

  /**
   * The occupancy rate in hundredths of a percent: nights over available
   * room-nights at four decimals, half-up, times one hundred.
   */
  function OccupancyRate(nights: int, available: int): (rate: int)
    requires available > 0
    ensures 0 <= nights ==> 0 <= rate
  {
    Money.HalfUpDiv(nights * 10000, available)
  }

  /**
   * Never more nights sold than available means an occupancy of at most
   * 100%, and exactly 100% when every room-night is sold.
   */
  lemma {:induction false} OccupancyAtMostFull(nights: int, available: int)
    requires available > 0 && 0 <= nights <= available
    ensures 0 <= OccupancyRate(nights, available) <= 10000
    ensures nights == available ==> OccupancyRate(nights, available) == 10000
  {
    var r := OccupancyRate(nights, available);
    assert 2 * (nights * 10000 - available * r) >= -available;
    assert nights * 10000 <= available * 10000;
    assert available * r - available * 10000 == available * (r - 10000);
    Money.ProductBound(available, r - 10000);
    if nights == available {
      Money.HalfUpDivExact(nights * 10000, available, 10000);
    }
  }

  // ---------------------------------------------------------------------
  // Sums over the reservations counted in one run.

  function GuestCount(x: Reserve): int { |x.guests| }

  function RoomCount(x: Reserve): int { |x.rooms| }

  /**
   * The revenue the room-type buckets receive for one reservation: the
   * daily revenue for one room, and the daily revenue split per room
   * (half-up) times the number of rooms for several.
   */
  function BucketRevenue(x: Reserve): (v: int)
    ensures |x.rooms| <= 1 ==> v == (if x.rooms == [] then 0 else DailyRevenue(x))
    ensures |x.rooms| > 1 ==> -|x.rooms| <= 2 * (DailyRevenue(x) - v) <= |x.rooms|
  {
    var n := |x.rooms|;
    if n == 0 then 0
    else if n == 1 then DailyRevenue(x)
    else
      var q := Money.HalfUpDiv(DailyRevenue(x), n);
      assert n * q == q * n;
      q * n
  }

  function SumOver(rs: seq<Reserve>, f: Reserve -> int): int
  {
    if rs == [] then 0 else SumOver(rs[..|rs| - 1], f) + f(rs[|rs| - 1])
  }

  lemma SumOverStep(rs: seq<Reserve>, k: nat, f: Reserve -> int)
    requires k < |rs|
    ensures SumOver(rs[..k + 1], f) == SumOver(rs[..k], f) + f(rs[k])
  {
    assert rs[..k + 1][..k] == rs[..k];
  }

  /** The ids of the reservations counted. */
  function IdsOf(rs: seq<Reserve>): set<nat>
  {
    set x | x in rs :: x.id
  }

  /** The table after `setFinancialProcessed(true)` and `save` of every reservation whose id is in `ids`. */
  function MarkIds(rs: seq<Reserve>, ids: set<nat>): (r: seq<Reserve>)
    ensures |r| == |rs|
    ensures forall i :: 0 <= i < |rs| ==>
      r[i] == if rs[i].id in ids then rs[i].(financialProcessed := Some(true)) else rs[i]
  {
    seq(|rs|, i requires 0 <= i < |rs| =>
      if rs[i].id in ids then rs[i].(financialProcessed := Some(true)) else rs[i])
  }

  /** The table after `setFinancialProcessed(false)` and `save` of every reservation whose id is in `ids`. */
  function UnmarkIds(rs: seq<Reserve>, ids: set<nat>): (r: seq<Reserve>)
    ensures |r| == |rs|
    ensures forall i :: 0 <= i < |rs| ==>
      r[i] == if rs[i].id in ids then rs[i].(financialProcessed := Some(false)) else rs[i]
  {
    seq(|rs|, i requires 0 <= i < |rs| =>
      if rs[i].id in ids then rs[i].(financialProcessed := Some(false)) else rs[i])
  }

  /** `after` differs from `before` only in processed flags switched to true. */
  predicate Marked(before: seq<Reserve>, after: seq<Reserve>)
  {
    |after| == |before|
    && forall i :: 0 <= i < |before| ==>
      after[i] == before[i] || after[i] == before[i].(financialProcessed := Some(true))
  }

  lemma MarkedTransitive(a: seq<Reserve>, b: seq<Reserve>, c: seq<Reserve>)
    requires Marked(a, b) && Marked(b, c)
    ensures Marked(a, c)
  {
  }

  // ---------------------------------------------------------------------
  // The reservations a run counts.

  predicate NotProcessed(x: Reserve) { x.financialProcessed != Some(true) }

  /**
   * findUnprocessedReservationsForDate: confirmed, containing `date`, not
   * yet processed, in repository order (the status query and the two
   * stream filters, taken as one filter).
   */
  function UnprocessedForDate(rs: seq<Reserve>, date: int): (r: seq<Reserve>)
    ensures forall x :: x in r <==>
      x in rs && x.status == Some(CONFIRMED) && date in x.reservedDays && NotProcessed(x)
    ensures r == [] <==> forall x :: x in rs ==>
      !(x.status == Some(CONFIRMED) && date in x.reservedDays && NotProcessed(x))
  {
    Seqs.Filter(rs, (x: Reserve) => x.status == Some(CONFIRMED) && date in x.reservedDays && NotProcessed(x))
  }

  /** The first and the last day of a month. */
  function MonthRange(year: int, month: int): (int, int)
  {
    (Calendar.EpochDay(Calendar.Civil(year, month, 1)),
     Calendar.EpochDay(Calendar.Civil(year, month, Calendar.MonthLength(year, month))))
  }

  /**
   * findUnprocessedReservationsForMonth / ForYear: confirmed, some night in
   * [start, end], not yet processed, in repository order (the range query
   * and the stream filter, taken as one filter).
   */
  function UnprocessedBetween(rs: seq<Reserve>, start: int, end: int): (r: seq<Reserve>)
    ensures forall x :: x in r <==>
      x in rs && x.status == Some(CONFIRMED) && NotProcessed(x)
      && exists d :: d in x.reservedDays && start <= d <= end
    ensures r == [] <==> forall x :: x in rs ==>
      !(x.status == Some(CONFIRMED) && NotProcessed(x) && exists d :: d in x.reservedDays && start <= d <= end)
  {
    Seqs.Filter(rs, (x: Reserve) =>
      x.status == Some(CONFIRMED) && NotProcessed(x) && exists d :: d in x.reservedDays && start <= d <= end)
  }

  /**
   * The reservations forceProcessDate and processForecast count: confirmed
   * and containing `date`, processed or not, in repository order (the status
   * query and the stream filter, taken as one filter).
   */
  function ConfirmedForDate(rs: seq<Reserve>, date: int): (r: seq<Reserve>)
    ensures forall x :: x in r <==> x in rs && x.status == Some(CONFIRMED) && date in x.reservedDays
  {
    Seqs.Filter(rs, (x: Reserve) => x.status == Some(CONFIRMED) && date in x.reservedDays)
  }

  /** Marking the counted reservations leaves none of them to count again. */
  lemma {:induction false} MarkingEmptiesDate(rs: seq<Reserve>, date: int)
    ensures UnprocessedForDate(MarkIds(rs, IdsOf(UnprocessedForDate(rs, date))), date) == []
  {
    var u := UnprocessedForDate(rs, date);
    var m := MarkIds(rs, IdsOf(u));
    forall i | 0 <= i < |m|
      ensures !(m[i].status == Some(CONFIRMED) && date in m[i].reservedDays && NotProcessed(m[i]))
    {
      if rs[i].status == Some(CONFIRMED) && date in rs[i].reservedDays && NotProcessed(rs[i]) {
        assert rs[i] in u;
      }
    }
  }

  /** Marking the counted reservations leaves none of them to count again. */
  lemma {:induction false} MarkingEmptiesRange(rs: seq<Reserve>, start: int, end: int)
    ensures UnprocessedBetween(MarkIds(rs, IdsOf(UnprocessedBetween(rs, start, end))), start, end) == []
  {
    var u := UnprocessedBetween(rs, start, end);
    var m := MarkIds(rs, IdsOf(u));
    forall i | 0 <= i < |m|
      ensures !(m[i].status == Some(CONFIRMED) && NotProcessed(m[i])
                && exists d :: d in m[i].reservedDays && start <= d <= end)
    {
      if rs[i].status == Some(CONFIRMED) && NotProcessed(rs[i])
         && exists d :: d in rs[i].reservedDays && start <= d <= end {
        assert rs[i] in u;
      }
    }
  }

  /** Flags switched on never bring a reservation back into a date's count. */
  lemma {:induction false} MarkedKeepsDateEmpty(before: seq<Reserve>, after: seq<Reserve>, date: int)
    requires Marked(before, after) && UnprocessedForDate(before, date) == []
    ensures UnprocessedForDate(after, date) == []
  {
    forall i | 0 <= i < |after|
      ensures !(after[i].status == Some(CONFIRMED) && date in after[i].reservedDays && NotProcessed(after[i]))
    {
      assert before[i] !in UnprocessedForDate(before, date);
    }
  }

  /** Flags switched on never bring a reservation back into a range's count. */
  lemma {:induction false} MarkedKeepsRangeEmpty(before: seq<Reserve>, after: seq<Reserve>, start: int, end: int)
    requires Marked(before, after) && UnprocessedBetween(before, start, end) == []
    ensures UnprocessedBetween(after, start, end) == []
  {
    forall i | 0 <= i < |after|
      ensures !(after[i].status == Some(CONFIRMED) && NotProcessed(after[i])
                && exists d :: d in after[i].reservedDays && start <= d <= end)
    {
      assert before[i] !in UnprocessedBetween(before, start, end);
    }
  }

  // ---------------------------------------------------------------------
  // Accumulation.
  //
  // The effect of the loop on the room-type buckets is specified by pure
  // functions on bucket rows (`ReservationRows`, `AccumulatedRows`); the
  // methods below are proved to produce exactly those rows, and the lemmas
  // beside the functions say what the rows add up to.

  /** The type of the room with id `k` (`room.getRoomType()` on the joined room). */
  function TypeOfRoom(rooms: seq<Room>, k: nat): Option<RoomType>
    requires Hostel.RoomById(rooms, k).Ok?
  {
    rooms[Hostel.RoomById(rooms, k).value].roomType
  }

  /** Every room the reservation names exists. */
  predicate Resolves(rooms: seq<Room>, ks: seq<nat>)
  {
    forall k :: k in ks ==> Hostel.RoomById(rooms, k).Ok?
  }

  /** The buckets after one entry of `value`, one night and one reservation for each room of `ks`, in order. */
  function SplitRows(rows: seq<BucketRow>, rooms: seq<Room>, ks: seq<nat>, value: int): seq<BucketRow>
    requires Resolves(rooms, ks)
  {
    if ks == [] then rows
    else
      var last := ks[|ks| - 1];
      assert last in ks;
      AddToBuckets(SplitRows(rows, rooms, ks[..|ks| - 1], value), TypeOfRoom(rooms, last), value, 1, 1)
  }

  /**
   * Splitting over `ks` keeps one bucket per room type and adds `|ks|`
   * times the value, `|ks|` nights and `|ks|` reservations to the buckets.
   */
  lemma {:induction false} SplitRowsSums(rows: seq<BucketRow>, rooms: seq<Room>, ks: seq<nat>, value: int)
    requires TypesDistinct(rows) && Resolves(rooms, ks)
    ensures var r := SplitRows(rows, rooms, ks, value);
            TypesDistinct(r)
            && SumRevenue(r) == SumRevenue(rows) + |ks| * value
            && SumNights(r) == SumNights(rows) + |ks|
            && SumReservations(r) == SumReservations(rows) + |ks|
  {
    if ks != [] {
      var front := ks[..|ks| - 1];
      var last := ks[|ks| - 1];
      assert last in ks;
      SplitRowsSums(rows, rooms, front, value);
      AddToBucketsKeepsOnePerType(SplitRows(rows, rooms, front, value), TypeOfRoom(rooms, last), value, 1, 1);
      Money.MulSucc(|front|, value);
    }
  }

  /**
   * The buckets after the bucket part of one reservation: its daily revenue
   * to the bucket of its room's type when it has one room; the daily
   * revenue divided over the rooms (half-up) to each room's bucket when it
   * has several; nothing when it has none.
   */
  function ReservationRows(rows: seq<BucketRow>, rooms: seq<Room>, x: Reserve): seq<BucketRow>
    requires Resolves(rooms, x.rooms)
  {
    var roomCount := |x.rooms|;
    if roomCount == 1 then
      assert x.rooms[0] in x.rooms;
      AddToBuckets(rows, TypeOfRoom(rooms, x.rooms[0]), DailyRevenue(x), 1, 1)
    else if roomCount > 1 then SplitRows(rows, rooms, x.rooms, Money.HalfUpDiv(DailyRevenue(x), roomCount))
    else rows
  }

  /**
   * One reservation adds `BucketRevenue(x)` to the bucket revenue, one
   * night and one reservation per room, and keeps one bucket per room type.
   */
  lemma {:induction false} ReservationRowsSums(rows: seq<BucketRow>, rooms: seq<Room>, x: Reserve)
    requires TypesDistinct(rows) && Resolves(rooms, x.rooms)
    ensures var r := ReservationRows(rows, rooms, x);
            TypesDistinct(r)
            && SumRevenue(r) == SumRevenue(rows) + BucketRevenue(x)
            && SumNights(r) == SumNights(rows) + RoomCount(x)
            && SumReservations(r) == SumReservations(rows) + RoomCount(x)
  {
    var roomCount := |x.rooms|;
    if roomCount == 1 {
      assert x.rooms[0] in x.rooms;
      AddToBucketsKeepsOnePerType(rows, TypeOfRoom(rooms, x.rooms[0]), DailyRevenue(x), 1, 1);
    } else if roomCount > 1 {
      var q := Money.HalfUpDiv(DailyRevenue(x), roomCount);
      SplitRowsSums(rows, rooms, x.rooms, q);
      assert roomCount * q == q * roomCount;
    }
  }

  /** The buckets after the bucket parts of all of `xs`, in order. */
  function AccumulatedRows(rows: seq<BucketRow>, rooms: seq<Room>, xs: seq<Reserve>): seq<BucketRow>
    requires forall x :: x in xs ==> Resolves(rooms, x.rooms)
  {
    if xs == [] then rows
    else
      var last := xs[|xs| - 1];
      assert last in xs;
      ReservationRows(AccumulatedRows(rows, rooms, xs[..|xs| - 1]), rooms, last)
  }

  /**
   * The buckets of a run add up to what the run counted: the bucket
   * revenue of every reservation, and one night and one reservation per
   * room; one bucket per room type is kept throughout.
   */
  lemma {:induction false} AccumulatedRowsSums(rows: seq<BucketRow>, rooms: seq<Room>, xs: seq<Reserve>)
    requires TypesDistinct(rows) && forall x :: x in xs ==> Resolves(rooms, x.rooms)
    ensures var r := AccumulatedRows(rows, rooms, xs);
            TypesDistinct(r)
            && SumRevenue(r) == SumRevenue(rows) + SumOver(xs, BucketRevenue)
            && SumNights(r) == SumNights(rows) + SumOver(xs, RoomCount)
            && SumReservations(r) == SumReservations(rows) + SumOver(xs, RoomCount)
  {
    if xs != [] {
      var front := xs[..|xs| - 1];
      var last := xs[|xs| - 1];
      assert last in xs;
      AccumulatedRowsSums(rows, rooms, front);
      ReservationRowsSums(AccumulatedRows(rows, rooms, front), rooms, last);
    }
  }

  /** One more reservation adds its bucket part to the rows. */
  lemma AccumulatedRowsStep(rows: seq<BucketRow>, rooms: seq<Room>, xs: seq<Reserve>, k: nat)
    requires k < |xs| && forall x :: x in xs ==> Resolves(rooms, x.rooms)
    ensures forall x :: x in xs[..k] ==> Resolves(rooms, x.rooms)
    ensures AccumulatedRows(rows, rooms, xs[..k + 1]) == ReservationRows(AccumulatedRows(rows, rooms, xs[..k]), rooms, xs[k])
  {
    assert xs[..k + 1][..k] == xs[..k];
    assert xs[k] in xs;
  }

  /** The `for` loop of addRoomTypeRevenue: `n` calls of `incrementReservations`. */
  method IncrementReservationsTimes(b: RoomTypeRevenue, n: nat)
    modifies b
    ensures b.Row() == old(b.Row()).(reservationsCount := old(b.reservationsCount) + n)
  {
    var k := 0;
    while k < n
      invariant 0 <= k <= n
      invariant b.Row() == old(b.Row()).(reservationsCount := old(b.reservationsCount) + k)
    {
      b.IncrementReservations();
      k := k + 1;
    }
  }

  /**
   * `addRoomTypeRevenue`: the bucket of the room type (a new one when the
   * record has none) gains the revenue, the nights and the reservations.
   */
  method AddRoomTypeRevenue(record: FinancialRecord, roomType: Option<RoomType>, revenue: int, nights: int,
                            reservations: nat)
    requires record.Valid()
    modifies record`roomTypeRevenues
    ensures record.Valid()
    ensures record.roomTypeRevenues == AddToBuckets(old(record.roomTypeRevenues), roomType, revenue, nights, reservations)
  {
    var rows := record.roomTypeRevenues;
    AddToBucketsKeepsOnePerType(rows, roomType, revenue, nights, reservations);
    var found := BucketIndex(rows, roomType);
    var bucket: RoomTypeRevenue;
    if found.Some? {
      bucket := new RoomTypeRevenue.FromRow(rows[found.value]);
    } else {
      bucket := new RoomTypeRevenue(roomType);
    }
    bucket.AddRevenue(revenue);
    bucket.AddNights(nights);
    IncrementReservationsTimes(bucket, reservations);
    if found.Some? {
      record.roomTypeRevenues := rows[found.value := bucket.Row()];
    } else {
      record.roomTypeRevenues := rows + [bucket.Row()];
    }
  }

  /** The per-room loop of a reservation with several rooms: each room's bucket gets `valuePerRoom`. */
  method SplitAcrossRooms(rooms: seq<Room>, record: FinancialRecord, ks: seq<nat>, valuePerRoom: int)
    requires record.Valid() && Resolves(rooms, ks)
    modifies record`roomTypeRevenues
    ensures record.Valid()
    ensures record.roomTypeRevenues == SplitRows(old(record.roomTypeRevenues), rooms, ks, valuePerRoom)
  {
    ghost var rows0 := record.roomTypeRevenues;
    var j := 0;
    while j < |ks|
      invariant 0 <= j <= |ks|
      invariant record.Valid()
      invariant record.roomTypeRevenues == SplitRows(rows0, rooms, ks[..j], valuePerRoom)
    {
      assert ks[..j + 1][..j] == ks[..j] && ks[j] in ks;
      AddRoomTypeRevenue(record, TypeOfRoom(rooms, ks[j]), valuePerRoom, 1, 1);
      j := j + 1;
    }
    assert ks[..j] == ks;
  }

  /** The bucket part of one reservation: one bucket for a single room, a split for several. */
  method AddReservationToBuckets(rooms: seq<Room>, record: FinancialRecord, x: Reserve)
    requires record.Valid() && Resolves(rooms, x.rooms)
    modifies record`roomTypeRevenues
    ensures record.Valid()
    ensures record.roomTypeRevenues == ReservationRows(old(record.roomTypeRevenues), rooms, x)
  {
    var roomCount := |x.rooms|;
    if roomCount == 1 {
      assert x.rooms[0] in x.rooms;
      AddRoomTypeRevenue(record, TypeOfRoom(rooms, x.rooms[0]), DailyRevenue(x), 1, 1);
    } else if roomCount > 1 {
      var valuePerRoom := Money.HalfUpDiv(DailyRevenue(x), roomCount);
      SplitAcrossRooms(rooms, record, x.rooms, valuePerRoom);
    }
  }

  /**
   * The counters of one pass of the accumulation loop: the reservation adds
   * its daily revenue, one reservation, its guests and one night per room.
   */
  method AddCounters(record: FinancialRecord, x: Reserve, now: nat)
    modifies record`totalRevenue, record`totalReservations, record`totalGuests, record`totalNights, record`updatedAt
    ensures record.totalRevenue == old(record.totalRevenue) + DailyRevenue(x)
    ensures record.totalReservations == old(record.totalReservations) + 1
    ensures record.totalGuests == old(record.totalGuests) + GuestCount(x)
    ensures record.totalNights == old(record.totalNights) + RoomCount(x)
    ensures record.updatedAt == Some(now)
  {
    var dailyRevenue := DailyRevenue(x);
    var roomCount := |x.rooms|;
    record.AddRevenue(dailyRevenue, now);
    record.IncrementReservations(now);
    record.AddGuests(|x.guests|, now);
    record.AddNights(roomCount, now);
  }

  /**
   * One pass of the accumulation loop, before the processed flag: the
   * counters, then the room-type buckets.
   */
  method AccumulateOne(rooms: seq<Room>, record: FinancialRecord, x: Reserve, now: nat)
    requires record.Valid() && Resolves(rooms, x.rooms)
    modifies record`totalRevenue, record`totalReservations, record`totalGuests, record`totalNights, record`updatedAt
    modifies record`roomTypeRevenues
    ensures record.Valid()
    ensures record.totalRevenue == old(record.totalRevenue) + DailyRevenue(x)
    ensures record.totalReservations == old(record.totalReservations) + 1
    ensures record.totalGuests == old(record.totalGuests) + GuestCount(x)
    ensures record.totalNights == old(record.totalNights) + RoomCount(x)
    ensures record.roomTypeRevenues == ReservationRows(old(record.roomTypeRevenues), rooms, x)
    ensures record.updatedAt == Some(now)
  {
    AddCounters(record, x, now);
    AddReservationToBuckets(rooms, record, x);
  }

  /** `setFinancialProcessed(true)` and `reserveRepo.save` of the reservation with id `id`. */
  method SaveProcessed(db: Hostel.Database, id: nat)
    modifies db`reserves
    ensures db.reserves == MarkIds(old(db.reserves), {id})
  {
    db.reserves := MarkIds(db.reserves, {id});
  }

  /** Marking one more reservation extends the marked prefix by one. */
  lemma MarkOneMore(rs: seq<Reserve>, xs: seq<Reserve>, k: nat)
    requires k < |xs|
    ensures MarkIds(MarkIds(rs, IdsOf(xs[..k])), {xs[k].id}) == MarkIds(rs, IdsOf(xs[..k + 1]))
  {
    assert xs[..k + 1] == xs[..k] + [xs[k]];
    assert IdsOf(xs[..k + 1]) == IdsOf(xs[..k]) + {xs[k].id};
  }

  /**
   * Pass `k` of the accumulation loop: with the first `k` reservations
   * accumulated (and marked, when marking) on entry, the first `k + 1` are
   * on exit.
   */
  method AccumulateStep(db: Hostel.Database, rooms: seq<Room>, record: FinancialRecord, reservations: seq<Reserve>,
                        k: nat, now: nat, markProcessed: bool,
                        ghost t0: (int, int, int, int), ghost rows0: seq<BucketRow>, ghost reserves0: seq<Reserve>)
    requires k < |reservations| && forall x :: x in reservations ==> Resolves(rooms, x.rooms)
    requires record.Valid()
    requires record.totalRevenue == t0.0 + SumOver(reservations[..k], DailyRevenue)
    requires record.totalReservations == t0.1 + k
    requires record.totalGuests == t0.2 + SumOver(reservations[..k], GuestCount)
    requires record.totalNights == t0.3 + SumOver(reservations[..k], RoomCount)
    requires record.roomTypeRevenues == AccumulatedRows(rows0, rooms, reservations[..k])
    requires db.reserves == if markProcessed then MarkIds(reserves0, IdsOf(reservations[..k])) else reserves0
    modifies db`reserves, record`totalRevenue, record`totalReservations, record`totalGuests, record`totalNights
    modifies record`updatedAt, record`roomTypeRevenues
    ensures record.Valid()
    ensures record.totalRevenue == t0.0 + SumOver(reservations[..k + 1], DailyRevenue)
    ensures record.totalReservations == t0.1 + k + 1
    ensures record.totalGuests == t0.2 + SumOver(reservations[..k + 1], GuestCount)
    ensures record.totalNights == t0.3 + SumOver(reservations[..k + 1], RoomCount)
    ensures record.roomTypeRevenues == AccumulatedRows(rows0, rooms, reservations[..k + 1])
    ensures db.reserves == if markProcessed then MarkIds(reserves0, IdsOf(reservations[..k + 1])) else reserves0
    ensures record.updatedAt == Some(now)
  {
    var x := reservations[k];
    assert x in reservations;
    SumOverStep(reservations, k, DailyRevenue);
    SumOverStep(reservations, k, GuestCount);
    SumOverStep(reservations, k, RoomCount);
    AccumulatedRowsStep(rows0, rooms, reservations, k);
    if markProcessed {
      MarkOneMore(reserves0, reservations, k);
    }
    AccumulateOne(rooms, record, x, now);
    if markProcessed {
      SaveProcessed(db, x.id);
    }
  }

  /**
   * The loop shared by calculateMetrics and calculateMetricsForce: each
   * reservation is accumulated and, in calculateMetrics only, marked
   * processed and saved.
   */
  method Accumulate(db: Hostel.Database, record: FinancialRecord, reservations: seq<Reserve>, now: nat,
                    markProcessed: bool)
    requires record.Valid()
    requires forall x :: x in reservations ==> Resolves(db.rooms, x.rooms)
    modifies db`reserves, record`totalRevenue, record`totalReservations, record`totalGuests, record`totalNights
    modifies record`updatedAt, record`roomTypeRevenues
    ensures record.Valid()
    ensures record.totalRevenue == old(record.totalRevenue) + SumOver(reservations, DailyRevenue)
    ensures record.totalReservations == old(record.totalReservations) + |reservations|
    ensures record.totalGuests == old(record.totalGuests) + SumOver(reservations, GuestCount)
    ensures record.totalNights == old(record.totalNights) + SumOver(reservations, RoomCount)
    ensures record.roomTypeRevenues == AccumulatedRows(old(record.roomTypeRevenues), db.rooms, reservations)
    ensures record.updatedAt == if reservations == [] then old(record.updatedAt) else Some(now)
    ensures db.reserves == if markProcessed then MarkIds(old(db.reserves), IdsOf(reservations)) else old(db.reserves)
  {
    var rooms := db.rooms;
    ghost var t0 := (record.totalRevenue, record.totalReservations, record.totalGuests, record.totalNights);
    ghost var rows0 := record.roomTypeRevenues;
    ghost var reserves0 := db.reserves;
    var k := 0;
    while k < |reservations|
      invariant 0 <= k <= |reservations|
      invariant record.Valid()
      invariant record.totalRevenue == t0.0 + SumOver(reservations[..k], DailyRevenue)
      invariant record.totalReservations == t0.1 + k
      invariant record.totalGuests == t0.2 + SumOver(reservations[..k], GuestCount)
      invariant record.totalNights == t0.3 + SumOver(reservations[..k], RoomCount)
      invariant record.roomTypeRevenues == AccumulatedRows(rows0, rooms, reservations[..k])
      invariant db.reserves == if markProcessed then MarkIds(reserves0, IdsOf(reservations[..k])) else reserves0
      invariant record.updatedAt == if k == 0 then old(record.updatedAt) else Some(now)
    {
      AccumulateStep(db, rooms, record, reservations, k, now, markProcessed, t0, rows0, reserves0);
      k := k + 1;
    }
    assert reservations[..k] == reservations;
  }


  /**
   * The derived metrics of `record` as calculateDerivedMetrics leaves them,
   * given the values they held before: ADR when some night was sold,
   * occupancy and RevPAR when rooms exist, each kept otherwise.
   */
  ghost predicate DerivedMetricsSet(record: FinancialRecord, adr0: int, occupancy0: int, revPar0: int,
                                    referenceDate: int, periodType: PeriodType, totalRooms: nat)
    reads record
  {
    && record.averageDailyRate ==
      (if record.totalNights > 0 then Money.HalfUpDiv(record.totalRevenue, record.totalNights) else adr0)
    && record.occupancyRate ==
      (if totalRooms > 0 then OccupancyRate(record.totalNights, totalRooms * DaysInPeriod(periodType, referenceDate))
       else occupancy0)
    && record.revPAR ==
      (if totalRooms > 0 then Money.HalfUpDiv(record.totalRevenue, totalRooms * DaysInPeriod(periodType, referenceDate))
       else revPar0)
  }

  /**
   * `calculateDerivedMetrics` with `totalRooms` rooms: the average daily
   * rate when some night was sold, the occupancy rate and RevPAR when rooms
   * exist; each is left as it was otherwise.
   */
  method CalculateDerivedMetrics(record: FinancialRecord, referenceDate: int, periodType: PeriodType, totalRooms: nat)
    modifies record`averageDailyRate, record`occupancyRate, record`revPAR
    ensures record.averageDailyRate ==
      if record.totalNights > 0 then Money.HalfUpDiv(record.totalRevenue, record.totalNights) else old(record.averageDailyRate)
    ensures record.occupancyRate ==
      if totalRooms > 0 then OccupancyRate(record.totalNights, totalRooms * DaysInPeriod(periodType, referenceDate))
      else old(record.occupancyRate)
    ensures record.revPAR ==
      if totalRooms > 0 then Money.HalfUpDiv(record.totalRevenue, totalRooms * DaysInPeriod(periodType, referenceDate))
      else old(record.revPAR)
  {
    if record.totalNights > 0 {
      record.averageDailyRate := Money.HalfUpDiv(record.totalRevenue, record.totalNights);
    }
    var daysInPeriod := DaysInPeriod(periodType, referenceDate);
    var availableRoomNights := totalRooms * daysInPeriod;
    if availableRoomNights > 0 {
      record.occupancyRate := OccupancyRate(record.totalNights, availableRoomNights);
    }
    if totalRooms > 0 && daysInPeriod > 0 {
      record.revPAR := Money.HalfUpDiv(record.totalRevenue, totalRooms * daysInPeriod);
    }
  }

  /** The zeroing calculateMetrics does on a record that was never saved: totals and buckets. */
  method ResetTotals(record: FinancialRecord)
    modifies record`totalRevenue, record`totalReservations, record`totalGuests, record`totalNights
    modifies record`roomTypeRevenues
    ensures record.totalRevenue == 0 && record.totalReservations == 0
    ensures record.totalGuests == 0 && record.totalNights == 0
    ensures record.roomTypeRevenues == [] && record.Valid()
  {
    record.totalRevenue, record.totalReservations, record.totalGuests, record.totalNights := 0, 0, 0, 0;
    record.roomTypeRevenues := [];
  }

  /**
   * `calculateMetrics` (`markProcessed`) and `calculateMetricsForce`: the
   * accumulation loop, then the derived metrics, then the update stamp.
   * calculateMetrics first zeroes a record that was never saved.
   */
  method CalculateMetrics(db: Hostel.Database, record: FinancialRecord, reservations: seq<Reserve>,
                          referenceDate: int, periodType: PeriodType, now: nat, markProcessed: bool)
    requires record.Valid()
    requires forall x :: x in reservations ==> Resolves(db.rooms, x.rooms)
    modifies db`reserves, record`totalRevenue, record`totalReservations, record`totalGuests, record`totalNights
    modifies record`updatedAt, record`averageDailyRate, record`occupancyRate, record`revPAR
    modifies record`roomTypeRevenues
    ensures record.Valid()
    ensures var zeroed := markProcessed && old(record.id).None?;
      record.totalRevenue == (if zeroed then 0 else old(record.totalRevenue)) + SumOver(reservations, DailyRevenue)
      && record.totalReservations == (if zeroed then 0 else old(record.totalReservations)) + |reservations|
      && record.totalGuests == (if zeroed then 0 else old(record.totalGuests)) + SumOver(reservations, GuestCount)
      && record.totalNights == (if zeroed then 0 else old(record.totalNights)) + SumOver(reservations, RoomCount)
    ensures record.roomTypeRevenues ==
      AccumulatedRows(if markProcessed && old(record.id).None? then [] else old(record.roomTypeRevenues), db.rooms, reservations)
    ensures DerivedMetricsSet(record, old(record.averageDailyRate), old(record.occupancyRate), old(record.revPAR),
                              referenceDate, periodType, |db.rooms|)
    ensures record.updatedAt == Some(now)
    ensures db.reserves == if markProcessed then MarkIds(old(db.reserves), IdsOf(reservations)) else old(db.reserves)
  {
    if markProcessed && record.id.None? {
      ResetTotals(record);
    }
    Accumulate(db, record, reservations, now, markProcessed);
    CalculateDerivedMetrics(record, referenceDate, periodType, |db.rooms|);
    record.updatedAt := Some(now);
  }

  // ---------------------------------------------------------------------
  // Loading and saving a record.

  /** The totals of the stored record a run starts from: zeros when there is none. */
  function BaseTotals(rows: seq<RecordRow>, date: int, p: PeriodType): (int, int, int, int)
  {
    match FinancialRecordRepository.FindByRecordDateAndPeriodType(rows, date, p)
    case Ok(Some(i)) => (rows[i].totalRevenue, rows[i].totalReservations, rows[i].totalGuests, rows[i].totalNights)
    case _ => (0, 0, 0, 0)
  }

  /** The buckets of the stored record a run starts from: none when there is no record. */
  function BaseBuckets(rows: seq<RecordRow>, date: int, p: PeriodType): seq<BucketRow>
  {
    match FinancialRecordRepository.FindByRecordDateAndPeriodType(rows, date, p)
    case Ok(Some(i)) => rows[i].buckets
    case _ => []
  }

  /** The derived metrics (ADR, occupancy, RevPAR) of the stored record a run starts from: zeros when there is none. */
  function BaseMetrics(rows: seq<RecordRow>, date: int, p: PeriodType): (int, int, int)
  {
    match FinancialRecordRepository.FindByRecordDateAndPeriodType(rows, date, p)
    case Ok(Some(i)) => (rows[i].averageDailyRate, rows[i].occupancyRate, rows[i].revPAR)
    case _ => (0, 0, 0)
  }

  /** `findByRecordDateAndPeriodType(...).orElse(new FinancialRecord(date, p))`. */
  method LoadOrCreate(db: Hostel.Database, date: int, p: PeriodType, now: nat) returns (r: Result<FinancialRecord>)
    requires db.RecordsWellFormed()
    ensures r.Err? <==> FinancialRecordRepository.FindByRecordDateAndPeriodType(db.records, date, p).Err?
    ensures r.Err? ==> r.error == Runtime
    ensures r.Ok? ==> fresh(r.value) && r.value.Valid() && r.value.recordDate == date && r.value.periodType == p
    ensures r.Ok? ==> var base := BaseTotals(db.records, date, p);
      r.value.totalRevenue == base.0 && r.value.totalReservations == base.1
      && r.value.totalGuests == base.2 && r.value.totalNights == base.3
    ensures r.Ok? ==> (r.value.id.None? <==> FinancialRecordRepository.FindByRecordDateAndPeriodType(db.records, date, p) == Ok(None))
    ensures r.Ok? ==> r.value.roomTypeRevenues == BaseBuckets(db.records, date, p)
    ensures r.Ok? ==> (r.value.averageDailyRate, r.value.occupancyRate, r.value.revPAR) == BaseMetrics(db.records, date, p)
    ensures r.Ok? && r.value.id.Some? ==>
      var found := FinancialRecordRepository.FindByRecordDateAndPeriodType(db.records, date, p);
      found.Ok? && found.value.Some? && r.value.id == Some(db.records[found.value.value].id)
  {
    var found := FinancialRecordRepository.FindByRecordDateAndPeriodType(db.records, date, p);
    if found.Err? {
      return Err(found.error);
    } else if found.value.None? {
      var record := new FinancialRecord(date, p, now);
      return Ok(record);
    } else {
      var i := found.value.value;
      var record := new FinancialRecord.FromRow(db.records[i]);
      return Ok(record);
    }
  }

  /** The table after saving a record that already has an id: its row is overwritten. */
  function ReplaceRecord(rows: seq<RecordRow>, row: RecordRow): (r: seq<RecordRow>)
    ensures |r| == |rows|
    ensures forall i :: 0 <= i < |rows| ==> r[i] == if rows[i].id == row.id then row else rows[i]
  {
    seq(|rows|, i requires 0 <= i < |rows| => if rows[i].id == row.id then row else rows[i])
  }

  /** The records table after saving `row`: appended when the entity had no id, its row overwritten otherwise. */
  function SavedRecords(rows: seq<RecordRow>, row: RecordRow, isNew: bool): seq<RecordRow>
  {
    if isNew then rows + [row] else ReplaceRecord(rows, row)
  }

  /**
   * What a run leaves behind when it counted `u` into the record stored
   * for (`date`, `p`), starting from that record's totals and buckets (or
   * from zeros when `zero` or when none is stored): the record holds those
   * plus the sums over `u`, its buckets have `u` accumulated, its derived
   * metrics are recomputed from the new totals and `rooms`, and the records
   * table holds it, appended when none was stored and overwriting the
   * stored row otherwise.
   */
  ghost predicate SavedRun(records0: seq<RecordRow>, rooms: seq<Room>, date: int, p: PeriodType, u: seq<Reserve>,
                           zero: bool, record: FinancialRecord, records: seq<RecordRow>)
    reads record
  {
    var stored := FinancialRecordRepository.FindByRecordDateAndPeriodType(records0, date, p);
    var base := if zero then (0, 0, 0, 0) else BaseTotals(records0, date, p);
    && stored.Ok?
    && record.recordDate == date && record.periodType == p
    && record.totalRevenue == base.0 + SumOver(u, DailyRevenue)
    && record.totalReservations == base.1 + |u|
    && record.totalGuests == base.2 + SumOver(u, GuestCount)
    && record.totalNights == base.3 + SumOver(u, RoomCount)
    && Saved(rooms, record, u, records0,
             if stored.value.Some? then Some(records0[stored.value.value].id) else None,
             if zero then [] else BaseBuckets(records0, date, p), BaseMetrics(records0, date, p), date, p, records)
  }

  /**
   * The buckets, derived metrics, id and records table after a counting
   * run that started from a record with id `id0`, buckets `buckets0` and
   * metrics `metrics0`, and counted `u`: the buckets have `u` accumulated,
   * the metrics are recomputed, and `records` holds the saved row, appended
   * when the record had no id and overwriting its row otherwise.
   */
  ghost predicate Saved(rooms: seq<Room>, record: FinancialRecord, u: seq<Reserve>, records0: seq<RecordRow>,
                        id0: Option<nat>, buckets0: seq<BucketRow>, metrics0: (int, int, int), date: int, p: PeriodType,
                        records: seq<RecordRow>)
    reads record
  {
    && (forall x :: x in u ==> Resolves(rooms, x.rooms))
    && record.roomTypeRevenues == AccumulatedRows(buckets0, rooms, u)
    && DerivedMetricsSet(record, metrics0.0, metrics0.1, metrics0.2, date, p, |rooms|)
    && record.id.Some? && (id0.Some? ==> record.id == id0)
    && records == SavedRecords(records0, record.Snapshot(), id0.None?)
  }

  /** `financialRecordRepo.save(record)`: insert with a new id, or overwrite the row with the record's id. */
  method SaveRecord(db: Hostel.Database, record: FinancialRecord)
    requires record.Valid() && db.RecordsWellFormed()
    modifies db`records, db`nextId, record`id
    ensures db.RecordsWellFormed()
    ensures record.id.Some?
    ensures old(record.id).None? ==>
      record.id == Some(old(db.nextId)) && db.nextId == old(db.nextId) + 1
      && db.records == old(db.records) + [record.Snapshot()]
    ensures old(record.id).Some? ==>
      record.id == old(record.id) && db.nextId == old(db.nextId)
      && db.records == ReplaceRecord(old(db.records), record.Snapshot())
  {
    if record.id.None? {
      record.id := Some(db.nextId);
      db.nextId := db.nextId + 1;
      db.records := db.records + [record.Snapshot()];
    } else {
      db.records := ReplaceRecord(db.records, record.Snapshot());
    }
  }

  // ---------------------------------------------------------------------
  // The processing runs.

  /**
   * calculateMetrics as the three counting runs call it: every counted
   * reservation is marked processed, a record that was never saved is
   * zeroed first, and the derived metrics are recomputed.
   */
  method MarkAndMeasure(db: Hostel.Database, record: FinancialRecord, reservations: seq<Reserve>,
                        referenceDate: int, p: PeriodType, now: nat)
    requires record.Valid() && db.RoomsResolve()
    requires forall x :: x in reservations ==> x in db.reserves
    modifies db`reserves
    modifies record`totalRevenue, record`totalReservations, record`totalGuests, record`totalNights
    modifies record`updatedAt, record`averageDailyRate, record`occupancyRate, record`revPAR
    modifies record`roomTypeRevenues
    ensures db.RoomsResolve() && record.Valid()
    ensures db.reserves == MarkIds(old(db.reserves), IdsOf(reservations))
    ensures var zeroed := record.id.None?;
      record.totalRevenue == (if zeroed then 0 else old(record.totalRevenue)) + SumOver(reservations, DailyRevenue)
      && record.totalReservations == (if zeroed then 0 else old(record.totalReservations)) + |reservations|
      && record.totalGuests == (if zeroed then 0 else old(record.totalGuests)) + SumOver(reservations, GuestCount)
      && record.totalNights == (if zeroed then 0 else old(record.totalNights)) + SumOver(reservations, RoomCount)
    ensures forall x :: x in reservations ==> Resolves(db.rooms, x.rooms)
    ensures record.roomTypeRevenues ==
      AccumulatedRows(if record.id.None? then [] else old(record.roomTypeRevenues), db.rooms, reservations)
    ensures DerivedMetricsSet(record, old(record.averageDailyRate), old(record.occupancyRate), old(record.revPAR),
                              referenceDate, p, |db.rooms|)
  {
    ResolvedRooms(db, reservations);
    MarkIdsKeepsRooms(db.reserves, IdsOf(reservations));
    CalculateMetrics(db, record, reservations, referenceDate, p, now, true);
  }

  /**
   * The common tail of the three runs once there is something to count:
   * calculateMetrics (which marks every counted reservation processed),
   * then `financialRecordRepo.save`.
   */
  method CountAndSave(db: Hostel.Database, record: FinancialRecord, reservations: seq<Reserve>,
                      referenceDate: int, p: PeriodType, now: nat)
    requires record.Valid() && db.RoomsResolve() && db.RecordsWellFormed()
    requires forall x :: x in reservations ==> x in db.reserves
    modifies db`reserves, db`records, db`nextId, record`id
    modifies record`totalRevenue, record`totalReservations, record`totalGuests, record`totalNights
    modifies record`updatedAt, record`averageDailyRate, record`occupancyRate, record`revPAR
    modifies record`roomTypeRevenues
    ensures db.RoomsResolve() && db.RecordsWellFormed()
    ensures db.reserves == MarkIds(old(db.reserves), IdsOf(reservations))
    ensures var zeroed := old(record.id).None?;
      record.totalRevenue == (if zeroed then 0 else old(record.totalRevenue)) + SumOver(reservations, DailyRevenue)
      && record.totalReservations == (if zeroed then 0 else old(record.totalReservations)) + |reservations|
      && record.totalGuests == (if zeroed then 0 else old(record.totalGuests)) + SumOver(reservations, GuestCount)
      && record.totalNights == (if zeroed then 0 else old(record.totalNights)) + SumOver(reservations, RoomCount)
    ensures forall x :: x in reservations ==> Resolves(db.rooms, x.rooms)
    ensures record.roomTypeRevenues ==
      AccumulatedRows(if old(record.id).None? then [] else old(record.roomTypeRevenues), db.rooms, reservations)
    ensures DerivedMetricsSet(record, old(record.averageDailyRate), old(record.occupancyRate), old(record.revPAR),
                              referenceDate, p, |db.rooms|)
    ensures record.recordDate == old(record.recordDate) && record.periodType == old(record.periodType)
    ensures record.id.Some? && (old(record.id).Some? ==> record.id == old(record.id))
    ensures db.records == SavedRecords(old(db.records), record.Snapshot(), old(record.id).None?)
  {
    MarkAndMeasure(db, record, reservations, referenceDate, p, now);
    SaveRecord(db, record);
  }

  /** processDailyRecord once the record is loaded: count, mark and save when `date` has something to count. */
  method CountDay(db: Hostel.Database, record: FinancialRecord, date: int, now: nat)
    requires record.Valid() && db.RoomsResolve() && db.RecordsWellFormed()
    requires record.id.None? ==>
      record.totalRevenue == 0 && record.totalReservations == 0 && record.totalGuests == 0 && record.totalNights == 0
      && record.roomTypeRevenues == []
    modifies db`reserves, db`records, db`nextId, record`id
    modifies record`totalRevenue, record`totalReservations, record`totalGuests, record`totalNights
    modifies record`updatedAt, record`averageDailyRate, record`occupancyRate, record`revPAR
    modifies record`roomTypeRevenues
    ensures db.RoomsResolve() && db.RecordsWellFormed()
    ensures Marked(old(db.reserves), db.reserves) && UnprocessedForDate(db.reserves, date) == []
    ensures UnprocessedForDate(old(db.reserves), date) == [] ==>
      db.reserves == old(db.reserves) && db.records == old(db.records) && db.nextId == old(db.nextId)
    ensures var u := UnprocessedForDate(old(db.reserves), date);
      u != [] ==>
      db.reserves == MarkIds(old(db.reserves), IdsOf(u))
      && record.totalRevenue == old(record.totalRevenue) + SumOver(u, DailyRevenue)
      && record.totalReservations == old(record.totalReservations) + |u|
      && record.totalGuests == old(record.totalGuests) + SumOver(u, GuestCount)
      && record.totalNights == old(record.totalNights) + SumOver(u, RoomCount)
    ensures var u := UnprocessedForDate(old(db.reserves), date);
      u != [] ==> Saved(db.rooms, record, u, old(db.records), old(record.id), old(record.roomTypeRevenues),
                        (old(record.averageDailyRate), old(record.occupancyRate), old(record.revPAR)),
                        date, DIARIO, db.records)
  {
    var reservations := UnprocessedForDate(db.reserves, date);
    if reservations != [] {
      MarkIdsIsMarked(db.reserves, IdsOf(reservations));
      MarkingEmptiesDate(db.reserves, date);
      CountAndSave(db, record, reservations, date, DIARIO, now);
    }
  }


  /** The monthly and the annual run once the record is loaded: count, mark and save when the range has something to count. */
  method CountRange(db: Hostel.Database, record: FinancialRecord, recordDate: int, p: PeriodType, start: int, end: int, now: nat)
    requires record.Valid() && db.RoomsResolve() && db.RecordsWellFormed()
    requires record.id.None? ==>
      record.totalRevenue == 0 && record.totalReservations == 0 && record.totalGuests == 0 && record.totalNights == 0
      && record.roomTypeRevenues == []
    modifies db`reserves, db`records, db`nextId, record`id
    modifies record`totalRevenue, record`totalReservations, record`totalGuests, record`totalNights
    modifies record`updatedAt, record`averageDailyRate, record`occupancyRate, record`revPAR
    modifies record`roomTypeRevenues
    ensures db.RoomsResolve() && db.RecordsWellFormed()
    ensures Marked(old(db.reserves), db.reserves) && UnprocessedBetween(db.reserves, start, end) == []
    ensures UnprocessedBetween(old(db.reserves), start, end) == [] ==>
      db.reserves == old(db.reserves) && db.records == old(db.records) && db.nextId == old(db.nextId)
    ensures var u := UnprocessedBetween(old(db.reserves), start, end);
      u != [] ==>
      db.reserves == MarkIds(old(db.reserves), IdsOf(u))
      && record.totalRevenue == old(record.totalRevenue) + SumOver(u, DailyRevenue)
      && record.totalReservations == old(record.totalReservations) + |u|
      && record.totalGuests == old(record.totalGuests) + SumOver(u, GuestCount)
      && record.totalNights == old(record.totalNights) + SumOver(u, RoomCount)
    ensures var u := UnprocessedBetween(old(db.reserves), start, end);
      u != [] ==> Saved(db.rooms, record, u, old(db.records), old(record.id), old(record.roomTypeRevenues),
                        (old(record.averageDailyRate), old(record.occupancyRate), old(record.revPAR)),
                        recordDate, p, db.records)
  {
    var reservations := UnprocessedBetween(db.reserves, start, end);
    if reservations != [] {
      MarkIdsIsMarked(db.reserves, IdsOf(reservations));
      MarkingEmptiesRange(db.reserves, start, end);
      CountAndSave(db, record, reservations, recordDate, p, now);
    }
  }


  /**
   * `processDailyRecord(date)`: counts the confirmed, unprocessed
   * reservations containing `date` into the day's record, marks them
   * processed and saves the record. With nothing to count nothing is saved.
   * Afterwards no reservation of that date is left to count, so a second
   * run changes nothing.
   */
  method ProcessDailyRecord(db: Hostel.Database, date: int, now: nat) returns (r: Result<FinancialRecord>)
    requires db.RoomsResolve() && db.RecordsWellFormed()
    modifies db`reserves, db`records, db`nextId
    ensures db.RoomsResolve() && db.RecordsWellFormed()
    ensures r.Err? ==> r.error == Runtime && (db.reserves == old(db.reserves) && db.records == old(db.records) && db.nextId == old(db.nextId))
    ensures Marked(old(db.reserves), db.reserves)
    ensures r.Ok? ==> UnprocessedForDate(db.reserves, date) == []
    ensures UnprocessedForDate(old(db.reserves), date) == [] ==> (db.reserves == old(db.reserves) && db.records == old(db.records) && db.nextId == old(db.nextId))
    ensures r.Ok? ==> fresh(r.value) && r.value.recordDate == date && r.value.periodType == DIARIO
    ensures r.Ok? && UnprocessedForDate(old(db.reserves), date) != [] ==>
      var u := UnprocessedForDate(old(db.reserves), date);
      db.reserves == MarkIds(old(db.reserves), IdsOf(u))
      && SavedRun(old(db.records), db.rooms, date, DIARIO, u, false, r.value, db.records)
  {
    var loaded := LoadOrCreate(db, date, DIARIO, now);
    if loaded.Err? {
      return Err(loaded.error);
    }
    var record := loaded.value;
    CountDay(db, record, date, now);
    return Ok(record);
  }

  /**
   * `processMonthlyRecord(anyDateInMonth)`: the same for the month's record
   * (dated the first of the month) and the unprocessed confirmed
   * reservations with a night in that month.
   */
  method ProcessMonthlyRecord(db: Hostel.Database, anyDateInMonth: int, now: nat) returns (r: Result<FinancialRecord>)
    requires db.RoomsResolve() && db.RecordsWellFormed()
    modifies db`reserves, db`records, db`nextId
    ensures db.RoomsResolve() && db.RecordsWellFormed()
    ensures r.Err? ==> r.error == Runtime && (db.reserves == old(db.reserves) && db.records == old(db.records) && db.nextId == old(db.nextId))
    ensures Marked(old(db.reserves), db.reserves)
    ensures var range := MonthRange(Calendar.Year(anyDateInMonth), Calendar.MonthValue(anyDateInMonth));
      r.Ok? ==> UnprocessedBetween(db.reserves, range.0, range.1) == []
    ensures var range := MonthRange(Calendar.Year(anyDateInMonth), Calendar.MonthValue(anyDateInMonth));
      UnprocessedBetween(old(db.reserves), range.0, range.1) == [] ==> (db.reserves == old(db.reserves) && db.records == old(db.records) && db.nextId == old(db.nextId))
    ensures r.Ok? ==>
      fresh(r.value) && r.value.recordDate == Calendar.FirstOfMonth(anyDateInMonth) && r.value.periodType == MENSAL
    ensures var range := MonthRange(Calendar.Year(anyDateInMonth), Calendar.MonthValue(anyDateInMonth));
      var u := UnprocessedBetween(old(db.reserves), range.0, range.1);
      r.Ok? && u != [] ==>
      db.reserves == MarkIds(old(db.reserves), IdsOf(u))
      && SavedRun(old(db.records), db.rooms, Calendar.FirstOfMonth(anyDateInMonth), MENSAL, u, false, r.value, db.records)
  {
    var year, month := Calendar.Year(anyDateInMonth), Calendar.MonthValue(anyDateInMonth);
    var firstDayOfMonth := Calendar.EpochDay(Calendar.Civil(year, month, 1));
    var range := MonthRange(year, month);
    r := ProcessRange(db, firstDayOfMonth, MENSAL, range.0, range.1, now);
  }

  /** `processAnnualRecord(year)`: the same for the year's record, dated January 1. */
  method ProcessAnnualRecord(db: Hostel.Database, year: int, now: nat) returns (r: Result<FinancialRecord>)
    requires db.RoomsResolve() && db.RecordsWellFormed()
    modifies db`reserves, db`records, db`nextId
    ensures db.RoomsResolve() && db.RecordsWellFormed()
    ensures r.Err? ==> r.error == Runtime && (db.reserves == old(db.reserves) && db.records == old(db.records) && db.nextId == old(db.nextId))
    ensures Marked(old(db.reserves), db.reserves)
    ensures r.Ok? ==> UnprocessedBetween(db.reserves, YearStart(year), YearEnd(year)) == []
    ensures UnprocessedBetween(old(db.reserves), YearStart(year), YearEnd(year)) == [] ==> (db.reserves == old(db.reserves) && db.records == old(db.records) && db.nextId == old(db.nextId))
    ensures r.Ok? ==> fresh(r.value) && r.value.recordDate == YearStart(year) && r.value.periodType == ANUAL
    ensures var u := UnprocessedBetween(old(db.reserves), YearStart(year), YearEnd(year));
      r.Ok? && u != [] ==>
      db.reserves == MarkIds(old(db.reserves), IdsOf(u))
      && SavedRun(old(db.records), db.rooms, YearStart(year), ANUAL, u, false, r.value, db.records)
  {
    r := ProcessRange(db, YearStart(year), ANUAL, YearStart(year), YearEnd(year), now);
  }

  function YearStart(year: int): int { Calendar.EpochDay(Calendar.Civil(year, 1, 1)) }

  function YearEnd(year: int): int { Calendar.EpochDay(Calendar.Civil(year, 12, 31)) }

  /** The body shared by the monthly and the annual run. */
  method ProcessRange(db: Hostel.Database, recordDate: int, p: PeriodType, start: int, end: int, now: nat)
    returns (r: Result<FinancialRecord>)
    requires db.RoomsResolve() && db.RecordsWellFormed()
    modifies db`reserves, db`records, db`nextId
    ensures db.RoomsResolve() && db.RecordsWellFormed()
    ensures r.Err? ==> r.error == Runtime && (db.reserves == old(db.reserves) && db.records == old(db.records) && db.nextId == old(db.nextId))
    ensures Marked(old(db.reserves), db.reserves)
    ensures r.Ok? ==> UnprocessedBetween(db.reserves, start, end) == []
    ensures UnprocessedBetween(old(db.reserves), start, end) == [] ==> (db.reserves == old(db.reserves) && db.records == old(db.records) && db.nextId == old(db.nextId))
    ensures r.Ok? ==> fresh(r.value) && r.value.recordDate == recordDate && r.value.periodType == p
    ensures r.Ok? && UnprocessedBetween(old(db.reserves), start, end) != [] ==>
      var u := UnprocessedBetween(old(db.reserves), start, end);
      db.reserves == MarkIds(old(db.reserves), IdsOf(u))
      && SavedRun(old(db.records), db.rooms, recordDate, p, u, false, r.value, db.records)
  {
    var loaded := LoadOrCreate(db, recordDate, p, now);
    if loaded.Err? {
      return Err(loaded.error);
    }
    var record := loaded.value;
    CountRange(db, record, recordDate, p, start, end, now);
    return Ok(record);
  }

  /** A sub-list of the reservations names only rooms that exist. */
  lemma ResolvedRooms(db: Hostel.Database, rs: seq<Reserve>)
    requires db.RoomsResolve()
    requires forall x :: x in rs ==> x in db.reserves
    ensures forall x :: x in rs ==> Resolves(db.rooms, x.rooms)
  {
    forall x | x in rs ensures Resolves(db.rooms, x.rooms) {
      var i :| 0 <= i < |db.reserves| && db.reserves[i] == x;
    }
  }

  lemma MarkIdsIsMarked(rs: seq<Reserve>, ids: set<nat>)
    ensures Marked(rs, MarkIds(rs, ids))
  {
  }

  /** Marking reservations processed changes none of their rooms. */
  lemma MarkIdsKeepsRooms(rs: seq<Reserve>, ids: set<nat>)
    ensures var m := MarkIds(rs, ids);
            forall i :: 0 <= i < |rs| ==> m[i].rooms == rs[i].rooms
  {
  }

  /** The periods processFinancialRecords runs on `today`. */
  datatype Due = Due(daily: int, monthly: Option<int>, annual: Option<int>)

  /**
   * The gating of `processFinancialRecords`: today always; the previous
   * month only on the first day of a month; the previous year only on
   * January 1.
   */
  function PeriodsDue(today: int): (d: Due)
    ensures d.daily == today
    ensures d.monthly.Some? <==> Calendar.DayOfMonth(today) == 1
    ensures d.monthly.Some? ==> d.monthly.value == Calendar.MinusOneMonth(today)
    ensures d.annual.Some? <==> Calendar.DayOfMonth(today) == 1 && Calendar.MonthValue(today) == 1
    ensures d.annual.Some? ==> d.annual.value == Calendar.Year(today) - 1
    ensures d.annual.Some? ==> d.monthly.Some?
  {
    Due(today,
        if Calendar.DayOfMonth(today) == 1 then Some(Calendar.MinusOneMonth(today)) else None,
        if Calendar.MonthValue(today) == 1 && Calendar.DayOfMonth(today) == 1 then Some(Calendar.Year(today) - 1) else None)
  }

  /** The previous month, when `today` is a first of the month, has nothing left to count. */
  predicate MonthCounted(rs: seq<Reserve>, today: int)
  {
    var due := PeriodsDue(today);
    due.monthly.Some? ==>
      var m := due.monthly.value;
      var range := MonthRange(Calendar.Year(m), Calendar.MonthValue(m));
      UnprocessedBetween(rs, range.0, range.1) == []
  }

  /** The previous year, when `today` is January 1, has nothing left to count. */
  predicate YearCounted(rs: seq<Reserve>, today: int)
  {
    var due := PeriodsDue(today);
    due.annual.Some? ==> UnprocessedBetween(rs, YearStart(due.annual.value), YearEnd(due.annual.value)) == []
  }

  /** The monthly step of processFinancialRecords: the previous month's run, on a first of the month. */
  method MonthlyIfDue(db: Hostel.Database, today: int, now: nat) returns (r: Result<()>)
    requires db.RoomsResolve() && db.RecordsWellFormed()
    modifies db`reserves, db`records, db`nextId
    ensures db.RoomsResolve() && db.RecordsWellFormed()
    ensures Marked(old(db.reserves), db.reserves)
    ensures r.Err? ==> r.error == Runtime
    ensures r.Ok? ==> MonthCounted(db.reserves, today)
    ensures r.Ok? && UnprocessedForDate(old(db.reserves), today) == [] ==> UnprocessedForDate(db.reserves, today) == []
  {
    var due := PeriodsDue(today);
    ghost var before := db.reserves;
    if due.monthly.Some? {
      var monthly := ProcessMonthlyRecord(db, due.monthly.value, now);
      if monthly.Err? {
        return Err(monthly.error);
      }
      if UnprocessedForDate(before, today) == [] {
        MarkedKeepsDateEmpty(before, db.reserves, today);
      }
    }
    return Ok(());
  }

  /** The annual step of processFinancialRecords: the previous year's run, on January 1. */
  method AnnualIfDue(db: Hostel.Database, today: int, now: nat) returns (r: Result<()>)
    requires db.RoomsResolve() && db.RecordsWellFormed()
    modifies db`reserves, db`records, db`nextId
    ensures db.RoomsResolve() && db.RecordsWellFormed()
    ensures Marked(old(db.reserves), db.reserves)
    ensures r.Err? ==> r.error == Runtime
    ensures r.Ok? ==> YearCounted(db.reserves, today)
    ensures r.Ok? && UnprocessedForDate(old(db.reserves), today) == [] ==> UnprocessedForDate(db.reserves, today) == []
    ensures r.Ok? && MonthCounted(old(db.reserves), today) ==> MonthCounted(db.reserves, today)
  {
    var due := PeriodsDue(today);
    ghost var before := db.reserves;
    if due.annual.Some? {
      var annual := ProcessAnnualRecord(db, due.annual.value, now);
      if annual.Err? {
        return Err(annual.error);
      }
      if UnprocessedForDate(before, today) == [] {
        MarkedKeepsDateEmpty(before, db.reserves, today);
      }
      var m := due.monthly.value;
      var range := MonthRange(Calendar.Year(m), Calendar.MonthValue(m));
      if UnprocessedBetween(before, range.0, range.1) == [] {
        MarkedKeepsRangeEmpty(before, db.reserves, range.0, range.1);
      }
    }
    return Ok(());
  }

  /** The transaction rollback of processFinancialRecords: the tables the runs write get their earlier contents back. */
  method Rollback(db: Hostel.Database, reserves0: seq<Reserve>, records0: seq<RecordRow>, nextId0: nat)
    modifies db`reserves, db`records, db`nextId
    ensures db.reserves == reserves0 && db.records == records0 && db.nextId == nextId0
  {
    db.reserves, db.records, db.nextId := reserves0, records0, nextId0;
  }

  /**
   * `processFinancialRecords` on `today`: the daily run, then the runs
   * `PeriodsDue` names, all in one transaction (a failure undoes them all).
   */
  method ProcessFinancialRecords(db: Hostel.Database, today: int, now: nat) returns (r: Result<()>)
    requires db.RoomsResolve() && db.RecordsWellFormed()
    modifies db`reserves, db`records, db`nextId
    ensures db.RoomsResolve() && db.RecordsWellFormed()
    ensures r.Err? ==> r.error == Runtime && db.reserves == old(db.reserves) && db.records == old(db.records)
                       && db.nextId == old(db.nextId)
    ensures Marked(old(db.reserves), db.reserves)
    ensures r.Ok? ==> UnprocessedForDate(db.reserves, today) == []
    ensures r.Ok? ==> MonthCounted(db.reserves, today) && YearCounted(db.reserves, today)
  {
    var reserves0, records0, nextId0 := db.reserves, db.records, db.nextId;
    var daily := ProcessDailyRecord(db, today, now);
    if daily.Err? {
      return Err(daily.error);
    }
    ghost var afterDaily := db.reserves;
    var monthly := MonthlyIfDue(db, today, now);
    if monthly.Err? {
      Rollback(db, reserves0, records0, nextId0);
      return Err(monthly.error);
    }
    MarkedTransitive(reserves0, afterDaily, db.reserves);
    ghost var afterMonthly := db.reserves;
    var annual := AnnualIfDue(db, today, now);
    if annual.Err? {
      Rollback(db, reserves0, records0, nextId0);
      return Err(annual.error);
    }
    MarkedTransitive(reserves0, afterMonthly, db.reserves);
    return Ok(());
  }

  // ---------------------------------------------------------------------
  // Forced and forecast runs.

  /**
   * The tail of the forced and the forecast run: optionally zero the totals
   * and buckets, accumulate without touching the processed flags, derive
   * the metrics and save.
   */
  method RecountAndSave(db: Hostel.Database, record: FinancialRecord, reservations: seq<Reserve>,
                        date: int, now: nat, zero: bool)
    requires record.Valid() && db.RoomsResolve() && db.RecordsWellFormed()
    requires forall x :: x in reservations ==> x in db.reserves
    modifies db`reserves, db`records, db`nextId, record`id
    modifies record`totalRevenue, record`totalReservations, record`totalGuests, record`totalNights
    modifies record`updatedAt, record`averageDailyRate, record`occupancyRate, record`revPAR
    modifies record`roomTypeRevenues
    ensures db.RoomsResolve() && db.RecordsWellFormed()
    ensures db.reserves == old(db.reserves) && record.id.Some?
    ensures record.totalRevenue == (if zero then 0 else old(record.totalRevenue)) + SumOver(reservations, DailyRevenue)
    ensures record.totalReservations == (if zero then 0 else old(record.totalReservations)) + |reservations|
    ensures record.totalGuests == (if zero then 0 else old(record.totalGuests)) + SumOver(reservations, GuestCount)
    ensures record.totalNights == (if zero then 0 else old(record.totalNights)) + SumOver(reservations, RoomCount)
    ensures Saved(db.rooms, record, reservations, old(db.records), old(record.id),
                  if zero then [] else old(record.roomTypeRevenues),
                  (old(record.averageDailyRate), old(record.occupancyRate), old(record.revPAR)), date, DIARIO, db.records)
  {
    ResolvedRooms(db, reservations);
    if zero {
      ResetTotals(record);
    }
    CalculateMetrics(db, record, reservations, date, DIARIO, now, false);
    SaveRecord(db, record);
  }

  /**
   * `forceProcessDate(date)`: counts every confirmed reservation containing
   * `date`, processed or not, into a zeroed day record and saves it; the
   * processed flags are neither read nor written. With nothing to count the
   * loaded (or new) record is returned unsaved. The totals depend only on
   * the reservations, so a second forced run saves the same totals again.
   */
  method ForceProcessDate(db: Hostel.Database, date: int, now: nat) returns (r: Result<FinancialRecord>)
    requires db.RoomsResolve() && db.RecordsWellFormed()
    modifies db`reserves, db`records, db`nextId
    ensures db.RoomsResolve() && db.RecordsWellFormed()
    ensures db.reserves == old(db.reserves)
    ensures r.Err? ==> r.error == Runtime && db.records == old(db.records) && db.nextId == old(db.nextId)
    ensures r.Ok? ==> fresh(r.value) && r.value.recordDate == date && r.value.periodType == DIARIO
    ensures ConfirmedForDate(old(db.reserves), date) == [] ==> db.records == old(db.records) && db.nextId == old(db.nextId)
    ensures r.Ok? && ConfirmedForDate(old(db.reserves), date) != [] ==>
      SavedRun(old(db.records), db.rooms, date, DIARIO, ConfirmedForDate(old(db.reserves), date), true, r.value, db.records)
  {
    var reservations := ConfirmedForDate(db.reserves, date);
    var loaded := LoadOrCreate(db, date, DIARIO, now);
    if loaded.Err? {
      return Err(loaded.error);
    }
    var record := loaded.value;
    if reservations != [] {
      RecountAndSave(db, record, reservations, date, now, true);
    }
    return Ok(record);
  }

  /**
   * `processForecast(date)`: like the forced run, but the counts are added
   * to whatever the stored day record already holds (the record is not
   * zeroed), and the processed flags are left alone.
   */
  method ProcessForecast(db: Hostel.Database, date: int, now: nat) returns (r: Result<FinancialRecord>)
    requires db.RoomsResolve() && db.RecordsWellFormed()
    modifies db`reserves, db`records, db`nextId
    ensures db.RoomsResolve() && db.RecordsWellFormed()
    ensures db.reserves == old(db.reserves)
    ensures r.Err? ==> r.error == Runtime && db.records == old(db.records) && db.nextId == old(db.nextId)
    ensures r.Ok? ==> fresh(r.value) && r.value.recordDate == date && r.value.periodType == DIARIO
    ensures ConfirmedForDate(old(db.reserves), date) == [] ==> db.records == old(db.records) && db.nextId == old(db.nextId)
    ensures r.Ok? && ConfirmedForDate(old(db.reserves), date) != [] ==>
      SavedRun(old(db.records), db.rooms, date, DIARIO, ConfirmedForDate(old(db.reserves), date), false, r.value, db.records)
  {
    var loaded := LoadOrCreate(db, date, DIARIO, now);
    if loaded.Err? {
      return Err(loaded.error);
    }
    var record := loaded.value;
    var reservations := ConfirmedForDate(db.reserves, date);
    if reservations != [] {
      RecountAndSave(db, record, reservations, date, now, false);
    }
    return Ok(record);
  }

  /** `processDate(date, force)`: the forced run when `force`, the ordinary daily run otherwise. */
  method ProcessDate(db: Hostel.Database, date: int, force: bool, now: nat) returns (r: Result<FinancialRecord>)
    requires db.RoomsResolve() && db.RecordsWellFormed()
    modifies db`reserves, db`records, db`nextId
    ensures db.RoomsResolve() && db.RecordsWellFormed()
    ensures force ==> db.reserves == old(db.reserves)
    ensures !force ==> Marked(old(db.reserves), db.reserves)
    ensures !force && r.Ok? ==> UnprocessedForDate(db.reserves, date) == []
    ensures r.Ok? ==> r.value.recordDate == date && r.value.periodType == DIARIO
    ensures r.Err? ==> r.error == Runtime && db.reserves == old(db.reserves) && db.records == old(db.records)
    ensures var u := if force then ConfirmedForDate(old(db.reserves), date) else UnprocessedForDate(old(db.reserves), date);
      u == [] ==> db.reserves == old(db.reserves) && db.records == old(db.records)
    ensures var u := if force then ConfirmedForDate(old(db.reserves), date) else UnprocessedForDate(old(db.reserves), date);
      r.Ok? && u != [] ==>
      db.reserves == (if force then old(db.reserves) else MarkIds(old(db.reserves), IdsOf(u)))
      && SavedRun(old(db.records), db.rooms, date, DIARIO, u, force, r.value, db.records)
  {
    if force {
      r := ForceProcessDate(db, date, now);
    } else {
      r := ProcessDailyRecord(db, date, now);
    }
  }

  // ---------------------------------------------------------------------
  // Resetting and bulk-setting the processed flags.

  /**
   * The loop `setFinancialProcessed(false)` over a list of reservations
   * followed by `saveAll`: every reservation whose id is in `ids` gets the
   * flag false; nothing else changes.
   */
  method ClearProcessedFlags(db: Hostel.Database, ids: set<nat>)
    modifies db`reserves
    ensures db.reserves == UnmarkIds(old(db.reserves), ids)
  {
    ghost var rs0 := db.reserves;
    var k := 0;
    while k < |db.reserves|
      invariant 0 <= k <= |db.reserves| == |rs0|
      invariant forall i :: 0 <= i < k ==> db.reserves[i] == UnmarkIds(rs0, ids)[i]
      invariant forall i :: k <= i < |rs0| ==> db.reserves[i] == rs0[i]
    {
      if db.reserves[k].id in ids {
        db.reserves := db.reserves[k := db.reserves[k].(financialProcessed := Some(false))];
      }
      k := k + 1;
    }
  }

  /** Clearing flags changes no reservation's rooms. */
  lemma UnmarkIdsKeepsRooms(db: Hostel.Database, rs: seq<Reserve>, ids: set<nat>)
    requires db.RoomsResolve() && db.reserves == UnmarkIds(rs, ids)
    ensures forall i :: 0 <= i < |rs| ==> db.reserves[i].rooms == rs[i].rooms
  {
  }

  /** After clearing their flags, the named confirmed reservations of a date are counted again. */
  lemma {:induction false} UnmarkedAreCountedAgain(rs: seq<Reserve>, ids: set<nat>, date: int)
    ensures forall x :: (x in UnmarkIds(rs, ids) && x.id in ids && x.status == Some(CONFIRMED) && date in x.reservedDays)
                        ==> x in UnprocessedForDate(UnmarkIds(rs, ids), date)
  {
    var u := UnmarkIds(rs, ids);
    forall x | x in u && x.id in ids && x.status == Some(CONFIRMED) && date in x.reservedDays
      ensures NotProcessed(x)
    {
      var i :| 0 <= i < |u| && u[i] == x;
      assert rs[i].id == x.id;
    }
  }

  /** `resetAllProcessedFlags`: every confirmed reservation becomes unprocessed. */
  method ResetAllProcessedFlags(db: Hostel.Database)
    requires db.RoomsResolve()
    modifies db`reserves
    ensures db.RoomsResolve()
    ensures db.reserves == UnmarkIds(old(db.reserves), IdsOf(ReserveRepository.FindByReserveStatus(old(db.reserves), CONFIRMED)))
    ensures forall d :: ConfirmedForDate(old(db.reserves), d) != [] ==> UnprocessedForDate(db.reserves, d) != []
  {
    ghost var rs0 := db.reserves;
    var confirmed := ReserveRepository.FindByReserveStatus(db.reserves, CONFIRMED);
    ClearProcessedFlags(db, IdsOf(confirmed));
    UnmarkIdsKeepsRooms(db, rs0, IdsOf(confirmed));
    forall d | ConfirmedForDate(rs0, d) != []
      ensures UnprocessedForDate(db.reserves, d) != []
    {
      var x := ConfirmedForDate(rs0, d)[0];
      var i :| 0 <= i < |rs0| && rs0[i] == x;
      assert x in confirmed;
      UnmarkedAreCountedAgain(rs0, IdsOf(confirmed), d);
      assert db.reserves[i] in UnprocessedForDate(db.reserves, d);
    }
  }

  /** One row of the bulk update: row `k` is flagged when the update selects it, and counted. */
  method MarkRow(db: Hostel.Database, status: ReserveStatus, ghost rs0: seq<Reserve>, ghost target: seq<Reserve>,
                 k: nat, count: nat) returns (next: nat)
    requires k < |db.reserves| == |rs0| == |target|
    requires target == ReserveRepository.MarkProcessed(rs0, status)
    requires forall i :: 0 <= i < k ==> db.reserves[i] == target[i]
    requires forall i :: k <= i < |rs0| ==> db.reserves[i] == rs0[i]
    requires count == Seqs.Count(rs0[..k], ReserveRepository.UpdatedBy(status))
    modifies db`reserves
    ensures |db.reserves| == |rs0|
    ensures forall i :: 0 <= i < k + 1 ==> db.reserves[i] == target[i]
    ensures forall i :: k + 1 <= i < |rs0| ==> db.reserves[i] == rs0[i]
    ensures next == Seqs.Count(rs0[..k + 1], ReserveRepository.UpdatedBy(status))
  {
    Seqs.CountStep(rs0, k, ReserveRepository.UpdatedBy(status));
    next := count;
    if ReserveRepository.MarkedByUpdate(db.reserves[k], status) {
      db.reserves := db.reserves[k := db.reserves[k].(financialProcessed := Some(true))];
      next := count + 1;
    }
  }

  /**
   * `markReservationsAsProcessedByStatus(status)` (and the two identical
   * `markAll...AsProcessed` updates): the flag becomes true on the rows
   * with that status whose flag IS NULL; the number of rows changed is
   * returned.
   */
  method MarkReservationsAsProcessedByStatus(db: Hostel.Database, status: ReserveStatus) returns (count: nat)
    modifies db`reserves
    ensures db.reserves == ReserveRepository.MarkProcessed(old(db.reserves), status)
    ensures count == Seqs.Count(old(db.reserves), ReserveRepository.UpdatedBy(status))
  {
    ghost var rs0 := db.reserves;
    ghost var target := ReserveRepository.MarkProcessed(rs0, status);
    count := 0;
    var k := 0;
    while k < |db.reserves|
      invariant 0 <= k <= |db.reserves| == |rs0| == |target|
      invariant forall i :: 0 <= i < k ==> db.reserves[i] == target[i]
      invariant forall i :: k <= i < |rs0| ==> db.reserves[i] == rs0[i]
      invariant count == Seqs.Count(rs0[..k], ReserveRepository.UpdatedBy(status))
    {
      count := MarkRow(db, status, rs0, target, k, count);
      k := k + 1;
    }
    assert k == |rs0|;
    assert rs0[..k] == rs0;
    assert count == Seqs.Count(rs0, ReserveRepository.UpdatedBy(status));
  }

  /**
   * The bulk update touches no reservation whose flag is already set, and a
   * reservation is created with the flag false: on such a table it changes
   * nothing and reports zero rows.
   */
  lemma {:induction false} MarkUpdateSkipsSetFlags(rs: seq<Reserve>, status: ReserveStatus)
    requires forall i :: 0 <= i < |rs| ==> rs[i].financialProcessed.Some?
    ensures ReserveRepository.MarkProcessed(rs, status) == rs
    ensures Seqs.Count(rs, ReserveRepository.UpdatedBy(status)) == 0
  {
    var m := ReserveRepository.MarkProcessed(rs, status);
    assert |m| == |rs|;
    forall i | 0 <= i < |rs| ensures m[i] == rs[i] {
    }
  }

  /** `markAllReservationsAsProcessed`: the bulk update for confirmed reservations. */
  method MarkAllReservationsAsProcessed(db: Hostel.Database) returns (count: nat)
    modifies db`reserves
    ensures db.reserves == ReserveRepository.MarkProcessed(old(db.reserves), CONFIRMED)
    ensures Marked(old(db.reserves), db.reserves)
  {
    count := MarkReservationsAsProcessedByStatus(db, CONFIRMED);
  }

  // ---------------------------------------------------------------------
  // Reprocessing a range of days.

  /** The daily run over the days from `date` to `end`, both included; stops at the first failure. */
  method ProcessDays(db: Hostel.Database, date: int, end: int, now: nat) returns (r: Result<()>)
    requires db.RoomsResolve() && db.RecordsWellFormed()
    modifies db`reserves, db`records, db`nextId
    ensures db.RoomsResolve() && db.RecordsWellFormed()
    ensures Marked(old(db.reserves), db.reserves)
    ensures r.Err? ==> r.error == Runtime
    ensures r.Ok? ==> forall d :: date <= d <= end ==> UnprocessedForDate(db.reserves, d) == []
    decreases end - date
  {
    if date > end {
      return Ok(());
    }
    var daily := ProcessDailyRecord(db, date, now);
    if daily.Err? {
      return Err(daily.error);
    }
    ghost var mid := db.reserves;
    r := ProcessDays(db, date + 1, end, now);
    MarkedTransitive(old(db.reserves), mid, db.reserves);
    if r.Ok? {
      MarkedKeepsDateEmpty(mid, db.reserves, date);
    }
  }

  /**
   * `reprocessReservations(start, end)`: clears the flag of the confirmed,
   * processed reservations with a night in [start, end], then runs the
   * daily count for each day from start to end; one transaction, so a
   * failure undoes everything. Afterwards no day of the range has anything
   * left to count.
   */
  method ReprocessReservations(db: Hostel.Database, start: int, end: int, now: nat) returns (r: Result<()>)
    requires db.RoomsResolve() && db.RecordsWellFormed()
    modifies db`reserves, db`records, db`nextId
    ensures db.RoomsResolve() && db.RecordsWellFormed()
    ensures r.Err? ==> r.error == Runtime && db.reserves == old(db.reserves) && db.records == old(db.records)
                       && db.nextId == old(db.nextId)
    ensures r.Ok? ==>
      var cleared := UnmarkIds(old(db.reserves),
                               IdsOf(ReserveRepository.FindByStatusProcessedAndDateRange(old(db.reserves), CONFIRMED, true, start, end)));
      Marked(cleared, db.reserves)
    ensures r.Ok? ==> forall d :: start <= d <= end ==> UnprocessedForDate(db.reserves, d) == []
  {
    var reserves0, records0, nextId0 := db.reserves, db.records, db.nextId;
    var toReprocess := ReserveRepository.FindByStatusProcessedAndDateRange(db.reserves, CONFIRMED, true, start, end);
    ClearProcessedFlags(db, IdsOf(toReprocess));
    UnmarkIdsKeepsRooms(db, reserves0, IdsOf(toReprocess));
    r := ProcessDays(db, start, end, now);
    if r.Err? {
      Rollback(db, reserves0, records0, nextId0);
    }
  }
}
