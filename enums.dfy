/**
 * The five enumerations of the hostel model with their integer code tables,
 * the linear-search `valueOf(int)` lookups and the JPA attribute converters
 * that store each enum as its code.
 */
module Enums {
  import opened Wrappers

  datatype RoomType = SHARED | EXCLUSIVE | SUITE | STUDIO | ROOM_SHARED_BATHROOM
  datatype RoomStatus = VAGUE | OCCUPIED
  datatype BedStatus = BedVague | BedOccupied | AVAILABLE | MAINTENANCE | CLEANING | RESERVED
  datatype ReserveStatus = CONFIRMED | CANCELLED
  datatype PeriodType = DIARIO | MENSAL | ANUAL

  /**
   * Linear search of `values()` for the first constant whose code is `code`,
   * as every `valueOf(int)` does.
   */
  function FindByCode<T>(values: seq<T>, codeOf: T -> int, code: int): (r: Option<T>)
    ensures r.Some? ==> r.value in values && codeOf(r.value) == code
    ensures r.None? <==> forall i :: 0 <= i < |values| ==> codeOf(values[i]) != code
    ensures r.Some? ==> exists i :: 0 <= i < |values| && values[i] == r.value &&
                          forall j :: 0 <= j < i ==> codeOf(values[j]) != code
  {
    if values == [] then None
    else if codeOf(values[0]) == code then Some(values[0])
    else
      var r := FindByCode(values[1..], codeOf, code);
      assert r.Some? ==> values[1..] == values[1..] && r.value in values;
      r
  }

  /** The first match of a search over pairwise-distinct codes is the unique constant with that code. */
  lemma {:induction false} FindByCodeOfDistinct<T>(values: seq<T>, codeOf: T -> int, t: T)
    requires t in values
    requires forall i, j :: 0 <= i < j < |values| ==> codeOf(values[i]) != codeOf(values[j])
    ensures FindByCode(values, codeOf, codeOf(t)) == Some(t)
  {
    var i :| 0 <= i < |values| && values[i] == t;
    var r := FindByCode(values, codeOf, codeOf(t));
    var k :| 0 <= k < |values| && values[k] == r.value &&
             forall j :: 0 <= j < k ==> codeOf(values[j]) != codeOf(t);
    assert k == i;
  }

  // ---------------------------------------------------------------- RoomType

  function RoomTypeValues(): seq<RoomType> { [SHARED, EXCLUSIVE, SUITE, STUDIO, ROOM_SHARED_BATHROOM] }

  function RoomTypeCode(t: RoomType): (c: int)
    ensures 1 <= c <= 5
  {
    match t
    case SHARED => 1
    case EXCLUSIVE => 2
    case SUITE => 3
    case STUDIO => 4
    case ROOM_SHARED_BATHROOM => 5
  }

  /** `RoomType.valueOf(int)`: the constant with that code, IllegalArgument otherwise. */
  function RoomTypeOf(code: int): (r: Result<RoomType>)
    ensures r.Ok? <==> 1 <= code <= 5
    ensures r.Ok? ==> RoomTypeCode(r.value) == code
    ensures r.Err? ==> r.error == IllegalArgument
  {
    var found := FindByCode(RoomTypeValues(), RoomTypeCode, code);
    assert 1 <= code <= 5 ==> RoomTypeCode(RoomTypeValues()[code - 1]) == code;
    match found
    case Some(t) => Ok(t)
    case None =>
      Err(IllegalArgument)
  }

  lemma RoomTypeCodesDistinct(a: RoomType, b: RoomType)
    ensures RoomTypeCode(a) == RoomTypeCode(b) ==> a == b
  {}

  lemma RoomTypeRoundTrip(t: RoomType)
    ensures RoomTypeOf(RoomTypeCode(t)) == Ok(t)
  {
    FindByCodeOfDistinct(RoomTypeValues(), RoomTypeCode, t);
  }

  /** RoomTypeConverter.convertToDatabaseColumn. */
  function RoomTypeToColumn(t: Option<RoomType>): (c: Option<int>)
    ensures c.None? <==> t.None?
    ensures t.Some? ==> c.value == RoomTypeCode(t.value)
  {
    match t
    case None => None
    case Some(v) => Some(RoomTypeCode(v))
  }

  /** RoomTypeConverter.convertToEntityAttribute. */
  function RoomTypeFromColumn(c: Option<int>): (r: Result<Option<RoomType>>)
    ensures c.None? ==> r == Ok(None)
    ensures c.Some? ==> (r.Ok? <==> 1 <= c.value <= 5)
    ensures r.Ok? && c.Some? ==> r.value.Some? && RoomTypeCode(r.value.value) == c.value
  {
    match c
    case None => Ok(None)
    case Some(code) =>
      match RoomTypeOf(code)
      case Ok(t) => Ok(Some(t))
      case Err(e) => Err(e)
  }

  lemma RoomTypeColumnRoundTrip(t: Option<RoomType>)
    ensures RoomTypeFromColumn(RoomTypeToColumn(t)) == Ok(t)
  {
    if t.Some? { RoomTypeRoundTrip(t.value); }
  }

  // -------------------------------------------------------------- RoomStatus

  function RoomStatusValues(): seq<RoomStatus> { [VAGUE, OCCUPIED] }

  function RoomStatusCode(s: RoomStatus): (c: int)
    ensures 1 <= c <= 2
  {
    match s
    case VAGUE => 1
    case OCCUPIED => 2
  }

  function RoomStatusOf(code: int): (r: Result<RoomStatus>)
    ensures r.Ok? <==> 1 <= code <= 2
    ensures r.Ok? ==> RoomStatusCode(r.value) == code
    ensures r.Err? ==> r.error == IllegalArgument
  {
    var found := FindByCode(RoomStatusValues(), RoomStatusCode, code);
    assert 1 <= code <= 2 ==> RoomStatusCode(RoomStatusValues()[code - 1]) == code;
    match found
    case Some(s) => Ok(s)
    case None =>
      Err(IllegalArgument)
  }

  lemma RoomStatusCodesDistinct(a: RoomStatus, b: RoomStatus)
    ensures RoomStatusCode(a) == RoomStatusCode(b) ==> a == b
  {}

  lemma RoomStatusRoundTrip(s: RoomStatus)
    ensures RoomStatusOf(RoomStatusCode(s)) == Ok(s)
  {
    FindByCodeOfDistinct(RoomStatusValues(), RoomStatusCode, s);
  }

  function RoomStatusToColumn(s: Option<RoomStatus>): (c: Option<int>)
    ensures c.None? <==> s.None?
    ensures s.Some? ==> c.value == RoomStatusCode(s.value)
  {
    match s
    case None => None
    case Some(v) => Some(RoomStatusCode(v))
  }

  function RoomStatusFromColumn(c: Option<int>): (r: Result<Option<RoomStatus>>)
    ensures c.None? ==> r == Ok(None)
    ensures c.Some? ==> (r.Ok? <==> 1 <= c.value <= 2)
    ensures r.Ok? && c.Some? ==> r.value.Some? && RoomStatusCode(r.value.value) == c.value
  {
    match c
    case None => Ok(None)
    case Some(code) =>
      match RoomStatusOf(code)
      case Ok(s) => Ok(Some(s))
      case Err(e) => Err(e)
  }

  lemma RoomStatusColumnRoundTrip(s: Option<RoomStatus>)
    ensures RoomStatusFromColumn(RoomStatusToColumn(s)) == Ok(s)
  {
    if s.Some? { RoomStatusRoundTrip(s.value); }
  }

  // --------------------------------------------------------------- BedStatus

  function BedStatusValues(): seq<BedStatus>
  {
    [BedVague, BedOccupied, AVAILABLE, MAINTENANCE, CLEANING, RESERVED]
  }

  function BedStatusCode(s: BedStatus): (c: int)
    ensures 1 <= c <= 6
  {
    match s
    case BedVague => 1
    case BedOccupied => 2
    case AVAILABLE => 3
    case MAINTENANCE => 4
    case CLEANING => 5
    case RESERVED => 6
  }

  function BedStatusOf(code: int): (r: Result<BedStatus>)
    ensures r.Ok? <==> 1 <= code <= 6
    ensures r.Ok? ==> BedStatusCode(r.value) == code
    ensures r.Err? ==> r.error == IllegalArgument
  {
    var found := FindByCode(BedStatusValues(), BedStatusCode, code);
    assert 1 <= code <= 6 ==> BedStatusCode(BedStatusValues()[code - 1]) == code;
    match found
    case Some(s) => Ok(s)
    case None =>
      Err(IllegalArgument)
  }

  lemma BedStatusCodesDistinct(a: BedStatus, b: BedStatus)
    ensures BedStatusCode(a) == BedStatusCode(b) ==> a == b
  {}

  lemma BedStatusRoundTrip(s: BedStatus)
    ensures BedStatusOf(BedStatusCode(s)) == Ok(s)
  {
    FindByCodeOfDistinct(BedStatusValues(), BedStatusCode, s);
  }

  function BedStatusToColumn(s: Option<BedStatus>): (c: Option<int>)
    ensures c.None? <==> s.None?
    ensures s.Some? ==> c.value == BedStatusCode(s.value)
  {
    match s
    case None => None
    case Some(v) => Some(BedStatusCode(v))
  }

  function BedStatusFromColumn(c: Option<int>): (r: Result<Option<BedStatus>>)
    ensures c.None? ==> r == Ok(None)
    ensures c.Some? ==> (r.Ok? <==> 1 <= c.value <= 6)
    ensures r.Ok? && c.Some? ==> r.value.Some? && BedStatusCode(r.value.value) == c.value
  {
    match c
    case None => Ok(None)
    case Some(code) =>
      match BedStatusOf(code)
      case Ok(s) => Ok(Some(s))
      case Err(e) => Err(e)
  }

  lemma BedStatusColumnRoundTrip(s: Option<BedStatus>)
    ensures BedStatusFromColumn(BedStatusToColumn(s)) == Ok(s)
  {
    if s.Some? { BedStatusRoundTrip(s.value); }
  }

  // ----------------------------------------------------------- ReserveStatus

  function ReserveStatusValues(): seq<ReserveStatus> { [CONFIRMED, CANCELLED] }

  function ReserveStatusCode(s: ReserveStatus): (c: int)
    ensures 1 <= c <= 2
  {
    match s
    case CONFIRMED => 1
    case CANCELLED => 2
  }

  function ReserveStatusOf(code: int): (r: Result<ReserveStatus>)
    ensures r.Ok? <==> 1 <= code <= 2
    ensures r.Ok? ==> ReserveStatusCode(r.value) == code
    ensures r.Err? ==> r.error == IllegalArgument
  {
    var found := FindByCode(ReserveStatusValues(), ReserveStatusCode, code);
    assert 1 <= code <= 2 ==> ReserveStatusCode(ReserveStatusValues()[code - 1]) == code;
    match found
    case Some(s) => Ok(s)
    case None =>
      Err(IllegalArgument)
  }

  lemma ReserveStatusCodesDistinct(a: ReserveStatus, b: ReserveStatus)
    ensures ReserveStatusCode(a) == ReserveStatusCode(b) ==> a == b
  {}

  lemma ReserveStatusRoundTrip(s: ReserveStatus)
    ensures ReserveStatusOf(ReserveStatusCode(s)) == Ok(s)
  {
    FindByCodeOfDistinct(ReserveStatusValues(), ReserveStatusCode, s);
  }

  function ReserveStatusToColumn(s: Option<ReserveStatus>): (c: Option<int>)
    ensures c.None? <==> s.None?
    ensures s.Some? ==> c.value == ReserveStatusCode(s.value)
  {
    match s
    case None => None
    case Some(v) => Some(ReserveStatusCode(v))
  }

  function ReserveStatusFromColumn(c: Option<int>): (r: Result<Option<ReserveStatus>>)
    ensures c.None? ==> r == Ok(None)
    ensures c.Some? ==> (r.Ok? <==> 1 <= c.value <= 2)
    ensures r.Ok? && c.Some? ==> r.value.Some? && ReserveStatusCode(r.value.value) == c.value
  {
    match c
    case None => Ok(None)
    case Some(code) =>
      match ReserveStatusOf(code)
      case Ok(s) => Ok(Some(s))
      case Err(e) => Err(e)
  }

  lemma ReserveStatusColumnRoundTrip(s: Option<ReserveStatus>)
    ensures ReserveStatusFromColumn(ReserveStatusToColumn(s)) == Ok(s)
  {
    if s.Some? { ReserveStatusRoundTrip(s.value); }
  }

  // -------------------------------------------------------------- PeriodType

  function PeriodTypeValues(): seq<PeriodType> { [DIARIO, MENSAL, ANUAL] }

  function PeriodTypeCode(p: PeriodType): (c: int)
    ensures 1 <= c <= 3
  {
    match p
    case DIARIO => 1
    case MENSAL => 2
    case ANUAL => 3
  }

  function PeriodTypeOf(code: int): (r: Result<PeriodType>)
    ensures r.Ok? <==> 1 <= code <= 3
    ensures r.Ok? ==> PeriodTypeCode(r.value) == code
    ensures r.Err? ==> r.error == IllegalArgument
  {
    var found := FindByCode(PeriodTypeValues(), PeriodTypeCode, code);
    assert 1 <= code <= 3 ==> PeriodTypeCode(PeriodTypeValues()[code - 1]) == code;
    match found
    case Some(p) => Ok(p)
    case None =>
      Err(IllegalArgument)
  }

  lemma PeriodTypeCodesDistinct(a: PeriodType, b: PeriodType)
    ensures PeriodTypeCode(a) == PeriodTypeCode(b) ==> a == b
  {}

  lemma PeriodTypeRoundTrip(p: PeriodType)
    ensures PeriodTypeOf(PeriodTypeCode(p)) == Ok(p)
  {
    FindByCodeOfDistinct(PeriodTypeValues(), PeriodTypeCode, p);
  }

  function PeriodTypeToColumn(p: Option<PeriodType>): (c: Option<int>)
    ensures c.None? <==> p.None?
    ensures p.Some? ==> c.value == PeriodTypeCode(p.value)
  {
    match p
    case None => None
    case Some(v) => Some(PeriodTypeCode(v))
  }

  function PeriodTypeFromColumn(c: Option<int>): (r: Result<Option<PeriodType>>)
    ensures c.None? ==> r == Ok(None)
    ensures c.Some? ==> (r.Ok? <==> 1 <= c.value <= 3)
    ensures r.Ok? && c.Some? ==> r.value.Some? && PeriodTypeCode(r.value.value) == c.value
  {
    match c
    case None => Ok(None)
    case Some(code) =>
      match PeriodTypeOf(code)
      case Ok(p) => Ok(Some(p))
      case Err(e) => Err(e)
  }

  lemma PeriodTypeColumnRoundTrip(p: Option<PeriodType>)
    ensures PeriodTypeFromColumn(PeriodTypeToColumn(p)) == Ok(p)
  {
    if p.Some? { PeriodTypeRoundTrip(p.value); }
  }
}
