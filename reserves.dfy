/** Reservations, their guests and their price. Money is in cents. */
module Reserves {
  import opened Wrappers
  import opened Enums
  import Calendar
  import Identity

  /** A guest; `None` stands for a null column. */
  datatype Guest = Guest(
    id: nat,
    name: string,
    rg: Option<string>,
    phone: Option<string>,
    email: Option<string>)

  /**
   * A reservation. `rooms` lists the ids of its rooms without repetition;
   * the first of them is the room the services take as "the" room of the
   * reservation (`getRooms().iterator().next()`). Timestamps are opaque.
   */
  datatype Reserve = Reserve(
    id: nat,
    reservedDays: set<int>,
    status: Option<ReserveStatus>,
    checkIn: seq<nat>,
    checkOut: seq<nat>,
    initialValue: Option<int>,
    customValue: Option<int>,
    useCustomValue: Option<bool>,
    financialProcessed: Option<bool>,
    extraGuestFee: int,
    guests: set<nat>,
    rooms: seq<nat>)

  /** The default extra-guest fee, 20.00. */
  const DefaultExtraGuestFee: int := 2000

  /** A reservation as `new Reserve()` leaves it: no days, no links, the field defaults. */
  function NewReserve(id: nat): (r: Reserve)
    ensures r.useCustomValue == Some(false) && r.financialProcessed == Some(false)
    ensures r.extraGuestFee == 2000
    ensures r.reservedDays == {} && r.guests == {} && r.rooms == []
    ensures r.checkIn == [] && r.checkOut == [] && r.status.None?
  {
    Reserve(id, {}, None, [], [], None, None, Some(false), Some(false), DefaultExtraGuestFee, {}, [])
  }

  /** `getNumberOfDays`: the number of reserved nights. */
  function NumberOfDays(r: Reserve): (n: nat)
    ensures n == 0 <==> r.reservedDays == {}
  {
    |r.reservedDays|
  }

  /** `getNumberOfExtraGuests`: guests beyond the first, never negative. */
  function NumberOfExtraGuests(r: Reserve): (n: nat)
    ensures |r.guests| >= 1 ==> n + 1 == |r.guests|
    ensures |r.guests| <= 1 ==> n == 0
  {
    if |r.guests| == 0 then 0 else |r.guests| - 1
  }

  /** True when the custom value overrides the computed one. */
  predicate UsesCustomValue(r: Reserve)
  {
    r.useCustomValue == Some(true) && r.customValue.Some?
  }

  /** The nightly base price; a null initial value counts as zero. */
  function BaseValue(r: Reserve): int
  {
    match r.initialValue
    case None => 0
    case Some(v) => v
  }

  /**
   * `calculateTotalValue`: the custom value when it is switched on and set;
   * otherwise the base price for every night plus the extra-guest fee for
   * every extra guest and every night.
   */
  function CalculateTotalValue(r: Reserve): (total: int)
    ensures UsesCustomValue(r) ==> total == r.customValue.value
    ensures !UsesCustomValue(r) ==>
      total == NumberOfDays(r) * (BaseValue(r) + r.extraGuestFee * NumberOfExtraGuests(r))
  {
    if UsesCustomValue(r) then r.customValue.value
    else
      var days := NumberOfDays(r);
      BaseValue(r) * days + r.extraGuestFee * (NumberOfExtraGuests(r) * days)
  }

  /** Without reserved nights the computed total is zero, whatever the guests and the fee. */
  lemma NoDaysNoValue(r: Reserve)
    requires !UsesCustomValue(r) && r.reservedDays == {}
    ensures CalculateTotalValue(r) == 0
  {
  }

  /** Switching the custom value on without setting it changes nothing. */
  lemma CustomFlagWithoutValueFallsBack(r: Reserve)
    requires r.customValue.None?
    ensures CalculateTotalValue(r.(useCustomValue := Some(true))) == CalculateTotalValue(r.(useCustomValue := Some(false)))
  {
  }

  /** The custom value, when used, ignores nights, guests and fee. */
  lemma CustomValueIgnoresStay(r: Reserve, days: set<int>, guests: set<nat>, fee: int)
    requires UsesCustomValue(r)
    ensures CalculateTotalValue(r.(reservedDays := days, guests := guests, extraGuestFee := fee)) == r.customValue.value
  {
  }

  /** One more guest beyond the first costs the fee once per night. */
  lemma {:induction false} ExtraGuestCostsFeePerNight(r: Reserve, g: nat)
    requires !UsesCustomValue(r) && |r.guests| >= 1 && g !in r.guests
    ensures CalculateTotalValue(r.(guests := r.guests + {g}))
         == CalculateTotalValue(r) + r.extraGuestFee * NumberOfDays(r)
  {
    var r' := r.(guests := r.guests + {g});
    assert |r'.guests| == |r.guests| + 1;
    assert NumberOfExtraGuests(r') == NumberOfExtraGuests(r) + 1;
    var n := NumberOfDays(r);
    calc {
      CalculateTotalValue(r');
      n * (BaseValue(r) + r.extraGuestFee * (NumberOfExtraGuests(r) + 1));
      { assert r.extraGuestFee * (NumberOfExtraGuests(r) + 1)
          == r.extraGuestFee * NumberOfExtraGuests(r) + r.extraGuestFee; }
      n * (BaseValue(r) + r.extraGuestFee * NumberOfExtraGuests(r)) + n * r.extraGuestFee;
    }
  }

  /** One more night costs the nightly price: the base plus the fee for each extra guest. */
  lemma {:induction false} ExtraNightCostsDailyRate(r: Reserve, d: int)
    requires !UsesCustomValue(r) && d !in r.reservedDays
    ensures CalculateTotalValue(r.(reservedDays := r.reservedDays + {d}))
         == CalculateTotalValue(r) + BaseValue(r) + r.extraGuestFee * NumberOfExtraGuests(r)
  {
    var r' := r.(reservedDays := r.reservedDays + {d});
    assert NumberOfDays(r') == NumberOfDays(r) + 1;
    var rate := BaseValue(r) + r.extraGuestFee * NumberOfExtraGuests(r);
    assert (NumberOfDays(r) + 1) * rate == NumberOfDays(r) * rate + rate;
  }

  /** `getCheckInDate`: the earliest reserved night, absent when there is none. */
  ghost function CheckInDate(r: Reserve): (d: Option<int>)
    ensures d.None? <==> r.reservedDays == {}
    ensures d.Some? ==> d.value in r.reservedDays && forall x :: x in r.reservedDays ==> d.value <= x
  {
    if r.reservedDays == {} then None else Some(Calendar.MinDay(r.reservedDays))
  }

  /** `getCheckOutDate`: the latest reserved night, absent when there is none. */
  ghost function CheckOutDate(r: Reserve): (d: Option<int>)
    ensures d.None? <==> r.reservedDays == {}
    ensures d.Some? ==> d.value in r.reservedDays && forall x :: x in r.reservedDays ==> x <= d.value
  {
    if r.reservedDays == {} then None else Some(Calendar.MaxDay(r.reservedDays))
  }

  /** The check-in date never falls after the check-out date; they coincide for one night. */
  lemma CheckInNotAfterCheckOut(r: Reserve)
    requires r.reservedDays != {}
    ensures CheckInDate(r).value <= CheckOutDate(r).value
    ensures |r.reservedDays| == 1 <==> CheckInDate(r) == CheckOutDate(r)
  {
    var lo := CheckInDate(r).value;
    var hi := CheckOutDate(r).value;
    if |r.reservedDays| == 1 {
      var x :| x in r.reservedDays;
      assert |r.reservedDays - {x}| == 0;
      assert lo == x && hi == x;
    }
    if lo == hi {
      assert r.reservedDays == {lo} by {
        forall x | x in r.reservedDays ensures x == lo { }
      }
    }
  }

  /** `Reserve.equals`: by id only. */
  function Equals(a: Reserve, b: Reserve): (r: bool)
    ensures r <==> a.id == b.id
    ensures Identity.IsLong(a.id) && Identity.IsLong(b.id) && r ==>
      Identity.HashCode(Some(a.id)) == Identity.HashCode(Some(b.id))
  {
    Identity.IdEquals(Some(a.id), Some(b.id))
  }
}
