/**
 * The bed-occupation controller: the availability of every room's beds
 * over a closed range of days.
 */
module BedOccupationController {
  import opened Calendar
  import Hostel
  import BedOccupationService

  /**
   * generateDateRange: every day from `start` up to and including `end`,
   * one day at a time while the current day is not after the end; nothing
   * when the start is after the end.
   */
  method GenerateDateRange(start: int, end: int) returns (dates: set<int>)
    ensures forall d :: d in dates <==> start <= d <= end
    ensures |dates| == if start <= end then end - start + 1 else 0
    ensures start <= end ==> start in dates && end in dates
    ensures end < start ==> dates == {}
  {
    dates := {};
    var current := start;
    while current <= end
      invariant start <= current
      invariant start <= end ==> current <= end + 1
      invariant end < start ==> current == start
      invariant dates == Span(start, current)
      decreases end - current
    {
      dates := dates + {current};
      current := current + 1;
    }
    SpanMembers(start, current);
    SpanSize(start, current);
  }

  /** getBedAvailability: the availability of every room over the days from `start` to `end`, both included. */
  method GetBedAvailability(db: Hostel.Database, start: int, end: int)
    returns (infos: seq<BedOccupationService.BedAvailabilityInfo>)
    ensures |infos| == |db.rooms|
    ensures forall i :: 0 <= i < |infos| ==>
      infos[i].roomNumber == db.rooms[i].number && (forall d :: d in infos[i].dates <==> start <= d <= end)
    ensures forall i :: 0 <= i < |infos| ==> infos[i].availableBeds <= infos[i].totalBeds
  {
    var dates := GenerateDateRange(start, end);
    infos := BedOccupationService.BedAvailabilityByRoomAndDates(db, dates);
  }
}
