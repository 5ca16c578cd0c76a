# elohostel reservation core in Dafny

This project models the back-end core of elohostel, a Spring hostel-management application:

- reservations of whole rooms and of beds in shared rooms, with their day-by-day occupation ledgers;
- the financial records computed from confirmed reservations;
- the import of Airbnb and Booking.com iCal feeds and the export of the hostel's own reservations as iCal;
- the request validation done by the controllers;
- the integer code tables of the enums.

It proves properties about that model.

## Representation

- A `LocalDate` is an `int` day number. A date range `[lo, hi)` is `Calendar.Span(lo, hi)`. Month and year lengths follow the proleptic Gregorian calendar (`Calendar`).
- A `BigDecimal` amount of money is an `int` number of cents. HALF_UP division is written out in `Money`.
- The JPA repositories are the `seq` fields of one `Hostel.Database` object. The channel tables (AirbnbSync, BookingSync, AirbnbReservation, BookingReservation) live in one `Channels.ChannelStore`. The repository queries are functions over those sequences (`ReserveRepository`, `RoomOccupationRepository`, `BedOccupationRepository`, `BedRepository`, `FinancialRecordRepository`).
- A service method that saves rows is a `method` with `modifies db`. Its `ensures` ties the new tables to a plan function of the old ones. The properties the source relies on are proved as lemmas about the plan: no double booking, rows kept by id, availability, idempotence and round trips.
- An exception is the `Err` side of `Wrappers.Result`, with `ErrorKind` naming its Java class: ResourceNotFoundException, IllegalStateException, IllegalArgumentException, or any other RuntimeException.
- The following arrive as parameters:
  - clock readings (`today`, `now` and the clock text the generated guest fields embed);
  - the text of a fetched iCal feed (`Option<string>`, `None` when the fetch fails);
  - the answer of a connection test (`reachable`);
  - the random UUID of an export token.
- A Java `Set`/`HashSet` whose iteration order matters is modelled by a `seq` in table order. An order-free use is modelled by a `set`.

## Modules

| module | models |
|---|---|
| `Wrappers`, `Seqs`, `Text`, `Calendar`, `Money`, `Identity` | results, sequence search, string operations, dates, cents, JPA id-based equality |
| `Enums` | RoomType, RoomStatus, BedStatus, ReserveStatus and PeriodType code tables and their converters |
| `Rooms`, `Reserves`, `Occupations`, `FinancialRecords` | the entities Room, Reserve, RoomOccupation, BedOccupation, FinancialRecord and RoomTypeRevenue |
| `ReserveRepository`, `RoomOccupationRepository`, `BedOccupationRepository`, `BedRepository`, `FinancialRecordRepository` | the repository queries |
| `Hostel`, `Allocation` | the database object, lookups, and the room/bed ledger rules |
| `ReserveService`, `BedOccupationService`, `RoomService`, `FinancialService` | the services |
| `ICal`, `AirbnbICal`, `BookingICal` | iCal feed parsing and import |
| `ICalExport`, `CalendarExport` | iCal export and its export URL and token |
| `Channels`, `SyncResponses`, `AirbnbBidirectional`, `BookingBidirectional`, `AirbnbConnection` | channel sync records and the bidirectional and connection controllers |
| `BedOccupationController`, `ReserveController` | the remaining controller logic |

## Model

| member | source | states |
|---|---|---|
| Enums.FindByCode | src/main/java/com/br/elohostel/model/enums/RoomType.java:21-28 | the linear search of the constant table every valueOf(int) performs: a found constant is in the table and has the code; nothing is found iff no constant has it; the result is the first match in table order |
| Enums.FindByCodeOfDistinct | src/main/java/com/br/elohostel/model/enums/RoomType.java:5-9 | over a table of pairwise-distinct codes the search for a constant's own code finds exactly that constant |
| Enums.RoomTypeCode | src/main/java/com/br/elohostel/model/enums/RoomType.java:5-19 | every room type's code lies in 1..5 (SHARED=1, EXCLUSIVE=2, SUITE=3, STUDIO=4, ROOM_SHARED_BATHROOM=5) |
| Enums.RoomTypeOf | src/main/java/com/br/elohostel/model/enums/RoomType.java:21-28 | valueOf succeeds iff the code is in 1..5, returns the constant with that code, and fails with IllegalArgument otherwise |
| Enums.RoomTypeCodesDistinct | src/main/java/com/br/elohostel/model/enums/RoomType.java:5-9 | two room types with the same code are the same type |
| Enums.RoomTypeRoundTrip | src/main/java/com/br/elohostel/model/enums/RoomType.java:17-28 | valueOf(getCode(t)) == t for every room type |
| Enums.RoomTypeToColumn | src/main/java/com/br/elohostel/model/enums/RoomTypeConverter.java:9-15 | a null attribute maps to a null column, any other to its code |
| Enums.RoomTypeFromColumn | src/main/java/com/br/elohostel/model/enums/RoomTypeConverter.java:17-23 | a null column maps to a null attribute; a non-null one succeeds iff it is in 1..5 and yields the type with that code |
| Enums.RoomTypeColumnRoundTrip | src/main/java/com/br/elohostel/model/enums/RoomTypeConverter.java:9-23 | reading back a written column gives the original attribute, null included |
| Enums.RoomStatusCode | src/main/java/com/br/elohostel/model/enums/RoomStatus.java:5-16 | every room status's code lies in 1..2 (VAGUE=1, OCCUPIED=2) |
| Enums.RoomStatusOf | src/main/java/com/br/elohostel/model/enums/RoomStatus.java:18-25 | valueOf succeeds iff the code is in 1..2, returns the status with that code, IllegalArgument otherwise |
| Enums.RoomStatusCodesDistinct | src/main/java/com/br/elohostel/model/enums/RoomStatus.java:5-6 | two room statuses with the same code are equal |
| Enums.RoomStatusRoundTrip | src/main/java/com/br/elohostel/model/enums/RoomStatus.java:14-25 | valueOf(getCode(s)) == s |
| Enums.RoomStatusToColumn | src/main/java/com/br/elohostel/model/enums/RoomStatusConverter.java:9-15 | null to null, otherwise the code |
| Enums.RoomStatusFromColumn | src/main/java/com/br/elohostel/model/enums/RoomStatusConverter.java:17-23 | null to null; a code succeeds iff in 1..2 and yields the status with that code |
| Enums.RoomStatusColumnRoundTrip | src/main/java/com/br/elohostel/model/enums/RoomStatusConverter.java:9-23 | the converter round trip is the identity, null included |
| Enums.BedStatusCode | src/main/java/com/br/elohostel/model/enums/BedStatus.java:5-20 | every bed status's code lies in 1..6 (VAGUE=1 … RESERVED=6) |
| Enums.BedStatusOf | src/main/java/com/br/elohostel/model/enums/BedStatus.java:22-29 | valueOf succeeds iff the code is in 1..6, returns the status with that code, IllegalArgument otherwise |
| Enums.BedStatusCodesDistinct | src/main/java/com/br/elohostel/model/enums/BedStatus.java:5-10 | two bed statuses with the same code are equal |
| Enums.BedStatusRoundTrip | src/main/java/com/br/elohostel/model/enums/BedStatus.java:18-29 | valueOf(getCode(s)) == s |
| Enums.BedStatusToColumn | src/main/java/com/br/elohostel/model/enums/BedStatusConverter.java:9-15 | null to null, otherwise the code |
| Enums.BedStatusFromColumn | src/main/java/com/br/elohostel/model/enums/BedStatusConverter.java:17-23 | null to null; a code succeeds iff in 1..6 and yields the status with that code |
| Enums.BedStatusColumnRoundTrip | src/main/java/com/br/elohostel/model/enums/BedStatusConverter.java:9-23 | the converter round trip is the identity, null included |
| Enums.ReserveStatusCode | src/main/java/com/br/elohostel/model/enums/ReserveStatus.java:5-16 | every reservation status's code lies in 1..2 (CONFIRMED=1, CANCELLED=2) |
| Enums.ReserveStatusOf | src/main/java/com/br/elohostel/model/enums/ReserveStatus.java:18-25 | valueOf succeeds iff the code is in 1..2, returns the status with that code, IllegalArgument otherwise |
| Enums.ReserveStatusCodesDistinct | src/main/java/com/br/elohostel/model/enums/ReserveStatus.java:5-6 | two reservation statuses with the same code are equal |
| Enums.ReserveStatusRoundTrip | src/main/java/com/br/elohostel/model/enums/ReserveStatus.java:14-25 | valueOf(getCode(s)) == s |
| Enums.ReserveStatusToColumn | src/main/java/com/br/elohostel/model/enums/ReserveStatusConverter.java:9-15 | null to null, otherwise the code |
| Enums.ReserveStatusFromColumn | src/main/java/com/br/elohostel/model/enums/ReserveStatusConverter.java:17-23 | null to null; a code succeeds iff in 1..2 and yields the status with that code |
| Enums.ReserveStatusColumnRoundTrip | src/main/java/com/br/elohostel/model/enums/ReserveStatusConverter.java:9-23 | the converter round trip is the identity, null included |
| Enums.PeriodTypeCode | src/main/java/com/br/elohostel/model/enums/PeriodType.java:5-17 | every period type's code lies in 1..3 (DIARIO=1, MENSAL=2, ANUAL=3) |
| Enums.PeriodTypeOf | src/main/java/com/br/elohostel/model/enums/PeriodType.java:19-26 | valueOf succeeds iff the code is in 1..3, returns the type with that code, IllegalArgument otherwise |
| Enums.PeriodTypeCodesDistinct | src/main/java/com/br/elohostel/model/enums/PeriodType.java:5-7 | two period types with the same code are equal |
| Enums.PeriodTypeRoundTrip | src/main/java/com/br/elohostel/model/enums/PeriodType.java:15-26 | valueOf(getCode(p)) == p |
| Enums.PeriodTypeToColumn | src/main/java/com/br/elohostel/model/enums/PeriodTypeConverter.java:9-15 | null to null, otherwise the code |
| Enums.PeriodTypeFromColumn | src/main/java/com/br/elohostel/model/enums/PeriodTypeConverter.java:17-23 | null to null; a code succeeds iff in 1..3 and yields the type with that code |
| Enums.PeriodTypeColumnRoundTrip | src/main/java/com/br/elohostel/model/enums/PeriodTypeConverter.java:9-23 | the converter round trip is the identity, null included |
| Calendar.LengthOfMonthAt | src/main/java/com/br/elohostel/service/FinancialRecordService.java:299 | the length of the month holding a day lies in 28..31, February's being 29 exactly in a leap year (via Calendar.MonthLength) |
| Calendar.LengthOfYearAt | src/main/java/com/br/elohostel/service/FinancialRecordService.java:301 | the length of the year holding a day is 365 or 366, 366 exactly in a leap year (via Calendar.YearLength) |
| Calendar.MonthLength | src/main/java/com/br/elohostel/service/FinancialRecordService.java:299 | a proleptic Gregorian month has 28..31 days; February has 29 iff the year is a leap year |
| Calendar.YearLength | src/main/java/com/br/elohostel/service/FinancialRecordService.java:301 | a year has 366 days iff it is a leap year, 365 otherwise |
| Calendar.DatesBetween | src/main/java/com/br/elohostel/service/ReserveService.java:998-1008 | the loop adds exactly the days d with start <= d < end, end-exclusive: end - start days, none when end <= start |
| Calendar.SpanMembers | src/main/java/com/br/elohostel/service/ReserveService.java:998-1008 | the days the getDatesBetween loop gathers are exactly lo..hi-1 |
| Calendar.SpanSize | src/main/java/com/br/elohostel/service/ReserveService.java:998-1008 | that set has hi - lo members, none when hi <= lo |
| Calendar.MinDay | src/main/java/com/br/elohostel/model/Reserve.java:190-197 | the earliest day of a non-empty set is a member and no later than any member |
| Calendar.MaxDay | src/main/java/com/br/elohostel/model/Reserve.java:199-206 | the latest day of a non-empty set is a member and no earlier than any member |
| Money.HalfUpDiv | src/main/java/com/br/elohostel/service/FinancialRecordService.java:199-200 | BigDecimal division rounded HALF_UP: the quotient is nearest to a / b, a tie going away from zero, and keeps the sign of a |
| Money.HalfUpDivExact | src/main/java/com/br/elohostel/service/FinancialRecordService.java:199-200 | an exact quotient is returned unrounded |
| Identity.ToInt | src/main/java/com/br/elohostel/model/Reserve.java:245-251 | the Java (int) narrowing: a 32-bit value congruent to its argument modulo 2^32, unchanged when already in int range |
| Identity.Xor | src/main/java/com/br/elohostel/model/Reserve.java:248 | bitwise exclusive or of n-bit naturals stays below 2^n, is the identity with 0 and is 0 on equal arguments |
| Identity.LongHashCode | src/main/java/com/br/elohostel/model/Reserve.java:248 | Long.hashCode is an int and is the value itself for a non-negative value below 2^31 |
| Identity.IdEquals | src/main/java/com/br/elohostel/model/Reserve.java:253-267 | equality by id: true iff both ids are equal, so two null ids are equal and null never equals non-null |
| Identity.HashCode | src/main/java/com/br/elohostel/model/Reserve.java:245-251 | 31 * 1 + (id == null ? 0 : id.hashCode()) as an int: 31 for a null id, 31 + id for a small id |
| Identity.HashCodeConsistent | src/main/java/com/br/elohostel/model/Reserve.java:245-267 | equal entities (by id) have equal hash codes |
| Rooms.ExactlyOneTypePredicate | src/main/java/com/br/elohostel/model/Room.java:112-130 | for a room with a type exactly one of isExclusiveRoom, isSharedRoom, isSuite, isStudio, isSharedBathroom holds; none holds without a type |
| Rooms.IsAnyExclusiveType | src/main/java/com/br/elohostel/model/Room.java:144-146 | holds iff the room has a type other than SHARED, and then the room is not shared |
| Rooms.RoomTypeDescription | src/main/java/com/br/elohostel/model/Room.java:148-157 | every type has a non-empty label; a room without a type fails (the switch on null throws) |
| Rooms.DescriptionsDistinct | src/main/java/com/br/elohostel/model/Room.java:148-157 | two typed rooms have the same label iff they have the same type |
| Rooms.Equals | src/main/java/com/br/elohostel/model/Room.java:159-182 | rooms are equal iff their ids are, and equal rooms have equal hash codes |
| Rooms.BedEquals | src/main/java/com/br/elohostel/model/Room.java:41 | beds (members of a room's bed set) are equal iff their ids are |
| Rooms.BedsOfRoom | src/main/java/com/br/elohostel/model/Room.java:104-106 | the beds of a room are exactly the beds linked to it |
| Reserves.NewReserve | src/main/java/com/br/elohostel/model/Reserve.java:42-88 | a new reservation has no days, guests, rooms or check-in/check-out stamps, useCustomValue = false, financialProcessed = false and extraGuestFee = 20.00 |
| Reserves.NumberOfDays | src/main/java/com/br/elohostel/model/Reserve.java:236-238 | getNumberOfDays is the number of reserved days, zero iff there are none |
| Reserves.NumberOfExtraGuests | src/main/java/com/br/elohostel/model/Reserve.java:240-242 | max(0, guests - 1): one less than the guest count when there is a guest, zero otherwise |
| Reserves.CalculateTotalValue | src/main/java/com/br/elohostel/model/Reserve.java:220-234 | the custom value when it is switched on and set; otherwise days x (base + fee x extra guests), a null base counting as 0 |
| Reserves.NoDaysNoValue | src/main/java/com/br/elohostel/model/Reserve.java:225-233 | with no reserved days the computed total is 0 whatever the guests and fee |
| Reserves.CustomFlagWithoutValueFallsBack | src/main/java/com/br/elohostel/model/Reserve.java:221-233 | useCustomValue = true with a null customValue gives the computed total |
| Reserves.CustomValueIgnoresStay | src/main/java/com/br/elohostel/model/Reserve.java:221-223 | a used custom value is returned unchanged whatever the days, guests and fee |
| Reserves.ExtraGuestCostsFeePerNight | src/main/java/com/br/elohostel/model/Reserve.java:225-233 | adding a guest beyond the first adds the fee once per reserved day |
| Reserves.ExtraNightCostsDailyRate | src/main/java/com/br/elohostel/model/Reserve.java:225-233 | adding a day adds the base plus the fee for each extra guest |
| Reserves.CheckInDate | src/main/java/com/br/elohostel/model/Reserve.java:189-196 | absent iff there are no reserved days, otherwise the earliest reserved day |
| Reserves.CheckOutDate | src/main/java/com/br/elohostel/model/Reserve.java:198-205 | absent iff there are no reserved days, otherwise the latest reserved day |
| Reserves.CheckInNotAfterCheckOut | src/main/java/com/br/elohostel/model/Reserve.java:189-205 | check-in <= check-out, equal exactly for a one-day reservation |
| Reserves.Equals | src/main/java/com/br/elohostel/model/Reserve.java:244-267 | reservations are equal iff their ids are, and equal ones have equal hash codes |
| Occupations.NewRoomOccupation | src/main/java/com/br/elohostel/model/RoomOccupation.java:39-42 | a new whole-room ledger entry has no occupied days |
| Occupations.NewBedOccupation | src/main/java/com/br/elohostel/model/BedOccupation.java:39-41 | a new bed ledger entry has no occupied days |
| Occupations.StartDate | src/main/java/com/br/elohostel/model/RoomOccupation.java:72-74 | getStartDate is absent iff there are no days, otherwise the earliest occupied day |
| Occupations.EndDate | src/main/java/com/br/elohostel/model/RoomOccupation.java:76-78 | getEndDate is absent iff there are no days, otherwise the latest occupied day |
| Occupations.StartNotAfterEnd | src/main/java/com/br/elohostel/model/RoomOccupation.java:72-78 | start and end are both present or both absent, and start <= end |
| Occupations.SetBed | src/main/java/com/br/elohostel/model/BedOccupation.java:55-57 | setBed changes the bed and nothing else |
| Occupations.SetReserve | src/main/java/com/br/elohostel/model/BedOccupation.java:63-65 | setReserve changes the reservation and nothing else |
| Occupations.SetBedRoundTrip | src/main/java/com/br/elohostel/model/BedOccupation.java:51-65 | setting the current bed or reservation changes nothing; a second set overrides the first |
| Occupations.RoomOccupationEquals | src/main/java/com/br/elohostel/model/RoomOccupation.java:80-103 | whole-room entries are equal iff their ids are |
| Occupations.BedOccupationEquals | src/main/java/com/br/elohostel/model/BedOccupation.java:71-94 | bed entries are equal iff their ids are, and equal entries have equal hash codes |
| RoomOccupationRepository.FindConflicts | src/main/java/com/br/elohostel/repository/RoomOccupationRepository.java:22-24 | exactly the room's entries sharing a day with the dates; none for an empty date set |
| RoomOccupationRepository.ExistsConflictForRoomAndDates | src/main/java/com/br/elohostel/repository/RoomOccupationRepository.java:47-49 | holds iff findConflicts is non-empty, i.e. some entry of the room shares a day with the dates |
| RoomOccupationRepository.IsRoomAvailableForDates | src/main/java/com/br/elohostel/repository/RoomOccupationRepository.java:54-56 | the negation of existsConflictForRoomAndDates: every entry of the room is disjoint from the dates |
| RoomOccupationRepository.FindByRoomAndDate | src/main/java/com/br/elohostel/repository/RoomOccupationRepository.java:29-31 | exactly the room's entries holding the date |
| RoomOccupationRepository.SingleDateIsConflictOnSingleton | src/main/java/com/br/elohostel/repository/RoomOccupationRepository.java:22-31 | the single-date query is findConflicts on the one-day set |
| RoomOccupationRepository.FindConflictsBetween | src/main/java/com/br/elohostel/repository/RoomOccupationRepository.java:36-40 | exactly the room's entries with a day in the closed interval [start, end] |
| RoomOccupationRepository.BetweenIsClosedInterval | src/main/java/com/br/elohostel/repository/RoomOccupationRepository.java:22-40 | findConflictsBetween is findConflicts on the days start..end inclusive |
| RoomOccupationRepository.FindByReserve | src/main/java/com/br/elohostel/repository/RoomOccupationRepository.java:42 | exactly the entries of the reservation |
| RoomOccupationRepository.FindAllByRoom | src/main/java/com/br/elohostel/repository/RoomOccupationRepository.java:61-62 | exactly the entries of the room |
| RoomOccupationRepository.FindByDate | src/main/java/com/br/elohostel/repository/RoomOccupationRepository.java:67-68 | exactly the entries holding the date |
| BedOccupationRepository.FindConflicts | src/main/java/com/br/elohostel/repository/BedOccupationRepository.java:24-26 | exactly the bed's entries sharing a day with the dates; none for an empty date set |
| BedOccupationRepository.ExistsByBedAndOccupiedDaysIn | src/main/java/com/br/elohostel/repository/BedOccupationRepository.java:40-75 | holds iff findConflicts is non-empty |
| BedOccupationRepository.IsBedAvailableForDates | src/main/java/com/br/elohostel/repository/BedOccupationRepository.java:83-85 | the negation of existsByBedAndOccupiedDaysIn: every entry of the bed is disjoint from the dates |
| BedOccupationRepository.FindByBedAndDate | src/main/java/com/br/elohostel/repository/BedOccupationRepository.java:31-33 | exactly the bed's entries holding the date |
| BedOccupationRepository.FindByReserve | src/main/java/com/br/elohostel/repository/BedOccupationRepository.java:35 | all and only the entries of the reservation |
| BedOccupationRepository.FindByBed | src/main/java/com/br/elohostel/repository/BedOccupationRepository.java:67-91 | exactly the entries of the bed |
| BedOccupationRepository.FindByOccupiedDaysIn | src/main/java/com/br/elohostel/repository/BedOccupationRepository.java:48-50 | exactly the entries sharing a day with the dates |
| BedOccupationRepository.FindByOccupiedDaysBetween | src/main/java/com/br/elohostel/repository/BedOccupationRepository.java:55-58 | exactly the entries with a day in the closed interval [start, end] |
| BedOccupationRepository.BetweenIsClosedInterval | src/main/java/com/br/elohostel/repository/BedOccupationRepository.java:48-58 | the between query is the set query on the days start..end inclusive |
| BedOccupationRepository.FindByDate | src/main/java/com/br/elohostel/repository/BedOccupationRepository.java:63-64 | exactly the entries holding the date |
| BedOccupationRepository.FindByReserveAndRoom | src/main/java/com/br/elohostel/repository/BedOccupationRepository.java:77-78 | an entry found belongs to the reservation and to a bed of the room; none iff no such entry exists; more than one such entry is an error (a non-unique Optional result) |
| BedRepository.FindByRoom | src/main/java/com/br/elohostel/repository/BedRepository.java:19-62 | exactly the beds of the room |
| BedRepository.FindByRoomAndBedStatus | src/main/java/com/br/elohostel/repository/BedRepository.java:21-67 | exactly the room's beds with the status |
| BedRepository.FindByBedStatus | src/main/java/com/br/elohostel/repository/BedRepository.java:72 | exactly the beds with the status |
| BedRepository.CountByRoomAndStatus | src/main/java/com/br/elohostel/repository/BedRepository.java:77-78 | the number of the room's beds with the status, at most the room's bed count |
| BedRepository.FindBedsInRoomByStatus | src/main/java/com/br/elohostel/repository/BedRepository.java:38-46 | exactly the room's beds with the status and no entry sharing a day with the dates |
| BedRepository.FindAvailableBedsInRoom | src/main/java/com/br/elohostel/repository/BedRepository.java:26-33 | exactly the room's VAGUE beds with no conflicting entry; equal to findBedsInRoomByStatus(VAGUE) |
| BedRepository.FindUnoccupiedBedsInRoom | src/main/java/com/br/elohostel/repository/BedRepository.java:51-57 | exactly the room's beds with no conflicting entry, whatever their status |
| BedRepository.AvailableWithinUnoccupied | src/main/java/com/br/elohostel/repository/BedRepository.java:26-57 | every available bed is unoccupied, so there are no more available beds than unoccupied ones |
| BedRepository.CountAvailableBedsInRoom | src/main/java/com/br/elohostel/repository/BedRepository.java:83-102 | the count equals the length of the available-and-unoccupied list and is at most the room's bed count |
| BedRepository.IsBedAvailable | src/main/java/com/br/elohostel/repository/BedRepository.java:107-114 | holds iff the bed exists, is VAGUE and has no entry sharing a day with the dates |
| ReserveRepository.FindByReserveStatus | src/main/java/com/br/elohostel/repository/ReserveRepository.java:16 | exactly the reservations with the status |
| ReserveRepository.FindByStatusAndDaysBetween | src/main/java/com/br/elohostel/repository/ReserveRepository.java:18-24 | the reservations with the status and some reserved day in [start, end] |
| ReserveRepository.FindByStatusProcessedAndDateRange | src/main/java/com/br/elohostel/repository/ReserveRepository.java:26-34 | the previous query narrowed to reservations whose financialProcessed flag equals the argument (a null flag equals neither) |
| ReserveRepository.FindByStatusAndDate | src/main/java/com/br/elohostel/repository/ReserveRepository.java:44-48 | the reservations with the status holding the date |
| ReserveRepository.FindByStatusAndDateContains | src/main/java/com/br/elohostel/repository/ReserveRepository.java:54-59 | the reservations with the status some of whose days is the date |
| ReserveRepository.DateQueriesAgree | src/main/java/com/br/elohostel/repository/ReserveRepository.java:44-59 | the two single-date queries select the same reservations |
| ReserveRepository.MarkProcessed | src/main/java/com/br/elohostel/repository/ReserveRepository.java:36-52 | the bulk update sets the flag to true exactly on rows with the status whose flag IS NULL; rows already false or true are untouched |
| Hostel.Database.constructor | src/main/java/com/br/elohostel/service/ReserveService.java:53-61 | the repositories start empty, with no room or bed held twice |
| Hostel.ReserveById | src/main/java/com/br/elohostel/service/ReserveService.java:67-70 | findById: the row with the id, NotFound iff no row has it |
| Hostel.RoomById | src/main/java/com/br/elohostel/service/RoomService.java:46-49 | findById: the first row with the id, NotFound iff no row has it |
| Hostel.BedById | src/main/java/com/br/elohostel/service/BedOccupationService.java:94-96 | the bed row an entry points at: the first row with the id, NotFound iff none |
| Hostel.RoomByNumber | src/main/java/com/br/elohostel/service/ReserveService.java:88-89 | findByNumber(...).orElseThrow: a room with the number; NotFound iff no room has it; a runtime failure when several do (a non-unique Optional result) |
| Hostel.GuestByName | src/main/java/com/br/elohostel/service/ReserveService.java:129 | findByName: a guest with the name, none iff no guest has it, a runtime failure when several do |
| Hostel.ExistingGuestByName | src/main/java/com/br/elohostel/service/ReserveService.java:370-372 | the same lookup with a missing guest reported as NotFound |
| Hostel.RoomByIdKeptByStatus | src/main/java/com/br/elohostel/service/ReserveService.java:827-921 | changing room statuses (check-in/checkout) moves no room: the lookup by id is unchanged |
| Hostel.BedByIdKeptByStatus | src/main/java/com/br/elohostel/service/BedOccupationService.java:85-96 | changing bed statuses moves no bed: the lookup by id is unchanged |
| Hostel.WithRoomStatus | src/main/java/com/br/elohostel/service/ReserveService.java:838-840 | setRoomStatus on one row: that row gets the status, every other row is unchanged |
| Hostel.WithBedStatus | src/main/java/com/br/elohostel/service/BedOccupationService.java:85-86 | setBedStatus on one row: that row gets the status, every other row is unchanged |
| Allocation.LedgerOf | src/main/java/com/br/elohostel/service/ReserveService.java:176-218 | EXCLUSIVE, ROOM_SHARED_BATHROOM, STUDIO and SUITE use the whole-room ledger, SHARED the per-bed ledger, a room without a type neither |
| Allocation.AppendRoomEntry | src/main/java/com/br/elohostel/service/ReserveService.java:176-203 | an entry whose dates passed the room conflict test keeps the room ledger free of double bookings |
| Allocation.AppendBedEntry | src/main/java/com/br/elohostel/service/ReserveService.java:186-216 | an entry on a bed with no conflicting entry keeps the bed ledger free of double bookings |
| Allocation.RemovingRoomEntries | src/main/java/com/br/elohostel/service/ReserveService.java:510-513 | deleting room entries never creates a double booking |
| Allocation.RemovingBedEntries | src/main/java/com/br/elohostel/service/ReserveService.java:515-516 | deleting bed entries never creates a double booking |
| Allocation.FirstFreeBed | src/main/java/com/br/elohostel/service/ReserveService.java:205-262 | the first bed of the room in table order with no entry sharing a day with the dates (and VAGUE when createReserve asks for it); none iff no bed qualifies, a room with no beds included |
| Allocation.FreeBedCount | src/main/java/com/br/elohostel/service/ReserveService.java:186-193 | the count of free beds is zero iff there is no free bed to pick |
| Allocation.FirstBedFreeOnDate | src/main/java/com/br/elohostel/service/ReserveService.java:673-732 | findAvailableBedForDate: the first bed of the room no other reservation holds on the day; none iff there is no such bed |
| Allocation.FirstRoomEntryOf | src/main/java/com/br/elohostel/service/ReserveService.java:691-693 | the first room entry of the reservation in table order, none iff it has none |
| Allocation.FirstBedEntryOf | src/main/java/com/br/elohostel/service/ReserveService.java:706-708 | the first bed entry of the reservation in table order, none iff it has none |
| Allocation.GrowingRoomLedger | src/main/java/com/br/elohostel/service/ReserveService.java:690-702 | growing entries in place or appending one keeps every night the reservation held in the room ledger |
| Allocation.GrowingBedLedger | src/main/java/com/br/elohostel/service/ReserveService.java:704-724 | the same for the bed ledger, even when an entry changes bed |
| Allocation.AddDayToRoomLedger | src/main/java/com/br/elohostel/service/ReserveService.java:690-702 | updateRoomOccupationForNewDate: the reservation's first entry gains the day, or a new entry on its first room holding only that day is appended; nothing else changes |
| Allocation.AddDayKeepsRoomLedgerDisjoint | src/main/java/com/br/elohostel/service/ReserveService.java:651-702 | when no other reservation holds the room on the day, adding the day keeps the room ledger free of double bookings |
| Allocation.AddDayToBedLedger | src/main/java/com/br/elohostel/service/ReserveService.java:704-732 | updateBedOccupationForNewDate: the first entry (or a new one on the first bed free that day) gains the day, moving the WHOLE entry to the first free bed when its bed is taken that day; IllegalState when no bed is free |
| Allocation.BedMoveCanDoubleBook | src/main/java/com/br/elohostel/service/ReserveService.java:717-720 | a concrete ledger where moving the whole entry to a bed checked only for the new day double-books that bed |
| ReserveService.ValidateNewDate | src/main/java/com/br/elohostel/service/ReserveService.java:627-637 | a day passes iff today <= d <= today plus one year; a failure is IllegalArgument |
| ReserveService.ValidateDates | src/main/java/com/br/elohostel/service/ReserveService.java:978-996 | passes iff both dates are given and today <= check-in < check-out <= today plus one year; a failure is IllegalArgument |
| ReserveService.ValidStayNightsAreAddable | src/main/java/com/br/elohostel/service/ReserveService.java:978-996 | a stay that passes validateDates has at least one night and every night would pass validateNewDate |
| ReserveService.PlaceStay | src/main/java/com/br/elohostel/service/ReserveService.java:176-216 | a whole-room unit is placed iff the room ledger has no entry of the room sharing a day with the dates; a shared room iff some bed is free (VAGUE too for createReserve), on the first such bed; a room without a type needs no entry; a failure is IllegalState |
| ReserveService.RecordStay | src/main/java/com/br/elohostel/service/ReserveService.java:197-216 | createOccupations appends one entry holding exactly the dates, in the ledger the placement names, and keeps both ledgers free of double bookings |
| ReserveService.NewBooking | src/main/java/com/br/elohostel/service/ReserveService.java:93-101 | the saved reservation is CONFIRMED, holds exactly the dates, the guests and the one room, has initialValue = room price, useCustomValue = false and no custom value |
| ReserveService.NewBookingPrice | src/main/java/com/br/elohostel/service/ReserveService.java:93-101 | a new reservation's total is days x (room price + 20.00 x extra guests) |
| ReserveService.PlanStay | src/main/java/com/br/elohostel/service/ReserveService.java:88-101 | the room looked up by number (its failure is the result), then the stay placed; on success the reservation and its placement are returned with the next id |
| ReserveService.BookStay | src/main/java/com/br/elohostel/service/ReserveService.java:241-268 | all or nothing: a failure writes nothing; a success appends the planned reservation and records its stay, with no double booking |
| ReserveService.Commit | src/main/java/com/br/elohostel/service/ReserveService.java:105-108 | a decided booking is written: the reservation appended and its stay recorded |
| ReserveService.PlanCreateReserve | src/main/java/com/br/elohostel/service/ReserveService.java:221-268 | createReserve: the guest by name (absent is NotFound), then the room by number, then the stay with a VAGUE bed demanded for a shared room |
| ReserveService.CreateReserve | src/main/java/com/br/elohostel/service/ReserveService.java:221-275 | createReserve writes exactly what its plan decides, or nothing on a failure, and never double-books |
| ReserveService.MergeField | src/main/java/com/br/elohostel/service/ReserveService.java:134-150 | an existing guest's contact field is replaced by a given non-blank value and kept otherwise |
| ReserveService.FieldOrDefault | src/main/java/com/br/elohostel/service/ReserveService.java:159-162 | a new guest's field is the given value (blank or not) or the placeholder when none is given |
| ReserveService.FindOrCreateGuest | src/main/java/com/br/elohostel/service/ReserveService.java:127-174 | a guest found by name has its fields merged; a missing one is appended with placeholders; several with the name fail as a runtime failure; ids and names of existing rows are kept |
| ReserveService.ResolveAll | src/main/java/com/br/elohostel/service/ReserveService.java:83-85 | the guests resolved in order, each seeing those created before; one id per request guest with that guest's name; the first failure fails the batch |
| ReserveService.ResolveAllStopsAtError | src/main/java/com/br/elohostel/service/ReserveService.java:83-85 | once a prefix of the request fails, the whole request fails |
| ReserveService.ResolveGuests | src/main/java/com/br/elohostel/service/ReserveService.java:83-85 | the loop writes exactly the guests and ids the specification ResolveAll gives, or reports its failure |
| ReserveService.IdSet | src/main/java/com/br/elohostel/service/ReserveService.java:97 | the reservation's guest set holds exactly the resolved ids |
| ReserveService.PlanReservationWithGuest | src/main/java/com/br/elohostel/service/ReserveService.java:77-125 | an empty guest list or an unresolvable guest fails; otherwise the shared decision with any free bed; every failure is re-raised as a runtime failure |
| ReserveService.CreateReservationWithGuest | src/main/java/com/br/elohostel/service/ReserveService.java:77-125 | all or nothing as its plan decides (the guest rows written first are rolled back on a failure), with no double booking |
| ReserveService.CleanName | src/main/java/com/br/elohostel/service/ReserveService.java:365 | the name reduced to lower-case ASCII letters and digits, never longer |
| ReserveService.AirbnbGuestEmail | src/main/java/com/br/elohostel/service/ReserveService.java:364-368 | "airbnb_" + cleaned name + "_" + the clock reading from its ninth digit + "@elohostel.com"; a reading shorter than 8 digits fails (substring(8)) |
| ReserveService.FindOrCreateAirbnbGuest | src/main/java/com/br/elohostel/service/ReserveService.java:339-362 | an existing guest is returned untouched; otherwise a new guest with the generated email, phone placeholder and "Airbnb-" RG is appended; failures are runtime failures |
| ReserveService.PlanReserveForAirbnb | src/main/java/com/br/elohostel/service/ReserveService.java:278-337 | the guest found or created, then the shared decision with any free bed; every failure re-raised as a runtime failure |
| ReserveService.CreateReserveForAirbnb | src/main/java/com/br/elohostel/service/ReserveService.java:278-337 | all or nothing as its plan decides, with no double booking |
| ReserveService.ChangeReserve | src/main/java/com/br/elohostel/service/ReserveService.java:399-429 | the reservation by id (absent is NotFound, nothing changes), replaced by the change applied to it; no other row changes |
| ReserveService.WithCustomValue | src/main/java/com/br/elohostel/service/ReserveService.java:399-407 | the given value becomes the total whatever the stay; no other field changes |
| ReserveService.WithAutoValue | src/main/java/com/br/elohostel/service/ReserveService.java:409-418 | the custom value is dropped and the total is days x (base + fee x extra guests) |
| ReserveService.AutoValueForgetsCustomValue | src/main/java/com/br/elohostel/service/ReserveService.java:399-418 | setAutoValue after setCustomValue is setAutoValue alone: the custom value is forgotten |
| ReserveService.WithExtraGuestFee | src/main/java/com/br/elohostel/service/ReserveService.java:420-429 | a computed total charges the new fee for every extra guest and night; a custom total is unaffected; only the fee changes |
| ReserveService.ApplyValueUpdate | src/main/java/com/br/elohostel/service/ReserveService.java:1063-1076 | updateData: each field the update carries (customValue, extraGuestFee, useCustomValue, initialValue) overwrites the row's, an absent one leaves it, nothing else changes |
| ReserveService.ValueUpdateIdempotent | src/main/java/com/br/elohostel/service/ReserveService.java:1063-1076 | applying an update twice is applying it once; an empty update changes nothing |
| ReserveService.SetCustomValue | src/main/java/com/br/elohostel/service/ReserveService.java:399-407 | NotFound (and no change) for a missing reservation; otherwise exactly that row becomes WithCustomValue |
| ReserveService.SetAutoValue | src/main/java/com/br/elohostel/service/ReserveService.java:409-418 | NotFound for a missing reservation; otherwise exactly that row becomes WithAutoValue |
| ReserveService.UpdateExtraGuestFee | src/main/java/com/br/elohostel/service/ReserveService.java:420-429 | NotFound for a missing reservation; otherwise exactly that row gets the new fee |
| ReserveService.ReserveUpdateExtra | src/main/java/com/br/elohostel/service/ReserveService.java:1057-1061 | getReferenceById: a missing row surfaces as a runtime failure with no change; otherwise exactly that row gets the update |
| ReserveService.AddingGuest | src/main/java/com/br/elohostel/service/ReserveService.java:375 | the guest joins the guest set and nothing else changes; a new guest beyond the first adds the fee per night to a computed total |
| ReserveService.RemovingGuest | src/main/java/com/br/elohostel/service/ReserveService.java:390 | the guest leaves the guest set and nothing else changes |
| ReserveService.GuestRoundTrip | src/main/java/com/br/elohostel/service/ReserveService.java:375-390 | removing a guest just added restores the reservation |
| ReserveService.AddGuestForReserve | src/main/java/com/br/elohostel/service/ReserveService.java:370-384 | the guest looked up by name first (its failure wins), then the reservation (NotFound); on success exactly that row gains the guest |
| ReserveService.RemoveGuestForReserve | src/main/java/com/br/elohostel/service/ReserveService.java:386-397 | the guest looked up first, then the reservation; on success exactly that row loses the guest |
| ReserveService.AddingRoom | src/main/java/com/br/elohostel/service/ReserveService.java:542-549 | the room joins the room set once, the first room is kept; when it is then the only room the initial value becomes its price |
| ReserveService.RemovingRoom | src/main/java/com/br/elohostel/service/ReserveService.java:568-575 | the room leaves the room set; with no rooms left the initial value becomes 0 |
| ReserveService.RoomRoundTrip | src/main/java/com/br/elohostel/service/ReserveService.java:542-568 | removing a room just added to a reservation with other rooms restores it |
| ReserveService.RoomChangeTarget | src/main/java/com/br/elohostel/service/ReserveService.java:532-566 | the reservation (NotFound), then the room by number, then a CANCELLED reservation refused with IllegalState, in that order |
| ReserveService.AddRoom | src/main/java/com/br/elohostel/service/ReserveService.java:532-556 | fails as RoomChangeTarget decides with no change; otherwise exactly that row becomes AddingRoom |
| ReserveService.RemoveRoom | src/main/java/com/br/elohostel/service/ReserveService.java:558-582 | fails as RoomChangeTarget decides with no change; otherwise exactly that row becomes RemovingRoom |
| ReserveService.WithoutNight | src/main/java/com/br/elohostel/service/ReserveService.java:738 | the day leaves the reserved days, nothing else changes, and a computed total drops by one nightly price |
| ReserveService.RemoveDate | src/main/java/com/br/elohostel/service/ReserveService.java:734-747 | NotFound for a missing reservation; otherwise only that row loses the day: no status or window check, and the ledgers are untouched |
| ReserveService.ReleaseRoomEntries | src/main/java/com/br/elohostel/service/ReserveService.java:510-513 | every room entry of the reservation deleted, the others kept; no double booking is created |
| ReserveService.ReleaseBedEntries | src/main/java/com/br/elohostel/service/ReserveService.java:514-516 | every bed entry of the reservation deleted, the others kept; no double booking is created |
| ReserveService.ReleasedNightsAreBookable | src/main/java/com/br/elohostel/service/ReserveService.java:510-513 | after the release, a room held on the dates only by that reservation passes the availability test |
| ReserveService.CancelReserve | src/main/java/com/br/elohostel/service/ReserveService.java:488-508 | NotFound for a missing reservation; IllegalState for one already CANCELLED or with a check-in; otherwise it becomes CANCELLED, keeps its row, and no entry of either ledger references it |
| ReserveService.ReserveOfGuestOnDates | src/main/java/com/br/elohostel/service/ReserveService.java:523-527 | the first reservation in table order naming the guest and holding exactly the dates; none iff there is none |
| ReserveService.CancelReserveByGuestAndDates | src/main/java/com/br/elohostel/service/ReserveService.java:518-530 | the guest by name, then the first matching reservation (none is NotFound), then cancelReserve on it |
| ReserveService.WithoutReserve | src/main/java/com/br/elohostel/service/ReserveService.java:1047 | the reservation's rows leave the table, the others keep their order |
| ReserveService.Delete | src/main/java/com/br/elohostel/service/ReserveService.java:1010-1054 | fails exactly when the reservation is missing or an imported Airbnb or Booking.com event still links to it (the foreign key refuses the delete at commit); every failure is a runtime failure with no change; otherwise the reservation's entries are released from both ledgers and its row deleted |
| ReserveService.FirstRoom | src/main/java/com/br/elohostel/service/ReserveService.java:680-681 | getRooms().iterator().next(): the reservation's first room; no rooms is a runtime failure |
| ReserveService.ValidateAvailability | src/main/java/com/br/elohostel/service/ReserveService.java:639-678 | a whole-room unit passes iff no other reservation's entry of the room holds the day; a shared room iff some bed of it is free of other reservations that day; a room without a type fails; failures are IllegalState |
| ReserveService.ValidateNight | src/main/java/com/br/elohostel/service/ReserveService.java:627-649 | validateNewDate first (IllegalArgument), then the first room (runtime failure without one), then validateAvailability |
| ReserveService.NightsCheck | src/main/java/com/br/elohostel/service/ReserveService.java:756-759 | passes iff every night passes; otherwise fails as the first failing night in iteration order does |
| ReserveService.CheckNights | src/main/java/com/br/elohostel/service/ReserveService.java:756-759 | the validation loop returns exactly NightsCheck |
| ReserveService.Rebook | src/main/java/com/br/elohostel/service/ReserveService.java:795-825 | updateOccupations: the reservation's entries released, then one new entry holding all the dates on the first room or the first bed free of every remaining entry; fails with IllegalState when taken, a runtime failure without rooms; keeps the ledgers free of double bookings and other reservations' entries untouched |
| ReserveService.NightSet | src/main/java/com/br/elohostel/service/ReserveService.java:477 | the set of the listed nights |
| ReserveService.PlanReserveDates | src/main/java/com/br/elohostel/service/ReserveService.java:466-486 | NotFound for a missing reservation, IllegalState for a cancelled one, then the first failing night's error; otherwise the nights become exactly the listed set and the ledgers are rebooked |
| ReserveService.UpdateReserveDates | src/main/java/com/br/elohostel/service/ReserveService.java:466-486 | performs PlanReserveDates: on success the row and both ledgers are replaced as planned, on failure nothing changes; the ledgers stay free of double bookings |
| ReserveService.Reschedule | src/main/java/com/br/elohostel/service/ReserveService.java:485 | saves a plan: exactly the planned row replaced and the planned ledgers stored; a disjoint plan leaves no double booking |
| ReserveService.AddNight | src/main/java/com/br/elohostel/service/ReserveService.java:680-732 | updateOccupationsForNewDate: a runtime failure without rooms; a whole room gains or extends its entry, a shared room its bed's entry (IllegalState when no bed is free), a room without a type nothing; the night is then held and every night held before still is |
| ReserveService.PlanAddDate | src/main/java/com/br/elohostel/service/ReserveService.java:585-611 | NotFound, then IllegalState for a cancelled reservation, then the night's validation error, then IllegalState for a night already reserved; on success exactly that night is added to the row |
| ReserveService.AddedNightIsHeld | src/main/java/com/br/elohostel/service/ReserveService.java:585-611 | after addDate the night is held in the ledger, every night held before still is, and a computed total grows by one nightly price with its extra-guest fees |
| ReserveService.AddDate | src/main/java/com/br/elohostel/service/ReserveService.java:585-611 | performs PlanAddDate: on success the row and the ledgers are replaced as planned, on failure nothing changes |
| ReserveService.NightSetSnoc | src/main/java/com/br/elohostel/service/ReserveService.java:761-768 | the set of a list is the set of its prefix plus its last night |
| ReserveService.NightSetSize | src/main/java/com/br/elohostel/service/ReserveService.java:761-768 | a list without repeats has as many nights as its set |
| ReserveService.MergeNights | src/main/java/com/br/elohostel/service/ReserveService.java:761-768 | the duplicate loop succeeds iff no night is already reserved or listed twice (IllegalState otherwise), and then yields the old nights plus the listed ones |
| ReserveService.AddNights | src/main/java/com/br/elohostel/service/ReserveService.java:776-778 | the update loop keeps every night the reservation held |
| ReserveService.AddNightHolds | src/main/java/com/br/elohostel/service/ReserveService.java:680-732 | a night AddNight accepts is held afterwards |
| ReserveService.AddNightsHoldAll | src/main/java/com/br/elohostel/service/ReserveService.java:776-778 | after the update loop every listed night is held |
| ReserveService.HoldsAllSnoc | src/main/java/com/br/elohostel/service/ReserveService.java:776-778 | holding a prefix and then the last night is holding the whole list |
| ReserveService.AddNightsStopsAtError | src/main/java/com/br/elohostel/service/ReserveService.java:776-778 | once a night fails the loop's result is that failure, whatever follows |
| ReserveService.AddNightsStep | src/main/java/com/br/elohostel/service/ReserveService.java:776-778 | one more night of the loop is one more AddNight |
| ReserveService.ApplyNights | src/main/java/com/br/elohostel/service/ReserveService.java:776-778 | the update loop returns exactly AddNights |
| ReserveService.PlanAddDates | src/main/java/com/br/elohostel/service/ReserveService.java:750-784 | NotFound, then IllegalState for a cancelled reservation, then the first failing night's error, then IllegalState for a repeated or already reserved night; on success exactly the listed nights are added |
| ReserveService.AddedNightsAreHeld | src/main/java/com/br/elohostel/service/ReserveService.java:750-784 | after addDates every listed night is held, every night held before still is, and the reservation counts one more night per listed night |
| ReserveService.AddDates | src/main/java/com/br/elohostel/service/ReserveService.java:750-784 | performs PlanAddDates: on success the row and the ledgers are replaced as planned, on failure nothing changes |
| ReserveService.ResolvesKeptByStatus | src/main/java/com/br/elohostel/service/ReserveService.java:850-876 | saving room statuses keeps every room id resolvable |
| ReserveService.BedInRoomIndex | src/main/java/com/br/elohostel/service/ReserveService.java:839-840 | the row of the bed with that id in that room, none iff the bed is not in the room |
| ReserveService.CheckInRoom | src/main/java/com/br/elohostel/service/ReserveService.java:832-849 | one room of checkIn: a room let whole becomes OCCUPIED; in a shared room the reservation's bed (a runtime failure for several entries, IllegalState for none) becomes OCCUPIED and the room too once all its beds are; only statuses change |
| ReserveService.CheckInFrom | src/main/java/com/br/elohostel/service/ReserveService.java:832-849 | the loop changes only statuses, only of the reservation's rooms to OCCUPIED and of beds to OCCUPIED, and fails only with a runtime failure or IllegalState |
| ReserveService.CheckInOccupiesWholeRooms | src/main/java/com/br/elohostel/service/ReserveService.java:832-835 | a check-in that goes through leaves every room of the reservation let whole OCCUPIED |
| ReserveService.CheckIn | src/main/java/com/br/elohostel/service/ReserveService.java:827-853 | NotFound with no change; otherwise the loop's beds are kept, and on success its rooms are saved and the check-in instant appended to the row; on failure rooms and reservations are unchanged |
| ReserveService.VisitForCheckIn | src/main/java/com/br/elohostel/service/ReserveService.java:832-849 | the loop returns exactly CheckInFrom |
| ReserveService.SharedRoomStatus | src/main/java/com/br/elohostel/service/ReserveService.java:897-921 | OCCUPIED iff every bed is occupied (or some are and it already was); VAGUE iff none is (or some are not and it already was); any change is to one of the two |
| ReserveService.ReservedBedIn | src/main/java/com/br/elohostel/service/ReserveService.java:881-895 | a bed of the room that one of the reservation's bed entries names; none iff no such entry lies in the room |
| ReserveService.CheckoutRoom | src/main/java/com/br/elohostel/service/ReserveService.java:856-921 | one room of checkout: a room let whole becomes VAGUE; in a shared room the reservation's bed becomes VAGUE and the room follows SharedRoomStatus; only that room and bed change, and no room becomes OCCUPIED |
| ReserveService.CheckoutFrom | src/main/java/com/br/elohostel/service/ReserveService.java:861-875 | the loop changes only statuses, only of the reservation's rooms, makes no room OCCUPIED, and sets changed whole rooms and beds to VAGUE |
| ReserveService.CheckoutFreesWholeRooms | src/main/java/com/br/elohostel/service/ReserveService.java:862-863 | checkout leaves every room of the reservation let whole VAGUE |
| ReserveService.Checkout | src/main/java/com/br/elohostel/service/ReserveService.java:856-879 | NotFound with no change; otherwise rooms and beds become CheckoutFrom's and the checkout instant is appended to the row |
| ReserveService.VisitForCheckout | src/main/java/com/br/elohostel/service/ReserveService.java:861-875 | the loop returns exactly CheckoutFrom |
| ReserveService.VagueFreeBedCount | src/main/java/com/br/elohostel/service/ReserveService.java:942-945 | zero iff no VAGUE bed of the room is free on every night |
| ReserveService.CheckAvailability | src/main/java/com/br/elohostel/service/ReserveService.java:923-976 | IllegalArgument for invalid dates; NotFound or a runtime failure from the room lookup; a runtime failure for a room without a type; otherwise the nights and label, and an available verdict exactly when createReserve would place the stay, with the free-bed count for shared rooms |
| BedOccupationService.FindAvailableBedsInRoom | src/main/java/com/br/elohostel/service/BedOccupationService.java:44-46 | exactly the beds of the room whose status is AVAILABLE and that have no entry sharing a day with the dates |
| BedOccupationService.AvailableQueriesDisagree | src/main/java/com/br/elohostel/service/BedOccupationService.java:44-46 | no bed this query returns is returned by the repository's VAGUE-status query of the same name, and when every bed of the room is VAGUE this query returns nothing |
| BedOccupationService.FindAvailableBedsInRoomAlternative | src/main/java/com/br/elohostel/service/BedOccupationService.java:48-53 | filtering the unoccupied beds by AVAILABLE gives exactly findAvailableBedsInRoom |
| BedOccupationService.FindAvailableAndUnoccupiedBeds | src/main/java/com/br/elohostel/service/BedOccupationService.java:55-57 | exactly the beds of the room whose status is VAGUE and that have no entry sharing a day with the dates |
| BedOccupationService.CountAvailableBedsInRoom | src/main/java/com/br/elohostel/service/BedOccupationService.java:121-124 | the number of beds findAvailableBedsInRoom returns, never more than the room's beds |
| BedOccupationService.MarkBed | src/main/java/com/br/elohostel/service/BedOccupationService.java:85-86 | only the status of the bed with that id becomes the given one |
| BedOccupationService.MarkBeds | src/main/java/com/br/elohostel/service/BedOccupationService.java:93-139 | only statuses change, every changed bed gets the given status, and every listed entry's bed has it |
| BedOccupationService.MarkBedsSnoc | src/main/java/com/br/elohostel/service/BedOccupationService.java:93-97 | marking one more entry's bed is marking the list and then that bed |
| BedOccupationService.MarkBedsStep | src/main/java/com/br/elohostel/service/BedOccupationService.java:93-97 | one more turn of the loop marks one more bed |
| BedOccupationService.CreateBedOccupation | src/main/java/com/br/elohostel/service/BedOccupationService.java:80-89 | a new entry with a fresh id for the bed, the reservation and the days is appended, the bed becomes OCCUPIED, and the id counter moves on |
| BedOccupationService.AllocateBeds | src/main/java/com/br/elohostel/service/BedOccupationService.java:69-73 | only statuses change, to OCCUPIED; the old entries are kept as a prefix; every new entry is the reservation's, for the days, with consecutive fresh ids, on a candidate that had no entry sharing a day |
| BedOccupationService.AllocateBedsSnoc | src/main/java/com/br/elohostel/service/BedOccupationService.java:69-73 | one more candidate is one more turn of the loop |
| BedOccupationService.AllocateBedCovers | src/main/java/com/br/elohostel/service/BedOccupationService.java:70-71 | a free candidate gets a new entry, and the new entries so far are kept |
| BedOccupationService.AllocateBedsCoverCandidates | src/main/java/com/br/elohostel/service/BedOccupationService.java:66-74 | every candidate free on the days ends with a new entry |
| BedOccupationService.AllocateBedsKeepDisjoint | src/main/java/com/br/elohostel/service/BedOccupationService.java:66-74 | allocation never puts two entries of one bed on the same day |
| BedOccupationService.AllocateBedsForRoom | src/main/java/com/br/elohostel/service/BedOccupationService.java:66-74 | the beds, entries and id counter become AllocateBeds over findAvailableBedsInRoom's candidates |
| BedOccupationService.FilterOutStep | src/main/java/com/br/elohostel/service/BedOccupationService.java:93-97 | deleting one more listed entry is filtering out one more |
| BedOccupationService.RemoveExistingBedOccupations | src/main/java/com/br/elohostel/service/BedOccupationService.java:91-99 | the reservation's entries are deleted, the others kept in order, and their beds become AVAILABLE |
| BedOccupationService.Cleared | src/main/java/com/br/elohostel/service/BedOccupationService.java:60 | exactly the entries of other reservations remain |
| BedOccupationService.AllocateRooms | src/main/java/com/br/elohostel/service/BedOccupationService.java:61-63 | only statuses change; the old entries are kept as a prefix; every new entry is the reservation's, for its days |
| BedOccupationService.UpdateRebuildsReservation | src/main/java/com/br/elohostel/service/BedOccupationService.java:59-64 | after the update the ledger has no bed double-booked and every entry of the reservation covers exactly its days |
| BedOccupationService.AllocateRoomsKeepDisjoint | src/main/java/com/br/elohostel/service/BedOccupationService.java:61-63 | allocating room after room never double-books a bed |
| BedOccupationService.UpdateBedOccupations | src/main/java/com/br/elohostel/service/BedOccupationService.java:59-64 | the ledger becomes AllocateRooms over the reservation's rooms after its own entries are cleared |
| BedOccupationService.BedAvailabilityByRoomAndDates | src/main/java/com/br/elohostel/service/BedOccupationService.java:101-119 | one answer per room in table order, with its number, its bed count, the count of findAvailableBedsInRoom and the dates |
| BedOccupationService.ReleaseDay | src/main/java/com/br/elohostel/service/BedOccupationService.java:140-145 | every entry loses the day, one left with no day is deleted, and nothing else appears |
| BedOccupationService.ReleaseKeepsLedger | src/main/java/com/br/elohostel/service/BedOccupationService.java:130-147 | no entry left holds the day, and a ledger without double bookings keeps none |
| BedOccupationService.FindByDateSnoc | src/main/java/com/br/elohostel/service/BedOccupationService.java:134-135 | the entries holding the day in one more entry are those of the prefix plus that entry if it holds it |
| BedOccupationService.ReleaseBedsStep | src/main/java/com/br/elohostel/service/BedOccupationService.java:136-139 | one more entry holding the day marks one more bed AVAILABLE |
| BedOccupationService.ReleaseDayStep | src/main/java/com/br/elohostel/service/BedOccupationService.java:140-145 | one more entry is kept, shortened or deleted as it holds the day |
| BedOccupationService.ReleaseBedsByCheckout | src/main/java/com/br/elohostel/service/BedOccupationService.java:130-147 | the entries become ReleaseDay of the day, and the beds of the entries holding it become AVAILABLE |
| RoomService.FindNumber | src/main/java/com/br/elohostel/service/RoomService.java:36-39 | a room with that number; NotFound iff there is none; a runtime failure when the number is not unique |
| RoomService.FindById | src/main/java/com/br/elohostel/service/RoomService.java:46-49 | the room with that id; NotFound iff there is none |
| RoomService.InsertBed | src/main/java/com/br/elohostel/service/RoomService.java:55-59 | NotFound with no change for a missing room; otherwise one new VAGUE bed of the room with a fresh id is added |
| RoomService.AddedBedCounts | src/main/java/com/br/elohostel/service/RoomService.java:57 | a new bed in the room adds exactly one to its beds |
| RoomService.RemoveBed | src/main/java/com/br/elohostel/service/RoomService.java:61-99 | NotFound iff the room is missing; IllegalState iff the room has no VAGUE bed (an empty room included); otherwise one VAGUE bed of the room and all its entries are deleted |
| RoomService.RemovedBedCounts | src/main/java/com/br/elohostel/service/RoomService.java:89-96 | the room has one bed fewer and exactly the removed bed's entries are gone |
| RoomService.UpdateData | src/main/java/com/br/elohostel/service/RoomService.java:122-135 | each field the patch carries overwrites the room's, an absent one leaves it, the id never changes |
| RoomService.UpdateDataIdempotent | src/main/java/com/br/elohostel/service/RoomService.java:122-135 | applying a patch twice is applying it once; an empty patch changes nothing |
| RoomService.Update | src/main/java/com/br/elohostel/service/RoomService.java:111-120 | NotFound with no change for a missing room; otherwise exactly that row becomes UpdateData of the patch |
| FinancialRecords.RoomTypeRevenue.constructor | src/main/java/com/br/elohostel/model/RoomTypeRevenue.java:22-24 | a bucket for the room type with zero reservations, nights and revenue |
| FinancialRecords.RoomTypeRevenue.FromRow | src/main/java/com/br/elohostel/model/RoomTypeRevenue.java:10-18 | a bucket holding exactly a stored row |
| FinancialRecords.RoomTypeRevenue.IncrementReservations | src/main/java/com/br/elohostel/model/RoomTypeRevenue.java:58-60 | the reservation count grows by one, nothing else changes |
| FinancialRecords.RoomTypeRevenue.AddNights | src/main/java/com/br/elohostel/model/RoomTypeRevenue.java:62-64 | the night count grows by the argument, nothing else changes |
| FinancialRecords.RoomTypeRevenue.AddRevenue | src/main/java/com/br/elohostel/model/RoomTypeRevenue.java:66-68 | the revenue grows by the argument, nothing else changes |
| FinancialRecords.BucketIndex | src/main/java/com/br/elohostel/service/FinancialRecordService.java:255-257 | the bucket of the room type; none iff no bucket has it |
| FinancialRecords.AddToBuckets | src/main/java/com/br/elohostel/service/FinancialRecordService.java:252-267 | a new bucket is appended for a room type without one, otherwise its bucket is updated in place; other buckets are untouched |
| FinancialRecords.SumsOfAppend | src/main/java/com/br/elohostel/service/FinancialRecordService.java:266 | appending a bucket adds its revenue, nights and reservations to the totals |
| FinancialRecords.SumsOfUpdate | src/main/java/com/br/elohostel/service/FinancialRecordService.java:260-263 | replacing a bucket changes the totals by the difference |
| FinancialRecords.AddToBucketsKeepsOnePerType | src/main/java/com/br/elohostel/service/FinancialRecordService.java:252-267 | at most one bucket per room type is kept, the type then has one, and the bucket totals grow by exactly the amounts added |
| FinancialRecords.FinancialRecord.constructor | src/main/java/com/br/elohostel/model/FinancialRecord.java:37-77 | a new unsaved record for the date and period with every total, rate and bucket at zero, created now |
| FinancialRecords.FinancialRecord.FromRow | src/main/java/com/br/elohostel/model/FinancialRecord.java:29-66 | a record holding exactly a stored row, with its id |
| FinancialRecords.FinancialRecord.AddRevenue | src/main/java/com/br/elohostel/model/FinancialRecord.java:179-182 | the revenue grows by exactly the amount and the update stamp is now |
| FinancialRecords.FinancialRecord.IncrementReservations | src/main/java/com/br/elohostel/model/FinancialRecord.java:184-187 | the reservation count grows by one and the update stamp is now |
| FinancialRecords.FinancialRecord.AddGuests | src/main/java/com/br/elohostel/model/FinancialRecord.java:189-192 | the guest count grows by the argument and the update stamp is now |
| FinancialRecords.FinancialRecord.AddNights | src/main/java/com/br/elohostel/model/FinancialRecord.java:194-197 | the night count grows by the argument and the update stamp is now |
| FinancialRecords.RecordEquals | src/main/java/com/br/elohostel/model/FinancialRecord.java:199-222 | two records are equal iff their ids are (two unsaved records included), and equal records hash alike |
| FinancialRecordRepository.FindByRecordDateAndPeriodType | src/main/java/com/br/elohostel/repository/FinancialRecordRepository.java:19 | the row with that date and period; none iff there is none; a runtime failure when it is not unique |
| FinancialRecordRepository.FindByPeriodTypeAndRecordDateBetween | src/main/java/com/br/elohostel/repository/FinancialRecordRepository.java:21-22 | exactly the rows of the period dated in the closed range |
| FinancialRecordRepository.FindByPeriodTypeAndYearAndMonth | src/main/java/com/br/elohostel/repository/FinancialRecordRepository.java:31-35 | exactly the rows of the period dated in that year and month |
| FinancialRecordRepository.InsertByDate | src/main/java/com/br/elohostel/repository/FinancialRecordRepository.java:24-26 | inserting a row into a date-ordered list keeps it ordered and adds exactly that row |
| FinancialRecordRepository.FirstBeforeSorted | src/main/java/com/br/elohostel/repository/FinancialRecordRepository.java:24-26 | a row dated before the head of an ordered list can lead it |
| FinancialRecordRepository.HeadBeforeInsert | src/main/java/com/br/elohostel/repository/FinancialRecordRepository.java:24-26 | the head stays first after an insertion behind it |
| FinancialRecordRepository.FirstBeforeAll | src/main/java/com/br/elohostel/repository/FinancialRecordRepository.java:24-26 | a row dated before every row of an ordered list can lead it |
| FinancialRecordRepository.SortByDate | src/main/java/com/br/elohostel/repository/FinancialRecordRepository.java:24-26 | ordered by date and a permutation of the rows |
| FinancialRecordRepository.FindByPeriodTypeAndYear | src/main/java/com/br/elohostel/repository/FinancialRecordRepository.java:26-29 | exactly the rows of the period dated in that year, in ascending date order |
| FinancialRecordRepository.FindByPeriodTypeOrderByRecordDateDesc | src/main/java/com/br/elohostel/repository/FinancialRecordRepository.java:24 | exactly the rows of the period, in descending date order |
| FinancialRecordRepository.SumTotalRevenueByPeriodTypeAndDateRange | src/main/java/com/br/elohostel/repository/FinancialRecordRepository.java:37-41 | 0 (never absent) when no row matches, and never negative when the matching revenues are not |
| FinancialRecordRepository.NonNegativeSum | src/main/java/com/br/elohostel/repository/FinancialRecordRepository.java:37 | a sum of non-negative revenues is non-negative |
| FinancialService.DailyRevenue | src/main/java/com/br/elohostel/service/FinancialRecordService.java:191-201 | 0 for a reservation without days; otherwise the total divided by the days, rounded half-up to the cent |
| FinancialService.DailyRevenueExact | src/main/java/com/br/elohostel/service/FinancialRecordService.java:199-200 | when the total is a whole multiple of the days, the daily revenue is exactly the rate |
| FinancialService.DaysInPeriod | src/main/java/com/br/elohostel/service/FinancialRecordService.java:294-305 | 1 for a day, the month's length for a month, the year's length for a year; always between 1 and 366 |
| FinancialService.OccupancyRate | src/main/java/com/br/elohostel/service/FinancialRecordService.java:280-285 | sold nights over available room nights, scale 4 half-up, times 100; never negative |
| FinancialService.OccupancyAtMostFull | src/main/java/com/br/elohostel/service/FinancialRecordService.java:280-285 | never above 100% when at most the available nights were sold, and exactly 100% when all were |
| FinancialService.BucketRevenue | src/main/java/com/br/elohostel/service/FinancialRecordService.java:224-235 | the whole daily revenue for one room, nothing without rooms, and for several rooms the per-room share, rounded half-up, times the rooms |
| FinancialService.SumOverStep | src/main/java/com/br/elohostel/service/FinancialRecordService.java:216 | summing over one more reservation adds its value |
| FinancialService.MarkIds | src/main/java/com/br/elohostel/service/FinancialRecordService.java:238-239 | exactly the named reservations get the processed flag, nothing else changes |
| FinancialService.UnmarkIds | src/main/java/com/br/elohostel/service/FinancialRecordService.java:314-336 | exactly the named reservations lose the processed flag, nothing else changes |
| FinancialService.MarkedTransitive | src/main/java/com/br/elohostel/service/FinancialRecordService.java:238 | marking twice is a marking |
| FinancialService.UnprocessedForDate | src/main/java/com/br/elohostel/service/FinancialRecordService.java:140-159 | exactly the confirmed, unprocessed reservations holding the date; empty iff there is none |
| FinancialService.UnprocessedBetween | src/main/java/com/br/elohostel/service/FinancialRecordService.java:161-189 | exactly the confirmed, unprocessed reservations with a night in the closed range; empty iff there is none |
| FinancialService.ConfirmedForDate | src/main/java/com/br/elohostel/service/FinancialRecordService.java:437-440 | exactly the confirmed reservations holding the date, processed or not |
| FinancialService.MarkingEmptiesDate | src/main/java/com/br/elohostel/service/FinancialRecordService.java:77-94 | after marking a date's unprocessed reservations, none is left for that date |
| FinancialService.MarkingEmptiesRange | src/main/java/com/br/elohostel/service/FinancialRecordService.java:96-138 | after marking a range's unprocessed reservations, none is left for that range |
| FinancialService.MarkedKeepsDateEmpty | src/main/java/com/br/elohostel/service/FinancialRecordService.java:155 | marking never brings back an unprocessed reservation for a date |
| FinancialService.MarkedKeepsRangeEmpty | src/main/java/com/br/elohostel/service/FinancialRecordService.java:168-183 | marking never brings back an unprocessed reservation for a range |
| FinancialService.SplitRowsSums | src/main/java/com/br/elohostel/service/FinancialRecordService.java:229-234 | splitting across the rooms keeps one bucket per type and adds the share, one night and one reservation per room |
| FinancialService.ReservationRowsSums | src/main/java/com/br/elohostel/service/FinancialRecordService.java:224-236 | a reservation adds its bucket revenue, one night and one reservation per room to the buckets |
| FinancialService.AccumulatedRowsSums | src/main/java/com/br/elohostel/service/FinancialRecordService.java:216-241 | the buckets' totals grow by the sum over the reservations |
| FinancialService.AccumulatedRowsStep | src/main/java/com/br/elohostel/service/FinancialRecordService.java:216-241 | one more reservation is one more turn of the bucket loop |
| FinancialService.IncrementReservationsTimes | src/main/java/com/br/elohostel/service/FinancialRecordService.java:262-264 | the reservation count grows by the number of turns |
| FinancialService.AddRoomTypeRevenue | src/main/java/com/br/elohostel/service/FinancialRecordService.java:252-267 | the record's buckets become AddToBuckets, keeping one bucket per type |
| FinancialService.SplitAcrossRooms | src/main/java/com/br/elohostel/service/FinancialRecordService.java:229-234 | the per-room share goes to each room's bucket |
| FinancialService.AddReservationToBuckets | src/main/java/com/br/elohostel/service/FinancialRecordService.java:224-236 | the buckets become ReservationRows of the reservation |
| FinancialService.AddCounters | src/main/java/com/br/elohostel/service/FinancialRecordService.java:217-222 | the revenue grows by the daily revenue, reservations by one, guests by the guest count, nights by the room count |
| FinancialService.AccumulateOne | src/main/java/com/br/elohostel/service/FinancialRecordService.java:216-241 | one reservation's counters and buckets |
| FinancialService.SaveProcessed | src/main/java/com/br/elohostel/service/FinancialRecordService.java:238-239 | exactly that reservation becomes processed |
| FinancialService.MarkOneMore | src/main/java/com/br/elohostel/service/FinancialRecordService.java:238-239 | marking one more reservation extends the marked set by it |
| FinancialService.AccumulateStep | src/main/java/com/br/elohostel/service/FinancialRecordService.java:216-241 | one turn of the loop keeps the running totals equal to the sums so far |
| FinancialService.Accumulate | src/main/java/com/br/elohostel/service/FinancialRecordService.java:216-241 | the totals grow by the sums of daily revenue, reservations, guests and rooms, the buckets by AccumulatedRows, and the reservations are marked processed exactly when asked |
| FinancialService.CalculateDerivedMetrics | src/main/java/com/br/elohostel/service/FinancialRecordService.java:269-292 | the average daily rate when nights were sold, the occupancy rate and RevPAR when rooms exist, each half-up; each left as it was otherwise |
| FinancialService.ResetTotals | src/main/java/com/br/elohostel/service/FinancialRecordService.java:208-214 | totals and buckets become zero and empty |
| FinancialService.CalculateMetrics | src/main/java/com/br/elohostel/service/FinancialRecordService.java:203-250 | zeroes a never-saved record (ordinary run only), accumulates, derives the metrics and stamps the update |
| FinancialService.MarkAndMeasure | src/main/java/com/br/elohostel/service/FinancialRecordService.java:203-250 | exactly the counted reservations are marked; the totals grow by their sums, from zero for a never-saved record; the buckets accumulate them; the metrics are recomputed from the new totals |
| FinancialService.LoadOrCreate | src/main/java/com/br/elohostel/service/FinancialRecordService.java:80-125 | the stored record for the date and period, or a new unsaved one with zero totals; a runtime failure when the lookup is not unique |
| FinancialService.ReplaceRecord | src/main/java/com/br/elohostel/service/FinancialRecordService.java:86 | saving a record with an id overwrites exactly its row |
| FinancialService.SaveRecord | src/main/java/com/br/elohostel/service/FinancialRecordService.java:86-130 | an unsaved record is appended with a fresh id; a saved one overwrites its row |
| FinancialService.CountAndSave | src/main/java/com/br/elohostel/service/FinancialRecordService.java:85-89 | every counted reservation is marked; the totals grow by the sums over them, from zero for a never-saved record; the buckets accumulate them; the metrics are recomputed; the record is appended with a fresh id, or overwrites its own row when it had one |
| FinancialService.CountDay | src/main/java/com/br/elohostel/service/FinancialRecordService.java:83-93 | with nothing to count nothing changes; otherwise exactly the date's unprocessed reservations are marked, none is left, the totals grow by their sums, and the buckets, metrics and saved row are as CountAndSave states |
| FinancialService.CountRange | src/main/java/com/br/elohostel/service/FinancialRecordService.java:103-137 | the same for the unprocessed reservations of a range |
| FinancialService.ProcessDailyRecord | src/main/java/com/br/elohostel/service/FinancialRecordService.java:77-94 | a lookup failure changes nothing; the flags only gain marks and nothing is left to count for the date; with something to count, exactly those reservations are marked and the saved record is the stored totals and buckets (zero when none is stored) plus their sums, with recomputed metrics, inserted or overwriting the stored row |
| FinancialService.ProcessMonthlyRecord | src/main/java/com/br/elohostel/service/FinancialRecordService.java:96-116 | the same for the month's record, dated the first, counting the month's range |
| FinancialService.ProcessAnnualRecord | src/main/java/com/br/elohostel/service/FinancialRecordService.java:118-138 | the same for the year's record, dated January 1, counting the year's range |
| FinancialService.ProcessRange | src/main/java/com/br/elohostel/service/FinancialRecordService.java:96-138 | the shared body of the monthly and annual runs: the saved record is the stored one plus the sums over the range's unprocessed reservations, which are exactly the ones marked |
| FinancialService.ResolvedRooms | src/main/java/com/br/elohostel/service/FinancialRecordService.java:224-234 | the reservations of a run name only rooms that exist |
| FinancialService.MarkIdsIsMarked | src/main/java/com/br/elohostel/service/FinancialRecordService.java:238 | marking ids is a marking |
| FinancialService.MarkIdsKeepsRooms | src/main/java/com/br/elohostel/service/FinancialRecordService.java:238 | marking changes no reservation's rooms |
| FinancialService.PeriodsDue | src/main/java/com/br/elohostel/service/FinancialRecordService.java:60-75 | today always; the previous month iff today is a first of the month; the previous year iff it is January 1 |
| FinancialService.MonthlyIfDue | src/main/java/com/br/elohostel/service/FinancialRecordService.java:66-68 | on a first of the month, the previous month has nothing left to count afterwards; today's count is not disturbed |
| FinancialService.AnnualIfDue | src/main/java/com/br/elohostel/service/FinancialRecordService.java:70-72 | on January 1, the previous year has nothing left to count afterwards |
| FinancialService.Rollback | src/main/java/com/br/elohostel/service/FinancialRecordService.java:60 | the tables written get their earlier contents back |
| FinancialService.ProcessFinancialRecords | src/main/java/com/br/elohostel/service/FinancialRecordService.java:60-75 | one transaction: a failure changes nothing; otherwise today and every due period has nothing left to count |
| FinancialService.RecountAndSave | src/main/java/com/br/elohostel/service/FinancialRecordService.java:445-456 | the totals become the sums over the reservations, added to the loaded totals or to zero when zeroing; the buckets accumulate them onto the loaded or emptied buckets; the metrics are recomputed; the flags are untouched; the record is saved |
| FinancialService.ForceProcessDate | src/main/java/com/br/elohostel/service/FinancialRecordService.java:435-461 | with no confirmed reservation on the date nothing is saved; otherwise the saved record holds exactly the sums over all confirmed reservations of the date, processed or not, their buckets from empty and recomputed metrics, inserted or overwriting the stored row; the flags are untouched |
| FinancialService.ProcessForecast | src/main/java/com/br/elohostel/service/FinancialRecordService.java:556-580 | the same, but the sums are added onto the stored record's totals and buckets instead of zeroed ones |
| FinancialService.ProcessDate | src/main/java/com/br/elohostel/service/FinancialRecordService.java:523-530 | the forced run when asked, the ordinary daily run otherwise: a failure changes nothing; with nothing to count nothing changes; otherwise the forced run leaves the flags and saves the zeroed sums over the date's confirmed reservations, the ordinary run marks exactly the unprocessed ones and saves the stored totals plus their sums, each with its buckets, recomputed metrics and the saved row |
| FinancialService.ClearProcessedFlags | src/main/java/com/br/elohostel/service/FinancialRecordService.java:314-317 | exactly the named reservations lose the flag |
| FinancialService.UnmarkIdsKeepsRooms | src/main/java/com/br/elohostel/service/FinancialRecordService.java:314-317 | clearing flags changes no reservation's rooms |
| FinancialService.UnmarkedAreCountedAgain | src/main/java/com/br/elohostel/service/FinancialRecordService.java:314-323 | after clearing their flags, the named confirmed reservations of a date are counted again |
| FinancialService.ResetAllProcessedFlags | src/main/java/com/br/elohostel/service/FinancialRecordService.java:328-339 | every confirmed reservation loses the flag, so every date with a confirmed reservation has something to count |
| FinancialService.MarkRow | src/main/java/com/br/elohostel/repository/ReserveRepository.java:50-52 | one row of the bulk update is flagged when selected, and counted |
| FinancialService.MarkReservationsAsProcessedByStatus | src/main/java/com/br/elohostel/repository/ReserveRepository.java:50-52 | the flag becomes true on the rows of the status whose flag is null, and their number is returned |
| FinancialService.MarkUpdateSkipsSetFlags | src/main/java/com/br/elohostel/repository/ReserveRepository.java:50-52 | on a table where every flag is set the update changes nothing and reports zero |
| FinancialService.MarkAllReservationsAsProcessed | src/main/java/com/br/elohostel/service/FinancialRecordService.java:341-348 | the bulk update for confirmed reservations, which is a marking |
| FinancialService.ProcessDays | src/main/java/com/br/elohostel/service/FinancialRecordService.java:321-323 | afterwards no day of the range has anything left to count |
| FinancialService.ReprocessReservations | src/main/java/com/br/elohostel/service/FinancialRecordService.java:307-326 | one transaction: the range's processed confirmed reservations are unflagged, then every day is recounted, and no day of the range has anything left to count |
| Text.Trim | src/main/java/com/br/elohostel/service/AirbnbICalService.java:327 | the result is a piece of the input with no leading or trailing space or control character, and it is empty exactly when the input holds only such characters |
| Text.IndexOfFrom | src/main/java/com/br/elohostel/service/AirbnbICalService.java:323-324 | the first occurrence of the needle at or after the start position, or none exactly when the needle occurs nowhere from there |
| Text.IndexOf | src/main/java/com/br/elohostel/service/AirbnbICalService.java:320 | the first occurrence of the needle, or none exactly when it occurs nowhere |
| Text.Split | src/main/java/com/br/elohostel/service/AirbnbICalService.java:316 | a text without the separator splits into itself; no piece contains the separator (with SplitPiecesFree), trailing empty pieces are dropped |
| Text.SplitAllJoin | src/main/java/com/br/elohostel/service/AirbnbICalService.java:73 | joining the pieces of a split with the separator gives back the original text |
| Text.ToLower | src/main/java/com/br/elohostel/service/AirbnbICalService.java:296 | same length, each character mapped to its lower-case form |
| Text.ToUpper | src/main/java/com/br/elohostel/service/AirbnbICalService.java:255 | same length, each character mapped to its upper-case form |
| ICal.EventChunks | src/main/java/com/br/elohostel/service/AirbnbICalService.java:73 | no piece of the feed split on BEGIN:VEVENT contains that marker; a feed without it is one piece |
| ICal.LineEnd | src/main/java/com/br/elohostel/service/AirbnbICalService.java:323-324 | the first CRLF after the start position, else the first LF; the position found holds a line-break character |
| ICal.LineEndNone | src/main/java/com/br/elohostel/service/AirbnbICalService.java:323-324 | no line end is found exactly when no LF follows the start position |
| ICal.ExtractProperty | src/main/java/com/br/elohostel/service/AirbnbICalService.java:319-331 | a value is found only when the property name occurs, and it is shorter than the content |
| ICal.ExtractPropertyNone | src/main/java/com/br/elohostel/service/AirbnbICalService.java:319-331 | the value is missing exactly when the property name is absent or no line break follows it |
| ICal.ExtractPropertyCrLf | src/main/java/com/br/elohostel/service/AirbnbICalService.java:319-331 | when a CRLF ends the line, the value is the trimmed text between the property name and that CRLF |
| ICal.ExtractPropertyLf | src/main/java/com/br/elohostel/service/AirbnbICalService.java:319-331 | when no CRLF follows, the value is the trimmed text between the property name and the next LF |
| ICal.ParseICalDate | src/main/java/com/br/elohostel/service/AirbnbICalService.java:333-335 | only an eight-digit text parses; every failure is a runtime error |
| ICal.DateTextFields | src/main/java/com/br/elohostel/service/AirbnbICalService.java:333-335 | the yyyyMMdd text of a date reads back its year, month and day |
| ICal.ParseDateText | src/main/java/com/br/elohostel/service/AirbnbICalService.java:333-335 | a valid calendar date written yyyyMMdd parses to that day |
| ICal.ParseClampsDay | src/main/java/com/br/elohostel/service/AirbnbICalService.java:333-335 | a day 29 to 31 past the end of its month parses as the month's last day |
| ICal.ParseRejectsOutOfRange | src/main/java/com/br/elohostel/service/AirbnbICalService.java:333-335 | year 0, month 0 or above 12, day 0 or above 31 are rejected |
| ICal.SplitOnSpaceCount | src/main/java/com/br/elohostel/service/AirbnbICalService.java:316 | splitting on a space yields two or more pieces exactly when a non-blank word follows some space |
| ICal.NamePairHasWordAfterSpace | src/main/java/com/br/elohostel/service/AirbnbICalService.java:315 | a text matching the capitalised first-name last-name pattern also passes the split test, so the pattern adds nothing to the disjunction |
| ICal.ContainsGuestName | src/main/java/com/br/elohostel/service/AirbnbICalService.java:314-317 | a summary counts as naming a guest exactly when a non-blank word follows some space |
| ICal.WordAfterSpaceIgnoresCase | src/main/java/com/br/elohostel/service/AirbnbICalService.java:296-317 | lower-casing a summary does not change whether it names a guest |
| AirbnbICal.IsRealReservation | src/main/java/com/br/elohostel/service/AirbnbICalService.java:293-311 | no summary is not a reservation; otherwise the lower-cased summary is one exactly when it carries no block word and carries a booking word or names a guest |
| AirbnbICal.IsRealIgnoresCase | src/main/java/com/br/elohostel/service/AirbnbICalService.java:293-311 | the decision is the same for a summary and its lower-cased form |
| AirbnbICal.ReservedIsReal | src/main/java/com/br/elohostel/service/AirbnbICalService.java:293-311 | the summary Reserved is imported |
| AirbnbICal.NotAvailableIsBlock | src/main/java/com/br/elohostel/service/AirbnbICalService.java:293-311 | the summary Airbnb (Not available) is treated as a block |
| AirbnbICal.GenerateUniqueAirbnbGuestName | src/main/java/com/br/elohostel/service/AirbnbICalService.java:241-256 | fails exactly when the UID is missing; otherwise the name starts with the Airbnb prefix and has the prefix's length plus 17 for a UID of 16 or more characters, else plus the UID's length |
| AirbnbICal.LongUidsShareName | src/main/java/com/br/elohostel/service/AirbnbICalService.java:247-255 | two long UIDs that agree, ignoring case, on their first and last eight characters get the same guest name |
| AirbnbICal.ShortUidNamesDiffer | src/main/java/com/br/elohostel/service/AirbnbICalService.java:253-255 | short UIDs that differ other than in case get different guest names |
| AirbnbICal.ParseEvent | src/main/java/com/br/elohostel/service/AirbnbICalService.java:395-440 | an event gives a row exactly when its summary is a reservation, it has a UID and its dates parse; the row carries the UID, the parsed check-in and check-out when both are present, status CONFIRMED and unprocessed |
| AirbnbICal.ParsedEvents | src/main/java/com/br/elohostel/service/AirbnbICalService.java:69-89 | at most one row per piece, each an unprocessed imported row |
| AirbnbICal.ParsedEventsAppend | src/main/java/com/br/elohostel/service/AirbnbICalService.java:75-82 | parsing two runs of pieces gives the concatenation of their rows |
| AirbnbICal.FeedWithoutBegin | src/main/java/com/br/elohostel/service/AirbnbICalService.java:73-84 | a feed without BEGIN:VEVENT is parsed as a single piece |
| AirbnbICal.ParseICalContent | src/main/java/com/br/elohostel/service/AirbnbICalService.java:69-89 | the loop collects exactly the rows the pieces of the feed parse to, in feed order |
| AirbnbICal.TargetRoomNumber | src/main/java/com/br/elohostel/service/AirbnbICalService.java:183-200 | the connection's associated room number; a failure is a runtime error, raised exactly when the association fails or a room number names no room |
| AirbnbICal.Request | src/main/java/com/br/elohostel/service/AirbnbICalService.java:176-214 | a request exists exactly when both dates, a target room and a UID exist; it asks for exactly the nights from check-in to the day before check-out, under the generated guest name, for the associated room |
| AirbnbICal.Plan | src/main/java/com/br/elohostel/service/AirbnbICalService.java:176-237 | a successful reservation is in the requested room for exactly the requested nights |
| AirbnbICal.CreateInternalReserve | src/main/java/com/br/elohostel/service/AirbnbICalService.java:176-237 | the reservation is created exactly when the plan succeeds and is recorded as createReserve records it; the row gets the generated guest name once the request is complete and the reservation link only on success; a failure is a runtime error that leaves the hostel tables as they were, and leaves the transaction rollback-only exactly when it came out of a transactional call |
| AirbnbICal.ImportRow | src/main/java/com/br/elohostel/service/AirbnbICalService.java:147-173 | one row's step inside the import transaction: a failed lookup dooms it, a known UID is skipped, a new row is stored; a doomed transaction stays doomed |
| AirbnbICal.StoreRow | src/main/java/com/br/elohostel/service/AirbnbICalService.java:157-168 | the row is appended after the stored ones, with the next id and its UID |
| AirbnbICal.ReimportChangesNothing | src/main/java/com/br/elohostel/service/AirbnbICalService.java:149-155 | once a row's UID is stored, importing the row again changes nothing |
| AirbnbICal.StoreNewRow | src/main/java/com/br/elohostel/service/AirbnbICalService.java:157-168 | a row whose UID is not stored leaves exactly the tables StoreRow describes |
| AirbnbICal.StoredRowIsImportRow | src/main/java/com/br/elohostel/service/AirbnbICalService.java:157-168 | the row saved with its outcome, the recorded booking and the rollback mark are exactly ImportRow's result |
| AirbnbICal.FailedRowMarks | src/main/java/com/br/elohostel/service/AirbnbICalService.java:159-166 | a new row whose complete request fails to book marks the import rollback-only |
| AirbnbICal.ImportMarkPersists | src/main/java/com/br/elohostel/service/AirbnbICalService.java:108-117 | once rollback-only, processing more rows never clears the mark |
| AirbnbICal.FailedBookingDoomsImport | src/main/java/com/br/elohostel/service/AirbnbICalService.java:108-117 | one such failing row anywhere in the feed leaves the whole import rollback-only |
| AirbnbICal.ImportRowKeepsUidsDistinct | src/main/java/com/br/elohostel/service/AirbnbICalService.java:149-157 | while the stored UIDs are distinct, processing a row only appends, keeps them distinct and stores its UID |
| AirbnbICal.ImportStepKeepsUidsDistinct | src/main/java/com/br/elohostel/service/AirbnbICalService.java:108-117 | the same for the k-th row of the loop |
| AirbnbICal.KeepsUidsAfterRow | src/main/java/com/br/elohostel/service/AirbnbICalService.java:149-157 | after one more row the UIDs of all rows processed so far are still stored |
| AirbnbICal.ImportPrefixKeepsUidsDistinct | src/main/java/com/br/elohostel/service/AirbnbICalService.java:108-117 | while the stored UIDs are distinct, the loop only appends, keeps them distinct and leaves every processed row's UID stored, so a second run finds every row |
| AirbnbICal.ImportPrefixStep | src/main/java/com/br/elohostel/service/AirbnbICalService.java:108-117 | processing one more row is the row's own step applied to the state before it |
| AirbnbICal.ImportPrefixAdvance | src/main/java/com/br/elohostel/service/AirbnbICalService.java:108-117 | the same, with the earlier rollback mark kept |
| AirbnbICal.ProcessNext | src/main/java/com/br/elohostel/service/AirbnbICalService.java:108-117 | one turn of the loop advances the tables by exactly one row's step |
| AirbnbICal.SyncImport | src/main/java/com/br/elohostel/service/AirbnbICalService.java:91-128 | a success is never rollback-only; every failure is a runtime error |
| AirbnbICal.FailedBookingFailsSync | src/main/java/com/br/elohostel/service/AirbnbICalService.java:91-128 | a feed holding a new row whose complete request fails to book makes the whole synchronisation fail |
| AirbnbICal.ImportTransaction | src/main/java/com/br/elohostel/service/AirbnbICalService.java:91-128 | commits exactly when no row left the transaction rollback-only, keeping the imported tables; otherwise every table is restored |
| AirbnbICal.ParsedEventsStep | src/main/java/com/br/elohostel/service/AirbnbICalService.java:75-82 | one more piece parsed adds its row, if any, after the earlier rows |
| AirbnbICal.ProcessAirbnbReservation | src/main/java/com/br/elohostel/service/AirbnbICalService.java:147-173 | a failed lookup is reported as such and a known UID as already stored; the new tables are exactly ImportRow of the old ones: nothing changes for a failed lookup (but the transaction is doomed) or a known UID, otherwise the row is stored as StoreRow says |
| AirbnbICal.HoldsAfterAppend | src/main/java/com/br/elohostel/service/AirbnbICalService.java:157 | appending rows never loses a stored UID |
| AirbnbICal.FeedRows | src/main/java/com/br/elohostel/service/AirbnbICalService.java:99-100 | the rows of a fetched feed are unprocessed imported rows of the connection |
| AirbnbICal.ProcessAll | src/main/java/com/br/elohostel/service/AirbnbICalService.java:105-117 | every row counts as processed and none as an error; the tables end as ImportRun, the rows processed one after the other, and `doomed` is whether a row left the transaction rollback-only |
| AirbnbICal.SyncAirbnbReservations | src/main/java/com/br/elohostel/service/AirbnbICalService.java:91-128 | succeeds exactly when SyncImport does, i.e. the property id finds one connection, the feed is fetched and no row left the transaction rollback-only; a failure is a runtime error and changes no table; a success counts every row, stamps the connection and leaves the imported tables |
| BookingICal.IsRealReservation | src/main/java/com/br/elohostel/service/BookingICalService.java:222-237 | no summary is not a reservation; otherwise one exactly when the lower-cased summary carries no block word and carries reserva or names a guest |
| BookingICal.SpacedUnmarkedSummaryPasses | src/main/java/com/br/elohostel/service/BookingICalService.java:222-242 | a two-word summary without block words is imported from Booking; one saying not available is still dropped by the Airbnb rule |
| BookingICal.ReservedIsSkipped | src/main/java/com/br/elohostel/service/BookingICalService.java:222-242 | the one-word summary Reserved is not imported from Booking |
| BookingICal.ExtractGuestNameFromSummary | src/main/java/com/br/elohostel/service/BookingICalService.java:262-267 | without the marker reservation for the summary is kept whole; with it the trimmed text after the marker; the result is always a piece of the summary |
| BookingICal.GuestNameRoundTrip | src/main/java/com/br/elohostel/service/BookingICalService.java:262-267 | extracting from Reservation for followed by a trimmed name gives back that name |
| BookingICal.ParseEvent | src/main/java/com/br/elohostel/service/BookingICalService.java:174-220 | an event gives a row exactly when its summary is a reservation and its dates parse; the row carries the UID (possibly none), the guest name extracted from the summary and the parsed dates |
| BookingICal.ParsedEvents | src/main/java/com/br/elohostel/service/BookingICalService.java:61-81 | at most one row per piece, each an unprocessed imported row |
| BookingICal.ParseICalContent | src/main/java/com/br/elohostel/service/BookingICalService.java:61-81 | the loop collects exactly the rows the pieces of the feed parse to, in feed order |
| BookingICal.TargetRoomNumber | src/main/java/com/br/elohostel/service/BookingICalService.java:155 | the connection's room number, else room 101 |
| BookingICal.Plan | src/main/java/com/br/elohostel/service/BookingICalService.java:151-172 | fails without both dates and a guest name; a success is in the target room for exactly the nights of the stay |
| BookingICal.CreateInternalReserve | src/main/java/com/br/elohostel/service/BookingICalService.java:151-172 | the reservation is created exactly when the plan succeeds and is recorded as createReserve records it, and the row is linked to it; a failure leaves the hostel tables as they were, and leaves the transaction rollback-only exactly when both dates are present (so the transactional createReserve ran and failed) |
| BookingICal.ImportRow | src/main/java/com/br/elohostel/service/BookingICalService.java:123-149 | one row's step inside the import transaction: a failed lookup dooms it, a known UID is skipped, a new row is stored; a doomed transaction stays doomed |
| BookingICal.StoreRow | src/main/java/com/br/elohostel/service/BookingICalService.java:133-144 | the row is appended after the stored ones, with the next id and its UID |
| BookingICal.ReimportChangesNothing | src/main/java/com/br/elohostel/service/BookingICalService.java:125-131 | once a row's UID is stored, importing the row again changes nothing |
| BookingICal.StoreNewRow | src/main/java/com/br/elohostel/service/BookingICalService.java:133-144 | a row whose UID is not stored leaves exactly the tables StoreRow describes |
| BookingICal.StoredRowIsImportRow | src/main/java/com/br/elohostel/service/BookingICalService.java:133-144 | the row saved with its outcome, the recorded booking and the rollback mark are exactly ImportRow's result |
| BookingICal.FailedRowMarks | src/main/java/com/br/elohostel/service/BookingICalService.java:135-142 | a new row with both dates whose booking fails marks the import rollback-only |
| BookingICal.ImportMarkPersists | src/main/java/com/br/elohostel/service/BookingICalService.java:101-110 | once rollback-only, processing more rows never clears the mark |
| BookingICal.FailedBookingDoomsImport | src/main/java/com/br/elohostel/service/BookingICalService.java:101-110 | one such failing row anywhere in the feed leaves the whole import rollback-only |
| BookingICal.ImportRowKeepsUidsDistinct | src/main/java/com/br/elohostel/service/BookingICalService.java:125-133 | while the stored UIDs are distinct, processing a row only appends, keeps them distinct and stores its UID |
| BookingICal.ImportStepKeepsUidsDistinct | src/main/java/com/br/elohostel/service/BookingICalService.java:101-110 | the same for the k-th row of the loop |
| BookingICal.KeepsUidsAfterRow | src/main/java/com/br/elohostel/service/BookingICalService.java:125-133 | after one more row the UIDs of all rows processed so far are still stored |
| BookingICal.ImportPrefixKeepsUidsDistinct | src/main/java/com/br/elohostel/service/BookingICalService.java:101-110 | while the stored UIDs are distinct, the loop only appends, keeps them distinct and leaves every processed row's UID stored |
| BookingICal.ImportPrefixStep | src/main/java/com/br/elohostel/service/BookingICalService.java:101-110 | processing one more row is the row's own step applied to the state before it |
| BookingICal.ImportPrefixAdvance | src/main/java/com/br/elohostel/service/BookingICalService.java:101-110 | the same, with the earlier rollback mark kept |
| BookingICal.ProcessNext | src/main/java/com/br/elohostel/service/BookingICalService.java:101-110 | one turn of the loop advances the tables by exactly one row's step |
| BookingICal.SyncImport | src/main/java/com/br/elohostel/service/BookingICalService.java:84-121 | a success is never rollback-only; every failure is a runtime error |
| BookingICal.FailedBookingFailsSync | src/main/java/com/br/elohostel/service/BookingICalService.java:84-121 | a feed holding a new row with both dates whose booking fails makes the whole synchronisation fail |
| BookingICal.ImportTransaction | src/main/java/com/br/elohostel/service/BookingICalService.java:84-121 | commits exactly when no row left the transaction rollback-only, keeping the imported tables; otherwise every table is restored |
| BookingICal.ParsedEventsStep | src/main/java/com/br/elohostel/service/BookingICalService.java:67-74 | one more piece parsed adds its row, if any, after the earlier rows |
| BookingICal.ProcessBookingReservation | src/main/java/com/br/elohostel/service/BookingICalService.java:123-149 | a failed lookup is reported as such and a known UID as already stored; the new tables are exactly ImportRow of the old ones: nothing changes for a failed lookup (but the transaction is doomed) or a known UID, otherwise the row is stored as StoreRow says |
| BookingICal.OnlyFirstMissingUidImported | src/main/java/com/br/elohostel/service/BookingICalService.java:125-130 | once an event without UID is stored, every later one without UID is found and skipped |
| BookingICal.HoldsAfterAppend | src/main/java/com/br/elohostel/service/BookingICalService.java:133 | appending rows never loses a stored UID |
| BookingICal.FeedRows | src/main/java/com/br/elohostel/service/BookingICalService.java:93-94 | the rows of a fetched feed are unprocessed imported rows of the connection |
| BookingICal.ProcessAll | src/main/java/com/br/elohostel/service/BookingICalService.java:98-110 | every row counts as processed and none as an error; the tables end as ImportRun, the rows processed one after the other, and `doomed` is whether a row left the transaction rollback-only |
| BookingICal.SyncBookingReservations | src/main/java/com/br/elohostel/service/BookingICalService.java:84-121 | succeeds exactly when SyncImport does, i.e. the property id finds one connection, the feed is fetched and no row left the transaction rollback-only; a failure is a runtime error and changes no table; a success counts every row, stamps the connection and leaves the imported tables |
| Text.NatToString | src/main/java/com/br/elohostel/service/ICalExportService.java:219 | the decimal digits of a number, without a leading zero |
| Text.NatToStringRoundTrip | src/main/java/com/br/elohostel/service/ICalExportService.java:219 | the digits read back as the number |
| Text.NatToStringInjective | src/main/java/com/br/elohostel/service/ICalExportService.java:219-224 | different numbers are written differently |
| ICalExport.YearText | src/main/java/com/br/elohostel/service/ICalExportService.java:224 | a year from 0 to 9999 is written as four digits that read back as that year |
| ICalExport.TwoDigitField | src/main/java/com/br/elohostel/service/ICalExportService.java:224 | a hyphen then the field; a month or day from 1 to 99 is written as two digits that read back as its value |
| ICalExport.Uid | src/main/java/com/br/elohostel/service/ICalExportService.java:224 | every event UID starts with elohostel- |
| ICalExport.UidNamesReserve | src/main/java/com/br/elohostel/service/ICalExportService.java:224 | equal UIDs come from the same reservation and the same printed date, so no two events of different reservations share a UID |
| ICalExport.EventsForDays | src/main/java/com/br/elohostel/service/ICalExportService.java:169-191 | the loop makes exactly one event per reserved date, none for a date twice, each the event of its own date; an empty date set gives none |
| ICalExport.EventsForReserves | src/main/java/com/br/elohostel/service/ICalExportService.java:90-101 | the calendar holds, reservation by reservation, one event per reserved night, as many events as nights in total |
| ICalExport.RoomRows | src/main/java/com/br/elohostel/service/ICalExportService.java:124-125 | the rooms of a reservation are looked up in the room table; every room that exists is found, and only those |
| ICalExport.FirstGuest | src/main/java/com/br/elohostel/service/ICalExportService.java:209-210 | the guest shown is one of the reservation's guests; there is none exactly when the reservation has no guest in the table |
| ICalExport.IsReserveForTargetRoom | src/main/java/com/br/elohostel/service/ICalExportService.java:118-132 | without a target room every reservation qualifies; otherwise exactly those holding a room with the target number |
| ICalExport.ReservesToExport | src/main/java/com/br/elohostel/service/ICalExportService.java:72-77 | a reservation is exported exactly when it is in the table, is for the target room, is not cancelled and has dates and rooms |
| ICalExport.CancelledNeverExported | src/main/java/com/br/elohostel/service/ICalExportService.java:137-139 | a cancelled reservation is never exported |
| ICalExport.NoTargetExportsAllLive | src/main/java/com/br/elohostel/service/ICalExportService.java:120-157 | without a target room every live reservation with dates and rooms is exported |
| ICalExport.EventGuestName | src/main/java/com/br/elohostel/service/ICalExportService.java:209-210 | the first guest's name, else Hóspede Airbnb |
| ICalExport.EventForDate | src/main/java/com/br/elohostel/service/ICalExportService.java:193-235 | the event runs from the reserved day to the next, carries the UID of the reservation and date, and its summary starts with Reservado - |
| ICalExport.GenerateICalContent | src/main/java/com/br/elohostel/service/ICalExportService.java:60-116 | fails exactly when no single connection has the property id or its linked room is missing; otherwise the calendar is named after the connection and holds one event per night of each exported reservation |
| ICalExport.Token | src/main/java/com/br/elohostel/service/ICalExportService.java:50-55 | the token has sixteen characters and no hyphen |
| ICalExport.GenerateExportUrl | src/main/java/com/br/elohostel/service/ICalExportService.java:54-57 | the URL starts with /api/ical/export/ and ends with .ics |
| ICalExport.GenerateCalendarExportUrl | src/main/java/com/br/elohostel/service/ICalExportService.java:49-52 | the URL starts with /api/calendar/export/ and ends with .ics |
| ICalExport.TokenUrlParts | src/main/java/com/br/elohostel/service/ICalExportService.java:49-57 | the URL is the path, the property id, a slash, the token and .ics, so the property id and token can be read back from it |
| CalendarExport.IsValidToken | src/main/java/com/br/elohostel/controller/CalendarExportController.java:203-207 | every token is accepted |
| CalendarExport.ActiveReserves | src/main/java/com/br/elohostel/controller/CalendarExportController.java:65-70 | exactly the reservations that are not cancelled |
| CalendarExport.GuestText | src/main/java/com/br/elohostel/controller/CalendarExportController.java:155-159 | the first guest's name, else Hóspede não informado |
| CalendarExport.RoomInfo | src/main/java/com/br/elohostel/controller/CalendarExportController.java:161-165 | the room text always starts with Quarto |
| CalendarExport.EventForDate | src/main/java/com/br/elohostel/controller/CalendarExportController.java:136-201 | the event runs from the reserved day to the next, carries the UID of the reservation and date and the RESERVADO summary |
| CalendarExport.SummarySaysRoomTwice | src/main/java/com/br/elohostel/controller/CalendarExportController.java:164-168 | every summary contains Quarto Quarto, because the room text already starts with that word |
| CalendarExport.ExportCalendarICal | src/main/java/com/br/elohostel/controller/CalendarExportController.java:51-103 | status 200, the fixed calendar name, and one event per night of each reservation that is not cancelled |
| Channels.NewAirbnbSync | src/main/java/com/br/elohostel/model/AirbnbSync.java:54-74 | a new connection syncs both ways, is active, is created now, and has every other field unset |
| Channels.AirbnbSyncOf | src/main/java/com/br/elohostel/model/AirbnbSync.java:82-87 | the defaults of a new connection plus the feed URL, property id, property name and room number given |
| Channels.NewBookingSync | src/main/java/com/br/elohostel/model/BookingSync.java:48-57 | a new Booking.com connection syncs both ways, is active, is created now, and has every other field unset |
| Channels.AirbnbSyncEquals | src/main/java/com/br/elohostel/model/AirbnbSync.java:204-218 | two connections are equal exactly when their ids are equal, two unsaved ones included |
| Channels.AirbnbSyncHash | src/main/java/com/br/elohostel/model/AirbnbSync.java:196-201 | the hash is a 32-bit int, 31 for an unsaved connection |
| Channels.AirbnbSyncEqualsConsistent | src/main/java/com/br/elohostel/model/AirbnbSync.java:196-218 | equal connections have equal hashes, and equality ignores every field but the id |
| Channels.AssociatedRoomNumber | src/main/java/com/br/elohostel/model/AirbnbSync.java:189-194 | without a linked room the stored number; with one, the linked room's own number, a failure exactly when that room is not in the table |
| Channels.LinkedRoomWins | src/main/java/com/br/elohostel/model/AirbnbSync.java:189-194 | a linked room's number wins over the stored number |
| Channels.AirbnbSyncByPropertyId | src/main/java/com/br/elohostel/repository/AirbnbSyncRepository.java:28 | the position of the one connection with the property id; none exactly when no connection has it; a failure when several do |
| Channels.BookingSyncByPropertyId | src/main/java/com/br/elohostel/repository/BookingSyncRepository.java:11 | the position of the one Booking.com connection with the property id; none exactly when no connection has it; a failure when several do |
| Channels.ActiveAirbnbSyncs | src/main/java/com/br/elohostel/repository/AirbnbSyncRepository.java:20 | exactly the active connections |
| Channels.ActiveBookingSyncs | src/main/java/com/br/elohostel/repository/BookingSyncRepository.java:12 | exactly the active Booking.com connections |
| Channels.AirbnbReservationByUid | src/main/java/com/br/elohostel/repository/AirbnbReservationRepository.java:15 | the position of the one stored event with the UID; none exactly when none has it; a failure when several do |
| Channels.BookingReservationByUid | src/main/java/com/br/elohostel/repository/BookingReservationRepository.java:10 | the position of the one stored Booking.com event with the UID; none exactly when none has it; a failure when several do |
| Channels.AirbnbUidLookupSucceeds | src/main/java/com/br/elohostel/repository/AirbnbReservationRepository.java:15 | while the stored UIDs are distinct the lookup never fails, and finds a UID exactly when it is stored |
| Channels.BookingUidLookupSucceeds | src/main/java/com/br/elohostel/repository/BookingReservationRepository.java:10 | while the stored UIDs are distinct the lookup never fails, and finds a UID exactly when it is stored |
| Channels.LinkedReserveIds | src/main/java/com/br/elohostel/model/AirbnbReservation.java:60-62 | exactly the reservations some imported Airbnb or Booking.com event names in its reserve_id column (BookingReservation.java:53-55 holds the same column) |
| Channels.ChannelStore.constructor | src/main/java/com/br/elohostel/repository/AirbnbSyncRepository.java:14 | the channel tables start empty |
| Channels.FetchFeed | src/main/java/com/br/elohostel/service/AirbnbICalService.java:55-66 | a connection without a feed URL fetches nothing |
| SyncResponses.CreateErrorResponse | src/main/java/com/br/elohostel/controller/AirbnbBidirectionalController.java:464-470 | an unsuccessful body carrying the error text |
| SyncResponses.SuccessCount | src/main/java/com/br/elohostel/controller/AirbnbBidirectionalController.java:317-346 | at most one per entry; every entry counts exactly when all went through |
| SyncResponses.SuccessCountAppend | src/main/java/com/br/elohostel/controller/AirbnbBidirectionalController.java:337 | one more entry adds one success exactly when it went through |
| AirbnbBidirectional.IsValidAirbnbICalUrl | src/main/java/com/br/elohostel/controller/AirbnbBidirectionalController.java:456-462 | a missing or blank URL is invalid; a valid one holds the Airbnb calendar path |
| AirbnbBidirectional.AirbnbUrlNeedsOnlyThePath | src/main/java/com/br/elohostel/controller/AirbnbBidirectionalController.java:456-462 | a URL is valid exactly when it holds airbnb.com/calendar/ical/, since that path already ends in ical/ |
| AirbnbBidirectional.ConnectionVerdict | src/main/java/com/br/elohostel/controller/AirbnbBidirectionalController.java:82-92 | setup goes on exactly when the URL is valid and no connection has the property id; an invalid URL is a 400 first, then a duplicate property id is a 400 |
| AirbnbBidirectional.RoomLink | src/main/java/com/br/elohostel/controller/AirbnbBidirectionalController.java:94-114 | a room id must name a room (else a 400 naming the id) and links it; otherwise a room number links the room with that number, an unknown number links nothing |
| AirbnbBidirectional.NewConnection | src/main/java/com/br/elohostel/controller/AirbnbBidirectionalController.java:121-133 | the saved connection carries the request's fields, the export URL, the linked room, both directions, active, synchronised now |
| AirbnbBidirectional.SetupBidirectional | src/main/java/com/br/elohostel/controller/AirbnbBidirectionalController.java:76-172 | 200 exactly when both checks pass, else the first check's answer with nothing saved; on success one connection is appended with the export URL and the answer reports whether a room was linked and its number |
| AirbnbBidirectional.SetupCalendarBidirectional | src/main/java/com/br/elohostel/controller/AirbnbBidirectionalController.java:177-239 | 200 exactly when the URL and duplicate checks pass, else their answer with nothing saved; on success one connection without a room is appended with the calendar export URL |
| AirbnbBidirectional.SetupTwiceIsDuplicate | src/main/java/com/br/elohostel/controller/AirbnbBidirectionalController.java:88-92 | once a property is set up, setting it up again is refused as a duplicate |
| AirbnbBidirectional.Sweep | src/main/java/com/br/elohostel/controller/AirbnbBidirectionalController.java:317-346 | the connection rows keep their length while the loop runs |
| AirbnbBidirectional.SweepRunIs | src/main/java/com/br/elohostel/controller/AirbnbBidirectionalController.java:317-346 | the j-th connection is synchronised against the rows and tables the first j left, with its own address fetched and its own clocks |
| AirbnbBidirectional.SweepAdvance | src/main/java/com/br/elohostel/controller/AirbnbBidirectionalController.java:321-346 | one more connection: skipped when inactive, otherwise synchronised against the tables the earlier ones left, stamped when it went through, and reported |
| AirbnbBidirectional.SweepReports | src/main/java/com/br/elohostel/controller/AirbnbBidirectionalController.java:321-346 | after the first n rows the report names, in order, exactly the active connections among them |
| AirbnbBidirectional.SweepReportsActive | src/main/java/com/br/elohostel/controller/AirbnbBidirectionalController.java:311-346 | the final report names exactly the active connections, in table order |
| AirbnbBidirectional.SweepStamps | src/main/java/com/br/elohostel/controller/AirbnbBidirectionalController.java:332-333 | a row changes at most by being stamped, only when active and reached, and the property ids stay |
| AirbnbBidirectional.SweepWithoutSuccess | src/main/java/com/br/elohostel/controller/AirbnbBidirectionalController.java:326-343 | when no connection went through, the rows and tables are as they were |
| AirbnbBidirectional.SyncNext | src/main/java/com/br/elohostel/controller/AirbnbBidirectionalController.java:321-346 | one turn of the loop: the tables move by one step of the sweep, an active connection adds its entry, and the counts follow the report |
| AirbnbBidirectional.LookupSeesPropertyIds | src/main/java/com/br/elohostel/controller/AirbnbBidirectionalController.java:327-330 | stamping rows does not change what a property-id lookup finds |
| AirbnbBidirectional.SyncConnection | src/main/java/com/br/elohostel/controller/AirbnbBidirectionalController.java:326-343 | goes through exactly when the property's synchronisation (SyncImport against the current tables) does; then the connection read at the start is stamped with the time and the imported tables are kept; otherwise no table changes |
| AirbnbBidirectional.SyncEach | src/main/java/com/br/elohostel/controller/AirbnbBidirectionalController.java:317-346 | the connection rows, imported events and hostel tables end as Sweep says, each active connection synchronised against what the ones before it left; one report entry per active connection, in table order; the counts are the entries that went through and those that failed |
| AirbnbBidirectional.SyncAll | src/main/java/com/br/elohostel/controller/AirbnbBidirectionalController.java:309-363 | always 200; without an active connection the error body and no change; otherwise a report naming each active connection in order, with successes plus errors equal to the number of connections, and the tables as Sweep says |
| BookingBidirectional.IsValidBookingICalUrl | src/main/java/com/br/elohostel/controller/BookingBidirectionalController.java:393-398 | a missing or blank URL is invalid; a valid one mentions booking.com and .ics |
| BookingBidirectional.BookingUrlNeedsHostAndSuffix | src/main/java/com/br/elohostel/controller/BookingBidirectionalController.java:393-398 | a URL is valid exactly when it mentions booking.com and .ics |
| BookingBidirectional.ConnectionVerdict | src/main/java/com/br/elohostel/controller/BookingBidirectionalController.java:54-63 | setup goes on exactly when the URL is valid and no connection has the property id; an invalid URL is a 400 first, then a duplicate property id is a 400 |
| BookingBidirectional.NewConnection | src/main/java/com/br/elohostel/controller/BookingBidirectionalController.java:68-77 | the saved connection carries the request's fields and room number, the export URL, both directions, active, synchronised now |
| BookingBidirectional.SetupBidirectional | src/main/java/com/br/elohostel/controller/BookingBidirectionalController.java:49-103 | 200 exactly when both checks pass, else the first check's answer with nothing saved; on success one connection is appended with the export URL |
| BookingBidirectional.SetupCalendarBidirectional | src/main/java/com/br/elohostel/controller/BookingBidirectionalController.java:299-357 | the same checks and connection, with the calendar export URL |
| BookingBidirectional.SetupTwiceIsDuplicate | src/main/java/com/br/elohostel/controller/BookingBidirectionalController.java:59-63 | once a property is set up, setting it up again is refused as a duplicate |
| BookingBidirectional.Sweep | src/main/java/com/br/elohostel/controller/BookingBidirectionalController.java:169-198 | the connection rows keep their length while the loop runs |
| BookingBidirectional.SweepRunIs | src/main/java/com/br/elohostel/controller/BookingBidirectionalController.java:169-198 | the j-th connection is synchronised against the rows and tables the first j left, with its own address fetched and its own clocks |
| BookingBidirectional.SweepAdvance | src/main/java/com/br/elohostel/controller/BookingBidirectionalController.java:173-198 | one more connection: skipped when inactive, otherwise synchronised against the tables the earlier ones left, stamped when it went through, and reported |
| BookingBidirectional.SweepReports | src/main/java/com/br/elohostel/controller/BookingBidirectionalController.java:173-198 | after the first n rows the report names, in order, exactly the active connections among them |
| BookingBidirectional.SweepReportsActive | src/main/java/com/br/elohostel/controller/BookingBidirectionalController.java:163-198 | the final report names exactly the active connections, in table order |
| BookingBidirectional.SweepStamps | src/main/java/com/br/elohostel/controller/BookingBidirectionalController.java:184-185 | a row changes at most by being stamped, only when active and reached, and the property ids stay |
| BookingBidirectional.SweepWithoutSuccess | src/main/java/com/br/elohostel/controller/BookingBidirectionalController.java:178-195 | when no connection went through, the rows and tables are as they were |
| BookingBidirectional.SyncNext | src/main/java/com/br/elohostel/controller/BookingBidirectionalController.java:173-198 | one turn of the loop: the tables move by one step of the sweep, an active connection adds its entry, and the counts follow the report |
| BookingBidirectional.LookupSeesPropertyIds | src/main/java/com/br/elohostel/controller/BookingBidirectionalController.java:179-182 | stamping rows does not change what a property-id lookup finds |
| BookingBidirectional.SyncConnection | src/main/java/com/br/elohostel/controller/BookingBidirectionalController.java:178-195 | goes through exactly when the property's synchronisation (SyncImport against the current tables) does; then the connection read at the start is stamped with the time and the imported tables are kept; otherwise no table changes |
| BookingBidirectional.SyncEach | src/main/java/com/br/elohostel/controller/BookingBidirectionalController.java:169-198 | the connection rows, imported events and hostel tables end as Sweep says, each active connection synchronised against what the ones before it left; one report entry per active connection, in table order; the counts are the entries that went through and those that failed |
| BookingBidirectional.SyncAll | src/main/java/com/br/elohostel/controller/BookingBidirectionalController.java:160-214 | always 200; without an active connection the error body and no change; otherwise a report naming each active connection in order, with successes plus errors equal to the number of connections, and the tables as Sweep says |
| AirbnbConnection.SchemesExclusive | src/main/java/com/br/elohostel/controller/AirbnbConnectionController.java:175 | no URL starts with both http:// and https:// |
| AirbnbConnection.SchemeLength | src/main/java/com/br/elohostel/controller/AirbnbConnectionController.java:175 | the scheme's length is found exactly when the URL starts with http:// or https://, and it is that scheme's length |
| AirbnbConnection.IsValidICalUrl | src/main/java/com/br/elohostel/controller/AirbnbConnectionController.java:169-176 | a missing or blank URL is invalid; a valid URL starts with http:// or https:// |
| AirbnbConnection.SplitAtSuffix | src/main/java/com/br/elohostel/controller/AirbnbConnectionController.java:175 | a text longer than a suffix it ends with splits into a non-empty middle and that suffix |
| AirbnbConnection.SplitAtQuery | src/main/java/com/br/elohostel/controller/AirbnbConnectionController.java:175 | a text holding .ics? after its first character splits into a non-empty middle, .ics and a query starting with ? |
| AirbnbConnection.JoinAtQuery | src/main/java/com/br/elohostel/controller/AirbnbConnectionController.java:175 | a non-empty middle, .ics and a query starting with ? hold .ics? after the first character |
| AirbnbConnection.SchemeOf | src/main/java/com/br/elohostel/controller/AirbnbConnectionController.java:175 | a URL built from a scheme and a rest has that scheme's length and that rest after it |
| AirbnbConnection.ShapeOfParts | src/main/java/com/br/elohostel/controller/AirbnbConnectionController.java:175 | a scheme, a non-empty middle, .ics and an optional query, with no line terminator, form a URL of the pattern's shape |
| AirbnbConnection.PlainShape | src/main/java/com/br/elohostel/controller/AirbnbConnectionController.java:175 | a URL whose rest ends in .ics after at least one character has the shape, with no query |
| AirbnbConnection.QueryShape | src/main/java/com/br/elohostel/controller/AirbnbConnectionController.java:175 | a URL whose rest holds .ics? after its first character has the shape, with a query |
| AirbnbConnection.PatternHasShape | src/main/java/com/br/elohostel/controller/AirbnbConnectionController.java:175 | every URL matching the pattern is a scheme, a non-empty middle, .ics and an optional query starting with ? |
| AirbnbConnection.ValidUrlHasShape | src/main/java/com/br/elohostel/controller/AirbnbConnectionController.java:169-176 | every valid URL has that shape |
| AirbnbConnection.ShapeIsValid | src/main/java/com/br/elohostel/controller/AirbnbConnectionController.java:169-176 | every URL of that shape is valid, so validity and the shape coincide |
| AirbnbConnection.ConnectAirbnb | src/main/java/com/br/elohostel/controller/AirbnbConnectionController.java:44-75 | an invalid URL is a 400 before anything else; an unreachable one is a 400; otherwise 200 exactly when the property's synchronisation goes through (which it does not once a row left the transaction rollback-only), with the connection stamped and the imported rows and hostel tables kept; else a 500 with nothing changed |
| BedOccupationController.GenerateDateRange | src/main/java/com/br/elohostel/controller/BedOccupationController.java:61-69 | exactly the days from start to end, both included: end - start + 1 of them, holding start and end, and none when start is after end |
| BedOccupationController.GetBedAvailability | src/main/java/com/br/elohostel/controller/BedOccupationController.java:31-41 | one entry per room, each over exactly the days from start to end, with no more free beds than beds |
| ReserveController.NameRequired | src/main/java/com/br/elohostel/controller/ReserveController.java:206 | the message names the missing guest name |
| ReserveController.RgRequired | src/main/java/com/br/elohostel/controller/ReserveController.java:209 | the message names the missing guest RG |
| ReserveController.GuestInfo | src/main/java/com/br/elohostel/controller/ReserveController.java:213 | a guest passes to the service with its name, RG, phone and email unchanged |
| ReserveController.GuestInfos | src/main/java/com/br/elohostel/controller/ReserveController.java:213 | the guests pass to the service one for one, in order |
| ReserveController.StatusOf | src/main/java/com/br/elohostel/controller/ReserveController.java:225-237 | NotFound is 404, IllegalState 409, IllegalArgument 400, any other failure 500 |
| ReserveController.ErrorBody | src/main/java/com/br/elohostel/controller/ReserveController.java:225-237 | every failure answers with a message; an unexpected one with the internal-error text |
| ReserveController.CompletePrefixStep | src/main/java/com/br/elohostel/controller/ReserveController.java:203-211 | one more complete guest extends the checked prefix by one |
| ReserveController.GuestProblem | src/main/java/com/br/elohostel/controller/ReserveController.java:203-211 | no problem exactly when every guest has a name and an RG; otherwise the first incomplete guest, reported by its 1-based position for a missing name, else for a missing RG |
| ReserveController.CreateReservationWithGuest | src/main/java/com/br/elohostel/controller/ReserveController.java:183-239 | no guests, then no room number, then no dates are each a 400; then the first incomplete guest is a 400; otherwise 201 with the reservation exactly when the service creates it, else a 500 with nothing changed |
| ReserveController.UpdateReserveValue | src/main/java/com/br/elohostel/controller/ReserveController.java:159-180 | an unknown id is NotFound with nothing changed; otherwise exactly the given fields among useCustomValue, customValue and extraGuestFee are copied, every other field is kept and the row is saved in place |

## Left out

- Front-end JavaScript: it is browser UI code and does its price arithmetic in floating point.
- Network access: `fetchICalContent` (AirbnbICalService, BookingICalService) and `testICalConnection` are not modelled. Their outcomes arrive as parameters: the fetched feed text, or `None`, and the `reachable` flag.
- The `CompletableFuture` background syncs are not modelled: they only run the modelled syncs on another thread.
- The schedulers are not modelled: FinancialScheduler, AirbnbSyncScheduler and the `@Scheduled scheduledSync` methods only trigger the modelled operations on a timer.
- Concurrency: each `@Transactional` method is one atomic step. `checkIn`, which is not transactional in the source, is treated the same way. The race between two simultaneous creations depends on database isolation and is not modelled.
- JPA mechanics (cascade, flush, lazy loading, generated ids) are not modelled. A new row takes the next value of one identity counter shared by all tables. The guest–reserve link is stored on the reserve side only.
- ical4j and java.util.Calendar are not modelled (rendering, `DtStamp`, `ProdId`, the calendar-level properties, time-zone conversion). An exported event is a record with start date, end date, UID, summary and description.
- RFC 5545 line unfolding (section 3.1 of RFC 5545) is not modelled, because the source does none.
- `extractEmailFromDescription` (a regular expression) and `extractAdditionalInfoFromDescription` are not modelled, because their results only reach the log.
- The `AirbnbConnectionController` URL pattern is a regular expression in the source. It is modelled as the shape of the text it accepts.
- Log messages, exception message texts and response timestamps are not modelled. An error response carries the message the controller writes itself.
- The extra informational fields of success responses and their "next steps" lists are not modelled.
- ICal.ParseICalDate: signed years and years beyond four digits are not accepted, because the `yyyyMMdd` pattern read here is exactly eight digits.
- Text.LowerChar: case mapping covers ASCII and the Latin-1 letters only. Other scripts are left unchanged.
- Spring's rollback-only flag is modelled as one boolean carried through an import. It is set when an exception leaves a `@Transactional` repository or service call made inside the sync's transaction, even when the caller catches it. The commit then fails with a runtime error and every table written during the sync is restored. Which calls count as transactional follows the source: the repository lookups and `ReserveService.createReserve`. The `REQUIRES_NEW` on `processSingleReservation` has no effect because the sync calls it on `this`, past Spring's proxy, so every row runs in the sync's own transaction.
- AirbnbICal.SyncAirbnbReservations, BookingICal.SyncBookingReservations: success is no longer promised whenever the configuration is found and the feed fetched. A row that leaves the transaction rollback-only makes the whole sync fail with nothing written.
- AirbnbICal.ProcessAll, BookingICal.ProcessAll: the facts that stored UIDs stay distinct and that every processed row's UID ends up stored are stated about `ImportRun` by `ImportPrefixKeepsUidsDistinct` and no longer repeated in the method's own postcondition, which states the resulting tables as `ImportRun`.
- Iteration order of a Java `HashSet` is unspecified. Wherever the source takes "the first" room, guest or bed of a set, the model takes the first in table order.
- `getRoomNumberFromReserve` is not modelled: it is only used in log lines.
- Debug operations are not modelled: `forceICalUpdate`, `debugICalContent`, `debugReservations`, `debugReserveCreation` and `checkReservationStatus` only report state.
- `parseICalContent` has a catch block that is not modelled: nothing inside it can throw once the content is a string.
- `ReserveService.findAll`, `save` and `getValueDetails` are not modelled: they are pass-throughs to the repository, and getValueDetails is a read-only map of fields whose values `Reserves.CalculateTotalValue` already states.
- `RoomService.findAll`, `insert` and `deleteById` are not modelled: they are repository pass-throughs.
- `BedOccupationService.isBedAvailableForDates` is modelled by `BedOccupationRepository.IsBedAvailableForDates`, the query it returns. `findOccupationsInPeriod` is not modelled: it is a repository pass-through.
- `BedOccupationService.getBedOccupationStatistics` is not modelled: it computes floating-point rates.
- FinancialRecordService dashboard and pass-throughs are not modelled: `getFinancialDashboard`, `calculateTodayForecast`, `getDailyRecords`, `getMonthlyRecords`, `getAnnualRecords`, `delete`, the repository getters, `processSpecificDate` (it only calls `processDailyRecord`), `processForecastPeriod` (a loop of `processForecast` calls) and `processAllReservations` (a loop of `forceProcessDate` calls over the reserved dates).
- Controller endpoints that only forward to a modelled operation or return stored rows are not modelled:
  - the AirbnbBidirectional and BookingBidirectional `health`, `getConnections`, `getConnection`, `syncNow`, activate/deactivate/delete and `testConnection` endpoints;
  - the AirbnbConnection update, disable and sync-now endpoints;
  - the BedOccupationController statistics and allocation endpoints;
  - the ReserveController endpoints other than create-with-guest and value update.
- Security, JWT, file storage, seed data and the thin CRUD services and controllers are outside the reservation core.
