/**
 * The reservation controller: the checks of a create-with-guests request
 * before the service runs, the answer each service failure gets, and the
 * partial update of a reservation's value fields.
 */
module ReserveController {
  import opened Wrappers
  import opened Text
  import opened Reserves
  import Hostel
  import ReserveService

  const NoGuests: string := "Pelo menos um hóspede deve ser informado"
  const NoRoomNumber: string := "Número do quarto é obrigatório"
  const NoDates: string := "Pelo menos uma data deve ser informada"
  /** The text before the exception's message in a 404 answer (the message itself is not modelled). */
  const NotFoundPrefix: string := "Recurso não encontrado: "
  /** The text before the exception's message in a 500 answer. */
  const InternalErrorPrefix: string := "Erro interno ao criar reserva: "

  /** The answer to the guest at 1-based position `position` having no name. */
  function NameRequired(position: nat): (r: string)
    ensures StartsWith(r, "Nome do hóspede ")
  {
    "Nome do hóspede " + NatToString(position) + " é obrigatório"
  }

  /** The answer to the guest at 1-based position `position` having no RG. */
  function RgRequired(position: nat): (r: string)
    ensures StartsWith(r, "RG do hóspede ")
  {
    "RG do hóspede " + NatToString(position) + " é obrigatório"
  }

  // ------------------------------------------------------------ create with guests

  /** One guest of the request; `None` stands for a field left null. */
  datatype GuestRequest = GuestRequest(name: Option<string>, rg: Option<string>, phone: Option<string>,
                                       email: Option<string>)

  /** The request body of create-with-guest; `None` stands for a field left null. */
  datatype CreateRequest = CreateRequest(guests: Option<seq<GuestRequest>>, roomNumber: Option<int>,
                                         dates: Option<set<int>>)

  /** The body of an answer: a text, or the reservation made. */
  datatype Body = Message(text: string) | Created(reserve: Reserve)

  /** A field that is given and not blank. */
  predicate Filled(s: Option<string>) { s.Some? && !IsBlank(s.value) }

  /** A guest with a name and an RG. */
  predicate CompleteGuest(g: GuestRequest) { Filled(g.name) && Filled(g.rg) }

  /** The request names at least one guest, a room and at least one day. */
  predicate HeaderComplete(req: CreateRequest)
  {
    req.guests.Some? && req.guests.value != [] && req.roomNumber.Some? && req.dates.Some? && req.dates.value != {}
  }

  /** A guest as the service receives it. */
  function GuestInfo(g: GuestRequest): (info: ReserveService.GuestInfo)
    requires g.name.Some?
    ensures info.name == g.name.value && info.rg == g.rg && info.phone == g.phone && info.email == g.email
  {
    ReserveService.GuestInfo(g.name.value, g.rg, g.phone, g.email)
  }

  /** The guests as the service receives them, in order. */
  function GuestInfos(guests: seq<GuestRequest>): (infos: seq<ReserveService.GuestInfo>)
    requires forall i :: 0 <= i < |guests| ==> guests[i].name.Some?
    ensures |infos| == |guests|
    ensures forall i :: 0 <= i < |guests| ==> infos[i] == GuestInfo(guests[i])
  {
    seq(|guests|, i requires 0 <= i < |guests| => GuestInfo(guests[i]))
  }

  /** The status each kind of exception is answered with. */
  function StatusOf(e: ErrorKind): (status: int)
    ensures 400 <= status <= 500
    ensures status == 500 <==> e == Runtime
    ensures status == 404 <==> e == NotFound
    ensures status == 409 <==> e == IllegalState
    ensures status == 400 <==> e == IllegalArgument
  {
    match e
    case NotFound => 404
    case IllegalState => 409
    case IllegalArgument => 400
    case Runtime => 500
  }

  /** The body each kind of exception is answered with (the exception's message is not modelled). */
  function ErrorBody(e: ErrorKind): (body: Body)
    ensures body.Message?
    ensures e == Runtime ==> body == Message(InternalErrorPrefix)
  {
    match e
    case NotFound => Message(NotFoundPrefix)
    case IllegalState => Message("")
    case IllegalArgument => Message("")
    case Runtime => Message(InternalErrorPrefix)
  }

  /** One more complete guest extends a complete prefix by one. */
  lemma CompletePrefixStep(guests: seq<GuestRequest>, i: nat)
    requires i < |guests| && Filled(guests[i].name) && Filled(guests[i].rg)
    requires forall j :: 0 <= j < i ==> CompleteGuest(guests[j])
    ensures forall j :: 0 <= j < i + 1 ==> CompleteGuest(guests[j])
  {
  }

  /**
   * The loop over the guests of createReservationWithGuest: the answer to
   * the first guest, in order, without a name or else without an RG, if
   * there is one.
   */
  method GuestProblem(guests: seq<GuestRequest>) returns (problem: Option<string>)
    ensures problem.None? <==> forall i :: 0 <= i < |guests| ==> CompleteGuest(guests[i])
    ensures problem.Some? ==>
      exists i :: 0 <= i < |guests| && (forall j :: 0 <= j < i ==> CompleteGuest(guests[j]))
        && ((!Filled(guests[i].name) && problem.value == NameRequired(i + 1))
            || (Filled(guests[i].name) && !Filled(guests[i].rg) && problem.value == RgRequired(i + 1)))
  {
    var i := 0;
    while i < |guests|
      invariant i <= |guests|
      invariant forall j :: 0 <= j < i ==> CompleteGuest(guests[j])
    {
      if !Filled(guests[i].name) {
        return Some(NameRequired(i + 1));
      }
      if !Filled(guests[i].rg) {
        return Some(RgRequired(i + 1));
      }
      CompletePrefixStep(guests, i);
      i := i + 1;
    }
    return None;
  }

  /**
   * createReservationWithGuest: no guests, then no room number, then no
   * days are each a 400; then each guest in order must have a name and then
   * an RG, the first one missing being a 400 that gives the guest's 1-based
   * position. Only then does the service run: 201 with the reservation, or
   * the answer its exception maps to, which is always a 500 because the
   * service re-raises every failure as a runtime exception.
   */
  method CreateReservationWithGuest(db: Hostel.Database, req: CreateRequest) returns (status: int, body: Body)
    requires db.NoDoubleBooking()
    modifies db`guests, db`reserves, db`roomOccupations, db`bedOccupations, db`nextId
    ensures db.NoDoubleBooking()
    ensures req.guests.None? || req.guests.value == [] ==> status == 400 && body == Message(NoGuests)
    ensures req.guests.Some? && req.guests.value != [] && req.roomNumber.None? ==>
      status == 400 && body == Message(NoRoomNumber)
    ensures req.guests.Some? && req.guests.value != [] && req.roomNumber.Some?
            && (req.dates.None? || req.dates.value == {}) ==>
      status == 400 && body == Message(NoDates)
    ensures HeaderComplete(req) ==>
      var guests := req.guests.value;
      (status == 400 <==> exists i :: 0 <= i < |guests| && !CompleteGuest(guests[i]))
      && (status == 400 ==>
            exists i :: 0 <= i < |guests| && (forall j :: 0 <= j < i ==> CompleteGuest(guests[j]))
              && ((!Filled(guests[i].name) && body == Message(NameRequired(i + 1)))
                  || (Filled(guests[i].name) && !Filled(guests[i].rg) && body == Message(RgRequired(i + 1)))))
    ensures HeaderComplete(req) && (forall i :: 0 <= i < |req.guests.value| ==> CompleteGuest(req.guests.value[i])) ==>
      var plan := ReserveService.PlanReservationWithGuest(old(db.guests), db.rooms, db.beds, old(db.roomOccupations),
                                                          old(db.bedOccupations), GuestInfos(req.guests.value),
                                                          req.roomNumber.value, req.dates.value, old(db.nextId));
      (status == 201 <==> plan.Ok?)
      && (status == 201 ==> body == Created(plan.value.reserve))
      && (status != 201 ==> status == 500 && body == Message(InternalErrorPrefix))
    ensures status != 201 ==>
      db.guests == old(db.guests) && db.reserves == old(db.reserves) && db.roomOccupations == old(db.roomOccupations)
      && db.bedOccupations == old(db.bedOccupations) && db.nextId == old(db.nextId)
  {
    if req.guests.None? || req.guests.value == [] {
      return 400, Message(NoGuests);
    }
    if req.roomNumber.None? {
      return 400, Message(NoRoomNumber);
    }
    if req.dates.None? || req.dates.value == {} {
      return 400, Message(NoDates);
    }
    var guests := req.guests.value;
    var problem := GuestProblem(guests);
    if problem.Some? {
      return 400, Message(problem.value);
    }
    var r := ReserveService.CreateReservationWithGuest(db, GuestInfos(guests), req.roomNumber.value, req.dates.value);
    if r.Err? {
      return StatusOf(r.error), ErrorBody(r.error);
    }
    status, body := 201, Created(r.value);
  }

  // ------------------------------------------------------------ value update

  /** The request body of a value update; `None` stands for a field left null. */
  datatype ValueRequest = ValueRequest(useCustomValue: Option<bool>, customValue: Option<int>, extraGuestFee: Option<int>)

  /**
   * updateReserveValue: the reservation looked up by id (none is
   * NotFound), each non-null field of the request copied onto it, and the
   * row saved.
   */
  method UpdateReserveValue(db: Hostel.Database, reserveId: nat, req: ValueRequest) returns (r: Result<Reserve>)
    modifies db`reserves
    ensures var k := Hostel.ReserveById(old(db.reserves), reserveId);
      (r.Err? <==> k.Err?) && (r.Err? ==> r.error == NotFound && db.reserves == old(db.reserves))
      && (r.Ok? ==>
            var row := old(db.reserves)[k.value];
            db.reserves == old(db.reserves)[k.value := r.value]
            && r.value.useCustomValue == (if req.useCustomValue.Some? then req.useCustomValue else row.useCustomValue)
            && r.value.customValue == (if req.customValue.Some? then req.customValue else row.customValue)
            && r.value.extraGuestFee == (if req.extraGuestFee.Some? then req.extraGuestFee.value else row.extraGuestFee)
            && r.value.(useCustomValue := row.useCustomValue, customValue := row.customValue,
                        extraGuestFee := row.extraGuestFee) == row)
  {
    var update := ReserveService.ValueUpdate(req.customValue, req.extraGuestFee, req.useCustomValue, None);
    r := ReserveService.ChangeReserve(db, reserveId, (x: Reserve) => ReserveService.ApplyValueUpdate(x, update));
  }
}
