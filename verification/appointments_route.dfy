/** `POST /api/appointments` in `src/app/api/appointments/route.ts`: validate
    the body, count the non-cancelled appointments at exactly the requested
    timestamp, refuse with 409 once that count reaches the slot capacity,
    otherwise append the new appointment with a default status. The store is
    an explicit sequence of rows. */
module AppointmentsRoute {
  import opened Wrappers
  import opened Seqs
  import opened AppointmentTypes

  /** `a` takes a place in the slot at timestamp `t`. */
  predicate Occupies(a: Appointment, t: int) {
    a.appointmentDate == t && a.status != Cancelled
  }

  /** The `prisma.appointment.count` of the route: stored appointments at
      exactly `t` whose status is not CANCELLED. */
  function Occupancy(store: seq<Appointment>, t: int): (n: nat)
    ensures n <= |store|
  {
    if |store| == 0 then 0
    else (if Occupies(store[0], t) then 1 else 0) + Occupancy(store[1..], t)
  }

  /** Occupancy of a concatenation is the sum of the parts' occupancies. */
  lemma {:induction false} OccupancyConcat(a: seq<Appointment>, b: seq<Appointment>, t: int)
    ensures Occupancy(a + b, t) == Occupancy(a, t) + Occupancy(b, t)
  {
    if |a| == 0 {
      assert a + b == b;
    } else {
      assert (a + b)[0] == a[0];
      assert (a + b)[1..] == a[1..] + b;
      OccupancyConcat(a[1..], b, t);
    }
  }

  /** The rule the route is meant to uphold: no timestamp holds more than
      `MaxPatientsPerSlot` non-cancelled appointments. */
  ghost predicate WithinCapacity(store: seq<Appointment>) {
    forall t :: Occupancy(store, t) <= MaxPatientsPerSlot
  }

  datatype CreateResponse =
    | InvalidData                                          // 400 "Invalid appointment data"
    | SlotFull                                             // 409 "Time slot is full"
    | Created(appointment: Appointment, store: seq<Appointment>)  // 201

  function HttpStatus(r: CreateResponse): int {
    match r
    case InvalidData => 400
    case SlotFull => 409
    case Created(_, _) => 201
  }

  /** The row `prisma.appointment.create` writes: the parsed data, status
      defaulting to SCHEDULED, a fresh id supplied by the database, and the
      reminder flag cleared. */
  function NewAppointment(d: AppointmentData, id: string): Appointment {
    Appointment(id, d.doctorId, d.patientId, d.caseDescription, d.appointmentDate,
                d.status.GetOr(Scheduled), d.charge, false)
  }

  /** The route's `POST`, with `id` the identifier the database assigns. */
  function Create(store: seq<Appointment>, input: AppointmentInput, id: string): (r: CreateResponse)
    ensures r.InvalidData? <==> !ValidAppointmentInput(input)
    ensures r.SlotFull? <==>
      ValidAppointmentInput(input) && Occupancy(store, input.appointmentDate.value) >= MaxPatientsPerSlot
    ensures r.Created? ==>
      && r.store == store + [r.appointment]
      && r.appointment.id == id
      && r.appointment.doctorId == input.doctorId
      && r.appointment.patientId == input.patientId
      && r.appointment.caseDescription == input.caseDescription
      && Some(r.appointment.appointmentDate) == input.appointmentDate
      && r.appointment.charge == input.charge
      && r.appointment.status == (if input.status.None? then Scheduled else StatusFromKey(input.status.value).value)
      && !r.appointment.notificationSent
  {
    match ParseAppointment(input)
    case None => InvalidData
    case Some(d) =>
      if Occupancy(store, d.appointmentDate) >= MaxPatientsPerSlot then SlotFull
      else
        var a := NewAppointment(d, id);
        Created(a, store + [a])
  }

  /** A successful create adds one occupant to its own slot, unless the new
      appointment is itself cancelled, and leaves every other slot as it was. */
  lemma CreateTouchesOnlyItsSlot(store: seq<Appointment>, input: AppointmentInput, id: string, t: int)
    requires Create(store, input, id).Created?
    ensures var r := Create(store, input, id);
      Occupancy(r.store, t) ==
        Occupancy(store, t) + (if t == r.appointment.appointmentDate && r.appointment.status != Cancelled then 1 else 0)
  {
    var r := Create(store, input, id);
    OccupancyConcat(store, [r.appointment], t);
    assert [r.appointment][1..] == [];
  }

  /** The capacity invariant survives every create. */
  lemma CreateKeepsCapacity(store: seq<Appointment>, input: AppointmentInput, id: string)
    requires WithinCapacity(store)
    ensures Create(store, input, id).Created? ==> WithinCapacity(Create(store, input, id).store)
  {
    var r := Create(store, input, id);
    if r.Created? {
      forall t ensures Occupancy(r.store, t) <= MaxPatientsPerSlot {
        CreateTouchesOnlyItsSlot(store, input, id, t);
      }
    }
  }

  /** The store after a create request: the new store on success, the old
      one on any refusal (the route returns before writing). */
  function Apply(store: seq<Appointment>, input: AppointmentInput, id: string): (s: seq<Appointment>)
    ensures |s| == |store| || |s| == |store| + 1
    ensures !Create(store, input, id).Created? ==> s == store
  {
    match Create(store, input, id)
    case Created(_, s') => s'
    case _ => store
  }

  /** The store after a series of create requests, each with the id the
      database assigned it. */
  function ApplyAll(store: seq<Appointment>, requests: seq<(AppointmentInput, string)>): seq<Appointment>
    decreases |requests|
  {
    if |requests| == 0 then store
    else ApplyAll(Apply(store, requests[0].0, requests[0].1), requests[1..])
  }

  /** Starting from a store within capacity, and in particular from the empty
      store, no series of creates can overfill a slot. */
  lemma {:induction false} ApplyAllKeepsCapacity(store: seq<Appointment>, requests: seq<(AppointmentInput, string)>)
    requires WithinCapacity(store)
    ensures WithinCapacity(ApplyAll(store, requests))
    decreases |requests|
  {
    if |requests| > 0 {
      CreateKeepsCapacity(store, requests[0].0, requests[0].1);
      ApplyAllKeepsCapacity(Apply(store, requests[0].0, requests[0].1), requests[1..]);
    }
  }

  /** However the requests arrive one after another, a store that starts
      empty never holds more than `MaxPatientsPerSlot` live bookings at one
      timestamp. */
  lemma CreatesFromEmptyStoreKeepCapacity(requests: seq<(AppointmentInput, string)>)
    ensures forall t :: Occupancy(ApplyAll([], requests), t) <= MaxPatientsPerSlot
  {
    ApplyAllKeepsCapacity([], requests);
  }

  /** Cancelled appointments never take a place: the occupancy of any slot is
      the occupancy of the store with its cancelled rows removed. */
  lemma {:induction false} CancelledNeverCount(store: seq<Appointment>, t: int)
    ensures Occupancy(store, t) == Occupancy(Filter(store, (a: Appointment) => a.status != Cancelled), t)
  {
    if |store| > 0 {
      CancelledNeverCount(store[1..], t);
      var rest := Filter(store[1..], (a: Appointment) => a.status != Cancelled);
      if store[0].status != Cancelled {
        assert ([store[0]] + rest)[0] == store[0];
        assert ([store[0]] + rest)[1..] == rest;
      }
    }
  }

  /** Slot matching is exact: appointments at any other timestamp do not
      change the count. */
  lemma {:induction false} OnlyTheSlotCounts(store: seq<Appointment>, t: int)
    ensures Occupancy(store, t) == Occupancy(Filter(store, (a: Appointment) => a.appointmentDate == t), t)
  {
    if |store| > 0 {
      OnlyTheSlotCounts(store[1..], t);
      var rest := Filter(store[1..], (a: Appointment) => a.appointmentDate == t);
      if store[0].appointmentDate == t {
        assert ([store[0]] + rest)[0] == store[0];
        assert ([store[0]] + rest)[1..] == rest;
      }
    }
  }

  /** So the route's decision depends only on the appointments stored at the
      requested timestamp. */
  lemma DecisionDependsOnlyOnSlot(store: seq<Appointment>, input: AppointmentInput, id: string)
    requires ValidAppointmentInput(input)
    ensures var t := input.appointmentDate.value;
      Create(store, input, id).SlotFull? ==
      Create(Filter(store, (a: Appointment) => a.appointmentDate == t), input, id).SlotFull?
  {
    OnlyTheSlotCounts(store, input.appointmentDate.value);
  }

  /** The capacity check ignores the new booking's own status: even a
      request for a CANCELLED appointment is refused from a full slot. */
  lemma FullSlotRefusesEvenCancelled(store: seq<Appointment>, input: AppointmentInput, id: string)
    requires ValidAppointmentInput(input) && input.status == Some("CANCELLED")
    requires Occupancy(store, input.appointmentDate.value) >= MaxPatientsPerSlot
    ensures HttpStatus(Create(store, input, id)) == 409
  {
  }

  /** Replacing one row changes a slot's occupancy by that row alone. */
  lemma {:induction false} OccupancyUpdate(store: seq<Appointment>, k: nat, b: Appointment, t: int)
    requires k < |store|
    ensures Occupancy(store[k := b], t) + (if Occupies(store[k], t) then 1 else 0)
         == Occupancy(store, t) + (if Occupies(b, t) then 1 else 0)
  {
    if k > 0 {
      assert store[k := b][1..] == store[1..][k - 1 := b];
      OccupancyUpdate(store[1..], k - 1, b, t);
    }
  }

  /** Cancelling frees a place: in a full slot, once one of its bookings is
      cancelled a new booking at that timestamp is accepted. */
  lemma CancellationFreesPlace(store: seq<Appointment>, input: AppointmentInput, id: string, k: nat)
    requires ValidAppointmentInput(input)
    requires Occupancy(store, input.appointmentDate.value) == MaxPatientsPerSlot
    requires k < |store| && Occupies(store[k], input.appointmentDate.value)
    ensures Create(store[k := store[k].(status := Cancelled)], input, id).Created?
  {
    OccupancyUpdate(store, k, store[k].(status := Cancelled), input.appointmentDate.value);
  }
}
