/** The statistics of `src/app/dashboard/page.tsx`, over the appointment and
    patient lists the page fetched. `now` is the clock reading and `dayOf`
    maps a timestamp to its local calendar day (the page's `setHours(0, 0, 0, 0)`). */
module Dashboard {
  import opened Seqs
  import opened AppointmentTypes
  import opened PatientTypes
  import AppointmentsRoute

  /** The number of the upcoming appointments and recent patients shown. */
  const ShownCount: nat := 5

  function Min(a: nat, b: nat): nat {
    if a < b then a else b
  }

  /** Scheduled, on the same local day as `now`. */
  predicate IsToday(a: Appointment, now: int, dayOf: int -> int) {
    a.status == Scheduled && dayOf(a.appointmentDate) == dayOf(now)
  }

  /** `todayAppointments`: the scheduled appointments on today's date. */
  function TodayAppointments(appts: seq<Appointment>, now: int, dayOf: int -> int): (r: seq<Appointment>)
    ensures IsSubsequence(r, appts)
    ensures forall a :: multiset(r)[a] == (if IsToday(a, now, dayOf) then multiset(appts)[a] else 0)
    ensures forall i :: 0 <= i < |r| ==>
      r[i].status == Scheduled && dayOf(r[i].appointmentDate) == dayOf(now)
  {
    var keep := (a: Appointment) => IsToday(a, now, dayOf);
    FilterSelects(appts, keep);
    FilterCount(appts, keep);
    Filter(appts, keep)
  }

  predicate IsUpcoming(a: Appointment, now: int) {
    a.appointmentDate >= now && a.status == Scheduled
  }

  /** The scheduled appointments from now on, in list order. */
  function UpcomingCandidates(appts: seq<Appointment>, now: int): seq<Appointment> {
    var keep := (a: Appointment) => IsUpcoming(a, now);
    Filter(appts, keep)
  }

  function DateOf(a: Appointment): int {
    a.appointmentDate
  }

  /** `upcomingAppointments`: the five earliest scheduled appointments from
      now on, earliest first. */
  function UpcomingAppointments(appts: seq<Appointment>, now: int): (r: seq<Appointment>)
    ensures |r| == Min(ShownCount, |UpcomingCandidates(appts, now)|)
    ensures forall i :: 0 <= i < |r| ==> IsUpcoming(r[i], now)
    ensures forall i, j :: 0 <= i < j < |r| ==> r[i].appointmentDate <= r[j].appointmentDate
    ensures multiset(r) <= multiset(appts)
    ensures forall x, y :: x in r && y in multiset(UpcomingCandidates(appts, now)) - multiset(r) ==>
      x.appointmentDate <= y.appointmentDate
  {
    var keep := (a: Appointment) => IsUpcoming(a, now);
    var candidates := Filter(appts, keep);
    var top := TopBy(candidates, ShownCount, DateOf);
    SubBagOfFilter(top, appts, keep);
    top
  }

  predicate IsCompleted(a: Appointment) {
    a.status == Completed
  }

  /** `apt.charge || 0`. */
  function ChargeOf(a: Appointment): int {
    a.charge.GetOr(0)
  }

  function SumCharges(s: seq<Appointment>): int {
    if |s| == 0 then 0 else ChargeOf(s[0]) + SumCharges(s[1..])
  }

  lemma {:induction false} SumChargesConcat(a: seq<Appointment>, b: seq<Appointment>)
    ensures SumCharges(a + b) == SumCharges(a) + SumCharges(b)
  {
    if |a| == 0 {
      assert a + b == b;
    } else {
      assert (a + b)[1..] == a[1..] + b;
      SumChargesConcat(a[1..], b);
    }
  }

  /** `totalRevenue`: the charges of the completed appointments. */
  function TotalRevenue(appts: seq<Appointment>): int {
    SumCharges(Filter(appts, IsCompleted))
  }

  /** Revenue adds up over any split of the list. */
  lemma TotalRevenueAdds(a: seq<Appointment>, b: seq<Appointment>)
    ensures TotalRevenue(a + b) == TotalRevenue(a) + TotalRevenue(b)
  {
    FilterConcat(a, b, IsCompleted);
    SumChargesConcat(Filter(a, IsCompleted), Filter(b, IsCompleted));
  }

  /** One appointment contributes its charge, a missing charge as 0, exactly
      when it is completed: scheduled, cancelled and no-show appointments
      never count. */
  lemma TotalRevenueOfOne(x: Appointment)
    ensures TotalRevenue([x]) == if x.status == Completed then x.charge.GetOr(0) else 0
  {
    assert [x][1..] == [];
    assert Filter([x], IsCompleted) == if IsCompleted(x) then [x] else [];
    assert SumCharges([x]) == ChargeOf(x) + SumCharges([]);
  }

  /** With the schema's non-negative charges, revenue is non-negative. */
  lemma {:induction false} TotalRevenueNonNegative(appts: seq<Appointment>)
    requires forall i :: 0 <= i < |appts| ==> ChargeOf(appts[i]) >= 0
    ensures TotalRevenue(appts) >= 0
  {
    if |appts| > 0 {
      TotalRevenueNonNegative(appts[1..]);
      assert appts == [appts[0]] + appts[1..];
      TotalRevenueAdds([appts[0]], appts[1..]);
      TotalRevenueOfOne(appts[0]);
    }
  }

  function NewestFirst(p: Patient): int {
    -p.createdAt
  }

  /** `recentPatients`: the five most recently created patients, newest
      first. */
  function RecentPatients(patients: seq<Patient>): (r: seq<Patient>)
    ensures |r| == Min(ShownCount, |patients|)
    ensures forall i, j :: 0 <= i < j < |r| ==> r[i].createdAt >= r[j].createdAt
    ensures multiset(r) <= multiset(patients)
    ensures forall x, y :: x in r && y in multiset(patients) - multiset(r) ==> y.createdAt <= x.createdAt
  {
    var top := TopBy(patients, ShownCount, NewestFirst);
    NewestFirstOrder(patients, top);
    top
  }

  lemma NewestFirstOrder(patients: seq<Patient>, top: seq<Patient>)
    requires SortedBy(top, NewestFirst)
    requires forall x, y :: x in top && y in multiset(patients) - multiset(top) ==> NewestFirst(x) <= NewestFirst(y)
    ensures forall i, j :: 0 <= i < j < |top| ==> top[i].createdAt >= top[j].createdAt
    ensures forall x, y :: x in top && y in multiset(patients) - multiset(top) ==> y.createdAt <= x.createdAt
  {
    forall i, j | 0 <= i < j < |top| ensures top[i].createdAt >= top[j].createdAt {
      assert NewestFirst(top[i]) <= NewestFirst(top[j]);
    }
    forall x, y | x in top && y in multiset(patients) - multiset(top) ensures y.createdAt <= x.createdAt {
      assert NewestFirst(x) <= NewestFirst(y);
    }
  }

  /** Scheduled appointments whose reminder flag is not set. */
  predicate IsPending(a: Appointment) {
    a.status == Scheduled && !a.notificationSent
  }

  /** `pendingNotifications`. */
  function PendingNotifications(appts: seq<Appointment>): (n: nat)
    ensures n <= |appts|
  {
    |Filter(appts, IsPending)|
  }

  /** The pending count adds up over any split of the list, and one
      appointment counts exactly when it is scheduled and not yet flagged. */
  lemma PendingNotificationsAdds(a: seq<Appointment>, b: seq<Appointment>, x: Appointment)
    ensures PendingNotifications(a + b) == PendingNotifications(a) + PendingNotifications(b)
    ensures PendingNotifications([x]) == if x.status == Scheduled && !x.notificationSent then 1 else 0
  {
    FilterConcat(a, b, IsPending);
    assert [x][1..] == [];
    assert Filter([x], IsPending) == if IsPending(x) then [x] else [];
  }

  /** A booking the POST route accepts as scheduled enters the pending count,
      since it is stored with its reminder flag clear; a booking stored under
      another status does not change the count. */
  lemma CreatedAppointmentIsPending(store: seq<Appointment>, input: AppointmentInput, id: string)
    requires AppointmentsRoute.Create(store, input, id).Created?
    ensures var r := AppointmentsRoute.Create(store, input, id);
      PendingNotifications(r.store) ==
        PendingNotifications(store) + (if r.appointment.status == Scheduled then 1 else 0)
  {
    var r := AppointmentsRoute.Create(store, input, id);
    PendingNotificationsAdds(store, [r.appointment], r.appointment);
  }
}
