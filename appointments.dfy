/** The split of the appointment list into the "Próximas" (upcoming) and
    "Pasadas" (past) tabs, by status alone. */
module Appointments {
  import opened Model
  import opened Lists
  import opened AppointmentStore
  import SampleData

  /** CONFIRMED or PENDING. */
  predicate IsUpcoming(a: Appointment) {
    a.status == Confirmed || a.status == Pending
  }

  /** COMPLETED or CANCELLED. */
  predicate IsPast(a: Appointment) {
    a.status == Completed || a.status == Cancelled
  }

  function UpcomingTest(): Appointment -> bool {
    (a: Appointment) => IsUpcoming(a)
  }

  function PastTest(): Appointment -> bool {
    (a: Appointment) => IsPast(a)
  }

  function Upcoming(s: seq<Appointment>): (r: seq<Appointment>)
    ensures forall a :: a in r <==> a in s && IsUpcoming(a)
    ensures IsSubsequence(r, s)
  {
    FilterIsSubsequence(s, UpcomingTest());
    forall a ensures a in Filter(s, UpcomingTest()) <==> a in s && IsUpcoming(a) {
      FilterMembership(s, UpcomingTest(), a);
    }
    Filter(s, UpcomingTest())
  }

  function Past(s: seq<Appointment>): (r: seq<Appointment>)
    ensures forall a :: a in r <==> a in s && IsPast(a)
    ensures IsSubsequence(r, s)
  {
    FilterIsSubsequence(s, PastTest());
    forall a ensures a in Filter(s, PastTest()) <==> a in s && IsPast(a) {
      FilterMembership(s, PastTest(), a);
    }
    Filter(s, PastTest())
  }

  /** The two tabs partition the list: every appointment is in exactly one of
      them, as often as it occurs in the list. */
  lemma {:induction false} TabsPartition(s: seq<Appointment>)
    ensures multiset(Upcoming(s)) + multiset(Past(s)) == multiset(s)
    ensures |Upcoming(s)| + |Past(s)| == |s|
    ensures multiset(Upcoming(s)) * multiset(Past(s)) == multiset{}
  {
    FilterSplit(s, UpcomingTest(), PastTest());
    assert |multiset(Upcoming(s))| + |multiset(Past(s))| == |multiset(s)|;
  }

  /** The cancelled appointment leaves "upcoming" and shows in "past", and
      "upcoming" does not grow. */
  lemma {:induction false} CancelMovesToPast(s: seq<Appointment>, id: string)
    requires exists a :: a in s && a.id == id
    ensures var r := CancelById(s, id); var i := IndexOfFirst(s, AppointmentHasId(id));
      0 <= i < |r| && r[i] in Past(r) && r[i] !in Upcoming(r) &&
      |Upcoming(r)| <= |Upcoming(s)|
  {
    CancelKnownId(s, id);
    UpcomingNotGrownByCancel(s, id);
  }

  lemma {:induction false} UpcomingNotGrownByCancel(s: seq<Appointment>, id: string)
    ensures |Upcoming(CancelById(s, id))| <= |Upcoming(s)|
    decreases |s|
  {
    if s != [] {
      var r := CancelById(s, id);
      if s[0].id == id {
        assert r == [s[0].(status := Cancelled)] + s[1..];
        FilterAppend([s[0].(status := Cancelled)], s[1..], UpcomingTest());
        FilterAppend([s[0]], s[1..], UpcomingTest());
        assert s == [s[0]] + s[1..];
      } else {
        UpcomingNotGrownByCancel(s[1..], id);
        assert r == [s[0]] + CancelById(s[1..], id);
        FilterAppend([s[0]], CancelById(s[1..], id), UpcomingTest());
        FilterAppend([s[0]], s[1..], UpcomingTest());
        assert s == [s[0]] + s[1..];
      }
    }
  }

  /** Lists that agree pointwise on a test keep equally many entries. */
  lemma {:induction false} FilterSameCount(s: seq<Appointment>, t: seq<Appointment>, p: Appointment -> bool)
    requires |s| == |t|
    requires forall j :: 0 <= j < |s| ==> p(s[j]) == p(t[j])
    ensures |Filter(s, p)| == |Filter(t, p)|
    decreases |s|
  {
    if s != [] {
      FilterSameCount(s[1..], t[1..], p);
    }
  }

  /** A reschedule changes dates only, so both tabs keep their sizes. */
  lemma {:induction false} RescheduleKeepsTabSizes(s: seq<Appointment>, id: string, date: Date)
    ensures |Upcoming(RescheduleById(s, id, date))| == |Upcoming(s)|
    ensures |Past(RescheduleById(s, id, date))| == |Past(s)|
  {
    var r := RescheduleById(s, id, date);
    assert forall j :: 0 <= j < |s| ==> r[j].status == s[j].status;
    FilterSameCount(r, s, UpcomingTest());
    FilterSameCount(r, s, PastTest());
  }

  /** The sample appointments: three upcoming, one completed. */
  lemma SampleTabs()
    ensures Upcoming(SampleData.SampleAppointments) == SampleData.SampleAppointments[..3]
    ensures Past(SampleData.SampleAppointments) == [SampleData.SampleAppointments[3]]
  {
    var s := SampleData.SampleAppointments;
    assert Filter(s[3..], UpcomingTest()) == [];
    assert Filter(s[2..], UpcomingTest()) == [s[2]];
    assert Filter(s[1..], UpcomingTest()) == [s[1], s[2]];
    assert Filter(s[3..], PastTest()) == [s[3]];
    assert Filter(s[2..], PastTest()) == [s[3]];
    assert Filter(s[1..], PastTest()) == [s[3]];
  }
}
