/** The app's in-memory appointment repository: a list that starts as the
    sample appointments and is changed in place by append and
    cancel-by-id. The list effects are defined first as functions on
    sequences; the class's methods are proved to have exactly those effects. */
module AppointmentStore {
  import opened Wrappers
  import opened Model
  import opened Lists
  import SampleData

  /** The list after cancelling `id`: the first appointment with that id is
      replaced by a copy with status CANCELLED; a missing id changes nothing. */
  function CancelById(s: seq<Appointment>, id: string): (r: seq<Appointment>)
    ensures |r| == |s|
    decreases |s|
  {
    if s == [] then []
    else if s[0].id == id then [s[0].(status := Cancelled)] + s[1..]
    else [s[0]] + CancelById(s[1..], id)
  }

  /** `CancelById` rewrites exactly the entry at the first index with the id,
      which is what the in-place `indexOfFirst` update does. */
  lemma {:induction false} CancelAtFirstMatch(s: seq<Appointment>, id: string)
    ensures var i := IndexOfFirst(s, AppointmentHasId(id));
      CancelById(s, id) == if i == -1 then s else s[i := s[i].(status := Cancelled)]
    decreases |s|
  {
    if s != [] && s[0].id != id {
      CancelAtFirstMatch(s[1..], id);
      var i := IndexOfFirst(s[1..], AppointmentHasId(id));
      assert IndexOfFirst(s, AppointmentHasId(id)) == if i == -1 then -1 else i + 1;
      if i != -1 {
        assert [s[0]] + s[1..][i := s[1..][i].(status := Cancelled)]
          == s[i + 1 := s[i + 1].(status := Cancelled)];
      } else {
        assert [s[0]] + s[1..] == s;
      }
    }
  }

  /** Cancelling an id that no appointment has leaves the list as it was. */
  lemma {:induction false} CancelUnknownId(s: seq<Appointment>, id: string)
    requires forall a :: a in s ==> a.id != id
    ensures CancelById(s, id) == s
  {
    CancelAtFirstMatch(s, id);
  }

  /** Cancelling a known id changes only the first match, and of it only the
      status; order, length and every other entry are kept. */
  lemma {:induction false} CancelKnownId(s: seq<Appointment>, id: string)
    requires exists a :: a in s && a.id == id
    ensures var i := IndexOfFirst(s, AppointmentHasId(id)); var r := CancelById(s, id);
      0 <= i < |s| && s[i].id == id &&
      r[i] == s[i].(status := Cancelled) &&
      forall j :: 0 <= j < |s| && j != i ==> r[j] == s[j]
  {
    CancelAtFirstMatch(s, id);
    var a :| a in s && a.id == id;
    var k :| 0 <= k < |s| && s[k] == a;
    assert AppointmentHasId(id)(s[k]);
  }

  /** Cancelling twice is cancelling once. */
  lemma {:induction false} CancelIdempotent(s: seq<Appointment>, id: string)
    ensures CancelById(CancelById(s, id), id) == CancelById(s, id)
    decreases |s|
  {
    if s != [] && s[0].id != id {
      CancelIdempotent(s[1..], id);
      assert CancelById(s, id)[1..] == CancelById(s[1..], id);
    }
  }

  /** The list after the date update of a reschedule: every appointment with
      the id gets the new date, and nothing else changes. */
  function RescheduleById(s: seq<Appointment>, id: string, date: Date): (r: seq<Appointment>)
    ensures |r| == |s|
    ensures forall j :: 0 <= j < |s| ==> r[j] == s[j].(date := r[j].date)
    ensures forall j :: 0 <= j < |s| ==> (if s[j].id == id then r[j].date == date else r[j] == s[j])
  {
    seq(|s|, j requires 0 <= j < |s| => if s[j].id == id then s[j].(date := date) else s[j])
  }

  /** The in-memory store of `AppointmentRepository`. */
  class AppointmentRepository {
    var appointments: seq<Appointment>

    /** The store starts as the sample appointments, in order. */
    constructor ()
      ensures appointments == SampleData.SampleAppointments
    {
      appointments := SampleData.SampleAppointments;
    }

    /** A snapshot of the current contents. */
    method GetAllAppointments() returns (r: seq<Appointment>)
      ensures r == appointments
    {
      r := appointments;
    }

    /** The first appointment with the id, or null. */
    method GetAppointmentById(id: string) returns (r: Option<Appointment>)
      ensures r.Some? ==> r.value in appointments && r.value.id == id
      ensures r.None? <==> forall a :: a in appointments ==> a.id != id
      ensures r.Some? ==> r.value == appointments[IndexOfFirst(appointments, AppointmentHasId(id))]
      ensures r == Find(appointments, AppointmentHasId(id))
    {
      FindIsFirst(appointments, AppointmentHasId(id));
      r := Find(appointments, AppointmentHasId(id));
    }

    method AddAppointment(appointment: Appointment)
      modifies this
      ensures appointments == old(appointments) + [appointment]
    {
      appointments := appointments + [appointment];
    }

    method CancelAppointment(id: string)
      modifies this
      ensures appointments == CancelById(old(appointments), id)
    {
      CancelAtFirstMatch(appointments, id);
      var index := IndexOfFirst(appointments, AppointmentHasId(id));
      if index != -1 {
        appointments := appointments[index := appointments[index].(status := Cancelled)];
      }
    }

    /** The date update the local database applies for a reschedule. */
    method RescheduleAppointment(id: string, date: Date)
      modifies this
      ensures appointments == RescheduleById(old(appointments), id, date)
    {
      appointments := RescheduleById(appointments, id, date);
    }
  }
}
