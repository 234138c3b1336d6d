/**
 * The booking API of src/api/bookingApi.js: the reference-data lookups and the
 * in-memory appointment collection with its create, list, update and delete.
 * The simulated network delays are dropped (each operation is atomic) and the
 * clock-derived id of a new appointment is a parameter.
 */
module BookingApi {
  import opened Wrappers
  import opened JsObjects
  import opened JsArrays
  import opened DateUtils

  // ---------------------------------------------------------------------------
  // Reference data
  // ---------------------------------------------------------------------------

  /** A service the salon offers. */
  datatype Service = Service(id: string, name: string, price: int, duration: int)

  /** A staff member and the ids of the services they perform. */
  datatype StaffMember = StaffMember(id: string, name: string, serviceIds: seq<string>)

  /** `services.map(s => s.id)`: one id per service, in the same order. */
  function ServiceIds(services: seq<Service>): (ids: seq<string>)
    ensures |ids| == |services|
    ensures forall i :: 0 <= i < |services| ==> ids[i] == services[i].id
  {
    seq(|services|, i requires 0 <= i < |services| => services[i].id)
  }

  /** `services.map(s => s.name)`: one name per service, in the same order. */
  function ServiceNames(services: seq<Service>): (names: seq<string>)
    ensures |names| == |services|
    ensures forall i :: 0 <= i < |services| ==> names[i] == services[i].name
  {
    seq(|services|, i requires 0 <= i < |services| => services[i].name)
  }

  /** `services.find(s => s.id === id)`: the first service with that id, or None. */
  function FindService(services: seq<Service>, id: string): (r: Option<Service>)
    ensures r.None? <==> forall i :: 0 <= i < |services| ==> services[i].id != id
    ensures r.Some? ==> exists k :: 0 <= k < |services| && services[k] == r.value && r.value.id == id
                                  && forall j :: 0 <= j < k ==> services[j].id != id
  {
    Find(services, (s: Service) => s.id == id)
  }

  /** `staff.find(s => s.id === id)`: the first staff member with that id, or None. */
  function FindStaffMember(staff: seq<StaffMember>, id: string): (r: Option<StaffMember>)
    ensures r.None? <==> forall i :: 0 <= i < |staff| ==> staff[i].id != id
    ensures r.Some? ==> exists k :: 0 <= k < |staff| && staff[k] == r.value && r.value.id == id
                                  && forall j :: 0 <= j < k ==> staff[j].id != id
  {
    Find(staff, (m: StaffMember) => m.id == id)
  }

  /** `getService`: the first service with the id, or the error "Service not found". */
  function GetService(services: seq<Service>, id: string): (r: Result<Service, string>)
    ensures r.Success? <==> exists i :: 0 <= i < |services| && services[i].id == id
    ensures r.Success? ==> exists k :: 0 <= k < |services| && services[k] == r.value && r.value.id == id
                                      && forall j :: 0 <= j < k ==> services[j].id != id
    ensures r.Failure? ==> r.error == "Service not found"
  {
    match FindService(services, id)
    case None => Failure("Service not found")
    case Some(s) => Success(s)
  }

  /** `getStaffMember`: the first staff member with the id, or the error "Staff member not found". */
  function GetStaffMember(staff: seq<StaffMember>, id: string): (r: Result<StaffMember, string>)
    ensures r.Success? <==> exists i :: 0 <= i < |staff| && staff[i].id == id
    ensures r.Success? ==> exists k :: 0 <= k < |staff| && staff[k] == r.value && r.value.id == id
                                      && forall j :: 0 <= j < k ==> staff[j].id != id
    ensures r.Failure? ==> r.error == "Staff member not found"
  {
    match FindStaffMember(staff, id)
    case None => Failure("Staff member not found")
    case Some(m) => Success(m)
  }

  // ---------------------------------------------------------------------------
  // Appointment records
  // ---------------------------------------------------------------------------

  /** `apt.id === id`: a record without an id, or with an id that is not this string, never matches. */
  predicate HasId(apt: Record, id: string): (r: bool)
    ensures r <==> "id" in apt && apt["id"] == Str(id)
  {
    Get(apt, "id") == Some(Str(id))
  }

  /** Some record of the collection carries the id. */
  predicate ContainsId(appointments: seq<Record>, id: string) {
    exists i :: 0 <= i < |appointments| && HasId(appointments[i], id)
  }

  /** `{ ...appointment, id }`: every property of the input, with `id` set to the new id. */
  function WithId(appointment: Record, id: string): (r: Record)
    ensures r.Keys == appointment.Keys + {"id"}
    ensures HasId(r, id)
    ensures forall k :: k in appointment && k != "id" ==> r[k] == appointment[k]
  {
    Spread(appointment, map["id" := Str(id)])
  }

  /** `mockAppointments.find(a => a.id === id)`. */
  function FindById(appointments: seq<Record>, id: string): (r: Option<Record>)
    ensures r.None? <==> !ContainsId(appointments, id)
    ensures r.Some? ==> r.value in appointments && HasId(r.value, id)
  {
    Find(appointments, apt => HasId(apt, id))
  }

  /** `mockAppointments.findIndex(apt => apt.id === id)`: the first index holding the id; None for -1. */
  function IndexOfId(appointments: seq<Record>, id: string): (r: Option<nat>)
    ensures r.None? <==> !ContainsId(appointments, id)
    ensures r.Some? ==> r.value < |appointments| && HasId(appointments[r.value], id)
    ensures r.Some? ==> forall j :: 0 <= j < r.value ==> !HasId(appointments[j], id)
  {
    FindIndex(appointments, apt => HasId(apt, id))
  }

  /**
   * `mockAppointments.filter(apt => apt.id !== id)`: every record carrying the
   * id is gone, every other record stays with its multiplicity, in order.
   */
  function WithoutId(appointments: seq<Record>, id: string): (r: seq<Record>)
    ensures !ContainsId(r, id)
    ensures forall apt :: apt in r <==> apt in appointments && !HasId(apt, id)
    ensures forall apt :: !HasId(apt, id) ==> multiset(r)[apt] == multiset(appointments)[apt]
    ensures ContainsId(appointments, id) ==> |r| < |appointments|
  {
    var r := Filter(appointments, apt => !HasId(apt, id));
    assert forall i :: 0 <= i < |r| ==> r[i] in r;
    FilterCounts(appointments, apt => !HasId(apt, id));
    if ContainsId(appointments, id) then
      FilterDropsRejected(appointments, apt => !HasId(apt, id));
      r
    else
      r
  }

  /** Deleting by id from a concatenation deletes from each piece: the survivors keep their order. */
  lemma WithoutIdKeepsOrder(a: seq<Record>, b: seq<Record>, id: string)
    ensures WithoutId(a + b, id) == WithoutId(a, id) + WithoutId(b, id)
  {
    FilterAppend(a, b, apt => !HasId(apt, id));
  }

  /** `{ ...mockAppointments[index], ...appointment }` stored at `index`; every other position untouched. */
  function MergeAt(appointments: seq<Record>, index: nat, changes: Record): (r: seq<Record>)
    requires index < |appointments|
    ensures |r| == |appointments|
    ensures forall j :: 0 <= j < |r| && j != index ==> r[j] == appointments[j]
    ensures r[index].Keys == appointments[index].Keys + changes.Keys
    ensures forall k :: k in changes ==> r[index][k] == changes[k]
    ensures forall k :: k in appointments[index] && k !in changes ==> r[index][k] == appointments[index][k]
  {
    appointments[index := Spread(appointments[index], changes)]
  }

  // ---------------------------------------------------------------------------
  // No double booking
  // ---------------------------------------------------------------------------

  /** Two records do not hold the same slot (a record without a complete slot clashes with nothing). */
  predicate SlotsDiffer(a: Record, b: Record) {
    SlotOf(a).None? || SlotOf(a) != SlotOf(b)
  }

  /** No two records hold the same (date, time, staffId) slot. */
  ghost predicate NoDoubleBooking(appointments: seq<Record>) {
    forall i, j :: 0 <= i < j < |appointments| ==> SlotsDiffer(appointments[i], appointments[j])
  }

  /** Giving a record its id never moves it to another slot. */
  lemma WithIdKeepsSlot(appointment: Record, id: string)
    ensures SlotOf(WithId(appointment, id)) == SlotOf(appointment)
  {
    var r := WithId(appointment, id);
    assert Get(r, "date") == Get(appointment, "date");
    assert Get(r, "time") == Get(appointment, "time");
    assert Get(r, "staffId") == Get(appointment, "staffId");
  }

  /**
   * createAppointment does not check for conflicts, so the invariant survives
   * a create exactly when the new record holds no slot or `isSlotAvailable`
   * holds for that slot against the collection before the create.
   */
  lemma CreateKeepsNoDoubleBookingIff(appointments: seq<Record>, appointment: Record, id: string)
    requires NoDoubleBooking(appointments)
    ensures NoDoubleBooking(appointments + [WithId(appointment, id)])
        <==> (match SlotOf(appointment)
              case None => true
              case Some(key) => IsSlotAvailable(key.date, key.time, key.staffId, appointments))
  {
    var created := WithId(appointment, id);
    var after := appointments + [created];
    WithIdKeepsSlot(appointment, id);
    match SlotOf(appointment)
    case None =>
      forall i, j | 0 <= i < j < |after|
        ensures SlotsDiffer(after[i], after[j])
      {
        if j < |appointments| {
          assert after[i] == appointments[i] && after[j] == appointments[j];
        }
      }
    case Some(key) =>
      if IsSlotAvailable(key.date, key.time, key.staffId, appointments) {
        forall i, j | 0 <= i < j < |after|
          ensures SlotsDiffer(after[i], after[j])
        {
          if j < |appointments| {
            assert after[i] == appointments[i] && after[j] == appointments[j];
          } else {
            assert after[i] == appointments[i] && after[j] == created;
            assert !Occupies(appointments[i], key.date, key.time, key.staffId);
          }
        }
      } else {
        var i :| 0 <= i < |appointments| && Occupies(appointments[i], key.date, key.time, key.staffId);
        assert after[i] == appointments[i] && after[|appointments|] == created;
        assert SlotOf(after[i]) == SlotOf(after[|appointments|]);
      }
  }

  /** Deleting records never creates a double booking. */
  lemma DeleteKeepsNoDoubleBooking(appointments: seq<Record>, id: string)
    requires NoDoubleBooking(appointments)
    ensures NoDoubleBooking(WithoutId(appointments, id))
  {
    FilterKeepsPairwise(appointments, apt => !HasId(apt, id), SlotsDiffer);
  }

  // ---------------------------------------------------------------------------
  // The appointment store
  // ---------------------------------------------------------------------------

  /** The confirmation `{ id, deleted: true }` that deleteAppointment returns. */
  datatype Deletion = Deletion(id: string, deleted: bool)

  /** The module-level `mockAppointments` collection and the API calls that change it. */
  class AppointmentStore {
    var appointments: seq<Record>

    /** The collection starts empty. */
    constructor ()
      ensures appointments == []
    {
      appointments := [];
    }

    /** `getAppointments`: a copy of the whole collection in insertion order; nothing changes. */
    method GetAppointments() returns (snapshot: seq<Record>)
      ensures snapshot == appointments
    {
      snapshot := appointments;
    }

    /**
     * `createAppointment`: appends the input with the new id (which overrides
     * any id the input held) and returns the stored record. There is no
     * conflict check; the invariant survives when the caller checked.
     */
    method CreateAppointment(appointment: Record, id: string) returns (created: Record)
      modifies this
      ensures created == WithId(appointment, id)
      ensures appointments == old(appointments) + [created]
      ensures NoDoubleBooking(old(appointments))
              && (match SlotOf(appointment)
                  case None => true
                  case Some(key) => IsSlotAvailable(key.date, key.time, key.staffId, old(appointments)))
              ==> NoDoubleBooking(appointments)
    {
      created := Spread(appointment, map["id" := Str(id)]);
      ghost var before := appointments;
      appointments := appointments + [created];
      if NoDoubleBooking(before) {
        CreateKeepsNoDoubleBookingIff(before, appointment, id);
      }
    }

    /**
     * `deleteAppointment`: fails with "Appointment not found" and changes
     * nothing when no record has the id; otherwise removes every record with
     * the id and confirms.
     */
    method DeleteAppointment(id: string) returns (r: Result<Deletion, string>)
      modifies this
      ensures !ContainsId(old(appointments), id) ==> r == Failure("Appointment not found") && appointments == old(appointments)
      ensures ContainsId(old(appointments), id) ==> r == Success(Deletion(id, true)) && appointments == WithoutId(old(appointments), id)
      ensures NoDoubleBooking(old(appointments)) ==> NoDoubleBooking(appointments)
    {
      var apt := FindById(appointments, id);
      if apt.None? {
        return Failure("Appointment not found");
      }
      ghost var before := appointments;
      appointments := WithoutId(appointments, id);
      if NoDoubleBooking(before) {
        DeleteKeepsNoDoubleBooking(before, id);
      }
      r := Success(Deletion(id, true));
    }

    /**
     * `updateAppointment`: fails with "Appointment not found" and changes
     * nothing when no record has the id; otherwise shallow-merges the changes
     * into the first record with the id and returns the merged record.
     */
    method UpdateAppointment(id: string, changes: Record) returns (r: Result<Record, string>)
      modifies this
      ensures IndexOfId(old(appointments), id).None? ==> r == Failure("Appointment not found") && appointments == old(appointments)
      ensures IndexOfId(old(appointments), id).Some? ==>
                var index := IndexOfId(old(appointments), id).value;
                && appointments == MergeAt(old(appointments), index, changes)
                && r == Success(appointments[index])
    {
      var index := IndexOfId(appointments, id);
      if index.None? {
        return Failure("Appointment not found");
      }
      appointments := appointments[index.value := Spread(appointments[index.value], changes)];
      r := Success(appointments[index.value]);
    }
  }
}
