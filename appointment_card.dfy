/**
 * The logic of src/components/booking/AppointmentCard.jsx: resolving an
 * appointment's service ids and staff id against the reference lists, and the
 * `cancelling` flag around the cancel call. The browser's confirm dialog is a
 * boolean input and the awaited `onCancel` call is split into issuing it and
 * its settling.
 */
module AppointmentCards {
  import opened Wrappers
  import opened JsObjects
  import opened JsArrays
  import opened BookingApi
  import opened Confirmation

  /** `appointment.serviceIds` when it holds a list of ids; None when it is absent or not a list. */
  function ServiceIdsOf(appointment: Record): (r: Option<seq<string>>)
    ensures r.Some? ==> "serviceIds" in appointment && appointment["serviceIds"] == StrList(r.value)
    ensures r.None? <==> "serviceIds" !in appointment || !appointment["serviceIds"].StrList?
  {
    match Get(appointment, "serviceIds")
    case Some(StrList(ids)) => Some(ids)
    case _ => None
  }

  /** Some service of the list carries the id. */
  predicate IsKnownService(services: seq<Service>, id: string) {
    FindService(services, id).Some?
  }

  /** The ids that name a known service, in their original order. */
  function KnownIds(ids: seq<string>, services: seq<Service>): seq<string> {
    Filter(ids, id => IsKnownService(services, id))
  }

  /** The ids of a concatenation of service lists are the concatenated ids. */
  lemma ServiceIdsAppend(a: seq<Service>, b: seq<Service>)
    ensures ServiceIds(a + b) == ServiceIds(a) + ServiceIds(b)
  {
  }

  /**
   * `ids.map(id => services.find(s => s.id === id)).filter(Boolean)`, fused:
   * each id with a known service gives the first service with that id, in the
   * order of the ids; unknown ids are dropped.
   */
  function ResolveServices(ids: seq<string>, services: seq<Service>): (r: seq<Service>)
    ensures forall i :: 0 <= i < |r| ==> FindService(services, r[i].id) == Some(r[i])
    decreases |ids|
  {
    if |ids| == 0 then [] else ResolveOne(ids[0], services) + ResolveServices(ids[1..], services)
  }

  /** The resolved services carry exactly the known ids, in the order of the id list. */
  lemma {:induction false} ResolvedIdsAreKnownIds(ids: seq<string>, services: seq<Service>)
    ensures ServiceIds(ResolveServices(ids, services)) == KnownIds(ids, services)
    decreases |ids|
  {
    if |ids| > 0 {
      ResolvedIdsAreKnownIds(ids[1..], services);
      ResolveUnfold(ids, services);
      ResolveStep(ids, services, ResolveOne(ids[0], services), ResolveServices(ids[1..], services));
    }
  }

  /** The services one id resolves to: its first service, or none. */
  function ResolveOne(id: string, services: seq<Service>): (r: seq<Service>)
    ensures ServiceIds(r) == Filter([id], id => IsKnownService(services, id))
    ensures forall i :: 0 <= i < |r| ==> FindService(services, r[i].id) == Some(r[i])
  {
    match FindService(services, id)
    case None => []
    case Some(s) => [s]
  }

  lemma ResolveStep(ids: seq<string>, services: seq<Service>, found: seq<Service>, rest: seq<Service>)
    requires |ids| > 0
    requires ServiceIds(found) == Filter([ids[0]], id => IsKnownService(services, id))
    requires ServiceIds(rest) == KnownIds(ids[1..], services)
    ensures ServiceIds(found + rest) == KnownIds(ids, services)
  {
    assert ids == [ids[0]] + ids[1..];
    ServiceIdsAppend(found, rest);
    FilterAppend([ids[0]], ids[1..], id => IsKnownService(services, id));
  }

  /** `appointmentServices`: the resolved services, or the empty list when `serviceIds` is missing. */
  function AppointmentServices(appointment: Record, services: seq<Service>): (r: seq<Service>)
    ensures ServiceIdsOf(appointment).None? ==> r == []
    ensures ServiceIdsOf(appointment).Some? ==> ServiceIds(r) == KnownIds(ServiceIdsOf(appointment).value, services)
    ensures forall i :: 0 <= i < |r| ==> r[i] in services && FindService(services, r[i].id) == Some(r[i])
  {
    match ServiceIdsOf(appointment)
    case None => []
    case Some(ids) =>
      ResolvedIdsAreKnownIds(ids, services);
      ResolveServices(ids, services)
  }

  /** `staffMember`: the first staff member whose id equals the appointment's `staffId`, or None. */
  function StaffMemberOf(appointment: Record, staff: seq<StaffMember>): (r: Option<StaffMember>)
    ensures r.None? <==> forall i :: 0 <= i < |staff| ==> Get(appointment, "staffId") != Some(Str(staff[i].id))
    ensures r.Some? ==> exists k :: 0 <= k < |staff| && staff[k] == r.value
                                  && Get(appointment, "staffId") == Some(Str(r.value.id))
                                  && forall j :: 0 <= j < k ==> Get(appointment, "staffId") != Some(Str(staff[j].id))
  {
    Find(staff, (m: StaffMember) => Get(appointment, "staffId") == Some(Str(m.id)))
  }

  /** Resolving a non-empty id list resolves its head, then its tail. */
  lemma ResolveUnfold(ids: seq<string>, services: seq<Service>)
    requires |ids| > 0
    ensures ResolveServices(ids, services) == ResolveOne(ids[0], services) + ResolveServices(ids[1..], services)
  {
  }

  /** Resolving the ids of services that are each the first of their id in the catalog gives those services back. */
  lemma {:induction false} ResolveServiceIdsRoundTrip(booked: seq<Service>, catalog: seq<Service>)
    requires forall i :: 0 <= i < |booked| ==> FindService(catalog, booked[i].id) == Some(booked[i])
    ensures ResolveServices(ServiceIds(booked), catalog) == booked
    decreases |booked|
  {
    var ids := ServiceIds(booked);
    if |booked| > 0 {
      assert ids[1..] == ServiceIds(booked[1..]);
      ResolveServiceIdsRoundTrip(booked[1..], catalog);
      ResolveUnfold(ids, catalog);
      assert booked == [booked[0]] + booked[1..];
    }
  }

  /** When the record's `staffId` is a string id, the card shows the staff member `getStaffMember` would find. */
  lemma StaffMemberOfIsLookup(appointment: Record, staff: seq<StaffMember>, staffId: string)
    requires Get(appointment, "staffId") == Some(Str(staffId))
    ensures StaffMemberOf(appointment, staff) == FindStaffMember(staff, staffId)
  {
    var shown := StaffMemberOf(appointment, staff);
    var found := FindStaffMember(staff, staffId);
    if shown.Some? && found.Some? {
      var k :| 0 <= k < |staff| && staff[k] == shown.value && shown.value.id == staffId
               && forall j :: 0 <= j < k ==> staff[j].id != staffId;
      var k' :| 0 <= k' < |staff| && staff[k'] == found.value && found.value.id == staffId
                && forall j :: 0 <= j < k' ==> staff[j].id != staffId;
      assert k == k';
    }
  }

  /** A composed and stored record carries the booked service ids and staff id. */
  lemma StoredBookingCardFields(booking: BookingData, createdAt: string, id: string)
    ensures var stored := WithId(ComposeAppointment(booking, createdAt), id);
            && ServiceIdsOf(stored) == Some(ServiceIds(booking.services))
            && Get(stored, "staffId") == Some(Str(booking.staff.id))
  {
    ComposedServicesAndStatus(booking, createdAt);
    ComposedSlot(booking, createdAt);
  }

  /**
   * A card for an appointment that the confirmation page composed and the
   * store saved shows the booked services and the booked staff member.
   */
  lemma CardShowsConfirmedBooking(booking: BookingData, createdAt: string, id: string,
                                  services: seq<Service>, staff: seq<StaffMember>)
    requires forall i :: 0 <= i < |booking.services| ==> FindService(services, booking.services[i].id) == Some(booking.services[i])
    ensures var stored := WithId(ComposeAppointment(booking, createdAt), id);
            && AppointmentServices(stored, services) == booking.services
            && StaffMemberOf(stored, staff) == FindStaffMember(staff, booking.staff.id)
  {
    var stored := WithId(ComposeAppointment(booking, createdAt), id);
    StoredBookingCardFields(booking, createdAt, id);
    ResolveServiceIdsRoundTrip(booking.services, services);
    StaffMemberOfIsLookup(stored, staff, booking.staff.id);
  }

  /** The message the card alerts when cancelling fails. */
  const CancelFailedMessage := "Failed to cancel appointment"

  /** A card's cancel state: the `cancelling` flag and the `onCancel` calls it issued. */
  class AppointmentCard {
    const appointment: Record
    var cancelling: bool
    /** The ids handed to `onCancel`, in call order (`appointment.id`, possibly absent). */
    var cancelRequests: seq<Option<Value>>
    /** `onCancel` calls issued and not yet settled. */
    var pending: nat
    /** The alerts shown, in order. */
    var alerts: seq<string>

    /** `cancelling` is only ever true while some cancel call is outstanding. */
    ghost predicate Valid()
      reads this
    {
      pending <= |cancelRequests| && (cancelling ==> pending > 0)
    }

    constructor (appointment: Record)
      ensures Valid()
      ensures this.appointment == appointment
      ensures !cancelling && cancelRequests == [] && pending == 0 && alerts == []
    {
      this.appointment := appointment;
      cancelling, cancelRequests, pending, alerts := false, [], 0, [];
    }

    /**
     * `handleCancel` up to its `await`: when the user confirms, sets
     * `cancelling` and calls `onCancel(appointment.id)`; otherwise nothing.
     */
    method HandleCancel(userConfirms: bool)
      requires Valid()
      modifies this
      ensures Valid()
      ensures userConfirms ==>
                && cancelling
                && cancelRequests == old(cancelRequests) + [Get(appointment, "id")]
                && pending == old(pending) + 1
                && alerts == old(alerts)
      ensures !userConfirms ==> unchanged(this)
    {
      if userConfirms {
        cancelling := true;
        cancelRequests := cancelRequests + [Get(appointment, "id")];
        pending := pending + 1;
      }
    }

    /**
     * `handleCancel` after its `await`: a failure is alerted; either way the
     * `finally` block clears `cancelling`.
     */
    method CancelSettled(outcome: Outcome<string>)
      requires Valid() && pending > 0
      modifies this
      ensures Valid()
      ensures !cancelling
      ensures pending == old(pending) - 1 && cancelRequests == old(cancelRequests)
      ensures alerts == old(alerts) + (if outcome.Fail? then [CancelFailedMessage] else [])
    {
      pending := pending - 1;
      if outcome.Fail? {
        alerts := alerts + [CancelFailedMessage];
      }
      cancelling := false;
    }
  }

  /** A confirmed cancel issues one call with the appointment's id and ends with `cancelling` false, whatever the outcome. */
  method CancelOnce(appointment: Record, outcome: Outcome<string>) returns (card: AppointmentCard)
    ensures fresh(card) && card.Valid()
    ensures card.cancelRequests == [Get(appointment, "id")] && !card.cancelling && card.pending == 0
  {
    card := new AppointmentCard(appointment);
    card.HandleCancel(true);
    card.CancelSettled(outcome);
  }
}
