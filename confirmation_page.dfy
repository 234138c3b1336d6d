/**
 * The finalize step of src/pages/ConfirmationPage.jsx: the appointment record
 * composed from the booking draft, and the one-shot `hasCreatedAppointment`
 * guard around the create call. React's `useRef`/`useState` become fields;
 * the awaited create call is split into issuing it and its settling, so that
 * a second mount effect can run while the first call is still pending.
 */
module Confirmation {
  import opened Wrappers
  import opened JsObjects
  import opened DateUtils
  import opened BookingApi

  /** The booking draft handed over by the previous step (`bookingData`). */
  datatype BookingData = BookingData(
    services: seq<Service>,
    staff: StaffMember,
    date: string,
    time: string,
    clientName: string,
    phone: string,
    email: Option<string>,
    notes: Option<string>,
    totalPrice: int,
    totalDuration: int)

  /** The summed length of some strings. */
  function TotalLength(items: seq<string>): nat {
    if |items| == 0 then 0 else |items[0]| + TotalLength(items[1..])
  }

  /** `items.join(sep)`. */
  function Join(items: seq<string>, sep: string): (r: string)
    ensures |items| == 0 ==> r == ""
    ensures |items| > 0 ==> |r| == TotalLength(items) + |sep| * (|items| - 1)
    ensures |items| > 0 ==> r[..|items[0]|] == items[0]
  {
    if |items| == 0 then ""
    else if |items| == 1 then items[0]
    else items[0] + sep + Join(items[1..], sep)
  }

  /** Joining one more item appends the separator and the item. */
  lemma {:induction false} JoinAppend(items: seq<string>, item: string, sep: string)
    requires |items| > 0
    ensures Join(items + [item], sep) == Join(items, sep) + sep + item
    decreases |items|
  {
    if |items| == 1 {
      assert (items + [item])[1..] == [item];
    } else {
      assert (items + [item])[1..] == items[1..] + [item];
      JoinAppend(items[1..], item, sep);
    }
  }

  /** `value || ''` for an optional string: an absent or empty value gives "". */
  function OrEmpty(value: Option<string>): (r: string)
    ensures value.None? ==> r == ""
    ensures value.Some? ==> r == value.value
  {
    match value
    case None => ""
    case Some(s) => s
  }

  /** The properties of a composed appointment record. */
  const AppointmentKeys: set<string> := {
    "serviceIds", "serviceNames", "staffId", "staffName", "date", "time", "clientName",
    "phone", "email", "notes", "totalPrice", "totalDuration", "status", "createdAt"}

  /**
   * `appointmentData`: the record handed to createAppointment. It carries no
   * id: the store assigns one.
   */
  function ComposeAppointment(booking: BookingData, createdAt: string): (r: Record)
    ensures r.Keys == AppointmentKeys && "id" !in r
  {
    map[
      "serviceIds" := StrList(ServiceIds(booking.services)),
      "serviceNames" := Str(Join(ServiceNames(booking.services), ", ")),
      "staffId" := Str(booking.staff.id),
      "staffName" := Str(booking.staff.name),
      "date" := Str(booking.date),
      "time" := Str(booking.time),
      "clientName" := Str(booking.clientName),
      "phone" := Str(booking.phone),
      "email" := Str(OrEmpty(booking.email)),
      "notes" := Str(OrEmpty(booking.notes)),
      "totalPrice" := Num(booking.totalPrice),
      "totalDuration" := Num(booking.totalDuration),
      "status" := Str("confirmed"),
      "createdAt" := Str(createdAt)]
  }

  /** The composed record occupies the draft's date, time and staff member. */
  lemma ComposedSlot(booking: BookingData, createdAt: string)
    ensures SlotOf(ComposeAppointment(booking, createdAt)) == Some(SlotKey(booking.date, booking.time, booking.staff.id))
  {
  }

  /**
   * The composed record lists the service ids in order and their names joined
   * by ", ", defaults email and notes to "", and is always "confirmed".
   */
  lemma ComposedServicesAndStatus(booking: BookingData, createdAt: string)
    ensures var r := ComposeAppointment(booking, createdAt);
            && r["serviceIds"] == StrList(ServiceIds(booking.services))
            && r["serviceNames"] == Str(Join(ServiceNames(booking.services), ", "))
            && r["status"] == Str("confirmed")
            && r["email"] == Str(OrEmpty(booking.email)) && r["notes"] == Str(OrEmpty(booking.notes))
  {
  }

  /** The composed record copies the client's details, the staff name, the totals and the clock reading unchanged. */
  lemma ComposedCopiesDraft(booking: BookingData, createdAt: string)
    ensures var r := ComposeAppointment(booking, createdAt);
            && r["clientName"] == Str(booking.clientName) && r["phone"] == Str(booking.phone)
            && r["staffName"] == Str(booking.staff.name)
            && r["totalPrice"] == Num(booking.totalPrice) && r["totalDuration"] == Num(booking.totalDuration)
            && r["createdAt"] == Str(createdAt)
  {
  }

  /**
   * Once the composed record is stored, its own slot is taken and every other
   * slot is exactly as available as before.
   */
  lemma StoredBookingTakesItsSlot(appointments: seq<Record>, booking: BookingData, createdAt: string, id: string,
                                  date: string, time: string, staffId: string)
    ensures var after := appointments + [WithId(ComposeAppointment(booking, createdAt), id)];
            && !IsSlotAvailable(booking.date, booking.time, booking.staff.id, after)
            && (SlotKey(date, time, staffId) != SlotKey(booking.date, booking.time, booking.staff.id) ==>
                  IsSlotAvailable(date, time, staffId, after) == IsSlotAvailable(date, time, staffId, appointments))
  {
    var stored := WithId(ComposeAppointment(booking, createdAt), id);
    ComposedSlot(booking, createdAt);
    WithIdKeepsSlot(ComposeAppointment(booking, createdAt), id);
    AppendedRecordTakesItsSlot(booking.date, booking.time, booking.staff.id, appointments, stored);
    if SlotKey(date, time, staffId) != SlotKey(booking.date, booking.time, booking.staff.id) {
      DifferentSlotNeverBlocks(date, time, staffId, appointments, stored);
    }
  }

  /** The confirmation page's state: the guard flag, the outcome fields and the create calls it issued. */
  class ConfirmationPage {
    const bookingData: Option<BookingData>
    /** `hasCreatedAppointment.current`. */
    var hasCreatedAppointment: bool
    var confirmed: bool
    var error: Option<string>
    /** The records handed to createAppointment, in call order. */
    var requests: seq<Record>
    /** The value of the guard flag at each of those calls. */
    ghost var flagAtRequest: seq<bool>
    /** Create calls issued and not yet settled. */
    var pending: nat

    ghost predicate Valid()
      reads this
    {
      && |flagAtRequest| == |requests|
      && pending <= |requests|
      && (bookingData.None? ==> requests == [] && !hasCreatedAppointment)
      && (confirmed ==> |requests| > 0)
      && (error.Some? ==> |requests| > 0)
    }

    /** The page mounts with the flag unset, nothing confirmed and no error. */
    constructor (bookingData: Option<BookingData>)
      ensures Valid()
      ensures this.bookingData == bookingData
      ensures !hasCreatedAppointment && !confirmed && error.None?
      ensures requests == [] && pending == 0
    {
      this.bookingData := bookingData;
      hasCreatedAppointment, confirmed, error := false, false, None;
      requests, flagAtRequest, pending := [], [], 0;
    }

    /**
     * The mount effect: with booking data present and the flag unset, sets the
     * flag and then issues the create call; otherwise does nothing at all.
     */
    method MountEffect(createdAt: string)
      requires Valid()
      modifies this
      ensures Valid()
      ensures old(bookingData.Some? && !hasCreatedAppointment) ==>
                && hasCreatedAppointment
                && requests == old(requests) + [ComposeAppointment(bookingData.value, createdAt)]
                && flagAtRequest == old(flagAtRequest) + [true]
                && pending == old(pending) + 1
                && confirmed == old(confirmed) && error == old(error)
      ensures !old(bookingData.Some? && !hasCreatedAppointment) ==> unchanged(this)
    {
      if bookingData.Some? && !hasCreatedAppointment {
        hasCreatedAppointment := true;
        HandleConfirmation(createdAt);
      }
    }

    /**
     * `handleConfirmation` up to its `await`: composes the record and issues
     * exactly one create call. `createdAt` is the clock reading.
     */
    method HandleConfirmation(createdAt: string)
      requires Valid() && bookingData.Some?
      modifies this
      ensures Valid()
      ensures requests == old(requests) + [ComposeAppointment(bookingData.value, createdAt)]
      ensures flagAtRequest == old(flagAtRequest) + [old(hasCreatedAppointment)]
      ensures pending == old(pending) + 1
      ensures hasCreatedAppointment == old(hasCreatedAppointment)
      ensures confirmed == old(confirmed) && error == old(error)
    {
      var appointmentData := ComposeAppointment(bookingData.value, createdAt);
      requests := requests + [appointmentData];
      flagAtRequest := flagAtRequest + [hasCreatedAppointment];
      pending := pending + 1;
    }

    /**
     * `handleConfirmation` after its `await`: success sets `confirmed`;
     * failure stores the message and clears the flag so the user may retry.
     */
    method CreateSettled(outcome: Outcome<string>)
      requires Valid() && pending > 0
      modifies this
      ensures Valid()
      ensures pending == old(pending) - 1
      ensures requests == old(requests) && flagAtRequest == old(flagAtRequest)
      ensures outcome.Pass? ==> confirmed && error == old(error) && hasCreatedAppointment == old(hasCreatedAppointment)
      ensures outcome.Fail? ==> error == Some(outcome.error) && !hasCreatedAppointment && confirmed == old(confirmed)
    {
      pending := pending - 1;
      match outcome
      case Pass =>
        confirmed := true;
      case Fail(message) =>
        error := Some(message);
        hasCreatedAppointment := false;
    }

    /**
     * The page renders its error view, the only view with a retry button,
     * exactly when `error` is truthy: a stored message that is not empty. A
     * failure whose message is empty or missing (stored here as "") leaves
     * `error` falsy, and the page renders the confirmation card instead.
     */
    predicate ShowsErrorView()
      reads this
    {
      error.Some? && error.value != ""
    }

    /** The retry button of the error view: calls `handleConfirmation` directly, never consulting the flag. */
    method Retry(createdAt: string)
      requires Valid() && ShowsErrorView()
      modifies this
      ensures Valid()
      ensures bookingData.Some?
      ensures requests == old(requests) + [ComposeAppointment(bookingData.value, createdAt)]
      ensures flagAtRequest == old(flagAtRequest) + [old(hasCreatedAppointment)]
      ensures pending == old(pending) + 1
      ensures hasCreatedAppointment == old(hasCreatedAppointment)
      ensures confirmed == old(confirmed) && error == old(error)
    {
      HandleConfirmation(createdAt);
    }
  }

  /**
   * React's development mode runs the mount effect twice before the first
   * create call settles: the guard lets exactly one create call through.
   */
  method DoubleMountCreatesOnce(booking: BookingData, firstClock: string, secondClock: string)
    returns (page: ConfirmationPage)
    ensures fresh(page) && page.Valid()
    ensures page.requests == [ComposeAppointment(booking, firstClock)]
    ensures page.hasCreatedAppointment && page.pending == 1
  {
    page := new ConfirmationPage(Some(booking));
    page.MountEffect(firstClock);
    page.MountEffect(secondClock);
  }

  /** Without booking data the mount effect never issues a create call. */
  method MountWithoutBookingCreatesNothing(clock: string) returns (page: ConfirmationPage)
    ensures fresh(page) && page.Valid()
    ensures page.requests == [] && !page.hasCreatedAppointment
  {
    page := new ConfirmationPage(None);
    page.MountEffect(clock);
  }

  /**
   * A failed create followed by a successful retry leaves the error set and
   * the flag clear, so the error view (with its retry button) stays and a
   * further retry issues a further create call for the same booking.
   */
  method RetryAfterFailure(booking: BookingData, clock: string, message: string)
    returns (page: ConfirmationPage)
    requires message != ""
    ensures fresh(page) && page.Valid()
    ensures page.confirmed && page.error == Some(message) && !page.hasCreatedAppointment
    ensures page.ShowsErrorView()
    ensures |page.requests| == 3 && page.flagAtRequest == [true, false, false]
    ensures page.requests[1] == page.requests[2] == ComposeAppointment(booking, clock)
  {
    page := new ConfirmationPage(Some(booking));
    page.MountEffect(clock);
    page.CreateSettled(Fail(message));
    page.Retry(clock);
    page.CreateSettled(Pass);
    page.Retry(clock);
  }

  /**
   * A failed create whose error carries no message leaves `error` falsy: the
   * page shows the confirmation card and no retry button, although nothing
   * was confirmed and the guard is clear again.
   */
  method FailureWithoutMessage(booking: BookingData, clock: string) returns (page: ConfirmationPage)
    ensures fresh(page) && page.Valid()
    ensures !page.ShowsErrorView() && !page.confirmed
    ensures page.error == Some("") && !page.hasCreatedAppointment
    ensures page.requests == [ComposeAppointment(booking, clock)] && page.pending == 0
  {
    page := new ConfirmationPage(Some(booking));
    page.MountEffect(clock);
    page.CreateSettled(Fail(""));
  }
}
