/**
 * The daily slot grid and the slot-exact conflict check of src/utils/dateUtils.js.
 */
module DateUtils {
  import opened Wrappers
  import opened JsObjects
  import opened JsArrays

  /** Business hours: the first bookable hour and the hour the grid stops before. */
  const OpeningHour: nat := 9
  const ClosingHour: nat := 18
  /** The minutes past each hour at which a slot starts. */
  const MinuteMarks: seq<nat> := [0, 30]

  // ---------------------------------------------------------------------------
  // Time-of-day strings
  // ---------------------------------------------------------------------------

  predicate IsDigit(c: char) {
    '0' <= c <= '9'
  }

  function DigitValue(c: char): int {
    c as int - '0' as int
  }

  /** The decimal digit character for `d`. */
  function Digit(d: nat): (c: char)
    requires d < 10
    ensures IsDigit(c) && DigitValue(c) == d
  {
    ('0' as int + d) as char
  }

  /** `n.toString()` for a natural number: its decimal digits, most significant first. */
  function DecimalString(n: nat): (r: string)
    ensures |r| >= 1
    ensures forall i :: 0 <= i < |r| ==> IsDigit(r[i])
  {
    if n < 10 then [Digit(n)] else DecimalString(n / 10) + [Digit(n % 10)]
  }

  /** `s.padStart(2, '0')`: left-pads with zeros up to two characters, never truncates. */
  function PadStart2(s: string): (r: string)
    ensures |s| >= 2 ==> r == s
    ensures |s| < 2 ==> |r| == 2 && r[2 - |s|..] == s && forall i :: 0 <= i < 2 - |s| ==> r[i] == '0'
  {
    if |s| == 0 then "00" else if |s| == 1 then "0" + s else s
  }

  /**
   * The source's `HH:MM` template: the hour and the minute, each rendered by
   * `toString().padStart(2, '0')`, around a colon, so never shorter than five
   * characters (FormatTimeDigits gives the exact characters below 100).
   */
  function FormatTime(hour: nat, minute: nat): (r: string)
    ensures |r| >= 5
  {
    PadStart2(DecimalString(hour)) + ":" + PadStart2(DecimalString(minute))
  }

  /** The hour field of a five-character `HH:MM` string. */
  function HourOf(t: string): int
    requires |t| == 5
  {
    10 * DigitValue(t[0]) + DigitValue(t[1])
  }

  /** The minute field of a five-character `HH:MM` string. */
  function MinuteOf(t: string): int
    requires |t| == 5
  {
    10 * DigitValue(t[3]) + DigitValue(t[4])
  }

  /** A zero-padded `HH:MM` clock time: two digits, a colon, two digits, an hour below 24 and a minute below 60. */
  predicate IsTimeString(t: string) {
    && |t| == 5 && IsDigit(t[0]) && IsDigit(t[1]) && t[2] == ':' && IsDigit(t[3]) && IsDigit(t[4])
    && HourOf(t) < 24 && MinuteOf(t) < 60
  }

  /** The minutes since midnight that an `HH:MM` string denotes. */
  function MinutesOfDay(t: string): int
    requires IsTimeString(t)
  {
    60 * HourOf(t) + MinuteOf(t)
  }

  /** Below 100, `n.toString().padStart(2, '0')` is exactly the tens digit and the units digit. */
  lemma TwoDigitString(n: nat)
    requires n < 100
    ensures PadStart2(DecimalString(n)) == [Digit(n / 10), Digit(n % 10)]
  {
    if n >= 10 {
      assert DecimalString(n / 10) == [Digit(n / 10)];
    }
  }

  /** Any hour and minute below 100 render as exactly two digits, a colon and two digits. */
  lemma FormatTimeDigits(hour: nat, minute: nat)
    requires hour < 100 && minute < 100
    ensures FormatTime(hour, minute) == [Digit(hour / 10), Digit(hour % 10), ':', Digit(minute / 10), Digit(minute % 10)]
  {
    TwoDigitString(hour);
    TwoDigitString(minute);
  }

  /** A clock time renders as a valid `HH:MM` string whose fields read back as that hour and minute. */
  lemma FormatTimeReadsBack(hour: nat, minute: nat)
    requires hour < 24 && minute < 60
    ensures IsTimeString(FormatTime(hour, minute))
    ensures HourOf(FormatTime(hour, minute)) == hour && MinuteOf(FormatTime(hour, minute)) == minute
    ensures MinutesOfDay(FormatTime(hour, minute)) == 60 * hour + minute
  {
    FormatTimeDigits(hour, minute);
    assert 10 * (hour / 10) + hour % 10 == hour;
    assert 10 * (minute / 10) + minute % 10 == minute;
  }

  // ---------------------------------------------------------------------------
  // generateTimeSlots
  // ---------------------------------------------------------------------------

  /** The number of slots in a business day. */
  function SlotCount(): nat {
    (ClosingHour - OpeningHour) * |MinuteMarks|
  }

  /**
   * The grid the source's nested loops produce, slot by slot: slot `k` is at
   * hour `OpeningHour + k / 2` and minute mark `k % 2`.
   */
  function TimeGrid(): (grid: seq<string>)
    ensures |grid| == SlotCount()
  {
    seq(SlotCount(), k requires 0 <= k < SlotCount() => FormatTime(OpeningHour + k / 2, MinuteMarks[k % 2]))
  }

  /**
   * Slot `k` of the grid is a valid `HH:MM` string for hour `9 + k / 2` and
   * minute `0` or `30` as `k` is even or odd, i.e. 09:00 plus 30 minutes per position.
   */
  lemma TimeGridSlot(k: nat)
    requires k < SlotCount()
    ensures IsTimeString(TimeGrid()[k])
    ensures HourOf(TimeGrid()[k]) == OpeningHour + k / 2
    ensures MinuteOf(TimeGrid()[k]) == 30 * (k % 2)
    ensures MinutesOfDay(TimeGrid()[k]) == 9 * 60 + 30 * k
  {
    assert MinuteMarks[k % 2] == 30 * (k % 2);
    FormatTimeReadsBack(OpeningHour + k / 2, MinuteMarks[k % 2]);
  }

  /** The grid opens at "09:00". */
  lemma TimeGridOpens()
    ensures TimeGrid()[0] == "09:00"
  {
    assert TimeGrid()[0] == FormatTime(9, 0);
    FormatTimeDigits(9, 0);
    assert Digit(0) == '0' && Digit(9) == '9';
  }

  /** The grid has 18 slots and the last one is "17:30". */
  lemma TimeGridCloses()
    ensures |TimeGrid()| == 18
    ensures TimeGrid()[17] == "17:30"
  {
    assert TimeGrid()[17] == FormatTime(17, 30);
    FormatTimeDigits(17, 30);
    assert Digit(1) == '1' && Digit(7) == '7' && Digit(3) == '3' && Digit(0) == '0';
  }

  /**
   * The business-hours policy: every slot is a valid `HH:MM` string for an
   * hour from 9 to 17 and a minute mark 0 or 30, so before 18:00, and the
   * slots are strictly ascending in 30-minute steps.
   */
  lemma TimeGridPolicy()
    ensures forall k :: 0 <= k < |TimeGrid()| ==>
              && IsTimeString(TimeGrid()[k])
              && OpeningHour <= HourOf(TimeGrid()[k]) < ClosingHour
              && MinuteOf(TimeGrid()[k]) in MinuteMarks
              && MinutesOfDay(TimeGrid()[k]) < ClosingHour * 60
    ensures forall k :: 0 < k < |TimeGrid()| ==> MinutesOfDay(TimeGrid()[k]) == MinutesOfDay(TimeGrid()[k - 1]) + 30
    ensures forall j, k :: 0 <= j < k < |TimeGrid()| ==> MinutesOfDay(TimeGrid()[j]) < MinutesOfDay(TimeGrid()[k])
  {
    forall k | 0 <= k < |TimeGrid()|
      ensures IsTimeString(TimeGrid()[k]) && MinutesOfDay(TimeGrid()[k]) == 9 * 60 + 30 * k
      ensures HourOf(TimeGrid()[k]) == OpeningHour + k / 2 && MinuteOf(TimeGrid()[k]) in MinuteMarks
    {
      TimeGridSlot(k);
    }
  }

  /** Position `2 * h + i` of the grid is hour `OpeningHour + h` at minute mark `i`. */
  lemma GridPosition(h: nat, i: nat)
    requires h < ClosingHour - OpeningHour && i < |MinuteMarks|
    ensures TimeGrid()[2 * h + i] == FormatTime(OpeningHour + h, MinuteMarks[i])
  {
    var k := 2 * h + i;
    assert k / 2 == h && k % 2 == i;
    assert TimeGrid()[k] == FormatTime(OpeningHour + k / 2, MinuteMarks[k % 2]);
  }

  /** `slots` agrees with the grid on each of its positions. */
  predicate IsGridPrefix(slots: seq<string>) {
    |slots| <= SlotCount() && forall j :: 0 <= j < |slots| ==> slots[j] == TimeGrid()[j]
  }

  /** Pushing the grid's next slot extends a grid prefix. */
  lemma ExtendGridPrefix(slots: seq<string>, time: string)
    requires IsGridPrefix(slots) && |slots| < SlotCount() && time == TimeGrid()[|slots|]
    ensures IsGridPrefix(slots + [time])
  {
  }

  /** A grid prefix as long as the grid is the grid. */
  lemma FullGridPrefix(slots: seq<string>)
    requires IsGridPrefix(slots) && |slots| == SlotCount()
    ensures slots == TimeGrid()
  {
  }

  /** `generateTimeSlots`: push one `HH:MM` string per hour 9..17 and minute mark 0, 30. */
  method GenerateTimeSlots() returns (slots: seq<string>)
    ensures slots == TimeGrid()
  {
    slots := [];
    var hour := OpeningHour;
    while hour < ClosingHour
      invariant OpeningHour <= hour <= ClosingHour
      invariant |slots| == 2 * (hour - OpeningHour)
      invariant IsGridPrefix(slots)
    {
      for i := 0 to |MinuteMarks|
        invariant |slots| == 2 * (hour - OpeningHour) + i
        invariant IsGridPrefix(slots)
      {
        var time := FormatTime(hour, MinuteMarks[i]);
        GridPosition(hour - OpeningHour, i);
        ExtendGridPrefix(slots, time);
        slots := slots + [time];
      }
      hour := hour + 1;
    }
    FullGridPrefix(slots);
  }

  // ---------------------------------------------------------------------------
  // isSlotAvailable
  // ---------------------------------------------------------------------------

  /** The slot an appointment record occupies: its date, time and staff member. */
  datatype SlotKey = SlotKey(date: string, time: string, staffId: string)

  /**
   * The three strict equalities of `isSlotAvailable`'s callback: `apt` holds
   * this slot. Strict equality admits no conversion, so a missing property
   * (`undefined`) or one that is not a string never matches.
   */
  predicate Occupies(apt: Record, date: string, time: string, staffId: string): (r: bool)
    ensures r <==> && "date" in apt && apt["date"] == Str(date)
                   && "time" in apt && apt["time"] == Str(time)
                   && "staffId" in apt && apt["staffId"] == Str(staffId)
  {
    && Get(apt, "date") == Some(Str(date))
    && Get(apt, "time") == Some(Str(time))
    && Get(apt, "staffId") == Some(Str(staffId))
  }

  /** The slot a record holds, or None when one of its date, time or staffId is missing or not a string. */
  function SlotOf(apt: Record): (r: Option<SlotKey>)
    ensures forall date, time, staffId :: Occupies(apt, date, time, staffId) <==> r == Some(SlotKey(date, time, staffId))
  {
    match (Get(apt, "date"), Get(apt, "time"), Get(apt, "staffId"))
    case (Some(Str(d)), Some(Str(t)), Some(Str(s))) => Some(SlotKey(d, t, s))
    case _ => None
  }

  /** `isSlotAvailable`: no existing appointment holds the same date, time and staff member. */
  function IsSlotAvailable(date: string, time: string, staffId: string, appointments: seq<Record>): (r: bool)
    ensures !r <==> exists i :: 0 <= i < |appointments| && Occupies(appointments[i], date, time, staffId)
  {
    !Any(appointments, apt => Occupies(apt, date, time, staffId))
  }

  /** Checking two lists one after the other is checking their concatenation; a record blocks exactly its own slot. */
  lemma AvailabilitySplits(date: string, time: string, staffId: string, a: seq<Record>, b: seq<Record>)
    ensures IsSlotAvailable(date, time, staffId, a + b)
        <==> IsSlotAvailable(date, time, staffId, a) && IsSlotAvailable(date, time, staffId, b)
    ensures IsSlotAvailable(date, time, staffId, [])
  {
    if !IsSlotAvailable(date, time, staffId, a + b) {
      var i :| 0 <= i < |a + b| && Occupies((a + b)[i], date, time, staffId);
      if i >= |a| {
        assert b[i - |a|] == (a + b)[i];
      }
    }
    if !IsSlotAvailable(date, time, staffId, a) {
      var i :| 0 <= i < |a| && Occupies(a[i], date, time, staffId);
      assert (a + b)[i] == a[i];
    }
    if !IsSlotAvailable(date, time, staffId, b) {
      var i :| 0 <= i < |b| && Occupies(b[i], date, time, staffId);
      assert (a + b)[|a| + i] == b[i];
    }
  }

  /** An appointment that differs from the candidate in its date, its time or its staff member never blocks it. */
  lemma DifferentSlotNeverBlocks(date: string, time: string, staffId: string, appointments: seq<Record>, other: Record)
    requires SlotOf(other) != Some(SlotKey(date, time, staffId))
    ensures IsSlotAvailable(date, time, staffId, appointments + [other]) == IsSlotAvailable(date, time, staffId, appointments)
  {
    AvailabilitySplits(date, time, staffId, appointments, [other]);
  }

  /** A record appended to the list blocks its own slot. */
  lemma AppendedRecordTakesItsSlot(date: string, time: string, staffId: string, appointments: seq<Record>, stored: Record)
    requires SlotOf(stored) == Some(SlotKey(date, time, staffId))
    ensures !IsSlotAvailable(date, time, staffId, appointments + [stored])
  {
    AvailabilitySplits(date, time, staffId, appointments, [stored]);
  }

  /** The availability verdict does not depend on the order of the appointment list. */
  lemma AvailabilityIgnoresOrder(date: string, time: string, staffId: string, a: seq<Record>, b: seq<Record>)
    requires multiset(a) == multiset(b)
    ensures IsSlotAvailable(date, time, staffId, a) == IsSlotAvailable(date, time, staffId, b)
  {
    AnyIgnoresOrder(a, b, apt => Occupies(apt, date, time, staffId));
  }
}
