/**
 * The upcoming-appointments list of src/pages/MyAppointmentsPage.jsx: keep the
 * appointments whose date-time is at or after now, then sort them ascending.
 * Date parsing (`new Date(apt.date + 'T' + apt.time)`) is the parameter `at`,
 * which yields a moment on an ordered time line or None for an Invalid Date;
 * the clock reading `new Date()` is the parameter `now`.
 */
module MyAppointments {
  import opened Wrappers
  import opened JsObjects
  import opened JsArrays

  /**
   * `new Date(apt.date + 'T' + apt.time) >= new Date()`: an Invalid Date is
   * never upcoming; a valid one is upcoming exactly when it is not before now.
   */
  predicate IsUpcoming(apt: Record, now: int, at: Record -> Option<int>): (r: bool)
    ensures at(apt).None? ==> !r
    ensures at(apt).Some? ==> (r <==> !(at(apt).value < now))
  {
    at(apt).Some? && at(apt).value >= now
  }

  /** Every record parses to a moment. */
  predicate AllTimed(s: seq<Record>, at: Record -> Option<int>) {
    forall i :: 0 <= i < |s| ==> at(s[i]).Some?
  }

  /**
   * `a` comes no later than `b`: both parse, and the comparator `dateA - dateB`
   * is not positive.
   */
  predicate NotLater(a: Record, b: Record, at: Record -> Option<int>): (r: bool)
    ensures r <==> at(a).Some? && at(b).Some? && at(a).value - at(b).value <= 0
  {
    at(a).Some? && at(b).Some? && at(a).value <= at(b).value
  }

  /** Ascending by date-time. */
  predicate SortedByTime(s: seq<Record>, at: Record -> Option<int>) {
    forall i, j :: 0 <= i < j < |s| ==> NotLater(s[i], s[j], at)
  }

  /** Places `apt` before the first record that is not earlier than it. */
  function InsertByTime(apt: Record, sorted: seq<Record>, at: Record -> Option<int>): (r: seq<Record>)
    requires at(apt).Some? && AllTimed(sorted, at)
    ensures multiset(r) == multiset(sorted) + multiset{apt}
    ensures AllTimed(r, at)
    decreases |sorted|
  {
    if |sorted| == 0 then [apt]
    else if at(apt).value <= at(sorted[0]).value then [apt] + sorted
    else
      assert sorted == [sorted[0]] + sorted[1..];
      [sorted[0]] + InsertByTime(apt, sorted[1..], at)
  }

  /** An ascending list stays ascending behind a record no later than any of its members. */
  lemma PrependKeepsSorted(first: Record, s: seq<Record>, at: Record -> Option<int>)
    requires SortedByTime(s, at)
    requires forall y :: y in s ==> NotLater(first, y, at)
    ensures SortedByTime([first] + s, at)
  {
    var r := [first] + s;
    forall i, j | 0 <= i < j < |r| ensures NotLater(r[i], r[j], at) {
      assert r[j] == s[j - 1];
      if i > 0 {
        assert r[i] == s[i - 1];
      }
    }
  }

  /** The tail of an ascending list is ascending and no record in it is earlier than the head. */
  lemma SortedSplit(s: seq<Record>, at: Record -> Option<int>)
    requires |s| > 0 && SortedByTime(s, at)
    ensures SortedByTime(s[1..], at)
    ensures forall y :: y in s[1..] ==> NotLater(s[0], y, at)
  {
    var tail := s[1..];
    forall i, j | 0 <= i < j < |tail| ensures NotLater(tail[i], tail[j], at) {
      assert tail[i] == s[i + 1] && tail[j] == s[j + 1];
    }
    forall y | y in tail ensures NotLater(s[0], y, at) {
      var k :| 0 <= k < |tail| && tail[k] == y;
      assert s[k + 1] == tail[k];
    }
  }

  /** Inserting into an ascending list keeps it ascending. */
  lemma {:induction false} InsertKeepsSorted(apt: Record, sorted: seq<Record>, at: Record -> Option<int>)
    requires at(apt).Some? && AllTimed(sorted, at) && SortedByTime(sorted, at)
    ensures SortedByTime(InsertByTime(apt, sorted, at), at)
    decreases |sorted|
  {
    if |sorted| == 0 {
    } else if at(apt).value <= at(sorted[0]).value {
      forall y | y in sorted ensures NotLater(apt, y, at) {
        var k :| 0 <= k < |sorted| && sorted[k] == y;
        if k > 0 {
          assert NotLater(sorted[0], sorted[k], at);
        }
      }
      PrependKeepsSorted(apt, sorted, at);
    } else {
      var tail := sorted[1..];
      SortedSplit(sorted, at);
      InsertKeepsSorted(apt, tail, at);
      var rest := InsertByTime(apt, tail, at);
      forall y | y in rest ensures NotLater(sorted[0], y, at) {
        assert y in multiset(rest);
      }
      PrependKeepsSorted(sorted[0], rest, at);
    }
  }

  /** The stable ascending sort the page applies (an insertion sort). */
  function SortByTime(s: seq<Record>, at: Record -> Option<int>): (r: seq<Record>)
    requires AllTimed(s, at)
    ensures multiset(r) == multiset(s)
    ensures AllTimed(r, at)
    ensures SortedByTime(r, at)
    decreases |s|
  {
    if |s| == 0 then []
    else
      assert s == [s[0]] + s[1..];
      var sortedTail := SortByTime(s[1..], at);
      InsertKeepsSorted(s[0], sortedTail, at);
      InsertByTime(s[0], sortedTail, at)
  }

  /** The page's filter callback. */
  function UpcomingFilter(appointments: seq<Record>, now: int, at: Record -> Option<int>): (r: seq<Record>)
    ensures forall i :: 0 <= i < |r| ==> IsUpcoming(r[i], now, at)
    ensures forall apt :: multiset(r)[apt] == if IsUpcoming(apt, now, at) then multiset(appointments)[apt] else 0
  {
    var r := Filter(appointments, apt => IsUpcoming(apt, now, at));
    assert forall i :: 0 <= i < |r| ==> r[i] in r;
    FilterCounts(appointments, apt => IsUpcoming(apt, now, at));
    r
  }

  /**
   * `upcomingAppointments`: exactly the appointments at or after now, each
   * kept as often as it occurs and unaltered, in ascending date-time order.
   */
  function UpcomingAppointments(appointments: seq<Record>, now: int, at: Record -> Option<int>): (r: seq<Record>)
    ensures forall apt :: apt in r <==> apt in appointments && IsUpcoming(apt, now, at)
    ensures forall apt :: multiset(r)[apt] == if IsUpcoming(apt, now, at) then multiset(appointments)[apt] else 0
    ensures forall i :: 0 <= i < |r| ==> IsUpcoming(r[i], now, at)
    ensures SortedByTime(r, at)
  {
    var upcoming := UpcomingFilter(appointments, now, at);
    var r := SortByTime(upcoming, at);
    assert forall i :: 0 <= i < |r| ==> r[i] in multiset(upcoming);
    assert forall apt :: apt in r <==> apt in multiset(r);
    r
  }

  /** The list depends only on which appointments exist, not on the order the store returns them in. */
  lemma UpcomingIgnoresStoreOrder(a: seq<Record>, b: seq<Record>, now: int, at: Record -> Option<int>)
    requires multiset(a) == multiset(b)
    ensures multiset(UpcomingAppointments(a, now, at)) == multiset(UpcomingAppointments(b, now, at))
  {
    var ra, rb := UpcomingAppointments(a, now, at), UpcomingAppointments(b, now, at);
    forall apt ensures multiset(ra)[apt] == multiset(rb)[apt] {
    }
  }
}
