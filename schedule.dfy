/**
 * The day schedule of a sync run (src/main.py): which UTC days are
 * processed, the millisecond window of each day, and how the usage events
 * of a window are paged in. The parsed date bounds and the current time
 * are inputs; the usage service is the sequence of pages it would serve.
 */
module Schedule {
  import opened Wrappers
  import opened Models
  import opened Dates

  /** The UTC midnight that starts the day of `ms`. */
  function MidnightOf(ms: int): int {
    DayNumber(ms) * DayMs
  }

  /** `xs[::-1]`. */
  function Reverse(xs: seq<int>): (r: seq<int>)
    ensures |r| == |xs| && forall i :: 0 <= i < |xs| ==> r[i] == xs[|xs| - 1 - i]
  {
    seq(|xs|, i requires 0 <= i < |xs| => xs[|xs| - 1 - i])
  }

  /** Reversing twice gives the list back. */
  lemma ReverseInvolutive(xs: seq<int>)
    ensures Reverse(Reverse(xs)) == xs
  {
    assert forall i :: 0 <= i < |xs| ==> Reverse(Reverse(xs))[i] == xs[i];
  }

  /** Reversing keeps every element, as often as it occurs. */
  lemma {:induction false} ReversePermutes(xs: seq<int>)
    ensures multiset(Reverse(xs)) == multiset(xs)
  {
    if xs != [] {
      ReversePermutes(xs[1..]);
      assert Reverse(xs) == Reverse(xs[1..]) + [xs[0]];
      assert xs == [xs[0]] + xs[1..];
    }
  }

  /**
   * `slice_days_utc`: with both bounds, every midnight from the start's day
   * to the end's day; otherwise the last `days` midnights up to today's, in
   * ascending order. `start` and `end` are the parsed bounds, absent when
   * the argument is missing or empty.
   */
  function SliceDaysUtc(days: int, start: Option<int>, end: Option<int>, nowMs: int): seq<int> {
    if start.Some? && end.Some? then
      var first, last := MidnightOf(start.value), MidnightOf(end.value);
      var totalDays := (last - first) / DayMs + 1;
      seq(if totalDays < 0 then 0 else totalDays, i => first + i * DayMs)
    else
      var today := MidnightOf(nowMs);
      Reverse(seq(if days < 0 then 0 else days, i => today - i * DayMs))
  }

  /** `xs` are consecutive UTC midnights. */
  ghost predicate ConsecutiveMidnights(xs: seq<int>) {
    && (forall i :: 0 <= i < |xs| ==> xs[i] % DayMs == 0)
    && (forall i :: 0 <= i < |xs| - 1 ==> xs[i + 1] == xs[i] + DayMs)
  }

  /** The midnight that starts day `d` lies in day `d`. */
  lemma MidnightDay(d: int)
    ensures (d * DayMs) % DayMs == 0 && DayNumber(d * DayMs) == d
  {
  }

  /**
   * With both bounds, one midnight per day from the start's day to the
   * end's day inclusive, none when the end's day is before the start's.
   */
  lemma SliceBetweenBounds(days: int, startMs: int, endMs: int, nowMs: int)
    ensures var r := SliceDaysUtc(days, Some(startMs), Some(endMs), nowMs);
      && ConsecutiveMidnights(r)
      && |r| == (if DayNumber(endMs) < DayNumber(startMs) then 0 else DayNumber(endMs) - DayNumber(startMs) + 1)
      && (|r| > 0 ==> DayNumber(r[0]) == DayNumber(startMs) && DayNumber(r[|r| - 1]) == DayNumber(endMs))
  {
    var first, last := MidnightOf(startMs), MidnightOf(endMs);
    assert (last - first) / DayMs == DayNumber(endMs) - DayNumber(startMs);
    var r := SliceDaysUtc(days, Some(startMs), Some(endMs), nowMs);
    forall i | 0 <= i < |r|
      ensures r[i] % DayMs == 0 && DayNumber(r[i]) == DayNumber(startMs) + i
    {
      assert r[i] == (DayNumber(startMs) + i) * DayMs;
      MidnightDay(DayNumber(startMs) + i);
    }
  }

  /** Without both bounds, exactly `days` midnights ending with today's, none for `days <= 0`. */
  lemma SliceLastDays(days: int, start: Option<int>, end: Option<int>, nowMs: int)
    requires start.None? || end.None?
    ensures var r := SliceDaysUtc(days, start, end, nowMs);
      && ConsecutiveMidnights(r)
      && |r| == (if days < 0 then 0 else days)
      && (|r| > 0 ==> DayNumber(r[|r| - 1]) == DayNumber(nowMs) && DayNumber(r[0]) == DayNumber(nowMs) - days + 1)
  {
    var r := SliceDaysUtc(days, start, end, nowMs);
    forall i | 0 <= i < |r|
      ensures r[i] % DayMs == 0 && DayNumber(r[i]) == DayNumber(nowMs) - (|r| - 1 - i)
    {
      LastDayAt(days, start, end, nowMs, i);
      MidnightDay(DayNumber(nowMs) - (|r| - 1 - i));
    }
  }

  /** The `i`-th of the last `days` midnights starts the day `days - 1 - i` days before today. */
  lemma LastDayAt(days: int, start: Option<int>, end: Option<int>, nowMs: int, i: int)
    requires start.None? || end.None?
    requires 0 <= i < days
    ensures var r := SliceDaysUtc(days, start, end, nowMs);
      |r| == days && r[i] == (DayNumber(nowMs) - (days - 1 - i)) * DayMs
  {
    var today := MidnightOf(nowMs);
    var back := seq(days, j => today - j * DayMs);
    assert SliceDaysUtc(days, start, end, nowMs) == Reverse(back);
    assert back[days - 1 - i] == today - (days - 1 - i) * DayMs;
  }

  /** The inclusive millisecond range `[day_start, day_start + 86400000 - 1]` of one day. */
  function DayWindow(dayStart: int): (int, int) {
    (dayStart, dayStart + DayMs - 1)
  }

  /** A window that starts at a midnight holds exactly the instants of that UTC day. */
  lemma WindowIsDay(dayStart: int, t: int)
    requires dayStart % DayMs == 0
    ensures DayWindow(dayStart).0 <= t <= DayWindow(dayStart).1 <==> DayNumber(t) == DayNumber(dayStart)
  {
    var d := DayNumber(dayStart);
    assert dayStart == d * DayMs;
    if DayNumber(t) == d {
      assert d * DayMs <= t < (d + 1) * DayMs;
    }
    if dayStart <= t <= dayStart + DayMs - 1 {
      assert (t - dayStart) / DayMs == 0;
    }
  }

  /** Consecutive windows meet without overlap or gap. */
  lemma WindowsTile(xs: seq<int>, i: int)
    requires ConsecutiveMidnights(xs) && 0 <= i < |xs| - 1
    ensures DayWindow(xs[i]).1 + 1 == DayWindow(xs[i + 1]).0
  {
  }

  /**
   * One page of usage events as the service returns it; a missing
   * `hasNextPage` reads as false.
   */
  datatype Page = Page(usageEvents: seq<UsageEvent>, hasNextPage: bool)

  /**
   * The page the service serves for page number `p` (counting from 1):
   * pages past the last are empty.
   */
  function PageAt(server: seq<Page>, p: int): Page {
    if 1 <= p <= |server| then server[p - 1] else Page([], false)
  }

  /** Fetching goes on after a page only if it has events and announces a next page. */
  predicate Continues(pg: Page) {
    pg.usageEvents != [] && pg.hasNextPage
  }

  /** The events of pages 1 to `n`, in page order. */
  function EventsOf(server: seq<Page>, n: nat): seq<UsageEvent> {
    if n == 0 then [] else EventsOf(server, n - 1) + PageAt(server, n).usageEvents
  }

  /**
   * The pagination loop of one day window: requests pages 1, 2, 3, ... and
   * stops at the first page that is empty or has no next page; the events
   * are those of every page requested, in page order.
   */
  method FetchAllEvents(server: seq<Page>) returns (events: seq<UsageEvent>, requested: seq<int>)
    ensures |requested| >= 1
    ensures forall j :: 0 <= j < |requested| ==> requested[j] == j + 1
    ensures forall j :: 1 <= j < |requested| ==> Continues(PageAt(server, j))
    ensures !Continues(PageAt(server, |requested|))
    ensures events == EventsOf(server, |requested|)
  {
    events, requested := [], [];
    var page := 1;
    while true
      invariant page == |requested| + 1
      invariant forall j :: 0 <= j < |requested| ==> requested[j] == j + 1
      invariant forall j :: 1 <= j <= |requested| ==> Continues(PageAt(server, j))
      invariant events == EventsOf(server, |requested|)
      decreases |server| + 1 - page
    {
      var ev := PageAt(server, page);
      requested := requested + [page];
      if ev.usageEvents == [] {
        assert EventsOf(server, page) == events + [];
        break;
      }
      events := events + ev.usageEvents;
      if !ev.hasNextPage {
        break;
      }
      page := page + 1;
    }
  }

  /** The loop stops within one page past the last page the service holds. */
  lemma FetchStopsByEnd(server: seq<Page>, n: nat)
    requires n >= 1
    requires forall j :: 1 <= j < n ==> Continues(PageAt(server, j))
    ensures n <= |server| + 1
  {
    assert !Continues(PageAt(server, |server| + 1));
  }
}
