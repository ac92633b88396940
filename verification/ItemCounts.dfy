/** The per-client item counter: one count of ordinary items and four history buckets that
    rotate every quarter of the history lifetime (datastore/item_count.go, and its SQLite twin). */
module ItemCounts {
  import opened Basics

  /** A quarter of the history lifetime: three and a half days. */
  const PERIOD_SECS := 302400

  const COUNT_VERSION := 2

  datatype Counts = Counts(items: int, h1: int, h2: int, h3: int, h4: int, lastChange: int, version: int)

  /** What a client without a stored record starts from. */
  const NO_COUNTS := Counts(0, 0, 0, 0, 0, 0, 0)

  function HistorySum(c: Counts): int {
    c.h1 + c.h2 + c.h3 + c.h4
  }

  /** The buckets k periods later. */
  function Shifted(c: Counts, k: nat): Counts {
    if k == 0 then c
    else if k == 1 then c.(h1 := c.h2, h2 := c.h3, h3 := c.h4, h4 := 0)
    else if k == 2 then c.(h1 := c.h3, h2 := c.h4, h3 := 0, h4 := 0)
    else if k == 3 then c.(h1 := c.h4, h2 := 0, h3 := 0, h4 := 0)
    else c.(h1 := 0, h2 := 0, h3 := 0, h4 := 0)
  }

  /** Whole periods elapsed since the last change; none when that lies in the future. */
  function PeriodsElapsed(c: Counts, now: int): nat {
    if now >= c.lastChange then (now - c.lastChange) / PERIOD_SECS else 0
  }

  function Rotated(c: Counts, now: int): Counts {
    var k := PeriodsElapsed(c, now);
    Shifted(c, k).(lastChange := c.lastChange + PERIOD_SECS * k)
  }

  function Added(c: Counts, normal: int, history: int): Counts {
    c.(items := c.items + normal, h4 := c.h4 + history)
  }

  /** Loading a record: one from before the current format is recounted if it counts
      anything and stamped, a current one is rotated. */
  function Refreshed(c: Counts, now: int, historyRows: int, normalRows: int): Counts {
    if c.version < COUNT_VERSION then
      (if c.items > 0 then c.(items := normalRows, h1 := 0, h2 := 0, h3 := 0, h4 := historyRows) else c)
        .(lastChange := now, version := COUNT_VERSION)
    else Rotated(c, now)
  }

  /** The record as the source mutates it. */
  class ClientItemCounts {
    const clientId: ClientId
    var itemCount: int
    var historyItemCountPeriod1: int
    var historyItemCountPeriod2: int
    var historyItemCountPeriod3: int
    var historyItemCountPeriod4: int
    var lastPeriodChangeTime: int
    var version: int

    ghost function View(): Counts
      reads this
    {
      Counts(itemCount, historyItemCountPeriod1, historyItemCountPeriod2, historyItemCountPeriod3,
             historyItemCountPeriod4, lastPeriodChangeTime, version)
    }

    constructor (clientId: ClientId, c: Counts)
      ensures View() == c && this.clientId == clientId
    {
      this.clientId := clientId;
      itemCount := c.items;
      historyItemCountPeriod1, historyItemCountPeriod2 := c.h1, c.h2;
      historyItemCountPeriod3, historyItemCountPeriod4 := c.h3, c.h4;
      lastPeriodChangeTime, version := c.lastChange, c.version;
    }

    function SumHistoryCounts(): (n: int)
      reads this
      ensures n == HistorySum(View())
    {
      historyItemCountPeriod1 + historyItemCountPeriod2 + historyItemCountPeriod3
      + historyItemCountPeriod4
    }

    method RotatePeriods(now: int)
      modifies this
      ensures View() == Rotated(old(View()), now)
    {
      var timeSinceLastChange := now - lastPeriodChangeTime;
      if timeSinceLastChange >= PERIOD_SECS {
        var changeCount := timeSinceLastChange / PERIOD_SECS;
        for i := 0 to changeCount
          invariant View() == Shifted(old(View()), i)
        {
          historyItemCountPeriod1 := historyItemCountPeriod2;
          historyItemCountPeriod2 := historyItemCountPeriod3;
          historyItemCountPeriod3 := historyItemCountPeriod4;
          historyItemCountPeriod4 := 0;
        }
        lastPeriodChangeTime := lastPeriodChangeTime + PERIOD_SECS * changeCount;
      }
    }

    method AddNew(normal: int, history: int)
      modifies this
      ensures View() == Added(old(View()), normal, history)
    {
      historyItemCountPeriod4 := historyItemCountPeriod4 + history;
      itemCount := itemCount + normal;
    }
  }

  // ---- rotation ----

  /** After a rotation the last change is less than one period back, and it has moved by
      whole periods. */
  lemma RotationCatchesUp(c: Counts, now: int)
    requires c.lastChange <= now
    ensures 0 <= now - Rotated(c, now).lastChange < PERIOD_SECS
    ensures (Rotated(c, now).lastChange - c.lastChange) % PERIOD_SECS == 0
  {
  }

  lemma QuotientMonotone(a: int, b: int)
    requires a <= b
    ensures a / PERIOD_SECS <= b / PERIOD_SECS
    ensures b - a < 3 * PERIOD_SECS ==> b / PERIOD_SECS - a / PERIOD_SECS <= 3
    ensures b - a >= 4 * PERIOD_SECS ==> b / PERIOD_SECS - a / PERIOD_SECS >= 4
  {
  }

  lemma PeriodsAdd(d1: nat, d2: nat)
    requires d1 <= d2
    ensures (d2 - PERIOD_SECS * (d1 / PERIOD_SECS)) / PERIOD_SECS + d1 / PERIOD_SECS == d2 / PERIOD_SECS
  {
  }

  /** Rotating on the way does not change what a later rotation yields. */
  lemma RotationComposes(c: Counts, t1: int, t2: int)
    requires t1 <= t2
    ensures Rotated(Rotated(c, t1), t2) == Rotated(c, t2)
  {
  }

  /** k periods after its last change a record is shifted by k. */
  lemma RotatedAt(c: Counts, k: nat)
    ensures PeriodsElapsed(c, c.lastChange + PERIOD_SECS * k) == k
    ensures Rotated(c, c.lastChange + PERIOD_SECS * k) == Shifted(c, k).(lastChange := c.lastChange + PERIOD_SECS * k)
  {
    assert PeriodsElapsed(c, c.lastChange + PERIOD_SECS * k) == k;
  }

  lemma ShiftedSum(c: Counts, k: nat)
    ensures HistorySum(Shifted(c, k))
            == (if k == 0 then HistorySum(c) else if k == 1 then c.h2 + c.h3 + c.h4
                else if k == 2 then c.h3 + c.h4 else if k == 3 then c.h4 else 0)
    ensures Shifted(c, k).items == c.items && Shifted(c, k).version == c.version
  {
  }

  lemma RotatedSum(c: Counts, t: int)
    ensures HistorySum(Rotated(c, t)) == HistorySum(Shifted(c, PeriodsElapsed(c, t)))
    ensures Rotated(c, t).items == c.items && Rotated(c, t).version == c.version
  {
    ShiftedSum(c, PeriodsElapsed(c, t));
  }

  lemma NothingRotates(t: int)
    ensures HistorySum(Rotated(NO_COUNTS, t)) == 0
  {
    RotatedSum(NO_COUNTS, t);
    ShiftedSum(NO_COUNTS, PeriodsElapsed(NO_COUNTS, t));
  }

  /** The highest the history count gets as the buckets rotate out: the largest sum of the newest
      buckets, none included. */
  function Peak(c: Counts): int {
    Max(0, Max(c.h4, Max(c.h3 + c.h4, Max(c.h2 + c.h3 + c.h4, HistorySum(c)))))
  }

  lemma PeakReached(c: Counts) returns (t: int)
    ensures t >= c.lastChange && HistorySum(Rotated(c, t)) == Peak(c)
  {
    var k := if Peak(c) == HistorySum(c) then 0 else if Peak(c) == c.h2 + c.h3 + c.h4 then 1
             else if Peak(c) == c.h3 + c.h4 then 2 else if Peak(c) == c.h4 then 3 else 4;
    t := c.lastChange + PERIOD_SECS * k;
    RotatedAt(c, k);
    ShiftedSum(c, k);
  }

  /** However long a record is left, its history count stays within a bound if and only if every sum
      of its newest buckets is. */
  lemma PeakIsHighest(c: Counts, q: int)
    ensures (forall t :: t >= c.lastChange ==> HistorySum(Rotated(c, t)) <= q) <==> Peak(c) <= q
    ensures (forall t :: HistorySum(Rotated(c, t)) <= q) <==> Peak(c) <= q
  {
    var top := PeakReached(c);
    assert HistorySum(Rotated(c, top)) == Peak(c);
    forall t ensures HistorySum(Rotated(c, t)) <= Peak(c) {
      RotatedSum(c, t);
      ShiftedSum(c, PeriodsElapsed(c, t));
    }
  }

  // ---- the buckets as a sliding window ----

  /** One commit: when it loaded the counts, and the drained differences it added. */
  datatype CountEvent = CountEvent(time: int, normal: int, history: int)

  function CountsAfter(c0: Counts, events: seq<CountEvent>): Counts {
    if events == [] then c0
    else
      var e := events[|events| - 1];
      Added(Rotated(CountsAfter(c0, events[..|events| - 1]), e.time), e.normal, e.history)
  }

  /** Index of the period a time falls in, counted from the start. */
  function PeriodOf(start: int, t: int): int {
    (t - start) / PERIOD_SECS
  }

  function NetHistory(start: int, events: seq<CountEvent>, period: int): int {
    if events == [] then 0
    else
      var e := events[|events| - 1];
      NetHistory(start, events[..|events| - 1], period) + (if PeriodOf(start, e.time) == period then e.history else 0)
  }

  predicate InTimeOrder(start: int, events: seq<CountEvent>, now: int) {
    && (forall i :: 0 <= i < |events| ==> start <= events[i].time <= now)
    && (forall i, j :: 0 <= i < j < |events| ==> events[i].time <= events[j].time)
    && start <= now
  }

  predicate NoHistory(c: Counts) {
    c.h1 == 0 && c.h2 == 0 && c.h3 == 0 && c.h4 == 0
  }

  /** Bucket by bucket: at any later moment bucket 4 holds the net history events of the
      current period, bucket 3 those of the one before, and so on. */
  predicate BucketsAre(c: Counts, start: int, events: seq<CountEvent>, now: int) {
    var p := PeriodOf(start, now);
    && c.lastChange == start + PERIOD_SECS * p
    && c.h4 == NetHistory(start, events, p)
    && c.h3 == NetHistory(start, events, p - 1)
    && c.h2 == NetHistory(start, events, p - 2)
    && c.h1 == NetHistory(start, events, p - 3)
  }

  lemma {:induction false} NoEventsAfter(start: int, events: seq<CountEvent>, t: int, period: int)
    requires InTimeOrder(start, events, t) && (period > PeriodOf(start, t) || period < 0)
    ensures NetHistory(start, events, period) == 0
  {
    if events != [] {
      NoEventsAfter(start, events[..|events| - 1], t, period);
      QuotientMonotone(0, events[|events| - 1].time - start);
      QuotientMonotone(events[|events| - 1].time - start, t - start);
    }
  }

  /** Passing time only moves the window. */
  lemma WindowMoves(c: Counts, start: int, events: seq<CountEvent>, t: int, now: int)
    requires InTimeOrder(start, events, t) && t <= now && BucketsAre(c, start, events, t)
    ensures BucketsAre(Rotated(c, now), start, events, now)
  {
    var p, q := PeriodOf(start, t), PeriodOf(start, now);
    PeriodsAdd(t - start, now - start);
    assert PeriodsElapsed(c, now) == q - p;
    forall r | r > p ensures NetHistory(start, events, r) == 0 {
      NoEventsAfter(start, events, t, r);
    }
  }

  lemma {:induction false} BucketsMeaning(c0: Counts, events: seq<CountEvent>, now: int)
    requires NoHistory(c0) && InTimeOrder(c0.lastChange, events, now)
    ensures BucketsAre(Rotated(CountsAfter(c0, events), now), c0.lastChange, events, now)
  {
    var start := c0.lastChange;
    if events == [] {
      assert BucketsAre(c0, start, events, start);
      WindowMoves(c0, start, events, start, now);
    } else {
      var n := |events| - 1;
      var e := events[n];
      BucketsMeaning(c0, events[..n], e.time);
      var c := Rotated(CountsAfter(c0, events[..n]), e.time);
      assert BucketsAre(Added(c, e.normal, e.history), start, events, e.time);
      WindowMoves(Added(c, e.normal, e.history), start, events, e.time, now);
    }
  }

  /** Whether an event of the given time is still inside the four periods at `now`. */
  predicate InWindow(start: int, t: int, now: int) {
    PeriodOf(start, now) - PeriodOf(start, t) <= 3
  }

  function NetInWindow(start: int, events: seq<CountEvent>, now: int): int {
    if events == [] then 0
    else
      var e := events[|events| - 1];
      NetInWindow(start, events[..|events| - 1], now) + (if InWindow(start, e.time, now) then e.history else 0)
  }

  lemma {:induction false} WindowIsFourPeriods(start: int, events: seq<CountEvent>, now: int)
    requires InTimeOrder(start, events, now)
    ensures var p := PeriodOf(start, now);
            NetInWindow(start, events, now)
            == NetHistory(start, events, p) + NetHistory(start, events, p - 1)
               + NetHistory(start, events, p - 2) + NetHistory(start, events, p - 3)
  {
    if events != [] {
      WindowIsFourPeriods(start, events[..|events| - 1], now);
      QuotientMonotone(events[|events| - 1].time - start, now - start);
    }
  }

  /** An event leaves the window at the end of the third period of three and a half days after its own:
      inside is every age below ten and a half days, outside it every age of at least the history
      lifetime of 14 days. */
  lemma WindowAges(start: int, t: int, now: int)
    requires start <= t <= now
    ensures InWindow(start, t, now) <==> now < start + 302400 * ((t - start) / 302400 + 4)
    ensures now - t < 907200 ==> InWindow(start, t, now)
    ensures now - t >= 1209600 ==> !InWindow(start, t, now)
  {
  }

  /** Over every run of commits the history count at `now` is the net of the events inside
      the window. */
  lemma SlidingWindow(c0: Counts, events: seq<CountEvent>, now: int)
    requires NoHistory(c0) && InTimeOrder(c0.lastChange, events, now)
    ensures HistorySum(Rotated(CountsAfter(c0, events), now)) == NetInWindow(c0.lastChange, events, now)
  {
    BucketsMeaning(c0, events, now);
    WindowIsFourPeriods(c0.lastChange, events, now);
  }
}
