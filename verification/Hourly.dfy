/** The hourly sales series of a report window, with empty hours filled by zero points. */
module Hourly {

  /** Hours are seconds since the epoch, an hour is 3600 of them; amounts are exact. */
  datatype Point = Point(hour: int, revenue: real, profit: real, orders: int, discounts: real)

  function Zero(hour: int): Point {
    Point(hour, 0.0, 0.0, 0, 0.0)
  }

  /** The k-th hour counted from `start`. */
  function Tick(start: int, k: int): int {
    start + k * 3600
  }

  predicate OnGrid(hour: int, start: int) {
    (hour - start) % 3600 == 0
  }

  ghost predicate Increasing(s: seq<Point>) {
    forall i, j :: 0 <= i < j < |s| ==> s[i].hour < s[j].hour
  }

  /** What the query returns: the stored rows of the window, one per hour, in order. */
  ghost predicate StoredWindow(rows: seq<Point>, start: int, end: int) {
    Increasing(rows) && forall i :: 0 <= i < |rows| ==> start <= rows[i].hour < end
  }

  /** Rows the series keeps: those on the hourly grid of `start`, and all past a full cap of 48 hours. */
  predicate IsKept(row: Point, start: int, end: int) {
    OnGrid(row.hour, start) || (end > Tick(start, 47) && row.hour >= Tick(start, 48))
  }

  /**
   * What the series promises: increasing hours inside the window; a stored row exactly where
   * IsKept holds of it, zero points otherwise; and a point for every hour up to the cap.
   */
  ghost predicate Fills(series: seq<Point>, rows: seq<Point>, start: int, end: int) {
    && Increasing(series)
    && (forall i :: 0 <= i < |series| ==> start <= series[i].hour < end)
    && (forall i :: 0 <= i < |rows| ==> (rows[i] in series <==> IsKept(rows[i], start, end)))
    && (forall i :: 0 <= i < |series| ==> series[i] in rows || series[i] == Zero(series[i].hour))
    && (forall k :: 0 <= k < 48 && Tick(start, k) < end ==> k < |series| && series[k].hour == Tick(start, k))
  }

  /** The dictionary of the stored points. */
  function ByHour(rows: seq<Point>): (m: map<int, Point>)
    requires Increasing(rows)
    ensures forall h :: h in m ==> m[h].hour == h && m[h] in rows
    ensures forall i :: 0 <= i < |rows| ==> rows[i].hour in m && m[rows[i].hour] == rows[i]
  {
    if |rows| == 0 then map[]
    else
      var n := |rows| - 1;
      assert rows == rows[..n] + [rows[n]];
      ByHour(rows[..n])[rows[n].hour := rows[n]]
  }

  function Filled(byHour: map<int, Point>, hour: int): Point {
    if hour in byHour then byHour[hour] else Zero(hour)
  }

  /** The first `n` hours, filled. */
  ghost predicate IsGrid(grid: seq<Point>, byHour: map<int, Point>, start: int, n: nat) {
    |grid| == n && forall k :: 0 <= k < n ==> grid[k] == Filled(byHour, Tick(start, k))
  }

  /** The stored points from `hour` on. */
  function From(rows: seq<Point>, hour: int): seq<Point> {
    if |rows| == 0 then []
    else
      var earlier := From(rows[..|rows| - 1], hour);
      if rows[|rows| - 1].hour >= hour then earlier + [rows[|rows| - 1]] else earlier
  }

  /** Zero-fill the hours from `start`, at most 48 of them. */
  method FillHours(byHour: map<int, Point>, start: int, end: int) returns (series: seq<Point>, cursor: int)
    ensures |series| <= 48 && cursor == Tick(start, |series|)
    ensures |series| > 0 ==> Tick(start, |series| - 1) < end
    ensures |series| < 48 ==> cursor >= end
    ensures IsGrid(series, byHour, start, |series|)
  {
    series := [];
    cursor := start;
    var filled := 0;
    while cursor < end && filled < 48
      invariant filled == |series| <= 48 && cursor == Tick(start, filled)
      invariant filled > 0 ==> Tick(start, filled - 1) < end
      invariant IsGrid(series, byHour, start, filled)
    {
      if cursor in byHour {
        series := series + [byHour[cursor]];
      } else {
        series := series + [Zero(cursor)];
      }
      cursor := cursor + 3600;
      filled := filled + 1;
    }
  }

  /** Append the stored points from `cursor` on. */
  method AppendFrom(series: seq<Point>, rows: seq<Point>, cursor: int) returns (longer: seq<Point>)
    ensures longer == series + From(rows, cursor)
  {
    longer := series;
    for i := 0 to |rows|
      invariant longer == series + From(rows[..i], cursor)
    {
      assert rows[..i + 1][..i] == rows[..i];
      if rows[i].hour >= cursor {
        longer := longer + [rows[i]];
      }
    }
    assert rows[..|rows|] == rows;
  }

  /** Fill the window hour by hour up to the cap, then append the stored points past it. */
  method HourlySeries(rows: seq<Point>, start: int, end: int) returns (series: seq<Point>)
    requires StoredWindow(rows, start, end)
    ensures Fills(series, rows, start, end)
  {
    hide Fills, IsKept, OnGrid, From;
    var cursor;
    series, cursor := FillHours(ByHour(rows), start, end);
    if |series| >= 48 {
      CappedFills(series, rows, start, end);
      series := AppendFrom(series, rows, cursor);
    } else {
      GridFills(series, rows, start, end, |series|);
    }
  }

  lemma GridFacts(grid: seq<Point>, rows: seq<Point>, start: int, n: nat)
    requires Increasing(rows) && IsGrid(grid, ByHour(rows), start, n)
    ensures forall k :: 0 <= k < n ==> grid[k].hour == Tick(start, k) && OnGrid(grid[k].hour, start)
    ensures forall k :: 0 <= k < n ==> grid[k] in rows || grid[k] == Zero(grid[k].hour)
    ensures Increasing(grid)
  {
    forall k | 0 <= k < n ensures grid[k].hour == Tick(start, k) && OnGrid(Tick(start, k), start) {
      TickOnGrid(start, k);
    }
  }

  lemma TickOnGrid(start: int, k: int)
    ensures OnGrid(Tick(start, k), start)
  {
    assert (k * 3600) % 3600 == 0;
  }

  /** A stored row on the grid, inside the filled hours, is one of the grid's points. */
  lemma GridHas(grid: seq<Point>, rows: seq<Point>, start: int, n: nat, i: nat)
    requires Increasing(rows) && IsGrid(grid, ByHour(rows), start, n)
    requires i < |rows| && OnGrid(rows[i].hour, start) && start <= rows[i].hour < Tick(start, n)
    ensures rows[i] in grid
  {
    var k := (rows[i].hour - start) / 3600;
    assert rows[i].hour == Tick(start, k) && 0 <= k < n;
    assert grid[k] == rows[i];
  }

  lemma GridFills(grid: seq<Point>, rows: seq<Point>, start: int, end: int, n: nat)
    requires StoredWindow(rows, start, end) && IsGrid(grid, ByHour(rows), start, n)
    requires n < 48 && Tick(start, n) >= end && (n > 0 ==> Tick(start, n - 1) < end)
    ensures Fills(grid, rows, start, end)
  {
    GridFacts(grid, rows, start, n);
    forall i | 0 <= i < |rows| ensures rows[i] in grid <==> IsKept(rows[i], start, end) {
      if OnGrid(rows[i].hour, start) {
        GridHas(grid, rows, start, n, i);
      }
    }
  }

  /** A series of stored points, all from `hour` on, in order. */
  ghost predicate Later(s: seq<Point>, rows: seq<Point>, hour: int) {
    Increasing(s) && forall k :: 0 <= k < |s| ==> s[k] in rows && s[k].hour >= hour
  }

  lemma {:induction false} FromIsLater(rows: seq<Point>, hour: int)
    requires Increasing(rows)
    ensures Later(From(rows, hour), rows, hour)
  {
    if |rows| != 0 {
      var n := |rows| - 1;
      var earlier, now := From(rows[..n], hour), From(rows, hour);
      FromIsLater(rows[..n], hour);
      forall k | 0 <= k < |earlier| ensures earlier[k] in rows && earlier[k].hour < rows[n].hour {
        var i :| 0 <= i < n && rows[..n][i] == earlier[k];
        assert rows[i] == earlier[k];
      }
    }
  }

  lemma {:induction false} FromHasAll(rows: seq<Point>, hour: int, i: nat)
    requires i < |rows| && rows[i].hour >= hour
    ensures rows[i] in From(rows, hour)
  {
    if i < |rows| - 1 {
      FromHasAll(rows[..|rows| - 1], hour, i);
    }
  }

  lemma CappedHas(grid: seq<Point>, rows: seq<Point>, start: int, end: int, i: nat)
    requires StoredWindow(rows, start, end) && IsGrid(grid, ByHour(rows), start, 48) && Tick(start, 47) < end
    requires i < |rows|
    ensures rows[i] in grid + From(rows, Tick(start, 48)) <==> IsKept(rows[i], start, end)
  {
    hide ByHour, From;
    GridFacts(grid, rows, start, 48);
    FromIsLater(rows, Tick(start, 48));
    if rows[i].hour >= Tick(start, 48) {
      FromHasAll(rows, Tick(start, 48), i);
    } else if OnGrid(rows[i].hour, start) {
      GridHas(grid, rows, start, 48, i);
    }
  }

  lemma CappedFills(grid: seq<Point>, rows: seq<Point>, start: int, end: int)
    requires StoredWindow(rows, start, end) && IsGrid(grid, ByHour(rows), start, 48) && Tick(start, 47) < end
    ensures Fills(grid + From(rows, Tick(start, 48)), rows, start, end)
  {
    hide ByHour, From, IsKept, OnGrid;
    var series := grid + From(rows, Tick(start, 48));
    GridFacts(grid, rows, start, 48);
    FromIsLater(rows, Tick(start, 48));
    forall i | 0 <= i < |rows| ensures rows[i] in series <==> IsKept(rows[i], start, end) {
      CappedHas(grid, rows, start, end, i);
    }
  }

  // ---------- totals ----------

  datatype Sums = Sums(revenue: real, profit: real, orders: int, discounts: real)

  function Plus(t: Sums, p: Point): Sums {
    Sums(t.revenue + p.revenue, t.profit + p.profit, t.orders + p.orders, t.discounts + p.discounts)
  }

  function Totals(s: seq<Point>): Sums {
    if |s| == 0 then Sums(0.0, 0.0, 0, 0.0) else Plus(Totals(s[..|s| - 1]), s[|s| - 1])
  }

  lemma InFront(s: seq<Point>, x: Point)
    requires |s| > 0 && x in s && x != s[|s| - 1]
    ensures x in s[..|s| - 1]
  {
    var k :| 0 <= k < |s| && s[k] == x;
    assert s[..|s| - 1][k] == x;
  }

  ghost predicate SamePoints(rows: seq<Point>, series: seq<Point>) {
    && Increasing(rows) && Increasing(series)
    && (forall i :: 0 <= i < |rows| ==> rows[i] in series)
    && (forall i :: 0 <= i < |series| ==> series[i] in rows || series[i] == Zero(series[i].hour))
  }

  lemma DropBoth(rows: seq<Point>, series: seq<Point>)
    requires SamePoints(rows, series) && |rows| > 0 && |series| > 0 && rows[|rows| - 1] == series[|series| - 1]
    ensures SamePoints(rows[..|rows| - 1], series[..|series| - 1])
  {
    forall i | 0 <= i < |rows| - 1 ensures rows[i] in series[..|series| - 1] {
      assert rows[i].hour < rows[|rows| - 1].hour;
      InFront(series, rows[i]);
    }
    forall i | 0 <= i < |series| - 1 ensures series[i] in rows[..|rows| - 1] || series[i] == Zero(series[i].hour) {
      assert series[i].hour < series[|series| - 1].hour;
      if series[i] in rows {
        InFront(rows, series[i]);
      }
    }
  }

  lemma DropZero(rows: seq<Point>, series: seq<Point>)
    requires SamePoints(rows, series) && |series| > 0 && (|rows| == 0 || rows[|rows| - 1] != series[|series| - 1])
    ensures SamePoints(rows, series[..|series| - 1])
    ensures series[|series| - 1] == Zero(series[|series| - 1].hour)
  {
    var last := series[|series| - 1];
    forall i | 0 <= i < |rows| ensures rows[i] != last {
      var top := rows[|rows| - 1];
      assert top in series && top.hour <= last.hour;
      assert i < |rows| - 1 ==> rows[i].hour < top.hour;
    }
    forall i | 0 <= i < |rows| ensures rows[i] in series[..|series| - 1] {
      InFront(series, rows[i]);
    }
  }

  lemma IsThere(rows: seq<Point>, series: seq<Point>, i: nat)
    requires SamePoints(rows, series) && i < |rows|
    ensures rows[i] in series
  {
  }

  lemma NothingInEmpty(rows: seq<Point>, series: seq<Point>)
    requires SamePoints(rows, series) && |series| == 0
    ensures |rows| == 0
  {
    if |rows| != 0 {
      IsThere(rows, series, 0);
      assert false;
    }
  }

  /** Two increasing series with the same points, zero points aside, have the same totals. */
  lemma {:induction false} ZeroPointsDoNotCount(rows: seq<Point>, series: seq<Point>)
    requires SamePoints(rows, series)
    ensures Totals(series) == Totals(rows)
    decreases |series|
  {
    if |series| == 0 {
      NothingInEmpty(rows, series);
    } else if |rows| > 0 && rows[|rows| - 1] == series[|series| - 1] {
      DropBoth(rows, series);
      ZeroPointsDoNotCount(rows[..|rows| - 1], series[..|series| - 1]);
    } else {
      DropZero(rows, series);
      ZeroPointsDoNotCount(rows, series[..|series| - 1]);
    }
  }

  ghost predicate AllKept(rows: seq<Point>, start: int, end: int) {
    forall i :: 0 <= i < |rows| ==> IsKept(rows[i], start, end)
  }

  ghost predicate Aligned(rows: seq<Point>) {
    forall i :: 0 <= i < |rows| ==> rows[i].hour % 3600 == 0
  }

  lemma AlignedIsKept(rows: seq<Point>, start: int, end: int)
    requires start % 3600 == 0 && Aligned(rows)
    ensures AllKept(rows, start, end)
  {
    forall i | 0 <= i < |rows| ensures OnGrid(rows[i].hour, start) {
    }
  }

  /**
   * The window's totals survive whenever every stored row is kept; for an hour-aligned start
   * and hour-aligned rows that is always so, also past the cap.
   */
  lemma SeriesKeepsTotals(rows: seq<Point>, series: seq<Point>, start: int, end: int)
    requires StoredWindow(rows, start, end) && Fills(series, rows, start, end)
    requires AllKept(rows, start, end) || (start % 3600 == 0 && Aligned(rows))
    ensures Totals(series) == Totals(rows)
    ensures forall i :: 0 <= i < |rows| ==> rows[i] in series
  {
    hide IsKept, Aligned, Totals;
    if start % 3600 == 0 && Aligned(rows) {
      AlignedIsKept(rows, start, end);
    }
    ZeroPointsDoNotCount(rows, series);
  }

  lemma OffGrid(row: Point, start: int, end: int)
    requires start % 3600 != 0 && row.hour % 3600 == 0 && end <= Tick(start, 47)
    ensures !IsKept(row, start, end)
  {
  }

  /** A start off the hour, in a window short of the cap, loses every hour-aligned row. */
  lemma UnalignedStartDropsRows(rows: seq<Point>, series: seq<Point>, start: int, end: int)
    requires StoredWindow(rows, start, end) && Fills(series, rows, start, end)
    requires start % 3600 != 0 && end <= Tick(start, 47)
    requires forall i :: 0 <= i < |rows| ==> rows[i].hour % 3600 == 0
    ensures forall i :: 0 <= i < |series| ==> series[i] == Zero(series[i].hour)
    ensures Totals(series) == Sums(0.0, 0.0, 0, 0.0)
  {
    forall i | 0 <= i < |rows| ensures rows[i] !in series {
      OffGrid(rows[i], start, end);
    }
    forall i | 0 <= i < |series| ensures series[i] == Zero(series[i].hour) {
      assert series[i] in rows ==> false;
    }
    ZeroPointsDoNotCount([], series);
  }
}
