/** The time-indexed buffers of the simulator (`rust_robotics_sim::data`): a timeline of
    sample times, named columns of samples, a table of parallel columns capped at `LIMIT`
    rows, and a single time series. Times are f32 in the program and reals here. */
module Data {
  import opened Base

  /** Most rows a `TimeTable` keeps: `add` drops the oldest row beyond it. */
  const LIMIT: nat := 5000

  /** The panic message of a slice whose end lies past the data. */
  const SLICE_OUT_OF_RANGE: string := "range end index out of range for slice"

  /** The panic message of a slice whose start lies past its end. */
  const SLICE_INDEX_ORDER: string := "slice index starts after it ends"

  /** The panic message of `TimeSeries::new` on unequal lengths. */
  const SIZE_MISMATCH: string := "Size of time and data are different!"

  // ---------------------------------------------------------------------------------------
  // Searching a timeline

  /** `Iterator::position`: the index of the first element satisfying `p`, if any. */
  function Position(s: seq<real>, p: real -> bool): (r: Option<nat>)
    ensures r.Some? ==> r.value < |s| && p(s[r.value])
    ensures r.Some? ==> forall j :: 0 <= j < r.value ==> !p(s[j])
    ensures r.None? ==> forall j :: 0 <= j < |s| ==> !p(s[j])
  {
    if |s| == 0 then None
    else if p(s[0]) then Some(0)
    else
      match Position(s[1..], p)
      case None => None
      case Some(i) => Some(i + 1)
  }

  /** The test of `get_index`: a time at or after `t`. */
  function AtOrAfter(t: real): real -> bool
  {
    x => x >= t
  }

  /** The test of `get_index_under`: a time strictly after `t`. */
  function After(t: real): real -> bool
  {
    x => x > t
  }

  /** `get_index`: the first index whose time is at or after `t`. */
  function IndexAtOrAfter(s: seq<real>, t: real): Option<nat>
  {
    Position(s, AtOrAfter(t))
  }

  /** `get_index_under`: one before the first index whose time is after `t`; a subtraction
      from index 0 panics, and no later time at all gives `None`. */
  function IndexUnder(s: seq<real>, t: real): Outcome<Option<nat>>
  {
    match Position(s, After(t))
    case None => Ok(None)
    case Some(i) => if i == 0 then Panic(SUBTRACT_OVERFLOW) else Ok(Some(i - 1))
  }

  /** `get_range`: `None` unless `start < end`; otherwise the inclusive index range from
      `get_index(start)` to `get_index_under(end)`, the second searched only when the first
      is found. */
  function RangeOf(s: seq<real>, start: real, end: real): Outcome<Option<(nat, nat)>>
  {
    if start < end then
      match IndexAtOrAfter(s, start)
      case None => Ok(None)
      case Some(a) =>
        match IndexUnder(s, end)
        case Panic(m) => Panic(m)
        case Ok(None) => Ok(None)
        case Ok(Some(b)) => Ok(Some((a, b)))
    else
      Ok(None)
  }

  /** `get_index` finds the first time at or after `t`, or reports that every time is
      earlier. */
  lemma IndexAtOrAfterIsFirst(s: seq<real>, t: real)
    ensures var r := IndexAtOrAfter(s, t);
      (r.Some? ==> r.value < |s| && s[r.value] >= t && forall j :: 0 <= j < r.value ==> s[j] < t) &&
      (r.None? <==> forall j :: 0 <= j < |s| ==> s[j] < t)
  {
    var r := IndexAtOrAfter(s, t);
    if r.Some? {
      assert AtOrAfter(t)(s[r.value]);
      forall j | 0 <= j < r.value
        ensures s[j] < t
      {
        assert !AtOrAfter(t)(s[j]);
      }
    } else {
      forall j | 0 <= j < |s|
        ensures s[j] < t
      {
        assert !AtOrAfter(t)(s[j]);
      }
    }
  }

  /** `get_index_under` panics exactly when the very first time is already after `t`, gives
      `None` exactly when no time is after `t`, and otherwise gives the index `k` of the last
      time of the leading run of times at or before `t`: every time up to `k` is at most `t`
      and the next one is after it. */
  lemma IndexUnderIsLastBefore(s: seq<real>, t: real)
    ensures IndexUnder(s, t).Panic? <==> |s| > 0 && s[0] > t
    ensures IndexUnder(s, t) == Ok(None) <==> forall j :: 0 <= j < |s| ==> s[j] <= t
    ensures IndexUnder(s, t).Ok? && IndexUnder(s, t).value.Some? ==>
      var k := IndexUnder(s, t).value.value;
      k + 1 < |s| && s[k + 1] > t && forall j :: 0 <= j <= k ==> s[j] <= t
  {
    var p := Position(s, After(t));
    forall j | 0 <= j < |s| && (p.None? || j < p.value)
      ensures s[j] <= t
    {
      assert !After(t)(s[j]);
    }
    if p.Some? {
      assert After(t)(s[p.value]);
    } else if |s| > 0 {
      assert !After(t)(s[0]);
    }
  }

  /** The inclusive index range is never reversed by more than one (an empty range) and
      never reaches past the timeline, so slicing the timeline with it cannot fail. */
  lemma RangeInBounds(s: seq<real>, start: real, end: real)
    requires RangeOf(s, start, end).Ok? && RangeOf(s, start, end).value.Some?
    ensures var (a, b) := RangeOf(s, start, end).value.value; a <= b + 1 && b < |s|
  {
    var a := IndexAtOrAfter(s, start).value;
    var b := IndexUnder(s, end).value.value;
    IndexAtOrAfterIsFirst(s, start);
    IndexUnderIsLastBefore(s, end);
  }

  /** Times sorted in non-decreasing order. */
  predicate Sorted(s: seq<real>)
  {
    forall i, j :: 0 <= i <= j < |s| ==> s[i] <= s[j]
  }

  /** On a sorted timeline the range holds exactly the times between `start` and `end`
      (inclusive) among the indices up to the last time not after `end`. */
  lemma RangeIsWithin(s: seq<real>, start: real, end: real)
    requires Sorted(s)
    requires RangeOf(s, start, end).Ok? && RangeOf(s, start, end).value.Some?
    ensures var (a, b) := RangeOf(s, start, end).value.value;
      (forall j :: a <= j <= b ==> start <= s[j] <= end) &&
      (forall j :: 0 <= j < |s| && start <= s[j] <= end ==> a <= j <= b)
  {
    var a := IndexAtOrAfter(s, start).value;
    var b := IndexUnder(s, end).value.value;
    IndexAtOrAfterIsFirst(s, start);
    IndexUnderIsLastBefore(s, end);
    RangeInBounds(s, start, end);
    forall j | a <= j <= b
      ensures start <= s[j] <= end
    {
      assert s[a] <= s[j];
    }
    forall j | 0 <= j < |s| && start <= s[j] <= end
      ensures a <= j <= b
    {
      assert s[b + 1] > end;
    }
  }

  /** A range whose end is at or beyond the last time is `None`, even when times lie in
      it: the end index is found from the first time after `end`, and there is none. */
  lemma RangeNeedsLaterTime(s: seq<real>, start: real, end: real)
    requires forall j :: 0 <= j < |s| ==> s[j] <= end
    ensures RangeOf(s, start, end) == Ok(None)
  {
    IndexUnderIsLastBefore(s, end);
  }

  /** A range whose end lies before the first time, with `start < end` and some time at or
      after `start`, panics on the `usize` subtraction in `get_index_under`. */
  lemma RangeBeforeFirstTimePanics(s: seq<real>, start: real, end: real)
    requires start < end && |s| > 0 && end < s[0]
    ensures RangeOf(s, start, end) == Panic(SUBTRACT_OVERFLOW)
  {
    IndexAtOrAfterIsFirst(s, start);
    IndexUnderIsLastBefore(s, end);
    assert IndexUnder(s, end) == Panic(SUBTRACT_OVERFLOW);
  }

  // ---------------------------------------------------------------------------------------
  // Timeline

  /** `Timeline`: the sample times of a table or series, in the order they were added. The
      lookup cache of the program is never filled, so every lookup scans and the cache is
      not part of the model. */
  class Timeline {
    var vec: seq<real>

    /** `Timeline::new` (and `Timeline::default` with no times). */
    constructor (times: seq<real>)
      ensures vec == times
    {
      vec := times;
    }

    /** `len`: the number of times. */
    function Len(): (n: nat)
      reads this
      ensures n == |vec|
    {
      |vec|
    }

    /** `last`: the latest time, `0.0` when there is none. */
    function Last(): (t: real)
      reads this
      ensures |vec| == 0 ==> t == 0.0
      ensures |vec| > 0 ==> t == vec[|vec| - 1]
      ensures Sorted(vec) ==> forall k :: 0 <= k < |vec| ==> vec[k] <= t
    {
      if |vec| == 0 then 0.0 else vec[|vec| - 1]
    }

    /** `add`: appends a time, which becomes the latest. */
    method Add(time: real)
      modifies this
      ensures vec == old(vec) + [time]
      ensures Last() == time && Len() == old(Len()) + 1
    {
      vec := vec + [time];
    }

    /** `pop_first`: removes the earliest time (`Vec::remove(0)` panics on an empty
        timeline); the others keep their order. */
    method PopFirst()
      requires |vec| > 0
      modifies this
      ensures vec == old(vec)[1..]
      ensures Len() == old(Len()) - 1
    {
      vec := vec[1..];
    }

    /** `iter().position(p)`: scans the times from the first. */
    method PositionOf(p: real -> bool) returns (r: Option<nat>)
      ensures r == Position(vec, p)
    {
      var i := 0;
      while i < |vec| && !p(vec[i])
        invariant 0 <= i <= |vec|
        invariant forall j :: 0 <= j < i ==> !p(vec[j])
      {
        i := i + 1;
      }
      r := if i < |vec| then Some(i) else None;
    }

    /** `get_index`: the first index whose time is at or after `time`. */
    method GetIndex(time: real) returns (r: Option<nat>)
      ensures r == IndexAtOrAfter(vec, time)
      ensures r.Some? ==> r.value < |vec| && vec[r.value] >= time
    {
      r := PositionOf(AtOrAfter(time));
      IndexAtOrAfterIsFirst(vec, time);
    }

    /** `get_index_under`: one before the first index whose time is after `time`, panicking
        when that is index 0. */
    method GetIndexUnder(time: real) returns (r: Outcome<Option<nat>>)
      ensures r == IndexUnder(vec, time)
      ensures r.Ok? && r.value.Some? ==> r.value.value < |vec| && vec[r.value.value] <= time
    {
      var idx := PositionOf(After(time));
      match idx {
        case None => r := Ok(None);
        case Some(i) =>
          if i == 0 {
            r := Panic(SUBTRACT_OVERFLOW);
          } else {
            r := Ok(Some(i - 1));
          }
      }
      IndexUnderIsLastBefore(vec, time);
    }

    /** `get_range`: the inclusive index range for `start < end`. */
    method GetRange(start: real, end: real) returns (r: Outcome<Option<(nat, nat)>>)
      ensures r == RangeOf(vec, start, end)
      ensures r.Ok? && r.value.Some? ==> r.value.value.0 <= r.value.value.1 + 1 && r.value.value.1 < |vec|
    {
      r := Ok(None);
      if start < end {
        var a := GetIndex(start);
        if a.Some? {
          var b := GetIndexUnder(end);
          match b {
            case Panic(m) => r := Panic(m);
            case Ok(None) => r := Ok(None);
            case Ok(Some(bi)) => r := Ok(Some((a.value, bi)));
          }
        }
      }
      if r.Ok? && r.value.Some? {
        RangeInBounds(vec, start, end);
      }
    }

    /** `get_range_raw`: the times inside that range. */
    method GetRangeRaw(start: real, end: real) returns (r: Outcome<Option<seq<real>>>)
      ensures RangeOf(vec, start, end).Panic? <==> r.Panic?
      ensures RangeOf(vec, start, end) == Ok(None) <==> r == Ok(None)
      ensures r.Ok? && r.value.Some? ==>
        var (a, b) := RangeOf(vec, start, end).value.value;
        r.value.value == vec[a..b + 1]
    {
      var range := GetRange(start, end);
      match range {
        case Panic(m) => r := Panic(m);
        case Ok(None) => r := Ok(None);
        case Ok(Some((a, b))) => r := Ok(Some(vec[a..b + 1]));
      }
    }
  }

  // ---------------------------------------------------------------------------------------
  // Columns

  /** `ColumnData`: one column of samples and its optional name. */
  datatype Column<T> = Column(data: seq<T>, name: Option<string>)
  {
    /** `get`: the sample at `index`, if there is one. */
    function Get(index: nat): (r: Option<T>)
      ensures r.Some? <==> index < |data|
      ensures r.Some? ==> r.value == data[index]
    {
      if index < |data| then Some(data[index]) else None
    }

    /** `get_between(a..=b)`: the samples from `a` to `b` inclusive. The slice panics when
        it starts after it ends (checked first) or ends past the data. */
    function GetBetween(a: nat, b: nat): (r: Outcome<seq<T>>)
      ensures r.Ok? <==> a <= b + 1 && b < |data|
      ensures a > b + 1 ==> r == Panic(SLICE_INDEX_ORDER)
      ensures a <= b + 1 && b >= |data| ==> r == Panic(SLICE_OUT_OF_RANGE)
      ensures r.Ok? ==> |r.value| == b + 1 - a && forall k :: 0 <= k < |r.value| ==> r.value[k] == data[a + k]
    {
      if a > b + 1 then Panic(SLICE_INDEX_ORDER)
      else if b < |data| then Ok(data[a..b + 1])
      else Panic(SLICE_OUT_OF_RANGE)
    }

    /** `add`: appends a sample. */
    function Add(element: T): (c: Column<T>)
      ensures |c.data| == |data| + 1 && c.data[..|data|] == data && c.data[|data|] == element
      ensures c.name == name
    {
      this.(data := data + [element])
    }

    /** `pop_first`: drops the oldest sample (`Vec::remove(0)` panics on an empty column). */
    function PopFirst(): (c: Column<T>)
      requires |data| > 0
      ensures |c.data| == |data| - 1 && forall k :: 0 <= k < |c.data| ==> c.data[k] == data[k + 1]
      ensures c.name == name
    {
      this.(data := data[1..])
    }

    /** `reset`: drops every sample and keeps the name. */
    function Reset(): (c: Column<T>)
      ensures c.data == [] && c.name == name
    {
      this.(data := [])
    }

    /** The name shown for the column: the empty string when it has none. */
    function DisplayName(): string
    {
      match name
      case Some(n) => n
      case None => ""
    }
  }

  /** `ColumnData::from_vec`: an unnamed column holding `data`, whose length is `len`. */
  function FromVec<T>(data: seq<T>): (c: Column<T>)
    ensures c.data == data && c.name.None?
    ensures c.DisplayName() == ""
  {
    Column(data, None)
  }

  /** `ColumnData::with_name`: an empty named column. */
  function WithName<T>(name: string): (c: Column<T>)
    ensures c.data == [] && c.name == Some(name)
  {
    Column([], Some(name))
  }

  /** The columns after `TimeTable::add` pushed `sample`: column i receives `sample[i]`, and
      the columns beyond the end of the sample are left as they were (the zip stops at the
      shorter side; surplus sample entries are dropped). */
  function Appended<T>(cols: seq<Column<T>>, sample: seq<T>): (r: seq<Column<T>>)
    ensures |r| == |cols|
    ensures forall i :: 0 <= i < |cols| ==> r[i].name == cols[i].name
    ensures forall i :: 0 <= i < |cols| && i < |sample| ==> r[i].data == cols[i].data + [sample[i]]
    ensures forall i :: 0 <= i < |cols| && |sample| <= i ==> r[i] == cols[i]
  {
    seq(|cols|, i requires 0 <= i < |cols| => if i < |sample| then cols[i].Add(sample[i]) else cols[i])
  }

  /** The columns after every one dropped its oldest sample. */
  function PoppedAll<T>(cols: seq<Column<T>>): (r: seq<Column<T>>)
    requires forall i :: 0 <= i < |cols| ==> |cols[i].data| > 0
    ensures |r| == |cols|
    ensures forall i :: 0 <= i < |cols| ==> r[i] == cols[i].PopFirst()
  {
    seq(|cols|, i requires 0 <= i < |cols| => cols[i].PopFirst())
  }

  /** The columns after every one was reset. */
  function ResetAll<T>(cols: seq<Column<T>>): (r: seq<Column<T>>)
    ensures |r| == |cols|
    ensures forall i :: 0 <= i < |cols| ==> r[i].data == [] && r[i].name == cols[i].name
  {
    seq(|cols|, i requires 0 <= i < |cols| => cols[i].Reset())
  }

  /** The display names of the columns, in order. */
  function Names<T>(cols: seq<Column<T>>): (r: seq<string>)
    ensures |r| == |cols|
    ensures forall i :: 0 <= i < |cols| ==> r[i] == cols[i].DisplayName()
  {
    seq(|cols|, i requires 0 <= i < |cols| => cols[i].DisplayName())
  }

  // ---------------------------------------------------------------------------------------
  // Time table

  /** `TimeTable`: a timeline and parallel columns, one sample per column per row. */
  class TimeTable<T> {
    var time: Timeline
    var data: seq<Column<T>>

    /** `init_with_names`: no rows, one empty column per name. */
    constructor InitWithNames(names: seq<string>)
      ensures fresh(time) && time.vec == []
      ensures |data| == |names|
      ensures forall i :: 0 <= i < |names| ==> data[i] == WithName(names[i])
    {
      time := new Timeline([]);
      data := seq(|names|, i requires 0 <= i < |names| => WithName(names[i]));
    }

    /** `from_timeseries` (also the `Into` conversion): the series' timeline and its one
        column. */
    constructor FromTimeSeries(series: TimeSeries<T>)
      ensures time == series.time && data == [series.data]
    {
      time := series.time;
      data := [series.data];
    }

    /** `nrow`: the number of rows, that is of times. */
    function Nrow(): (n: nat)
      reads this, time
      ensures n == time.Len()
      ensures n == 0 ==> TimeLast() == 0.0
    {
      |time.vec|
    }

    /** `ncols`: the number of columns. */
    function Ncols(): (n: nat)
      reads this
      ensures n == |Names(data)|
    {
      |data|
    }

    /** `time_last`: the latest time, `0.0` for an empty table. */
    function TimeLast(): (t: real)
      reads this, time
      ensures |time.vec| == 0 ==> t == 0.0
      ensures |time.vec| > 0 ==> t == time.vec[|time.vec| - 1]
      ensures Sorted(time.vec) ==> forall k :: 0 <= k < |time.vec| ==> time.vec[k] <= t
    {
      time.Last()
    }

    /** `get_column`: the column at `column`, if there is one. */
    function GetColumn(column: nat): (r: Option<Column<T>>)
      reads this
      ensures r.Some? <==> column < |data|
      ensures r.Some? ==> r.value == data[column]
    {
      if column < |data| then Some(data[column]) else None
    }

    /** `pop_first`: removes the oldest time and the oldest sample of every column (a
        column or timeline already empty would make `Vec::remove(0)` panic). */
    method PopFirst()
      requires |time.vec| > 0
      requires forall i :: 0 <= i < |data| ==> |data[i].data| > 0
      modifies this, time
      ensures time == old(time)
      ensures time.vec == old(time.vec)[1..]
      ensures data == PoppedAll(old(data))
    {
      time.PopFirst();
      var i := 0;
      while i < |data|
        invariant 0 <= i <= |data| == |old(data)|
        invariant time == old(time) && time.vec == old(time.vec)[1..]
        invariant forall k :: 0 <= k < i ==> data[k] == old(data)[k].PopFirst()
        invariant forall k :: i <= k < |data| ==> data[k] == old(data)[k]
      {
        data := data[i := data[i].PopFirst()];
        i := i + 1;
      }
    }

    /** `clear`: a fresh empty timeline and every column emptied, names kept. */
    method Clear()
      modifies this
      ensures fresh(time) && time.vec == []
      ensures data == ResetAll(old(data))
      ensures Names(data) == Names(old(data))
    {
      time := new Timeline([]);
      var i := 0;
      while i < |data|
        invariant 0 <= i <= |data| == |old(data)|
        invariant fresh(time) && time.vec == []
        invariant forall k :: 0 <= k < i ==> data[k] == old(data)[k].Reset()
        invariant forall k :: i <= k < |data| ==> data[k] == old(data)[k]
      {
        data := data[i := data[i].Reset()];
        i := i + 1;
      }
    }

    /** `add`: appends the time and one sample per column (as far as both the columns and
        the sample reach); past `LIMIT` rows the oldest row is dropped, which panics if some
        column is then empty. */
    method Add(t: real, sample: seq<T>)
      requires |time.vec| + 1 > LIMIT ==> forall i :: 0 <= i < |data| ==> |data[i].data| > 0 || i < |sample|
      modifies this, time
      ensures time == old(time)
      ensures var rows := old(time.vec) + [t];
        time.vec == if |rows| > LIMIT then rows[1..] else rows
      ensures data == if |old(time.vec)| + 1 > LIMIT then PoppedAll(Appended(old(data), sample))
                      else Appended(old(data), sample)
      ensures |old(time.vec)| <= LIMIT ==> |time.vec| <= LIMIT
      ensures |time.vec| > 0 && time.vec[|time.vec| - 1] == t
    {
      time.Add(t);
      var i := 0;
      while i < |data| && i < |sample|
        invariant 0 <= i <= |data| == |old(data)| && i <= |sample|
        invariant time == old(time) && time.vec == old(time.vec) + [t]
        invariant forall k :: 0 <= k < i ==> data[k] == old(data)[k].Add(sample[k])
        invariant forall k :: i <= k < |data| ==> data[k] == old(data)[k]
      {
        data := data[i := data[i].Add(sample[i])];
        i := i + 1;
      }
      assert data == Appended(old(data), sample);
      if |time.vec| > LIMIT {
        PopFirst();
      }
    }

    /** `get_at_time`: the sample of `column` at the first time at or after `t`. */
    method GetAtTime(column: nat, t: real) returns (r: Option<T>)
      ensures r.Some? <==> column < |data| && IndexAtOrAfter(time.vec, t).Some? &&
                           IndexAtOrAfter(time.vec, t).value < |data[column].data|
      ensures r.Some? ==> r.value == data[column].data[IndexAtOrAfter(time.vec, t).value]
    {
      var idx := time.GetIndex(t);
      if idx.Some? && column < |data| {
        r := data[column].Get(idx.value);
      } else {
        r := None;
      }
    }

    /** `get_time_range`: the times inside the range. */
    method GetTimeRange(start: real, end: real) returns (r: Outcome<Option<seq<real>>>)
      ensures RangeOf(time.vec, start, end).Panic? <==> r.Panic?
      ensures RangeOf(time.vec, start, end) == Ok(None) <==> r == Ok(None)
      ensures r.Ok? && r.value.Some? ==>
        var (a, b) := RangeOf(time.vec, start, end).value.value;
        r.value.value == time.vec[a..b + 1]
    {
      r := time.GetRangeRaw(start, end);
    }

    /** `get_range`: the samples of `column` inside the range; `None` for a missing column;
        slicing a column shorter than the range panics. */
    method GetRange(column: nat, start: real, end: real) returns (r: Outcome<Option<seq<T>>>)
      ensures RangeOf(time.vec, start, end).Panic? ==> r == Panic(RangeOf(time.vec, start, end).message)
      ensures RangeOf(time.vec, start, end) == Ok(None) ==> r == Ok(None)
      ensures RangeOf(time.vec, start, end).Ok? && column >= |data| ==> r == Ok(None)
      ensures RangeOf(time.vec, start, end).Ok? && RangeOf(time.vec, start, end).value.Some? && column < |data| ==>
        var (a, b) := RangeOf(time.vec, start, end).value.value;
        (b < |data[column].data| ==> r == Ok(Some(data[column].data[a..b + 1]))) &&
        (b >= |data[column].data| ==> r == Panic(SLICE_OUT_OF_RANGE))
    {
      var range := time.GetRange(start, end);
      match range {
        case Panic(m) => r := Panic(m);
        case Ok(None) => r := Ok(None);
        case Ok(Some((a, b))) =>
          if column < |data| {
            var slice := data[column].GetBetween(a, b);
            r := if slice.Ok? then Ok(Some(slice.value)) else Panic(slice.message);
          } else {
            r := Ok(None);
          }
      }
    }
  }

  /** Rows added to a table that holds at most `LIMIT` rows keep it at most `LIMIT` rows,
      and the latest `LIMIT` times survive: the trimmed timeline is a suffix of the
      untrimmed one. */
  lemma TrimKeepsLatest(rows: seq<real>, t: real)
    requires |rows| <= LIMIT
    ensures var grown := rows + [t];
      var kept := if |grown| > LIMIT then grown[1..] else grown;
      |kept| <= LIMIT && kept == grown[|grown| - |kept|..] && kept[|kept| - 1] == t
  {
  }

  // ---------------------------------------------------------------------------------------
  // Time series

  /** `TimeSeries`: a timeline and one column of the same length. */
  class TimeSeries<T> {
    var time: Timeline
    var data: Column<T>

    /** One sample per time, the invariant that `new`, `empty` and `add` keep. */
    predicate Valid()
      reads this, time
    {
      |time.vec| == |data.data|
    }

    constructor (timeline: Timeline, column: Column<T>)
      ensures time == timeline && data == column
    {
      time := timeline;
      data := column;
    }

    /** `empty`: no times, no samples, no name. */
    constructor Empty()
      ensures fresh(time) && time.vec == [] && data == Column([], None)
      ensures Valid()
    {
      time := new Timeline([]);
      data := Column([], None);
    }

    /** `with_name`: the same series, its column named. */
    method WithName(name: string)
      modifies this
      ensures time == old(time) && data == old(data).(name := Some(name))
    {
      data := data.(name := Some(name));
    }

    /** `add`: appends a time and its sample. */
    method Add(t: real, element: T)
      requires Valid()
      modifies this, time
      ensures time == old(time) && time.vec == old(time.vec) + [t] && data == old(data).Add(element)
      ensures Valid()
    {
      time.Add(t);
      data := data.Add(element);
    }

    /** `time_last`: the latest time, `0.0` when empty. */
    function TimeLast(): (t: real)
      reads this, time
      ensures |time.vec| == 0 ==> t == 0.0
      ensures |time.vec| > 0 ==> t == time.vec[|time.vec| - 1]
      ensures Sorted(time.vec) ==> forall k :: 0 <= k < |time.vec| ==> time.vec[k] <= t
    {
      time.Last()
    }

    /** `get_at_time`: the sample at the first time at or after `t`. */
    method GetAtTime(t: real) returns (r: Option<T>)
      requires Valid()
      ensures r.Some? <==> IndexAtOrAfter(time.vec, t).Some?
      ensures r.Some? ==> r.value == data.data[IndexAtOrAfter(time.vec, t).value]
    {
      var idx := time.GetIndex(t);
      r := if idx.Some? then data.Get(idx.value) else None;
    }

    /** `get_range`: the samples inside the range, which a valid series can always slice. */
    method GetRange(start: real, end: real) returns (r: Outcome<Option<seq<T>>>)
      requires Valid()
      ensures RangeOf(time.vec, start, end).Panic? <==> r.Panic?
      ensures RangeOf(time.vec, start, end) == Ok(None) <==> r == Ok(None)
      ensures r.Ok? && r.value.Some? ==>
        var (a, b) := RangeOf(time.vec, start, end).value.value;
        r.value.value == data.data[a..b + 1]
    {
      var range := time.GetRange(start, end);
      match range {
        case Panic(m) => r := Panic(m);
        case Ok(None) => r := Ok(None);
        case Ok(Some((a, b))) =>
          var slice := data.GetBetween(a, b);
          r := Ok(Some(slice.value));
      }
    }
  }

  /** `TimeSeries::new`: panics unless there is one sample per time. */
  method NewTimeSeries<T>(times: seq<real>, samples: seq<T>) returns (r: Outcome<TimeSeries<T>>)
    ensures r.Ok? <==> |times| == |samples|
    ensures r.Panic? ==> r.message == SIZE_MISMATCH
    ensures r.Ok? ==> fresh(r.value) && fresh(r.value.time)
    ensures r.Ok? ==> r.value.Valid() && r.value.time.vec == times && r.value.data == Column(samples, None)
  {
    var timeline := new Timeline(times);
    var column := Column(samples, None);
    if timeline.Len() != |column.data| {
      return Panic(SIZE_MISMATCH);
    }
    var series := new TimeSeries(timeline, column);
    r := Ok(series);
  }

  /** `TimeTable::new`: the series `TimeSeries::new` builds, as a one-column table; it
      panics the same way on unequal lengths. */
  method NewTimeTable<T>(times: seq<real>, samples: seq<T>) returns (r: Outcome<TimeTable<T>>)
    ensures r.Ok? <==> |times| == |samples|
    ensures r.Panic? ==> r.message == SIZE_MISMATCH
    ensures r.Ok? ==> fresh(r.value)
    ensures r.Ok? ==> r.value.time.vec == times && r.value.data == [FromVec(samples)]
    ensures r.Ok? ==> r.value.Nrow() == |r.value.data[0].data|
  {
    var series := NewTimeSeries(times, samples);
    if series.Panic? {
      return Panic(series.message);
    }
    var table := new TimeTable.FromTimeSeries(series.value);
    r := Ok(table);
  }

  // ---------------------------------------------------------------------------------------
  // The series of the module's tests

  /** The times `0, 1, 2, 3, 4` of the test series. */
  const TEST_TIMES: seq<real> := [0.0, 1.0, 2.0, 3.0, 4.0]

  /** The samples `3 t` of the test series. */
  const TEST_SAMPLES: seq<real> := [0.0, 3.0, 6.0, 9.0, 12.0]

  /** The lookups of the range test: `get_index` gives 1, 3, 3, 3 for 1.0, 2.1, 2.9 and 3.0. */
  lemma CheckIndices()
    ensures IndexAtOrAfter(TEST_TIMES, 1.0) == Some(1)
    ensures IndexAtOrAfter(TEST_TIMES, 2.1) == Some(3)
    ensures IndexAtOrAfter(TEST_TIMES, 2.9) == Some(3)
    ensures IndexAtOrAfter(TEST_TIMES, 3.0) == Some(3)
  {
  }

  /** The ranges of the range test: (1.0, 2.9) and (1.0, 3.0) select the samples `[3, 6]`
      and `[3, 6, 9]`. */
  lemma CheckRange()
    ensures RangeOf(TEST_TIMES, 1.0, 2.9) == Ok(Some((1, 2))) && TEST_SAMPLES[1..3] == [3.0, 6.0]
    ensures RangeOf(TEST_TIMES, 1.0, 3.0) == Ok(Some((1, 3))) && TEST_SAMPLES[1..4] == [3.0, 6.0, 9.0]
  {
    CheckIndices();
  }

  /** The index test as the code computes it: 0.02 and 0.015 both fall between the times 0
      and 1, so `get_index` gives 1 for each. */
  lemma CheckIndex()
    ensures IndexAtOrAfter(TEST_TIMES, 0.02) == Some(1)
    ensures IndexAtOrAfter(TEST_TIMES, 0.015) == Some(1)
  {
  }
}
