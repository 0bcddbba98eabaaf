/** The value-level helpers of rocketpy/environment/tools.py: cleaning masked weather
    columns, the range decision taken after the nearest time sample has been found, and
    the conversion from wind heading to wind direction. */
module EnvironmentTools {

  import opened Wrappers
  import opened PyObjects

  // ---------------------------------------------------------------------------
  // mask_and_clean_dataset (tools.py:145-173)

  /** One entry of a masked array: `None` is a masked (missing) value. */
  type Cell = Option<real>

  type Row = seq<Cell>

  /** `np.ma.column_stack` refuses an empty argument list and columns of unequal length
      (both are `ValueError`s). */
  datatype StackError = NothingToStack | LengthMismatch

  /** The cleaned array and whether the "values were missing" warning was issued. */
  datatype Cleaned = Cleaned(rows: seq<Row>, warned: bool)

  predicate SameLength(columns: seq<seq<Cell>>)
    requires |columns| > 0
  {
    forall j :: 0 <= j < |columns| ==> |columns[j]| == |columns[0]|
  }

  /** `np.ma.column_stack(columns)`: row `i` holds entry `i` of every column. */
  function ColumnStack(columns: seq<seq<Cell>>): (rows: seq<Row>)
    requires |columns| > 0 && SameLength(columns)
    ensures |rows| == |columns[0]|
    ensures forall i :: 0 <= i < |rows| ==> |rows[i]| == |columns|
    ensures forall i, j :: 0 <= i < |rows| && 0 <= j < |columns| ==> rows[i][j] == columns[j][i]
  {
    seq(|columns[0]|, i requires 0 <= i < |columns[0]| =>
      seq(|columns|, j requires 0 <= j < |columns| => columns[j][i]))
  }

  predicate Complete(row: Row) {
    forall j :: 0 <= j < |row| ==> row[j].Some?
  }

  /** `np.any(data_array.mask)`. */
  predicate AnyMasked(rows: seq<Row>) {
    exists i :: 0 <= i < |rows| && !Complete(rows[i])
  }

  /** `np.ma.compress_rows`: the rows without a masked entry, in order. */
  function CompressRows(rows: seq<Row>): (kept: seq<Row>)
    ensures |kept| <= |rows|
    ensures forall i :: 0 <= i < |kept| ==> Complete(kept[i])
  {
    if |rows| == 0 then []
    else if Complete(rows[0]) then [rows[0]] + CompressRows(rows[1..])
    else CompressRows(rows[1..])
  }

  /** `mask_and_clean_dataset(*columns)`. */
  function MaskAndCleanDataset(columns: seq<seq<Cell>>): Result<Cleaned, StackError> {
    if |columns| == 0 then Failure(NothingToStack)
    else if !SameLength(columns) then Failure(LengthMismatch)
    else
      var stacked := ColumnStack(columns);
      if AnyMasked(stacked) then Success(Cleaned(CompressRows(stacked), true))
      else Success(Cleaned(stacked, false))
  }

  /** `a` can be obtained from `b` by deleting entries. */
  predicate IsSubsequence<T(==)>(a: seq<T>, b: seq<T>)
    decreases |b|
  {
    if |a| == 0 then true
    else if |b| == 0 then false
    else if a[0] == b[0] then IsSubsequence(a[1..], b[1..])
    else IsSubsequence(a, b[1..])
  }

  function CountComplete(rows: seq<Row>): nat {
    if |rows| == 0 then 0 else (if Complete(rows[0]) then 1 else 0) + CountComplete(rows[1..])
  }

  /** The compressed rows are the complete rows, in their original order: a subsequence
      holding only complete rows, as many as there are. */
  lemma {:induction false} CompressRowsKeepsCompleteRows(rows: seq<Row>)
    ensures IsSubsequence(CompressRows(rows), rows)
    ensures |CompressRows(rows)| == CountComplete(rows)
    ensures forall row :: row in CompressRows(rows) <==> row in rows && Complete(row)
  {
    if |rows| > 0 {
      CompressRowsKeepsCompleteRows(rows[1..]);
      assert rows == [rows[0]] + rows[1..];
      var kept := CompressRows(rows);
      if Complete(rows[0]) {
        assert kept[1..] == CompressRows(rows[1..]);
      } else {
        SubsequenceOfTail(kept, rows);
      }
    }
  }

  lemma SubsequenceOfTail<T>(a: seq<T>, b: seq<T>)
    requires |b| > 0 && IsSubsequence(a, b[1..])
    ensures IsSubsequence(a, b)
    decreases |a| + |b|, 1
  {
    if |a| > 0 && a[0] == b[0] {
      SubsequenceShrinks(a, b[1..]);
    }
  }

  lemma SubsequenceShrinks<T>(a: seq<T>, b: seq<T>)
    requires |a| > 0 && IsSubsequence(a, b)
    ensures IsSubsequence(a[1..], b)
    decreases |a| + |b|, 0
  {
    if a[0] == b[0] {
      SubsequenceOfTail(a[1..], b);
    } else {
      SubsequenceShrinks(a, b[1..]);
      SubsequenceOfTail(a[1..], b);
    }
  }

  /** The cleaning contract: the result holds exactly the complete stacked rows in
      order; nothing is removed and no warning is issued when nothing is masked; one
      warning is issued otherwise. */
  lemma MaskAndCleanDatasetCorrect(columns: seq<seq<Cell>>)
    requires |columns| > 0 && SameLength(columns)
    ensures var r := MaskAndCleanDataset(columns);
      var stacked := ColumnStack(columns);
      r.Success? &&
      IsSubsequence(r.value.rows, stacked) &&
      |r.value.rows| == CountComplete(stacked) &&
      (forall row :: row in r.value.rows <==> row in stacked && Complete(row)) &&
      (r.value.warned <==> AnyMasked(stacked)) &&
      (!r.value.warned ==> r.value.rows == stacked)
  {
    var stacked := ColumnStack(columns);
    CompressRowsKeepsCompleteRows(stacked);
    if !AnyMasked(stacked) {
      AllCompleteCount(stacked);
      SubsequenceReflexive(stacked);
    }
  }

  lemma {:induction false} AllCompleteCount(rows: seq<Row>)
    requires !AnyMasked(rows)
    ensures CountComplete(rows) == |rows|
  {
    if |rows| > 0 {
      assert Complete(rows[0]);
      assert !AnyMasked(rows[1..]) by {
        forall i | 0 <= i < |rows[1..]| ensures Complete(rows[1..][i]) {
          assert rows[1..][i] == rows[i + 1];
        }
      }
      AllCompleteCount(rows[1..]);
    }
  }

  lemma SubsequenceReflexive<T>(a: seq<T>)
    ensures IsSubsequence(a, a)
  {
  }

  /** Two columns of five where the second holds a masked value in row 2: four rows
      remain and the warning is issued. */
  lemma MaskAndCleanDatasetExample()
    ensures var c1: seq<Cell> := [Some(1.0), Some(2.0), Some(3.0), Some(4.0), Some(5.0)];
      var c2: seq<Cell> := [Some(10.0), Some(20.0), None, Some(40.0), Some(50.0)];
      var r := MaskAndCleanDataset([c1, c2]);
      r.Success? && |r.value.rows| == 4 && r.value.warned
  {
    var c1: seq<Cell> := [Some(1.0), Some(2.0), Some(3.0), Some(4.0), Some(5.0)];
    var c2: seq<Cell> := [Some(10.0), Some(20.0), None, Some(40.0), Some(50.0)];
    var stacked := ColumnStack([c1, c2]);
    assert !Complete(stacked[2]) by { assert stacked[2][1] == None; }
    assert Complete(stacked[0]) && Complete(stacked[1]) && Complete(stacked[3]) && Complete(stacked[4]) by {
      assert stacked[0] == [Some(1.0), Some(10.0)];
      assert stacked[1] == [Some(2.0), Some(20.0)];
      assert stacked[3] == [Some(4.0), Some(40.0)];
      assert stacked[4] == [Some(5.0), Some(50.0)];
    }
    CompressRowsKeepsCompleteRows(stacked);
    assert CountComplete(stacked[5..]) == 0;
    assert CountComplete(stacked[4..]) == 1 by { assert stacked[4..][1..] == stacked[5..]; }
    assert CountComplete(stacked[3..]) == 2 by { assert stacked[3..][1..] == stacked[4..]; }
    assert CountComplete(stacked[2..]) == 2 by { assert stacked[2..][1..] == stacked[3..]; }
    assert CountComplete(stacked[1..]) == 3 by { assert stacked[1..][1..] == stacked[2..]; }
  }

  // ---------------------------------------------------------------------------
  // find_time_index, after the calendar calls (tools.py:379-398): the nearest index and
  // the numeric times are given, as `netCDF4.date2index(..., select="nearest")` and
  // `date2num` would produce them.

  /** The two `ValueError`s; each names the file time it compared against. */
  datatype TimeError = BeforeFileStart(start: real) | AfterFileEnd(end: real)

  /** The index returned, and whether the "exact time not available" warning was issued. */
  datatype TimeMatch = TimeMatch(index: nat, inexact: bool)

  function TimeIndexDecision(nearest: nat, inputTime: real, fileTimes: seq<real>)
    : (r: Result<TimeMatch, TimeError>)
    requires nearest < |fileTimes|
    ensures r.Success? ==> r.value.index == nearest
    ensures r.Success? ==> (r.value.inexact <==> inputTime != fileTimes[nearest])
    ensures r.Failure? <==>
      (nearest == 0 && inputTime < fileTimes[0]) ||
      (nearest == |fileTimes| - 1 && inputTime > fileTimes[nearest])
  {
    var fileTime := fileTimes[nearest];
    if nearest == 0 && inputTime < fileTime then Failure(BeforeFileStart(fileTime))
    else if nearest == |fileTimes| - 1 && inputTime > fileTime then Failure(AfterFileEnd(fileTime))
    else Success(TimeMatch(nearest, inputTime != fileTime))
  }

  /** `nearest` is a closest sample to `t`, as "nearest" selection picks it. */
  ghost predicate IsNearest(nearest: nat, t: real, times: seq<real>) {
    nearest < |times| &&
    forall k :: 0 <= k < |times| ==> Abs(times[nearest] - t) <= Abs(times[k] - t)
  }

  ghost predicate StrictlyIncreasing(s: seq<real>) {
    forall i, j :: 0 <= i < j < |s| ==> s[i] < s[j]
  }

  /** On an increasing time axis searched by nearest selection, the decision fails
      exactly when the requested time lies before the first or after the last sample. */
  lemma TimeIndexFailsIffOutsideFile(nearest: nat, inputTime: real, fileTimes: seq<real>)
    requires StrictlyIncreasing(fileTimes) && IsNearest(nearest, inputTime, fileTimes)
    ensures TimeIndexDecision(nearest, inputTime, fileTimes).Failure? <==>
      inputTime < fileTimes[0] || inputTime > fileTimes[|fileTimes| - 1]
  {
  }

  /** One unit before the first sample fails, naming the file's start. */
  lemma TimeIndexBeforeStartExample(fileTimes: seq<real>)
    requires |fileTimes| > 0
    ensures TimeIndexDecision(0, fileTimes[0] - 1.0, fileTimes) == Failure(BeforeFileStart(fileTimes[0]))
  {
  }

  // ---------------------------------------------------------------------------
  // convert_wind_heading_to_direction (tools.py:51-66)

  /** `(wind_heading - 180) % 360`: the direction the wind comes from, in `[0, 360)`,
      opposite the heading it blows to. */
  function WindHeadingToDirection(heading: real): (direction: real)
    ensures 0.0 <= direction < 360.0
    ensures IsMultipleOf(heading - 180.0 - direction, 360.0)
    ensures 0.0 <= heading < 360.0 ==>
      direction == if heading < 180.0 then heading + 180.0 else heading - 180.0
  {
    HeadingBelowHalfTurn(heading);
    FloorMod(heading - 180.0, 360.0)
  }

  lemma HeadingBelowHalfTurn(heading: real)
    ensures 0.0 <= heading < 180.0 ==> FloorMod(heading - 180.0, 360.0) == heading + 180.0
  {
    if 0.0 <= heading < 180.0 {
      FloorModUnique(heading - 180.0, 360.0, heading + 180.0);
    }
  }

  /** Converting twice turns a heading in `[0, 360)` back into itself. */
  lemma WindHeadingToDirectionInvolution(heading: real)
    requires 0.0 <= heading < 360.0
    ensures WindHeadingToDirection(WindHeadingToDirection(heading)) == heading
  {
  }
}
