/** Locating a query coordinate in the longitude and latitude axes of a gridded weather
    dataset (`find_longitude_index`, `find_latitude_index` in rocketpy/environment/tools.py).
    An axis is a list of floats, ascending or descending. The search returns the index `i`
    such that the query lies between `axis[i - 1]` and `axis[i]`, or fails when the query
    is outside the region the axis covers. */
module GridIndex {

  import opened Wrappers
  import opened PyObjects

  /** `EmptyAxis` is the `IndexError` raised by `lon_list[0]` on an empty list;
      `OutsideGrid` is the `ValueError` naming the query and the axis endpoints. */
  datatype GridError = EmptyAxis | OutsideGrid(query: real, first: real, last: real)

  /** The (possibly normalised) query coordinate and the upper index of its cell. */
  datatype Located = Located(coordinate: real, index: nat)

  ghost predicate Ascending(s: seq<real>) {
    forall i, j :: 0 <= i <= j < |s| ==> s[i] <= s[j]
  }

  ghost predicate Descending(s: seq<real>) {
    forall i, j :: 0 <= i <= j < |s| ==> s[i] >= s[j]
  }

  ghost predicate StrictlyAscending(s: seq<real>) {
    forall i, j :: 0 <= i < j < |s| ==> s[i] < s[j]
  }

  ghost predicate StrictlyDescending(s: seq<real>) {
    forall i, j :: 0 <= i < j < |s| ==> s[i] > s[j]
  }

  /** `list.reverse()`, as a value. */
  function Reverse(s: seq<real>): seq<real> {
    seq(|s|, k requires 0 <= k < |s| => s[|s| - 1 - k])
  }

  lemma ReverseReverse(s: seq<real>)
    ensures Reverse(Reverse(s)) == s
  {
  }

  lemma ReverseDescending(s: seq<real>)
    requires Descending(s)
    ensures Ascending(Reverse(s))
  {
  }

  // ---------------------------------------------------------------------------
  // Python's `bisect` module, as its loop runs: `lo = 0; hi = len(a)`, halving
  // the interval until it is empty. It is defined on every list; on a sorted one
  // it returns an insertion point.

  /** `bisect.bisect_right(a, x, lo, hi)` (also called as `bisect.bisect`). */
  function BisectRightIn(a: seq<real>, x: real, lo: nat, hi: nat): (i: nat)
    requires lo <= hi <= |a|
    ensures lo <= i <= hi
    decreases hi - lo
  {
    if lo < hi then
      var mid := (lo + hi) / 2;
      if x < a[mid] then BisectRightIn(a, x, lo, mid) else BisectRightIn(a, x, mid + 1, hi)
    else lo
  }

  /** `bisect.bisect_left(a, x, lo, hi)`. */
  function BisectLeftIn(a: seq<real>, x: real, lo: nat, hi: nat): (i: nat)
    requires lo <= hi <= |a|
    ensures lo <= i <= hi
    decreases hi - lo
  {
    if lo < hi then
      var mid := (lo + hi) / 2;
      if a[mid] < x then BisectLeftIn(a, x, mid + 1, hi) else BisectLeftIn(a, x, lo, mid)
    else lo
  }

  function BisectRight(a: seq<real>, x: real): nat {
    BisectRightIn(a, x, 0, |a|)
  }

  function BisectLeft(a: seq<real>, x: real): nat {
    BisectLeftIn(a, x, 0, |a|)
  }

  /** Everything before `i` is at most `x`, everything from `i` on exceeds it. */
  ghost predicate RightSplit(a: seq<real>, x: real, i: int) {
    0 <= i <= |a| &&
    (forall k :: 0 <= k < i ==> a[k] <= x) && (forall k :: i <= k < |a| ==> x < a[k])
  }

  /** Everything before `i` is below `x`, everything from `i` on is at least `x`. */
  ghost predicate LeftSplit(a: seq<real>, x: real, i: int) {
    0 <= i <= |a| &&
    (forall k :: 0 <= k < i ==> a[k] < x) && (forall k :: i <= k < |a| ==> x <= a[k])
  }

  lemma {:induction false} BisectRightInSplits(a: seq<real>, x: real, lo: nat, hi: nat)
    requires Ascending(a) && lo <= hi <= |a|
    requires forall k :: 0 <= k < lo ==> a[k] <= x
    requires forall k :: hi <= k < |a| ==> x < a[k]
    ensures RightSplit(a, x, BisectRightIn(a, x, lo, hi))
    decreases hi - lo
  {
    if lo < hi {
      var mid := (lo + hi) / 2;
      if x < a[mid] {
        BisectRightInSplits(a, x, lo, mid);
      } else {
        BisectRightInSplits(a, x, mid + 1, hi);
      }
    }
  }

  lemma {:induction false} BisectLeftInSplits(a: seq<real>, x: real, lo: nat, hi: nat)
    requires Ascending(a) && lo <= hi <= |a|
    requires forall k :: 0 <= k < lo ==> a[k] < x
    requires forall k :: hi <= k < |a| ==> x <= a[k]
    ensures LeftSplit(a, x, BisectLeftIn(a, x, lo, hi))
    decreases hi - lo
  {
    if lo < hi {
      var mid := (lo + hi) / 2;
      if a[mid] < x {
        BisectLeftInSplits(a, x, mid + 1, hi);
      } else {
        BisectLeftInSplits(a, x, lo, mid);
      }
    }
  }

  /** On an ascending list `bisect_right` returns the insertion point after any
      entries equal to `x`. */
  lemma BisectRightIsInsertionPoint(a: seq<real>, x: real)
    requires Ascending(a)
    ensures RightSplit(a, x, BisectRight(a, x))
  {
    BisectRightInSplits(a, x, 0, |a|);
  }

  /** On an ascending list `bisect_left` returns the insertion point before any
      entries equal to `x`. */
  lemma BisectLeftIsInsertionPoint(a: seq<real>, x: real)
    requires Ascending(a)
    ensures LeftSplit(a, x, BisectLeft(a, x))
  {
    BisectLeftInSplits(a, x, 0, |a|);
  }

  /** Off the grid values the two searches take the same branch at every step. */
  lemma {:induction false} BisectAgreeOffGrid(a: seq<real>, x: real, lo: nat, hi: nat)
    requires lo <= hi <= |a|
    requires forall k :: 0 <= k < |a| ==> a[k] != x
    ensures BisectRightIn(a, x, lo, hi) == BisectLeftIn(a, x, lo, hi)
    decreases hi - lo
  {
    if lo < hi {
      var mid := (lo + hi) / 2;
      if x < a[mid] {
        BisectAgreeOffGrid(a, x, lo, mid);
      } else {
        BisectAgreeOffGrid(a, x, mid + 1, hi);
      }
    }
  }

  // ---------------------------------------------------------------------------
  // The search shared by both functions (tools.py:283-299 and 324-341).

  /** The index the search reaches after the endpoint fix-up, before the range check:
      an ascending axis is searched with `bisect_right`; any other is reversed, searched
      with `bisect_left`, and the index mirrored back. An index equal to the length is
      pulled back by one when the last entry equals the query. */
  function AxisIndex(q: real, axis: seq<real>): nat
    requires |axis| > 0
  {
    var n := |axis|;
    var found :=
      if axis[0] < axis[n - 1] then BisectRight(axis, q)
      else n - BisectLeft(Reverse(axis), q);
    if found == n && axis[found - 1] == q then found - 1 else found
  }

  /** The range check: index 0 or the length means the query is outside the axis. */
  function CheckInside(q: real, axis: seq<real>): Result<Located, GridError>
    requires |axis| > 0
  {
    var i := AxisIndex(q, axis);
    if i == 0 || i == |axis| then Failure(OutsideGrid(q, axis[0], axis[|axis| - 1]))
    else Success(Located(q, i))
  }

  /** The smaller and the larger endpoint of an axis. */
  function Low(axis: seq<real>): real
    requires |axis| > 0
  {
    if axis[0] <= axis[|axis| - 1] then axis[0] else axis[|axis| - 1]
  }

  function High(axis: seq<real>): real
    requires |axis| > 0
  {
    if axis[0] <= axis[|axis| - 1] then axis[|axis| - 1] else axis[0]
  }

  /** On an ascending axis a successful search brackets the query from below and above. */
  lemma CheckInsideBracketsAscending(q: real, axis: seq<real>)
    requires |axis| > 0 && Ascending(axis) && CheckInside(q, axis).Success?
    ensures var i := CheckInside(q, axis).value.index;
      1 <= i <= |axis| - 1 && axis[i - 1] <= q <= axis[i]
  {
    var n := |axis|;
    if axis[0] < axis[n - 1] {
      BisectRightIsInsertionPoint(axis, q);
    } else {
      assert Descending(axis);
      CheckInsideBracketsDescending(q, axis);
    }
  }

  /** On a descending axis a successful search brackets the query from above and below. */
  lemma CheckInsideBracketsDescending(q: real, axis: seq<real>)
    requires |axis| > 0 && Descending(axis) && CheckInside(q, axis).Success?
    ensures var i := CheckInside(q, axis).value.index;
      1 <= i <= |axis| - 1 && axis[i - 1] >= q >= axis[i]
  {
    var n := |axis|;
    if axis[0] < axis[n - 1] {
      assert false;
    } else {
      var r := Reverse(axis);
      ReverseDescending(axis);
      BisectLeftIsInsertionPoint(r, q);
      var b := BisectLeft(r, q);
      var i := CheckInside(q, axis).value.index;
      assert i == n - b || (n - b == n && i == n - 1 && axis[n - 1] == q);
      if i == n - b {
        assert r[n - 1 - i] == axis[i] && r[n - i] == axis[i - 1];
      } else {
        assert axis[i] == q;
        assert axis[i - 1] >= axis[i];
      }
    }
  }

  /** The check fails exactly when the axis has fewer than two entries or the query
      lies strictly outside the span of its endpoints; a query equal to either endpoint
      of an axis of two or more entries is found. */
  lemma CheckInsideFailsIff(q: real, axis: seq<real>)
    requires |axis| > 0 && (Ascending(axis) || Descending(axis))
    ensures CheckInside(q, axis).Failure? <==>
      |axis| < 2 || q < Low(axis) || High(axis) < q
  {
    var n := |axis|;
    if axis[0] < axis[n - 1] {
      assert Ascending(axis);
      BisectRightIsInsertionPoint(axis, q);
    } else {
      assert Descending(axis) by {
        if !Descending(axis) {
          assert Ascending(axis);
          assert axis[0] == axis[n - 1];
          forall i, j | 0 <= i <= j < n ensures axis[i] >= axis[j] {
            assert axis[0] <= axis[i] <= axis[j] <= axis[n - 1];
          }
        }
      }
      var r := Reverse(axis);
      ReverseDescending(axis);
      BisectLeftIsInsertionPoint(r, q);
      assert r[0] == axis[n - 1] && r[n - 1] == axis[0];
    }
  }

  /** Resolving a query that is not itself a grid value against an axis and against its
      reversal gives mirrored indices that bracket the same pair of grid values. */
  lemma ReversedAxisMirrorsIndex(q: real, axis: seq<real>)
    requires |axis| >= 2 && (StrictlyAscending(axis) || StrictlyDescending(axis))
    requires forall k :: 0 <= k < |axis| ==> axis[k] != q
    ensures CheckInside(q, axis).Success? == CheckInside(q, Reverse(axis)).Success?
    ensures CheckInside(q, axis).Success? ==>
      var i := CheckInside(q, axis).value.index;
      var j := CheckInside(q, Reverse(axis)).value.index;
      j == |axis| - i && Reverse(axis)[j - 1] == axis[i] && Reverse(axis)[j] == axis[i - 1]
  {
    var n := |axis|;
    var r := Reverse(axis);
    MirroredAxisIndex(q, axis);
    var i := AxisIndex(q, axis);
    var j := AxisIndex(q, r);
    if 0 < i < n {
      assert r[j - 1] == axis[n - 1 - (j - 1)];
      assert r[j] == axis[n - 1 - j];
    }
  }

  lemma MirroredAxisIndex(q: real, axis: seq<real>)
    requires |axis| >= 2 && (StrictlyAscending(axis) || StrictlyDescending(axis))
    requires forall k :: 0 <= k < |axis| ==> axis[k] != q
    ensures AxisIndex(q, Reverse(axis)) == |axis| - AxisIndex(q, axis)
  {
    var n := |axis|;
    var r := Reverse(axis);
    ReverseReverse(axis);
    if StrictlyAscending(axis) {
      AscendingAxisMirrored(q, axis);
    } else {
      forall k | 0 <= k < n ensures r[k] != q {
        assert r[k] == axis[n - 1 - k];
      }
      AscendingAxisMirrored(q, r);
    }
  }

  lemma AscendingAxisMirrored(q: real, a: seq<real>)
    requires |a| >= 2 && StrictlyAscending(a)
    requires forall k :: 0 <= k < |a| ==> a[k] != q
    ensures AxisIndex(q, Reverse(a)) == |a| - AxisIndex(q, a)
  {
    var n := |a|;
    var r := Reverse(a);
    BisectAgreeOffGrid(a, q, 0, n);
    var c := BisectRight(a, q);
    assert AxisIndex(q, a) == c;
    ReverseReverse(a);
    assert r[0] == a[n - 1] && r[n - 1] == a[0];
    assert AxisIndex(q, r) == n - c;
  }

  // ---------------------------------------------------------------------------
  // Longitude normalisation (tools.py:276-281).

  /** The axis uses the -180..180 convention when either endpoint is negative. */
  predicate SignedConvention(first: real, last: real) {
    first < 0.0 || last < 0.0
  }

  /** Brings a query longitude into the convention of an axis with these endpoints:
      `longitude if longitude < 180 else -180 + longitude % 180` for a signed axis,
      `longitude % 360` otherwise. */
  function NormalizeLongitude(longitude: real, first: real, last: real): (lon: real)
    ensures SignedConvention(first, last) && longitude < 180.0 ==> lon == longitude
    ensures SignedConvention(first, last) && longitude >= 180.0 ==>
      -180.0 <= lon < 0.0 && IsMultipleOf(longitude - lon, 180.0)
    ensures !SignedConvention(first, last) ==>
      0.0 <= lon < 360.0 && IsMultipleOf(longitude - lon, 360.0)
    ensures !SignedConvention(first, last) && 0.0 <= longitude < 360.0 ==> lon == longitude
  {
    if SignedConvention(first, last) then
      (if longitude < 180.0 then longitude
       else
         var m := FloorMod(longitude, 180.0);
         HalfTurnMore(longitude - m);
         -180.0 + m)
    else FloorMod(longitude, 360.0)
  }

  lemma HalfTurnMore(d: real)
    requires IsMultipleOf(d, 180.0)
    ensures IsMultipleOf(d + 180.0, 180.0)
  {
    var k := (d / 180.0).Floor;
    assert (d + 180.0) / 180.0 == (k + 1) as real;
  }

  /** For a longitude given within one turn, `[-180, 360)`, a signed axis sees the same
      direction written within `[-180, 180)`. */
  lemma NormalizeLongitudeWithinOneTurn(longitude: real, first: real, last: real)
    requires SignedConvention(first, last) && -180.0 <= longitude < 360.0
    ensures var lon := NormalizeLongitude(longitude, first, last);
      -180.0 <= lon < 180.0 && (lon == longitude || lon == longitude - 360.0)
  {
    if longitude >= 180.0 {
      FloorModUnique(longitude, 180.0, longitude - 180.0);
    }
  }

  /** The code as written sends a longitude of one full turn to the antimeridian on a
      signed axis: 360 becomes -180, which is not 360 away from it, so the query lands on
      the opposite side of the globe from longitude 0. */
  lemma NormalizeLongitudeFullTurnExample()
    ensures NormalizeLongitude(360.0, -180.0, 180.0) == -180.0
    ensures !IsMultipleOf(360.0 - NormalizeLongitude(360.0, -180.0, 180.0), 360.0)
  {
    FloorModUnique(360.0, 180.0, 0.0);
    assert (540.0 / 360.0).Floor == 1;
  }

  /** The evidently intended normalisation: `(longitude + 180) % 360 - 180` on a signed
      axis, `longitude % 360` otherwise. */
  function NormalizeLongitudeIntended(longitude: real, first: real, last: real): (lon: real)
    ensures SignedConvention(first, last) ==>
      -180.0 <= lon < 180.0 && IsMultipleOf(longitude - lon, 360.0)
    ensures !SignedConvention(first, last) ==>
      0.0 <= lon < 360.0 && IsMultipleOf(longitude - lon, 360.0)
  {
    if SignedConvention(first, last) then
      var m := FloorMod(longitude + 180.0, 360.0);
      assert longitude - (m - 180.0) == (longitude + 180.0) - m;
      m - 180.0
    else FloorMod(longitude, 360.0)
  }

  /** For longitudes given within one turn, `[-180, 360)`, the intended normalisation and
      the code agree, so every search below yields the same result on them. */
  lemma NormalizeLongitudeIntendedAgrees(longitude: real, first: real, last: real)
    requires -180.0 <= longitude < 360.0
    ensures NormalizeLongitudeIntended(longitude, first, last) == NormalizeLongitude(longitude, first, last)
  {
    if SignedConvention(first, last) {
      NormalizeLongitudeWithinOneTurn(longitude, first, last);
      var lon := NormalizeLongitude(longitude, first, last);
      if lon == longitude {
        FloorModUnique(longitude + 180.0, 360.0, longitude + 180.0);
      } else {
        FloorModUnique(longitude + 180.0, 360.0, longitude - 180.0);
      }
    }
  }

  // ---------------------------------------------------------------------------
  // The two functions of tools.py as values.

  /** `find_longitude_index(longitude, lon_list)` (tools.py:255-301). */
  function LongitudeIndex(longitude: real, lonList: seq<real>): Result<Located, GridError> {
    if |lonList| == 0 then Failure(EmptyAxis)
    else CheckInside(NormalizeLongitude(longitude, lonList[0], lonList[|lonList| - 1]), lonList)
  }

  /** `find_latitude_index(latitude, lat_list)` (tools.py:304-342). */
  function LatitudeIndex(latitude: real, latList: seq<real>): Result<Located, GridError> {
    if |latList| == 0 then Failure(EmptyAxis)
    else CheckInside(latitude, latList)
  }

  /** A monotone longitude axis: on success the normalised longitude is bracketed by the
      cell `index - 1 .. index`; the search fails exactly for an empty axis, a single-entry
      axis or a normalised longitude strictly outside the axis span. */
  lemma LongitudeIndexCorrect(longitude: real, lonList: seq<real>)
    requires Ascending(lonList) || Descending(lonList)
    ensures var r := LongitudeIndex(longitude, lonList);
      r.Failure? <==> (|lonList| < 2 ||
        var lon := NormalizeLongitude(longitude, lonList[0], lonList[|lonList| - 1]);
        lon < Low(lonList) || High(lonList) < lon)
    ensures var r := LongitudeIndex(longitude, lonList);
      r.Success? ==>
        var i := r.value.index;
        var lon := r.value.coordinate;
        lon == NormalizeLongitude(longitude, lonList[0], lonList[|lonList| - 1]) &&
        1 <= i <= |lonList| - 1 &&
        (Ascending(lonList) ==> lonList[i - 1] <= lon <= lonList[i]) &&
        (Descending(lonList) ==> lonList[i - 1] >= lon >= lonList[i])
    ensures |lonList| == 0 ==> LongitudeIndex(longitude, lonList) == Failure(EmptyAxis)
    ensures var r := LongitudeIndex(longitude, lonList);
      r.Failure? && |lonList| > 0 ==>
        r.error == OutsideGrid(NormalizeLongitude(longitude, lonList[0], lonList[|lonList| - 1]),
                               lonList[0], lonList[|lonList| - 1])
  {
    if |lonList| > 0 {
      var lon := NormalizeLongitude(longitude, lonList[0], lonList[|lonList| - 1]);
      CheckInsideFailsIff(lon, lonList);
      if CheckInside(lon, lonList).Success? {
        if Ascending(lonList) { CheckInsideBracketsAscending(lon, lonList); }
        if Descending(lonList) { CheckInsideBracketsDescending(lon, lonList); }
      }
    }
  }

  /** The latitude search obeys the same rules and returns the latitude unchanged. */
  lemma LatitudeIndexCorrect(latitude: real, latList: seq<real>)
    requires Ascending(latList) || Descending(latList)
    ensures var r := LatitudeIndex(latitude, latList);
      r.Failure? <==> (|latList| < 2 || latitude < Low(latList) || High(latList) < latitude)
    ensures var r := LatitudeIndex(latitude, latList);
      r.Success? ==>
        var i := r.value.index;
        r.value.coordinate == latitude &&
        1 <= i <= |latList| - 1 &&
        (Ascending(latList) ==> latList[i - 1] <= latitude <= latList[i]) &&
        (Descending(latList) ==> latList[i - 1] >= latitude >= latList[i])
    ensures |latList| == 0 ==> LatitudeIndex(latitude, latList) == Failure(EmptyAxis)
    ensures var r := LatitudeIndex(latitude, latList);
      r.Failure? && |latList| > 0 ==> r.error == OutsideGrid(latitude, latList[0], latList[|latList| - 1])
  {
    if |latList| > 0 {
      CheckInsideFailsIff(latitude, latList);
      if CheckInside(latitude, latList).Success? {
        if Ascending(latList) { CheckInsideBracketsAscending(latitude, latList); }
        if Descending(latList) { CheckInsideBracketsDescending(latitude, latList); }
      }
    }
  }

  /** The worked example: 45 degrees on the axis -180, -90, 0, 90, 180 falls in the
      cell between 0 and 90, whose upper index is 3. */
  lemma LongitudeIndexExample()
    ensures LongitudeIndex(45.0, [-180.0, -90.0, 0.0, 90.0, 180.0]) == Success(Located(45.0, 3))
  {
    var axis := [-180.0, -90.0, 0.0, 90.0, 180.0];
    assert BisectRightIn(axis, 45.0, 3, 3) == 3;
    assert BisectRightIn(axis, 45.0, 3, 4) == 3;
    assert BisectRightIn(axis, 45.0, 3, 5) == 3;
    assert BisectRightIn(axis, 45.0, 0, 5) == 3;
  }

  // ---------------------------------------------------------------------------
  // The imperative search: the caller's list is reversed in place and back.

  /** `list.reverse()`. */
  method ReverseInPlace(a: array<real>)
    modifies a
    ensures a[..] == Reverse(old(a[..]))
  {
    var n := a.Length;
    var i := 0;
    while i < n / 2
      invariant 0 <= i <= n / 2
      invariant forall k :: 0 <= k < i ==> a[k] == old(a[n - 1 - k]) && a[n - 1 - k] == old(a[k])
      invariant forall k :: i <= k < n - i ==> a[k] == old(a[k])
    {
      a[i], a[n - 1 - i] := a[n - 1 - i], a[i];
      i := i + 1;
    }
  }

  /** The search of both functions on the caller's list, which a descending axis has
      reversed twice: the list ends as it began. */
  method SearchAxis(q: real, axis: array<real>) returns (index: nat)
    requires axis.Length > 0
    modifies axis
    ensures axis[..] == old(axis[..])
    ensures index == AxisIndex(q, old(axis[..]))
  {
    var n := axis.Length;
    if axis[0] < axis[n - 1] {
      index := BisectRight(axis[..], q);
    } else {
      ReverseInPlace(axis);
      var b := BisectLeft(axis[..], q);
      assert b <= n;
      index := n - b;
      ReverseInPlace(axis);
      ReverseReverse(old(axis[..]));
    }
    if index == n && axis[index - 1] == q {
      index := index - 1;
    }
  }

  /** `find_longitude_index`, updating the caller's list in place as the source does. */
  method FindLongitudeIndex(longitude: real, lonList: array<real>)
    returns (r: Result<Located, GridError>)
    modifies lonList
    ensures lonList[..] == old(lonList[..])
    ensures r == LongitudeIndex(longitude, old(lonList[..]))
  {
    var n := lonList.Length;
    if n == 0 {
      return Failure(EmptyAxis);
    }
    var lon := NormalizeLongitude(longitude, lonList[0], lonList[n - 1]);
    var index := SearchAxis(lon, lonList);
    if index == 0 || index == n {
      return Failure(OutsideGrid(lon, lonList[0], lonList[n - 1]));
    }
    return Success(Located(lon, index));
  }

  /** `find_latitude_index`, updating the caller's list in place as the source does. */
  method FindLatitudeIndex(latitude: real, latList: array<real>)
    returns (r: Result<Located, GridError>)
    modifies latList
    ensures latList[..] == old(latList[..])
    ensures r == LatitudeIndex(latitude, old(latList[..]))
  {
    var n := latList.Length;
    if n == 0 {
      return Failure(EmptyAxis);
    }
    var index := SearchAxis(latitude, latList);
    if index == 0 || index == n {
      return Failure(OutsideGrid(latitude, latList[0], latList[n - 1]));
    }
    return Success(Located(latitude, index));
  }
}
