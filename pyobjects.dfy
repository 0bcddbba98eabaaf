/** Python values as they reach the validators and exporters, and Python's float `%`. */
module PyObjects {

  import opened Wrappers

  /** The dynamic values the Monte Carlo layer inspects with `isinstance`. A `dict`
      is an ordered list of entries, like a Python dict, and `PyFunction` stands for a
      `rocketpy.Function` object, identified by a number. */
  datatype PyValue =
    | PyInt(i: int)
    | PyFloat(f: real)
    | PyBool(b: bool)
    | PyStr(s: string)
    | PyTuple(items: seq<PyValue>)
    | PyList(items: seq<PyValue>)
    | PyDict(entries: seq<Entry>)
    | PyFunction(id: nat)
    | PyNone
    | PyOther(typeName: string)

  datatype Entry = Entry(key: string, value: PyValue)

  /** `isinstance(v, (int, float))`; `bool` is a subclass of `int` in Python. */
  predicate IsNumber(v: PyValue) {
    v.PyInt? || v.PyFloat? || v.PyBool?
  }

  /** The value found under `key`, as `d[key]` finds it (the first entry with that key). */
  function Lookup(d: seq<Entry>, key: string): Option<PyValue>
  {
    if |d| == 0 then None
    else if d[0].key == key then Some(d[0].value)
    else Lookup(d[1..], key)
  }

  /** Looking a key up in a dict with one more entry at the end. */
  lemma {:induction false} LookupSnoc(d: seq<Entry>, e: Entry, key: string)
    ensures Lookup(d + [e], key) ==
      if Lookup(d, key).Some? then Lookup(d, key)
      else if e.key == key then Some(e.value)
      else None
  {
    if |d| > 0 {
      assert (d + [e])[1..] == d[1..] + [e];
      LookupSnoc(d[1..], e, key);
    }
  }

  /** In a dict without repeated keys, the entry at index `i` is what `Lookup` finds. */
  lemma {:induction false} LookupDistinct(d: seq<Entry>, i: nat)
    requires DistinctKeys(d) && i < |d|
    ensures Lookup(d, d[i].key) == Some(d[i].value)
  {
    if i > 0 {
      assert d[1..][i - 1] == d[i];
      assert DistinctKeys(d[1..]) by {
        forall a, b | 0 <= a < b < |d[1..]| ensures d[1..][a].key != d[1..][b].key {
          assert d[1..][a] == d[a + 1] && d[1..][b] == d[b + 1];
        }
      }
      LookupDistinct(d[1..], i - 1);
    }
  }

  /** A key no entry carries is not found. */
  lemma {:induction false} LookupMissing(d: seq<Entry>, key: string)
    requires forall i :: 0 <= i < |d| ==> d[i].key != key
    ensures Lookup(d, key) == None
  {
    if |d| > 0 {
      assert forall i :: 0 <= i < |d[1..]| ==> d[1..][i] == d[i + 1];
      LookupMissing(d[1..], key);
    }
  }

  /** A Python dict never holds the same key twice. */
  ghost predicate DistinctKeys(d: seq<Entry>) {
    forall i, j :: 0 <= i < j < |d| ==> d[i].key != d[j].key
  }

  /** `d[key] = v`: replaces the value of an existing key in place, otherwise appends. */
  function Put(d: seq<Entry>, key: string, v: PyValue): (r: seq<Entry>)
    ensures Lookup(r, key) == Some(v)
    ensures forall k :: k != key ==> Lookup(r, k) == Lookup(d, k)
  {
    if |d| == 0 then [Entry(key, v)]
    else if d[0].key == key then [Entry(key, v)] + d[1..]
    else [d[0]] + Put(d[1..], key, v)
  }

  // ---------------------------------------------------------------------------
  // Python's `%` on floats is floored: the result has the sign of the divisor. The
  // source only ever divides by 180 and by 360, which keeps the arithmetic linear.

  /** `abs(x)`. */
  function Abs(x: real): (r: real)
    ensures r >= 0.0 && (r == x || r == -x)
  {
    if x < 0.0 then -x else x
  }

  /** The divisors `%` is applied with in the source. */
  predicate IsDegreeModulus(m: real) {
    m == 180.0 || m == 360.0
  }

  /** `d` is a whole number of `m`s. */
  predicate IsMultipleOf(d: real, m: real)
    requires IsDegreeModulus(m)
  {
    (d / m).Floor as real == d / m
  }

  /** `x % m`: the representative of `x` modulo `m` in `[0, m)`. */
  function FloorMod(x: real, m: real): (r: real)
    requires IsDegreeModulus(m)
    ensures 0.0 <= r < m
    ensures IsMultipleOf(x - r, m)
    ensures 0.0 <= x < m ==> r == x
  {
    if m == 180.0 then x - 180.0 * (x / 180.0).Floor as real
    else x - 360.0 * (x / 360.0).Floor as real
  }

  /** Two numbers in `[0, m)` that differ by a whole number of `m`s are equal; hence
      the first two properties of `FloorMod` determine its result. */
  lemma FloorModUnique(x: real, m: real, r: real)
    requires IsDegreeModulus(m) && 0.0 <= r < m && IsMultipleOf(x - r, m)
    ensures r == FloorMod(x, m)
  {
    var s := FloorMod(x, m);
    var k := ((x - r) / m).Floor;
    var l := ((x - s) / m).Floor;
    if m == 180.0 {
      assert s - r == 180.0 * (k - l) as real;
    } else {
      assert s - r == 360.0 * (k - l) as real;
    }
    assert k == l;
  }
}
