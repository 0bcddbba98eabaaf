/** The bookkeeping of rocketpy/simulation/monte_carlo.py that does not touch files or
    processes: export-list validation, grouping of output records into per-key result
    lists, the `_SimMonitor` counter that drives the serial loop, the padding rule of
    `reprint`, and the dict branch of `_prepare_export_data`. */
module MonteCarloSim {

  import opened Wrappers
  import opened PyObjects

  function Max(a: int, b: int): int {
    if a < b then b else a
  }

  // ---------------------------------------------------------------------------
  // __check_export_list (monte_carlo.py:572-674)

  /** The names exported when no list is given. */
  const StandardOutput: set<string> := {
    "apogee", "apogee_time", "apogee_x", "apogee_y", "t_final", "x_impact", "y_impact",
    "impact_velocity", "initial_stability_margin", "out_of_rail_stability_margin",
    "out_of_rail_time", "out_of_rail_velocity", "max_mach_number",
    "frontal_surface_wind", "lateral_surface_wind"}

  /** The `Flight` attributes a user may ask for: those of the rail phase, then those of
      apogee, impact and the flight maxima. */
  const CanBeExported: set<string> := {
    "inclination", "heading", "effective1rl", "effective2rl", "out_of_rail_time",
    "out_of_rail_time_index", "out_of_rail_state", "out_of_rail_velocity",
    "rail_button1_normal_force", "max_rail_button1_normal_force",
    "rail_button1_shear_force", "max_rail_button1_shear_force",
    "rail_button2_normal_force", "max_rail_button2_normal_force",
    "rail_button2_shear_force", "max_rail_button2_shear_force",
    "out_of_rail_static_margin"} + {
    "apogee_state", "apogee_time", "apogee_x", "apogee_y",
    "apogee", "x_impact", "y_impact", "z_impact", "impact_velocity", "impact_state",
    "parachute_events", "apogee_freestream_speed", "final_static_margin",
    "frontal_surface_wind", "initial_static_margin", "lateral_surface_wind",
    "max_acceleration", "max_acceleration_time", "max_dynamic_pressure_time",
    "max_dynamic_pressure", "max_mach_number_time", "max_mach_number",
    "max_reynolds_number_time", "max_reynolds_number", "max_speed_time", "max_speed",
    "max_total_pressure_time", "max_total_pressure", "t_final"}

  /** What the check returns: the default set, or the caller's list itself. */
  datatype ExportList = StandardList(names: set<string>) | GivenList(items: seq<PyValue>)

  /** `set(export_list)` fails on an unhashable element (a `TypeError`); inside the loop a
      non-string raises `TypeError` and an unknown name `ValueError`. */
  datatype ExportListError = Unhashable | NotAString | NotExportable(name: string)

  /** Whether `hash(v)` succeeds: lists and dicts are unhashable, and so is a tuple
      holding one. */
  predicate Hashable(v: PyValue) {
    match v
    case PyList(_) => false
    case PyDict(_) => false
    case PyTuple(items) => forall i :: 0 <= i < |items| ==> Hashable(items[i])
    case _ => true
  }

  predicate Exportable(v: PyValue) {
    v.PyStr? && v.s in CanBeExported
  }

  /** `__check_export_list(export_list)`; `None` stands for the argument left out. The
      loop visits `set(export_list)` in an order Python does not fix, so when the list
      holds several bad entries, which one is reported is chosen freely here. */
  method CheckExportList(exportList: Option<seq<PyValue>>)
    returns (r: Result<ExportList, ExportListError>)
    ensures exportList.None? || exportList.value == [] ==>
      r == Success(StandardList(StandardOutput))
    ensures exportList.Some? && exportList.value != [] ==>
      (r.Success? <==> forall i :: 0 <= i < |exportList.value| ==> Exportable(exportList.value[i]))
    ensures exportList.Some? && exportList.value != [] && r.Success? ==>
      r.value == GivenList(exportList.value)
    ensures exportList.Some? ==>
      (r == Failure(Unhashable) <==>
        exists i :: 0 <= i < |exportList.value| && !Hashable(exportList.value[i]))
    ensures exportList.Some? && r == Failure(NotAString) ==>
      exists i :: 0 <= i < |exportList.value| && !exportList.value[i].PyStr?
    ensures exportList.Some? && r.Failure? && r.error.NotExportable? ==>
      PyStr(r.error.name) in exportList.value && r.error.name !in CanBeExported
    ensures exportList.Some? && r.Failure? &&
      (forall i :: 0 <= i < |exportList.value| ==> exportList.value[i].PyStr?)
      ==> r.error.NotExportable?
  {
    if exportList.None? || exportList.value == [] {
      return Success(StandardList(StandardOutput));
    }
    var items := exportList.value;
    if exists i :: 0 <= i < |items| && !Hashable(items[i]) {
      return Failure(Unhashable);
    }
    if exists i :: 0 <= i < |items| && !Exportable(items[i]) {
      var i :| 0 <= i < |items| && !Exportable(items[i]);
      if !items[i].PyStr? {
        return Failure(NotAString);
      }
      return Failure(NotExportable(items[i].s));
    }
    return Success(GivenList(items));
  }

  /** The default set names two attributes the user may not request: passing the
      default names back in as an explicit list is rejected. */
  lemma StandardOutputNotExportable()
    ensures StandardOutput - CanBeExported == {"initial_stability_margin", "out_of_rail_stability_margin"}
  {
  }

  // ---------------------------------------------------------------------------
  // set_results (monte_carlo.py:801-824)

  /** The list stored under `key`, empty when there is none yet. */
  function Get(results: map<string, seq<PyValue>>, key: string): seq<PyValue> {
    if key in results then results[key] else []
  }

  /** `results[key].append(value)`, or `results[key] = [value]` for a new key. */
  function AddValue(results: map<string, seq<PyValue>>, key: string, value: PyValue)
    : map<string, seq<PyValue>>
  {
    results[key := Get(results, key) + [value]]
  }

  /** The inner loop over `result.items()`. */
  function AddRecord(results: map<string, seq<PyValue>>, record: seq<Entry>)
    : map<string, seq<PyValue>>
  {
    if |record| == 0 then results
    else
      var last := record[|record| - 1];
      AddValue(AddRecord(results, record[..|record| - 1]), last.key, last.value)
  }

  /** The dictionary `set_results` builds from a log of output records. */
  function Grouped(log: seq<seq<Entry>>): map<string, seq<PyValue>> {
    if |log| == 0 then map[] else AddRecord(Grouped(log[..|log| - 1]), log[|log| - 1])
  }

  /** The values stored under `key` in one record, in entry order. */
  function ValuesIn(record: seq<Entry>, key: string): seq<PyValue> {
    if |record| == 0 then []
    else
      var last := record[|record| - 1];
      ValuesIn(record[..|record| - 1], key) + (if last.key == key then [last.value] else [])
  }

  /** `record[key]` for every record that has the key, in log order. */
  function Column(log: seq<seq<Entry>>, key: string): seq<PyValue> {
    if |log| == 0 then []
    else
      var rest := Column(log[..|log| - 1], key);
      match Lookup(log[|log| - 1], key)
      case None => rest
      case Some(v) => rest + [v]
  }

  /** The number of records that have `key`. */
  function RecordsWith(log: seq<seq<Entry>>, key: string): nat {
    if |log| == 0 then 0
    else RecordsWith(log[..|log| - 1], key) + (if Lookup(log[|log| - 1], key).Some? then 1 else 0)
  }

  lemma {:induction false} AddRecordGet(results: map<string, seq<PyValue>>, record: seq<Entry>, key: string)
    ensures key in AddRecord(results, record) <==> key in results || ValuesIn(record, key) != []
    ensures Get(AddRecord(results, record), key) == Get(results, key) + ValuesIn(record, key)
  {
    if |record| > 0 {
      AddRecordGet(results, record[..|record| - 1], key);
    }
  }

  lemma {:induction false} ValuesInDistinct(record: seq<Entry>, key: string)
    requires DistinctKeys(record)
    ensures ValuesIn(record, key) == match Lookup(record, key) case None => [] case Some(v) => [v]
  {
    if |record| > 0 {
      var prefix, last := record[..|record| - 1], record[|record| - 1];
      assert record == prefix + [last];
      assert DistinctKeys(prefix);
      ValuesInDistinct(prefix, key);
      LookupSnoc(prefix, last, key);
      if last.key == key {
        LookupMissing(prefix, key);
      }
    }
  }

  lemma {:induction false} GroupedIsColumn(log: seq<seq<Entry>>, key: string)
    requires forall i :: 0 <= i < |log| ==> DistinctKeys(log[i])
    ensures key in Grouped(log) <==> Column(log, key) != []
    ensures Get(Grouped(log), key) == Column(log, key)
  {
    if |log| > 0 {
      var prefix, last := log[..|log| - 1], log[|log| - 1];
      assert forall i :: 0 <= i < |prefix| ==> prefix[i] == log[i];
      GroupedIsColumn(prefix, key);
      AddRecordGet(Grouped(prefix), last, key);
      ValuesInDistinct(last, key);
    }
  }

  lemma {:induction false} ColumnCountsRecords(log: seq<seq<Entry>>, key: string)
    ensures Column(log, key) != [] <==> exists i :: 0 <= i < |log| && Lookup(log[i], key).Some?
    ensures |Column(log, key)| == RecordsWith(log, key)
  {
    if |log| > 0 {
      var prefix := log[..|log| - 1];
      assert forall i :: 0 <= i < |prefix| ==> prefix[i] == log[i];
      ColumnCountsRecords(prefix, key);
      if Lookup(log[|log| - 1], key).Some? {
        assert Column(log, key) != [];
      }
    }
  }

  /** What `set_results` promises: a key is present exactly when some record has it,
      and its list holds that key's values in log order, one per record that has it. */
  lemma GroupedCollectsColumns(log: seq<seq<Entry>>, key: string)
    requires forall i :: 0 <= i < |log| ==> DistinctKeys(log[i])
    ensures key in Grouped(log) <==> exists i :: 0 <= i < |log| && Lookup(log[i], key).Some?
    ensures Get(Grouped(log), key) == Column(log, key)
    ensures |Get(Grouped(log), key)| == RecordsWith(log, key)
  {
    GroupedIsColumn(log, key);
    ColumnCountsRecords(log, key);
  }

  /** The part of the `MonteCarlo` object these operations read and write. `outputFile`
      is the content of the outputs file, one record per line. */
  class MonteCarlo {
    var outputFile: seq<seq<Entry>>
    var outputsLog: seq<seq<Entry>>
    var results: map<string, seq<PyValue>>
    var numOfLoadedSims: nat
    var numberOfSimulations: int
    var initialSimIdx: nat

    /** What the `output_file` setter establishes: the log, the loaded count and the
        results all reflect the file. */
    predicate Loaded()
      reads this
    {
      outputsLog == outputFile && numOfLoadedSims == |outputFile| && results == Grouped(outputsLog)
    }

    /** The state after `__init__` has imported an existing outputs file. */
    constructor (outputFile: seq<seq<Entry>>)
      ensures this.outputFile == outputFile && Loaded()
      ensures numberOfSimulations == 0 && initialSimIdx == 0
    {
      this.outputFile := outputFile;
      outputsLog := [];
      results := map[];
      numOfLoadedSims := 0;
      numberOfSimulations := 0;
      initialSimIdx := 0;
      new;
      LoadOutputFile();
    }

    /** The `output_file` setter: `set_outputs_log()`, `set_num_of_loaded_sims()` and
        `set_results()` read the file again. */
    method LoadOutputFile()
      modifies this
      ensures Loaded() && outputFile == old(outputFile)
      ensures numberOfSimulations == old(numberOfSimulations) && initialSimIdx == old(initialSimIdx)
    {
      outputsLog := outputFile;
      numOfLoadedSims := |outputFile|;
      SetResults();
    }

    /** `set_results()`: groups the output log by key. */
    method SetResults()
      modifies this
      ensures results == Grouped(outputsLog)
      ensures outputFile == old(outputFile) && outputsLog == old(outputsLog)
      ensures numOfLoadedSims == old(numOfLoadedSims)
      ensures numberOfSimulations == old(numberOfSimulations) && initialSimIdx == old(initialSimIdx)
    {
      var log := outputsLog;
      var grouped := map[];
      for i := 0 to |log|
        invariant grouped == Grouped(log[..i])
      {
        var record := log[i];
        assert log[..i + 1][..i] == log[..i];
        for j := 0 to |record|
          invariant grouped == AddRecord(Grouped(log[..i]), record[..j])
        {
          assert record[..j + 1][..j] == record[..j];
          var key, value := record[j].key, record[j].value;
          ghost var before := grouped;
          if key in grouped {
            grouped := grouped[key := grouped[key] + [value]];
          } else {
            grouped := grouped[key := [value]];
          }
          assert grouped == AddValue(before, key, value) by {
            assert Get(before, key) + [value] == grouped[key];
          }
        }
        assert record[..|record|] == record;
      }
      assert log[..|log|] == log;
      results := grouped;
    }

    /** `simulate(number_of_simulations, append)` in serial mode. `outputsOf(i)` is the
        record simulation `i` exports. The outputs file is truncated unless appending,
        the run resumes after the loaded simulations when appending and starts at 0
        otherwise, each simulation appends its record, and `__terminate_simulation`
        reloads the file. */
    method Simulate(numberOfSimulations: int, append: bool, outputsOf: int -> seq<Entry>)
      returns (simIndices: seq<int>)
      modifies this
      ensures this.numberOfSimulations == numberOfSimulations
      ensures initialSimIdx == if append then old(numOfLoadedSims) else 0
      ensures |simIndices| == Max(0, numberOfSimulations - initialSimIdx)
      ensures forall i :: 0 <= i < |simIndices| ==> simIndices[i] == initialSimIdx + 1 + i
      ensures var kept := if append then old(outputFile) else [];
        |outputFile| == |kept| + |simIndices| && outputFile[..|kept|] == kept &&
        forall i :: 0 <= i < |simIndices| ==> outputFile[|kept| + i] == outputsOf(simIndices[i])
      ensures Loaded()
      ensures append && old(Loaded()) ==>
        numOfLoadedSims == Max(old(numOfLoadedSims), numberOfSimulations)
      ensures !append ==> numOfLoadedSims == Max(0, numberOfSimulations)
    {
      this.numberOfSimulations := numberOfSimulations;
      initialSimIdx := if append then numOfLoadedSims else 0;
      if !append {
        outputFile := [];
      }
      var written, finalCount, performed;
      simIndices, written, finalCount, performed :=
        RunInSerial(initialSimIdx, numberOfSimulations, outputFile, outputsOf);
      outputFile := written;
      LoadOutputFile();
    }
  }

  // ---------------------------------------------------------------------------
  // _SimMonitor (monte_carlo.py:1194-1272) and __run_in_serial (monte_carlo.py:286-303)

  /** The progress counter of a run; the start time is left out. */
  class SimMonitor {
    var initialCount: int
    var count: int
    var nSimulations: int

    constructor (initialCount: int, nSimulations: int)
      ensures this.initialCount == initialCount && count == initialCount
      ensures this.nSimulations == nSimulations
    {
      this.initialCount := initialCount;
      count := initialCount;
      this.nSimulations := nSimulations;
    }

    predicate KeepSimulating()
      reads this
    {
      count < nSimulations
    }

    /** `increment()`: one more simulation, returning the new count. */
    method Increment() returns (newCount: int)
      modifies this
      ensures count == old(count) + 1 && newCount == count
      ensures initialCount == old(initialCount) && nSimulations == old(nSimulations)
    {
      count := count + 1;
      newCount := count;
    }

    function PerformedSims(): int
      reads this
    {
      count - initialCount
    }
  }

  /** `__run_in_serial()`: a monitor starting at `initialCount` drives the loop, and each
      iteration runs the simulation numbered by the incremented count and appends its
      record to the outputs file. Simulations `initialCount + 1` up to `nSimulations`
      run, in order. */
  method RunInSerial(initialCount: int, nSimulations: int, file: seq<seq<Entry>>,
                     outputsOf: int -> seq<Entry>)
    returns (simIndices: seq<int>, written: seq<seq<Entry>>, finalCount: int, performed: int)
    ensures finalCount == Max(initialCount, nSimulations)
    ensures performed == Max(0, nSimulations - initialCount) == finalCount - initialCount
    ensures |simIndices| == performed
    ensures forall i :: 0 <= i < |simIndices| ==> simIndices[i] == initialCount + 1 + i
    ensures |written| == |file| + |simIndices| && written[..|file|] == file
    ensures forall i :: 0 <= i < |simIndices| ==> written[|file| + i] == outputsOf(simIndices[i])
  {
    var monitor := new SimMonitor(initialCount, nSimulations);
    simIndices := [];
    written := file;
    while monitor.KeepSimulating()
      invariant monitor.initialCount == initialCount && monitor.nSimulations == nSimulations
      invariant initialCount <= monitor.count <= Max(initialCount, nSimulations)
      invariant |simIndices| == monitor.count - initialCount
      invariant forall i :: 0 <= i < |simIndices| ==> simIndices[i] == initialCount + 1 + i
      invariant |written| == |file| + |simIndices| && written[..|file|] == file
      invariant forall i :: 0 <= i < |simIndices| ==> written[|file| + i] == outputsOf(simIndices[i])
      decreases nSimulations - monitor.count
    {
      var index := monitor.Increment();
      simIndices := simIndices + [index];
      written := written + [outputsOf(index)];
    }
    finalCount := monitor.count;
    performed := monitor.PerformedSims();
  }

  /** `" " * n`. */
  function Spaces(n: nat): (s: string)
    ensures |s| == n && forall i :: 0 <= i < n ==> s[i] == ' '
  {
    seq(n, _ => ' ')
  }

  /** The text `reprint(msg)` writes when the previous message was `lastPrintLen` long:
      the message, padded with blanks to cover the previous one. */
  function PaddedLine(msg: string, lastPrintLen: nat): (line: string)
    ensures |line| == Max(|msg|, lastPrintLen)
    ensures line[..|msg|] == msg
    ensures forall i :: |msg| <= i < |line| ==> line[i] == ' '
  {
    if |msg| < lastPrintLen then msg + Spaces(lastPrintLen - |msg|) else msg
  }

  /** The terminal line shows `msg` and nothing else. */
  predicate Shows(screen: string, msg: string) {
    |msg| <= |screen| && screen[..|msg|] == msg &&
    forall i :: |msg| <= i < |screen| ==> screen[i] == ' '
  }

  /** Writing `line` over `screen` after a carriage return. */
  function Overwrite(screen: string, line: string): string {
    if |screen| <= |line| then line else line + screen[|line|..]
  }

  /** The padding does its job: when the terminal shows the previous message, it shows
      exactly the new one after the padded line is written over it. */
  lemma ReprintShowsOnlyNewMessage(screen: string, previous: string, msg: string)
    requires Shows(screen, previous)
    ensures Shows(Overwrite(screen, PaddedLine(msg, |previous|)), msg)
  {
    var line := PaddedLine(msg, |previous|);
    var after := Overwrite(screen, line);
    if |line| < |screen| {
      assert after[..|msg|] == line[..|msg|];
      forall i | |msg| <= i < |after| ensures after[i] == ' ' {
        if i >= |line| {
          assert after[i] == screen[i];
        }
      }
    }
  }

  /** Holds the class attribute `_SimMonitor._last_print_len`. */
  class ReprintState {
    var lastPrintLen: nat

    constructor ()
      ensures lastPrintLen == 0
    {
      lastPrintLen := 0;
    }

    /** `reprint(msg)`: returns the text printed and remembers the message length. */
    method Reprint(msg: string) returns (line: string)
      modifies this
      ensures line == PaddedLine(msg, old(lastPrintLen))
      ensures lastPrintLen == |msg|
    {
      var padding := "";
      if |msg| < lastPrintLen {
        padding := Spaces(lastPrintLen - |msg|);
      }
      line := msg + padding;
      lastPrintLen := |msg|;
    }
  }

  // ---------------------------------------------------------------------------
  // _prepare_export_data, dict branch (monte_carlo.py:1135-1156)

  predicate IsPrivate(name: string) {
    |name| > 0 && name[0] == '_'
  }

  /** The `ValueError` `_time_function_serializer` raises for a `Function` with a callable
      source when no time range is given, which is how `_prepare_export_data` calls it. */
  datatype ExportError = CallableNeedsTimeRange(id: nat)

  /** What the serializer sees of each `Function`: whether its source is callable, and
      otherwise its source resampled at the chosen sample time. */
  datatype FunctionTable = FunctionTable(callableSource: nat -> bool, sampled: nat -> PyValue)

  /** `_time_function_serializer(f, None, sample_time)`. */
  function SerializeFunction(id: nat, functions: FunctionTable): (r: Result<PyValue, ExportError>)
    ensures r.Failure? <==> functions.callableSource(id)
    ensures r.Failure? ==> r.error == CallableNeedsTimeRange(id)
    ensures r.Success? ==> r.value == functions.sampled(id)
  {
    if functions.callableSource(id) then Failure(CallableNeedsTimeRange(id))
    else Success(functions.sampled(id))
  }

  /** What becomes of one attribute value: numbers are kept, dicts are filtered again
      (with functions always kept), `Function`s are serialised unless removed, and
      every other value is dropped (`None`). Serialising can raise. */
  function ExportValue(v: PyValue, removeFunctions: bool, functions: FunctionTable)
    : Result<Option<PyValue>, ExportError>
    decreases v, 1
  {
    match v
    case PyInt(_) => Success(Some(v))
    case PyFloat(_) => Success(Some(v))
    case PyBool(_) => Success(Some(v))
    case PyDict(entries) =>
      (match ExportDict(v, |entries|, false, functions)
       case Success(d) => Success(Some(PyDict(d)))
       case Failure(e) => Failure(e))
    case PyFunction(id) =>
      if removeFunctions then Success(None)
      else
        (match SerializeFunction(id, functions)
         case Success(x) => Success(Some(x))
         case Failure(e) => Failure(e))
    case _ => Success(None)
  }

  /** The dictionary built from the first `n` entries of `obj`, or the first error. */
  function ExportDict(obj: PyValue, n: nat, removeFunctions: bool, functions: FunctionTable)
    : Result<seq<Entry>, ExportError>
    requires obj.PyDict? && n <= |obj.entries|
    decreases obj, 0, n
  {
    if n == 0 then Success([])
    else
      match ExportDict(obj, n - 1, removeFunctions, functions)
      case Failure(e) => Failure(e)
      case Success(prev) =>
        var e := obj.entries[n - 1];
        if IsPrivate(e.key) then Success(prev)
        else
          match ExportValue(e.value, removeFunctions, functions)
          case Failure(err) => Failure(err)
          case Success(None) => Success(prev)
          case Success(Some(x)) => Success(Put(prev, e.key, x))
  }

  /** Once the first `i` entries have raised, the whole dict raises the same error. */
  lemma {:induction false} ExportDictFailurePersists(obj: PyValue, i: nat, n: nat,
                                                     removeFunctions: bool, functions: FunctionTable)
    requires obj.PyDict? && i <= n <= |obj.entries|
    requires ExportDict(obj, i, removeFunctions, functions).Failure?
    ensures ExportDict(obj, n, removeFunctions, functions) == ExportDict(obj, i, removeFunctions, functions)
  {
    if n > i {
      ExportDictFailurePersists(obj, i, n - 1, removeFunctions, functions);
    }
  }

  /** `_prepare_export_data(obj, sample_time, remove_functions)` on a dict: one loop per
      level, with a recursive call for each nested dict; an error of the serializer
      propagates. */
  method PrepareExportData(obj: PyValue, removeFunctions: bool, functions: FunctionTable)
    returns (r: Result<seq<Entry>, ExportError>)
    requires obj.PyDict?
    ensures r == ExportDict(obj, |obj.entries|, removeFunctions, functions)
    decreases obj
  {
    var result := [];
    for i := 0 to |obj.entries|
      invariant ExportDict(obj, i, removeFunctions, functions) == Success(result)
    {
      var attrName, attrValue := obj.entries[i].key, obj.entries[i].value;
      if !IsPrivate(attrName) {
        if IsNumber(attrValue) {
          result := Put(result, attrName, attrValue);
        } else if attrValue.PyDict? {
          var nested := PrepareExportData(attrValue, false, functions);
          if nested.Failure? {
            ExportDictFailurePersists(obj, i + 1, |obj.entries|, removeFunctions, functions);
            return Failure(nested.error);
          }
          result := Put(result, attrName, PyDict(nested.value));
        } else if attrValue.PyFunction? && !removeFunctions {
          var serialised := SerializeFunction(attrValue.id, functions);
          if serialised.Failure? {
            ExportDictFailurePersists(obj, i + 1, |obj.entries|, removeFunctions, functions);
            return Failure(serialised.error);
          }
          result := Put(result, attrName, serialised.value);
        }
      }
    }
    return Success(result);
  }

  /** The value an entry contributes when exporting succeeds. */
  function Kept(r: Result<Option<PyValue>, ExportError>): Option<PyValue> {
    if r.Success? then r.value else None
  }

  /** An entry that makes the export raise. */
  predicate EntryFails(e: Entry, removeFunctions: bool, functions: FunctionTable) {
    !IsPrivate(e.key) && ExportValue(e.value, removeFunctions, functions).Failure?
  }

  /** The exported dict, key by key: a key is present exactly when the input has it, it
      is not private and its value is of a kept kind, and then it holds the exported
      value. */
  lemma {:induction false} ExportDictByKey(obj: PyValue, n: nat, removeFunctions: bool,
                                           functions: FunctionTable, key: string)
    requires obj.PyDict? && n <= |obj.entries| && DistinctKeys(obj.entries)
    ensures var r := ExportDict(obj, n, removeFunctions, functions);
      r.Success? ==>
        Lookup(r.value, key) ==
          (match Lookup(obj.entries[..n], key)
           case None => None
           case Some(v) => if IsPrivate(key) then None else Kept(ExportValue(v, removeFunctions, functions)))
  {
    if n > 0 && ExportDict(obj, n, removeFunctions, functions).Success? {
      var prefix, e := obj.entries[..n - 1], obj.entries[n - 1];
      assert obj.entries[..n] == prefix + [e];
      ExportDictByKey(obj, n - 1, removeFunctions, functions, key);
      LookupSnoc(prefix, e, key);
      if e.key == key {
        LookupMissing(prefix, key);
      }
    }
  }

  /** The export raises exactly when some non-private entry's value raises, and the error
      is that of the first such entry, as the loop visits them. */
  lemma {:induction false} ExportDictFailsAtFirst(obj: PyValue, n: nat, removeFunctions: bool,
                                                  functions: FunctionTable)
    requires obj.PyDict? && n <= |obj.entries|
    ensures ExportDict(obj, n, removeFunctions, functions).Failure? <==>
      exists i :: 0 <= i < n && EntryFails(obj.entries[i], removeFunctions, functions)
    ensures var r := ExportDict(obj, n, removeFunctions, functions);
      r.Failure? ==>
        exists i :: (0 <= i < n && EntryFails(obj.entries[i], removeFunctions, functions) &&
          r == Failure(ExportValue(obj.entries[i].value, removeFunctions, functions).error) &&
          forall j :: 0 <= j < i ==> !EntryFails(obj.entries[j], removeFunctions, functions))
  {
    if n > 0 {
      ExportDictFailsAtFirst(obj, n - 1, removeFunctions, functions);
      if ExportDict(obj, n - 1, removeFunctions, functions).Success? &&
         EntryFails(obj.entries[n - 1], removeFunctions, functions) {
        assert forall j :: 0 <= j < n - 1 ==> !EntryFails(obj.entries[j], removeFunctions, functions);
      }
    }
  }

  /** The recursion does not pass `remove_functions` on: a `Function` one level down is
      serialised even when functions are removed at the top, so a callable one makes
      the export raise, while the top-level one is dropped whatever its source. */
  lemma NestedFunctionsAreKept(functions: FunctionTable)
    ensures var obj := PyDict([Entry("drag", PyFunction(1)),
                              Entry("parachute", PyDict([Entry("trigger", PyFunction(2))]))]);
      ExportDict(obj, 2, true, functions) ==
        if functions.callableSource(2) then Failure(CallableNeedsTimeRange(2))
        else Success([Entry("parachute", PyDict([Entry("trigger", functions.sampled(2))]))])
  {
    var inner := PyDict([Entry("trigger", PyFunction(2))]);
    assert ExportDict(inner, 0, false, functions) == Success([]);
    if !functions.callableSource(2) {
      assert ExportDict(inner, 1, false, functions) == Success([Entry("trigger", functions.sampled(2))]);
    }
  }
}
