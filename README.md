# RocketPy core bookkeeping, modelled in Dafny

This project models four sequential pieces of RocketPy, a rocket trajectory simulator, and proves properties of them.

- **Weather-grid helpers** (`rocketpy/environment/tools.py`):
  - `find_longitude_index` and `find_latitude_index` locate a query in a monotone coordinate axis with Python's `bisect`. A descending axis is reversed in place, searched, and reversed back. An endpoint fix-up and a range check follow.
  - `mask_and_clean_dataset` stacks masked columns and drops incomplete rows.
  - The range and warning decision of `find_time_index`.
  - `convert_wind_heading_to_direction`.
- **Monte Carlo motor inputs** (`rocketpy/monte_carlo/mc_solid_motor.py`): the `set_attr` validator of `McSolidMotor`. It checks each of 14 fields and completes a number, an empty list or a `(std, "distribution")` pair with the motor's nominal value into the form `(nominal, std)`, `[nominal]` or `(nominal, std, "distribution")`. Checked pairs, triples and lists are kept, or it fails. A tuple led by a number whose length is neither 2 nor 3 reaches no check and is kept as it is.
- **Monte Carlo bookkeeping** (`rocketpy/simulation/monte_carlo.py`):
  - export-list validation;
  - `set_results` grouping;
  - the `_SimMonitor` counter and the serial loop it drives;
  - `simulate` in serial mode: its start index, the records it appends to the outputs file and the reload at its end;
  - the padding rule of `reprint`;
  - the dict branch of `_prepare_export_data`.
- **Rocket configuration** (`rocketpy/Rocket.py`):
  - the coordinate-system orientation;
  - the three eccentricity setters;
  - the parachute, rail-button and aerodynamic-surface lists;
  - the center-of-pressure sum of `evaluate_static_margin`.

## Files and modules

| file | module | contents |
|---|---|---|
| `wrappers.dfy` | `Wrappers` | `Option`, `Result` |
| `pyobjects.dfy` | `PyObjects` | Python values as `isinstance` sees them; an ordered dict as a list of entries with `Lookup` and `Put`; Python's floored float `%` for the divisors 180 and 360 |
| `grid_index.dfy` | `GridIndex` | `bisect_right`/`bisect_left`, the axis search, longitude normalisation, and the two search methods over an `array` that is reversed in place |
| `environment_tools.dfy` | `EnvironmentTools` | dataset cleaning, the time-index decision, the wind heading |
| `mc_solid_motor.dfy` | `McSolidMotor` | field normalisation and the `SetAttr` loop |
| `monte_carlo.dfy` | `MonteCarloSim` | export list, result grouping, `SimMonitor`, the serial run, `reprint`, export-data filtering |
| `rocket.dfy` | `RocketConfig` | the `Rocket` class and the center-of-pressure arithmetic |

## Modelling decisions

- **Python's `bisect`** is modelled as the standard library's binary search, step for step. It therefore has no precondition on order. The bracketing and failure lemmas assume a monotone axis, as the source does implicitly.
- **The axis search:**
  - An empty axis makes `lon_list[0]` raise `IndexError`. This is modelled as `EmptyAxis`.
  - An axis with one entry always fails the range check.
  - **Longitude 45 on `[-180, -90, 0, 90, 180]`:** the code returns index 3, the upper index of the bracket `[0, 90]` (`GridIndex.LongitudeIndexExample`).
- **Python's `%` on floats is floored.**
  - `FloorMod` is stated for the two divisors the source uses, 180 and 360.
  - In real arithmetic its result lies in `[0, m)` and differs from the argument by a whole number of turns; `FloorModUnique` shows this fixes the result.
  - One consequence of the code as written: a longitude of 360 or more on a −180..180 axis becomes `-180 + longitude % 180`, so 360 maps to −180 and 370 to −170 (see "## Findings"). For longitudes in `[-180, 360)` the mapping is the expected one (`GridIndex.NormalizeLongitudeWithinOneTurn`).
- **Python values:** `isinstance(v, (int, float))` is true for `bool`, and `IsNumber` keeps that.
- **Dicts** are lists of entries in insertion order.
  - `Put` replaces the value of an existing key in place and otherwise appends, as `d[k] = v` does.
  - The validated `values` of `set_attr` and the `results` of `set_results` are `map`s, because only their key-value content matters there.
- **`SolidMotor` attributes** read with `getattr` are a map from attribute names to values. A missing one is `MissingAttribute`.
- **Export-list order:** `__check_export_list` iterates `set(export_list)`, whose order Python does not fix. `CheckExportList` therefore picks the reported bad entry freely (`:|`). Its contract says which errors are possible.
- **`Components.add`** is taken to append a `(component, position)` pair. `Components` is not part of this model; its behaviour is inferred from how `Rocket` iterates it.
- **Zero lift:** when the surfaces' lift slopes sum to zero, `cp_position /= total_lift_coeff_der` divides by zero. This is modelled as the error `ZeroTotalLift`, with the fields holding the sums reached before the division.
- **`_time_function_serializer`** is called with no time range, so it raises `ValueError` for a `Function` whose source is callable. A `FunctionTable` parameter says, for each `Function`'s identity, whether its source is callable and otherwise what its resampled source is. `SerializeFunction` raises `CallableNeedsTimeRange` or returns that value, and the error propagates out of `_prepare_export_data`.
- **Files of a Monte Carlo run:** the outputs file is a sequence of records, one per line. The record a simulation exports is a parameter `outputsOf` of `Simulate`.

## Model

| member | source | states |
|---|---|---|
| PyObjects.FloorMod | rocketpy/environment/tools.py:281 | Python's float `x % m` for `m` of 180 or 360 lies in `[0, m)`, differs from `x` by whole multiples of `m`, and is `x` itself for `x` in `[0, m)` |
| PyObjects.FloorModUnique | rocketpy/environment/tools.py:278-281 | those two properties determine the result of `%` uniquely |
| PyObjects.Put | rocketpy/simulation/monte_carlo.py:1145 | after `d[key] = v` the key maps to `v` and every other key maps to what it did before |
| GridIndex.BisectRightIsInsertionPoint | rocketpy/environment/tools.py:285 | on an ascending axis `bisect_right` returns the point with every entry before it `<= x` and every entry from it on `> x` |
| GridIndex.BisectLeftIsInsertionPoint | rocketpy/environment/tools.py:289 | on an ascending axis `bisect_left` returns the point with every entry before it `< x` and every entry from it on `>= x` |
| GridIndex.BisectAgreeOffGrid | rocketpy/environment/tools.py:285-289 | for a query equal to no entry, `bisect_left` and `bisect_right` return the same index |
| GridIndex.NormalizeLongitude | rocketpy/environment/tools.py:276-281 | signed axis (either endpoint negative): a longitude below 180 is unchanged, otherwise the result lies in `[-180, 0)` and differs from the input by whole half-turns. Unsigned axis: the result lies in `[0, 360)`, differs by whole turns, and equals the input when it is already in `[0, 360)` |
| GridIndex.NormalizeLongitudeWithinOneTurn | rocketpy/environment/tools.py:276-278 | on a signed axis a longitude in `[-180, 360)` maps into `[-180, 180)`, either unchanged or reduced by 360 |
| GridIndex.NormalizeLongitudeFullTurnExample | rocketpy/environment/tools.py:276-278 | on a −180..180 axis the code maps longitude 360 to −180, which is not a whole number of turns away from 360 |
| GridIndex.NormalizeLongitudeIntended | rocketpy/environment/tools.py:276-281 | the intended normalisation gives, for every longitude, a value in `[-180, 180)` on a signed axis and in `[0, 360)` otherwise, a whole number of turns from the input |
| GridIndex.NormalizeLongitudeIntendedAgrees | rocketpy/environment/tools.py:276-281 | for longitudes in `[-180, 360)` the intended normalisation equals the code's |
| GridIndex.CheckInsideBracketsAscending | rocketpy/environment/tools.py:283-299 | on an ascending axis a successful search gives `1 <= index <= len-1` with `axis[index-1] <= q <= axis[index]` |
| GridIndex.CheckInsideBracketsDescending | rocketpy/environment/tools.py:286-299 | on a descending axis a successful search gives `1 <= index <= len-1` with `axis[index-1] >= q >= axis[index]` |
| GridIndex.CheckInsideFailsIff | rocketpy/environment/tools.py:291-299 | the range check fails exactly when the axis has fewer than two entries or the query lies strictly outside the endpoints' span; both endpoints are found |
| GridIndex.ReversedAxisMirrorsIndex | rocketpy/environment/tools.py:283-290 | for a strictly monotone axis and a query off the grid, searching the axis and its reversal succeed together, with mirrored indices `j = len - i` and the same bracketing pair |
| GridIndex.LongitudeIndexCorrect | rocketpy/environment/tools.py:255-301 | `find_longitude_index` returns the normalised longitude and a bracketing index for both orientations. It fails exactly for an empty axis, a single-entry axis or a normalised longitude outside the span; an empty axis gives `EmptyAxis` and any other failure the `ValueError` naming the normalised longitude and the axis's first and last entries |
| GridIndex.LatitudeIndexCorrect | rocketpy/environment/tools.py:304-342 | `find_latitude_index` follows the same bracketing and failure rules, with the same error payload, and returns the latitude unchanged |
| GridIndex.LongitudeIndexExample | rocketpy/environment/tools.py:283-301 | longitude 45 on `[-180, -90, 0, 90, 180]` resolves to index 3, between 0 and 90 |
| GridIndex.ReverseInPlace | rocketpy/environment/tools.py:288 | `list.reverse()` leaves the array holding its old contents reversed |
| GridIndex.SearchAxis | rocketpy/environment/tools.py:283-293 | the in-place search leaves the caller's list as it was and returns the index of the search, fix-up included |
| GridIndex.FindLongitudeIndex | rocketpy/environment/tools.py:255-301 | the method over the caller's array restores the array and returns what `LongitudeIndex` describes |
| GridIndex.FindLatitudeIndex | rocketpy/environment/tools.py:304-342 | the method over the caller's array restores the array and returns what `LatitudeIndex` describes |
| EnvironmentTools.ColumnStack | rocketpy/environment/tools.py:163 | row `i`, column `j` of the stacked array is entry `i` of column `j` |
| EnvironmentTools.CompressRows | rocketpy/environment/tools.py:167 | the kept rows are no more than the input rows and all are complete |
| EnvironmentTools.CompressRowsKeepsCompleteRows | rocketpy/environment/tools.py:167 | `compress_rows` keeps exactly the complete rows, in their original order (a subsequence), as many as there are |
| EnvironmentTools.MaskAndCleanDatasetCorrect | rocketpy/environment/tools.py:163-173 | the result holds exactly the complete stacked rows in order. The warning is issued exactly when some cell is masked; with nothing masked the stacked array is returned unchanged |
| EnvironmentTools.MaskAndCleanDatasetExample | rocketpy/environment/tools.py:163-173 | two columns of five with one masked cell give four rows and a warning |
| EnvironmentTools.TimeIndexDecision | rocketpy/environment/tools.py:379-398 | fails exactly when the nearest index is the first with an earlier query, or the last with a later one. Otherwise it returns the nearest index, warning exactly when the times differ |
| EnvironmentTools.TimeIndexFailsIffOutsideFile | rocketpy/environment/tools.py:367-390 | with increasing file times and a nearest index, the decision fails exactly when the query lies before the first or after the last sample |
| EnvironmentTools.TimeIndexBeforeStartExample | rocketpy/environment/tools.py:379-385 | a time before the first sample fails and names the file's start |
| EnvironmentTools.WindHeadingToDirection | rocketpy/environment/tools.py:66 | the direction lies in `[0, 360)` and differs from `heading - 180` by whole turns; for a heading in `[0, 360)` it is the opposite heading, `heading ± 180` |
| EnvironmentTools.WindHeadingToDirectionInvolution | rocketpy/environment/tools.py:51-66 | converting twice gives back a heading in `[0, 360)` |
| McSolidMotor.Normalise | rocketpy/monte_carlo/mc_solid_motor.py:78-129 | a number `v` becomes `(motor.field, v)`, an empty list `[motor.field]` and a `(std, "distribution")` pair the triple `(motor.field, std, "distribution")`; a missing motor attribute fails exactly on those three inputs. Each error holds exactly when its `assert` or `raise` fires: `EmptyTuple` for `()`, `FirstItemNotNumber`, `SecondItemInvalid`, `ThirdItemNotString`, `ListItemNotNumber`, `NotSupported`; every error names its field; every other accepted input is stored unchanged |
| McSolidMotor.NormaliseStoresStoredForm | rocketpy/monte_carlo/mc_solid_motor.py:80-125 | with a numeric nominal value on the motor, every accepted input is stored in a documented form (`(nominal, std)`, `(nominal, std, "distribution")` or a non-empty list of numbers), except a number-led tuple of length 1 or at least 4, which is stored unchanged. A rewritten input leads with the motor's nominal value, and validating a stored value again changes nothing |
| McSolidMotor.StoredFormIsFixedPoint | rocketpy/monte_carlo/mc_solid_motor.py:80-121 | a value is accepted unchanged exactly when it is a stored form: a documented form, or a tuple led by a number whose length is neither 2 nor 3 |
| McSolidMotor.FieldOutcome | rocketpy/monte_carlo/mc_solid_motor.py:78 | a field missing from `values` fails with `MissingEntry` (the `KeyError`), otherwise it is normalised |
| McSolidMotor.SetAttr | rocketpy/monte_carlo/mc_solid_motor.py:61-130 | succeeds exactly when every listed field normalises. Then the keys are unchanged, each of the 14 fields holds its normalised value and every other entry (`solidMotor` included) is untouched. A failure reports the first failing field's error, in list order |
| MonteCarloSim.CheckExportList | rocketpy/simulation/monte_carlo.py:572-674 | no list or an empty list gives the 15 standard names. Otherwise it succeeds, returning the list itself, exactly when every entry is an exportable string. `TypeError` comes exactly from an unhashable entry or else from some non-string; `ValueError` names an entry outside the allowed set; a list of strings can only fail with `ValueError` |
| MonteCarloSim.StandardOutputNotExportable | rocketpy/simulation/monte_carlo.py:588-659 | the default names outside the allowed set are exactly `initial_stability_margin` and `out_of_rail_stability_margin` |
| MonteCarloSim.GroupedCollectsColumns | rocketpy/simulation/monte_carlo.py:818-824 | a key is in the results exactly when some record has it. Its list holds that key's values in log order, one per record that has it |
| MonteCarloSim.MonteCarlo.SetResults | rocketpy/simulation/monte_carlo.py:801-824 | the results become the grouping of the output log; nothing else changes |
| MonteCarloSim.MonteCarlo.constructor | rocketpy/simulation/monte_carlo.py:170-173 | importing an existing outputs file at construction leaves log, count and results reflecting it |
| MonteCarloSim.MonteCarlo.LoadOutputFile | rocketpy/simulation/monte_carlo.py:705-723 | the `output_file` setter leaves the log equal to the file, the loaded count equal to its number of lines and the results grouped from the log |
| MonteCarloSim.MonteCarlo.Simulate | rocketpy/simulation/monte_carlo.py:224-239 | the start index is the number of loaded simulations when appending and 0 otherwise, and the simulations after it are numbered consecutively. The outputs file is truncated unless appending and then holds one record per simulation, in order. `__terminate_simulation` reloads it, so log, count and results reflect the file. After appending to `k` loaded simulations the count is `max(k, n)`; without appending it is `max(0, n)` |
| MonteCarloSim.SimMonitor.constructor | rocketpy/simulation/monte_carlo.py:1199-1203 | the count starts at the initial count |
| MonteCarloSim.SimMonitor.Increment | rocketpy/simulation/monte_carlo.py:1208-1210 | the count grows by exactly one and the new count is returned; nothing else changes |
| MonteCarloSim.RunInSerial | rocketpy/simulation/monte_carlo.py:286-303 | the loop, driven by `count < n_simulations`, runs simulations `initial+1` to `n` in order: `max(0, n - initial)` of them. Each appends its record to the outputs file after what it held. It ends at `count = max(initial, n)` with `performed_sims = count - initial_count` |
| MonteCarloSim.PaddedLine | rocketpy/simulation/monte_carlo.py:1265-1270 | the printed text has length `max(len(msg), last_print_len)`, starts with the message and is blank after it |
| MonteCarloSim.ReprintShowsOnlyNewMessage | rocketpy/simulation/monte_carlo.py:1246-1272 | written over a terminal line that shows the previous message, the padded line leaves exactly the new message visible |
| MonteCarloSim.ReprintState.Reprint | rocketpy/simulation/monte_carlo.py:1265-1272 | prints the padded line and sets `_last_print_len` to the message's length |
| MonteCarloSim.SerializeFunction | rocketpy/simulation/monte_carlo.py:1090-1109 | with no time range, serialising fails exactly for a `Function` with a callable source, and otherwise gives its resampled source |
| MonteCarloSim.PrepareExportData | rocketpy/simulation/monte_carlo.py:1135-1156 | the per-level loop, with its recursive calls for nested dicts, builds the dict `ExportDict` describes, or stops with the serializer's error |
| MonteCarloSim.ExportDictByKey | rocketpy/simulation/monte_carlo.py:1137-1156 | on success, key by key: private keys and values that are not numbers, dicts or kept `Function`s are absent. Numbers are copied, nested dicts are filtered with functions kept, and `Function`s are serialised unless removed |
| MonteCarloSim.ExportDictFailsAtFirst | rocketpy/simulation/monte_carlo.py:1137-1156 | the export raises exactly when some non-private entry's value raises, and with the error of the first such entry |
| MonteCarloSim.NestedFunctionsAreKept | rocketpy/simulation/monte_carlo.py:1147-1156 | the recursion does not forward `remove_functions`: a top-level `Function` is dropped, while a nested one is serialised, which raises when its source is callable |
| RocketConfig.Orientation | rocketpy/Rocket.py:203-213 | `"tail_to_nose"` gives 1, `"nose_to_tail"` gives −1, and exactly every other name fails |
| RocketConfig.NewRocket | rocketpy/Rocket.py:203-240 | fails exactly on an invalid orientation. Otherwise it gives a new rocket with `_csys` chosen by the name, all four eccentricities 0, no parachutes, surfaces or rail buttons, and `cp_position` 0 |
| RocketConfig.Rocket.Init | rocketpy/Rocket.py:203-240 | for a known orientation name, `_csys` is the sign it stands for (`Valid`, kept by every method), and the initial eccentricities, lists and center of pressure are zero or empty |
| RocketConfig.CmShiftIsCpThenThrust | rocketpy/Rocket.py:901-907 | moving the center of mass by `(x, y)` is moving the center of pressure and the thrust line by `(-x, -y)` |
| RocketConfig.CpAndThrustShiftsCommute | rocketpy/Rocket.py:931-960 | the cp and thrust setters touch disjoint fields and commute |
| RocketConfig.Rocket.AddCmEccentricity | rocketpy/Rocket.py:901-910 | cp eccentricity `(-x, -y)`, `thrust_eccentricity_y = -x`, `thrust_eccentricity_x = -y`; returns the rocket; nothing else changes |
| RocketConfig.Rocket.AddCpEccentricity | rocketpy/Rocket.py:931-936 | sets only the cp eccentricity to `(x, y)`; returns the rocket |
| RocketConfig.Rocket.AddThrustEccentricity | rocketpy/Rocket.py:958-963 | sets `thrust_eccentricity_y = x` and `thrust_eccentricity_x = y` and nothing else; returns the rocket |
| RocketConfig.Rocket.AddParachute | rocketpy/Rocket.py:833-840 | the parachute list grows by exactly the new parachute, which is returned as its last element |
| RocketConfig.Rocket.SetRailButtons | rocketpy/Rocket.py:872-878 | the buttons are `abs(upper - lower)` apart and are appended at the lower button's position |
| RocketConfig.Rocket.EvaluateStaticMargin | rocketpy/Rocket.py:420-431 | the total lift slope is the sum over the surfaces. `cp_position` is 0 without surfaces, and otherwise the lift-weighted sum of `position - csys * cpz` divided by that total; a zero total fails |
| RocketConfig.CpPositionWithinSurfaces | rocketpy/Rocket.py:425-431 | with every lift slope positive the computation succeeds and the center of pressure lies between the surfaces' smallest and largest centers of pressure |
| RocketConfig.CpPositionMirrored | rocketpy/Rocket.py:202-207 | describing the rocket in the opposite orientation, with positions negated, negates its center of pressure |
| RocketConfig.Zip | rocketpy/Rocket.py:512 | `zip` pairs the two lists position by position, up to the shorter length |
| RocketConfig.Rocket.AddSurfaces | rocketpy/Rocket.py:511-517 | the surfaces are appended paired with their positions, up to the shorter list as `zip` does, and the center of pressure is recomputed |
| RocketConfig.Rocket.AddSurface | rocketpy/Rocket.py:514-517 | a single surface (the `TypeError` branch) is appended at its position, and the center of pressure is recomputed |

## Left out

- Bilinear interpolation, elevation lookup and pressure-level reading in `tools.py`: floating-point numerics on netCDF data through a helper module that is not part of this model.
- The netCDF calendar calls of `find_time_index` (`date2index`, `date2num`, `num2date`): a foreign library. The nearest index and the numeric times are parameters.
- `calculate_wind_heading` and `calculate_wind_speed`: they use `arctan2` and square roots on floats.
- The numpy masked-array types. A masked entry is `None`, and only the 1-D columns `column_stack` accepts are modelled.
- The pydantic field coercion that runs before `set_attr` (the declared field types of `McSolidMotor`): pydantic is a foreign library. `set_attr` is given the values as they reach it.
- The `assert`s of `set_attr` vanish under `python -O`; the model keeps them as errors.
- The inputs and errors files, the JSON encoding of records, the file-synchronisation warning and KML export; the parallel runner with its manager, locks, queues and events; the keyboard-interrupt and error handling of the serial loop: I/O and concurrency.
- `set_processed_results`: numpy means and standard deviations on floats.
- The discretisation and resampling inside `_time_function_serializer` and the `sample_time` it receives: numpy on `Function` objects. Whether a source is callable and the resampled value are the parameter `FunctionTable`.
- The non-dict branch of `_prepare_export_data`, which walks `dir(obj)` of an arbitrary object: Python reflection.
- The timing and formatting of `print_update_status` and `print_final_status`: clock and string formatting. Only the counts they use and the padding of `reprint` are modelled.
- `MonteCarloSim.MonteCarlo.SetResults`: `results` is a `map`, so the key order of the Python dict is not modelled.
- The `Rocket` quantities computed with the external `Function` class: `total_mass`, `center_of_mass`, `reduced_mass`, `thrust_to_weight`, the `static_margin` function and the motor's propellant position. Also left out: the fin, nose and tail constructors, which build external aerodynamic surface objects. A surface is reduced to `clalpha(0)` and `cpz`.
- `RocketConfig.Rocket.AddSurfaces`: takes two lists. The source's further `TypeError` fallback, where `zip` fails on a list of surfaces paired with a single position and the whole argument is added as one component, is not modelled.
- Floating point: every float is an exact real. Python's float `%` can round up to the divisor (`-1e-15 % 360` gives `360.0`), and NaN and infinities are not represented, so `PyObjects.FloorMod`, `GridIndex.NormalizeLongitude` and `EnvironmentTools.WindHeadingToDirection` state the real-number results.
- McSolidMotor.NormaliseStoresStoredForm: does not promise a documented form for every accepted input, because the source keeps a number-led tuple of length 1 or at least 4 without any check; the lemma states that exception.
- `GridIndex.LongitudeIndexCorrect`, `GridIndex.LatitudeIndexCorrect`: the bracketing is proved for monotone axes only. On an unsorted axis the source's `bisect` result has no meaning, and the model states nothing beyond computing it.

## Findings

| source | as written | input that shows it | evidently intended | confidence | as-written member | corrected member |
|---|---|---|---|---|---|---|
| rocketpy/environment/tools.py:276-278 | on a signed axis a longitude of at least 180 becomes `-180 + longitude % 180` | longitude 360 on `[-180, ..., 180]` gives −180, the antimeridian, instead of 0 | `(longitude + 180) % 360 - 180`, the same direction in `[-180, 180)` | medium, not executed | GridIndex.NormalizeLongitudeFullTurnExample | GridIndex.NormalizeLongitudeIntended |

`GridIndex.LongitudeIndex` and the search methods keep the code's normalisation, so they describe the program as it is. `GridIndex.NormalizeLongitudeIntendedAgrees` shows that the intended normalisation gives the same value for every longitude in `[-180, 360)`. Every property proved about the longitude search therefore holds for the corrected version on those inputs.
