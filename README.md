# Gravity tie engine (PFPE gravgui), modelled in Dafny

A gravity tie fixes the bias of a ship's DGS gravimeter. It does this from measurements taken while the ship is alongside a pier. The inputs are:

- three water heights from the pier to the water line, each timestamped;
- optionally, a *land tie*: readings in counts from a portable land meter. The readings are taken at the new site A (the ship or pier) twice, and at a base station B of known absolute gravity in between.

A land meter's counts become milligals through its calibration table. The three occupations give a drift rate. The drift-corrected difference A − B, added to the base station's gravity, gives the gravity at the pier.

The pier gravity plus the free-air term (0.3086 mGal/m times the mean depth) gives the gravity at the water line. The meter's series is:

1. sorted by time;
2. filtered twice with a Blackman FIR filter;
3. sliced to the height window;
4. averaged.

The bias is the water-line gravity minus that average.

In the code A is the new site and B the base station: `on_compute_landtie` adds the station gravity to A's mean reading less B's drift-corrected mean reading (lib/actual_computations.cpp:251-257).

The project models the C++ engine and the Python variant of the same computation.

C++ engine:

| file | what is modelled |
|---|---|
| `lib/tie_structs.h` | the tie record, as class `TieStructs.Tie` over a value snapshot `TieState` |
| `lib/actual_computations.cpp` | counts conversion (`CountsConversion`), the land tie (`LandTie`, `LandTieProperties`), the bias (`BiasComputation`, `BiasProperties`, with `FirFilter` and `TimeSort`) |
| `lib/time-functions.cpp` | `my_timegm` and `str_to_tm` (`TimeFunctions`) |
| `lib/rw-general.cpp` | the station and meter databases, calibration files and DGS laptop files (`RwGeneral`, with `TextLines` and `Decimal`) |
| `lib/rw-ties.cpp` | the tie file writer and reader (`RwTies`, `TomlProperties`) and the figures of the report (`TieReport`) |

Python variant, `py/tie_functions.py`:

- `PyTie.TieObject` is the `tie` object, with the same fields as optional values.
- Each command-line method is a method that follows its source step by step.
- Each method is proved equal to a step function on the state value `PyState`.

How the code is modelled:

- Imperative code stays imperative. The callbacks are called `on_compute_*` in the source. In the model they are methods on `Tie`, proved to leave the tie in the state a specification function computes.
- Loops carry invariants that tie them to prefix folds.
- Errors the source raises become `Result` values: `stof`'s `invalid_argument`, `substr`'s `out_of_range`, Python's `KeyError`, `IndexError`, `AttributeError`, `ValueError` and `ZeroDivisionError`, and the messages it prints before returning.
- Calls into code outside the model are parameters: `std::stof`/`std::stoi`, fixed-point formatting, `gmtime`/`strftime`, the Blackman filter design, and scipy's `filtfilt`.

## Model

| member | source | states |
|---|---|---|
| `TieStructs.Tie.constructor` | lib/tie_structs.h:90-110 | a new tie holds every default of the record: -999 sentinels, three unset readings per group, -99999 for the meter average, -999999 for the drift, no land tie |
| `TieStructs.Tie.SetGroups` | lib/actual_computations.cpp:205-245 | the three count groups are replaced and nothing else changes |
| `TieStructs.Tie.SetLandTieResults` | lib/actual_computations.cpp:258-261 | only the averages, the drift and the land tie value change |
| `CountsConversion.ChosenBracketUnique` | lib/actual_computations.cpp:169-178 | the table row the conversion loop selects is unique |
| `CountsConversion.ChosenUpTo` | lib/actual_computations.cpp:172-178 | the row selected among the first n rows is one of them |
| `CountsConversion.BracketIndex` | lib/actual_computations.cpp:169-178 | the selected row is a row of the table |
| `CountsConversion.ChosenUpToMeetsRule` | lib/actual_computations.cpp:172-178 | the row kept after n rows is the row 0 or a row at or below the count closest to it, strictly closer than every earlier candidate |
| `CountsConversion.BracketIndexIsChosen` | lib/actual_computations.cpp:169-178 | a row satisfies the selection rule if and only if it is the row the loop picks |
| `CountsConversion.CountsToMgalAt` | lib/actual_computations.cpp:179-180 | the converted value is the residual from the chosen row's bracket times its factor plus its mGal value |
| `CountsConversion.ChosenStep` | lib/actual_computations.cpp:173-177 | one loop iteration replaces the choice exactly when the row is strictly closer and not above the count |
| `CountsConversion.ConvertCountsMgals` | lib/actual_computations.cpp:167-182 | the loop computes the conversion function for any count, including counts outside the table |
| `CountsConversion.BelowTableUsesFirstRow` | lib/actual_computations.cpp:169-180 | a count below every later bracket is extrapolated from row 0, whatever its distance |
| `CountsConversion.AscendingTablePicksFloor` | lib/actual_computations.cpp:172-178 | in an ascending table the chosen row is the last bracket not above the count |
| `CountsConversion.WorkedExample` | lib/actual_computations.cpp:179-180 | counts 150 on a three-row table give 15 mGal |
| `LandTie.UsedMgals` | lib/actual_computations.cpp:205-213 | one converted value per reading with positive counts |
| `LandTie.UsedTimes` | lib/actual_computations.cpp:205-213 | the times of the readings with positive counts, never more than the readings |
| `LandTie.LandTieWithoutDrift` | lib/actual_computations.cpp:251-257 | equal site readings give zero drift and a tie of reference plus A minus B |
| `LandTie.LandTieExactUnderLinearDrift` | lib/actual_computations.cpp:251-257 | under a meter offset and a linear drift the formula returns the true gravity of the site |
| `LandTie.UsedStep` | lib/actual_computations.cpp:205-213 | one reading extends the used values and times exactly when its counts are positive |
| `LandTie.SumsStep` | lib/actual_computations.cpp:206-211 | one reading adds its share to the mGal sum, the time sum and the count |
| `LandTie.AccumulateReading` | lib/actual_computations.cpp:206-212 | the loop body converts a used reading and adds its share to each running sum |
| `LandTie.AccumulateGroup` | lib/actual_computations.cpp:205-213 | the loop over a group converts every used reading and returns the sums and count of the used ones |
| `LandTie.ConvertGroups` | lib/actual_computations.cpp:202-248 | groups are converted in order, stopping at the first empty group; the averages exist exactly when all three groups have used readings |
| `LandTie.LandTieFigures` | lib/actual_computations.cpp:184-257 | the values the callback computes, with completeness exactly when every group is used, agree with the land tie function |
| `LandTie.OnComputeLandTie` | lib/actual_computations.cpp:184-266 | the callback leaves the tie in the state the land tie function gives |
| `LandTie.ComputeLandTie` | lib/actual_computations.cpp:184-266 | the land tie function; `LandTieProperties.GuardsLeaveTieUnchanged`, `IncompleteKeepsResults`, `CompleteComputesTie`, `LandTieFrame` and `LandTieIdempotent` state its properties |
| `LandTieProperties.UsedTimesOfConverted` | lib/actual_computations.cpp:205-213 | conversion keeps the used times and values of a group |
| `LandTieProperties.ConvertedGroupIdempotent` | lib/actual_computations.cpp:205-213 | converting a group twice is converting it once |
| `LandTieProperties.AveragesIgnoreConversion` | lib/actual_computations.cpp:214-216 | a group's averages are the same before and after its conversion |
| `LandTieProperties.GuardsLeaveTieUnchanged` | lib/actual_computations.cpp:188-194 | without a calibration table or with a negative station gravity nothing changes |
| `LandTieProperties.LandTieFrame` | lib/actual_computations.cpp:258-261 | the land tie changes only counts, averages, drift and the land tie value |
| `LandTieProperties.IncompleteKeepsResults` | lib/actual_computations.cpp:214-246 | a group without used readings leaves averages, drift and tie value as they were |
| `LandTieProperties.CompleteComputesTie` | lib/actual_computations.cpp:250-261 | with all groups used the stored averages are the group means and the tie value is the tie formula of them |
| `LandTieProperties.LandTieKeepsShape` | lib/actual_computations.cpp:258-261 | three readings per group and three averages survive the land tie |
| `LandTieProperties.ConvertStageIdempotent` | lib/actual_computations.cpp:205-248 | the conversion stage is idempotent and keeps the group averages |
| `LandTieProperties.TieStageSettles` | lib/actual_computations.cpp:250-261 | writing the results commutes with conversion and is idempotent |
| `LandTieProperties.LandTieIdempotent` | lib/actual_computations.cpp:184-266 | running the land tie a second time changes nothing |
| `BiasComputation.UsedHeights` | lib/actual_computations.cpp:23-46 | at most three heights are gathered and every one is non-positive |
| `BiasComputation.HeightStamps` | lib/actual_computations.cpp:23-46 | one stamp per gathered height |
| `BiasComputation.SeqMin` | lib/actual_computations.cpp:80-81 | the minimum is an element and no element is smaller |
| `BiasComputation.SeqMax` | lib/actual_computations.cpp:83-84 | the maximum is an element and no element is larger |
| `BiasComputation.LowerBound` | lib/actual_computations.cpp:92 | the first position whose time is not below the value |
| `BiasComputation.UpperBound` | lib/actual_computations.cpp:93 | the first position whose time is above the value |
| `BiasComputation.PassInput` | lib/actual_computations.cpp:103-114 | a pass feeds ntaps zeros, the data and ntaps zeros |
| `BiasComputation.Pass` | lib/actual_computations.cpp:116 | the trimmed pass output has the length of the data |
| `BiasComputation.FilteredSeries` | lib/actual_computations.cpp:102-132 | the reversed double-pass series has the length of the samples |
| `BiasComputation.WindowOfReversed` | lib/actual_computations.cpp:136 | corrected half of the first finding: the slice of the reversed series at the mirrored indices, upper − lower elements |
| `BiasComputation.Feed` | lib/actual_computations.cpp:107-110 | feeding samples to the filter advances its delay line and returns its outputs |
| `BiasComputation.PassPieces` | lib/actual_computations.cpp:102-114 | a padded pass is its three loops one after the other |
| `BiasComputation.RunPass` | lib/actual_computations.cpp:102-116 | one pass with its padding and trim computes the pass function, carrying the filter state over |
| `BiasComputation.AverageOf` | lib/actual_computations.cpp:139-143 | the summing loop gives the mean of a nonempty slice (see Left out for 0/0) |
| `BiasComputation.MeterAverage` | lib/actual_computations.cpp:87-143 | corrected window (see Findings): the filtered, sliced average computes the corrected meter average function, keeping the sentinel on an empty window |
| `BiasComputation.GatherHeights` | lib/actual_computations.cpp:23-46 | the gathered heights and stamps are those of the set heights, negated |
| `BiasComputation.BiasFigures` | lib/actual_computations.cpp:53-143 | readiness as the guards decide; the series is sorted by time as a permutation of the samples; the figures agree with the bias function, on the corrected window |
| `BiasComputation.OnComputeBias` | lib/actual_computations.cpp:12-164 | the callback leaves the tie in the state the bias function gives for its sort of the samples, on the corrected window |
| `BiasComputation.ComputeBias` | lib/actual_computations.cpp:12-164 | the bias function, on the corrected window; its properties are `BiasProperties.BiasGuardsLeaveTieUnchanged`, `BiasFrame`, `NoPierGravityKeepsSentinels` and `NoCoverageFallsThrough` |
| `BiasComputation.DgsAverage` | lib/actual_computations.cpp:87-143 | the corrected meter average; `BiasProperties.MeterAverageIsWindowMean` and `MeterAverageNeedsSamples` state its value |
| `BiasComputation.PierGrav` | lib/actual_computations.cpp:48-52 | the pier gravity choice; `BiasProperties.PierGravChoice` states it |
| `BiasComputation.Taps` | lib/actual_computations.cpp:96 | the tap count; `BiasProperties.TapsIsTenth` states it |
| `BiasProperties.BiasGuardsLeaveTieUnchanged` | lib/actual_computations.cpp:53-61 | no set height, or no meter data, leaves the tie unchanged |
| `BiasProperties.BiasFrame` | lib/actual_computations.cpp:152-156 | only the four results change, and the bias is the water-line gravity less the meter average |
| `BiasProperties.PierGravChoice` | lib/actual_computations.cpp:48-52 | the land tie value is used exactly when a land tie is on and its value is positive |
| `BiasProperties.AverageHeightNonPositive` | lib/actual_computations.cpp:53-58 | the mean height is not positive and the water-line gravity does not exceed the pier gravity |
| `BiasProperties.NoPierGravityKeepsSentinels` | lib/actual_computations.cpp:54-58 | without a positive pier gravity water gravity and average height stay -999 |
| `BiasProperties.NoCoverageFallsThrough` | lib/actual_computations.cpp:87-147 | without coverage the meter average stays -99999 and the bias is still written from it |
| `BiasProperties.WindowIsExact` | lib/actual_computations.cpp:92-95 | on sorted times the bounds select exactly the samples inside the window |
| `BiasProperties.CoveredWindowIsInterior` | lib/actual_computations.cpp:87-95 | strict coverage keeps the window off both ends of the series |
| `BiasProperties.TapsIsTenth` | lib/actual_computations.cpp:96 | the number of taps is the window length divided by ten, truncated |
| `BiasProperties.PassInputMiddle` | lib/actual_computations.cpp:116 | trimming a pass input gives back the data |
| `BiasProperties.UnitFilterSeries` | lib/actual_computations.cpp:102-132 | with a one-tap unit filter the series is the samples reversed |
| `BiasProperties.WindowOfReversedIsWindow` | lib/actual_computations.cpp:136 | slicing the reversed series by the mirrored indices is the window of the samples reversed |
| `BiasProperties.MeterAverageIsWindowMean` | lib/actual_computations.cpp:131-143 | with a unit filter the corrected meter average is the mean of the samples in the height window |
| `BiasProperties.MeterAverageNeedsSamples` | lib/actual_computations.cpp:136-143 | the corrected average leaves the sentinel when the window holds no sample |
| `BiasProperties.WrittenWindow` | lib/actual_computations.cpp:136 | the slice as written, with forward indices into the reversed series |
| `BiasProperties.WrittenDgsAverage` | lib/actual_computations.cpp:87-143 | the meter average as written: forward slice, no value for an empty slice (0/0); `WrittenAverageIsMirroredMean` states its value |
| `BiasProperties.WrittenAverageIsMirroredMean` | lib/actual_computations.cpp:131-143 | as written, with a unit filter, the average is the mean of the mirror image of the height window, and an empty window gives no value |
| `BiasProperties.ExampleWindow` | lib/actual_computations.cpp:87-96 | a four-sample series covering one height: window [1, 2), zero taps |
| `BiasProperties.ExampleSeries` | lib/actual_computations.cpp:130-132 | the unit-filtered series of four samples is reversed |
| `BiasProperties.MirroredWindowExample` | lib/actual_computations.cpp:131-136 | the slice as written averages the mirrored sample 30 instead of 20 |
| `BiasProperties.EmptyWindowExample` | lib/actual_computations.cpp:136-143 | a covered height between two samples gives an empty window: 0/0 as written |
| `FirFilter.Shift` | lib/actual_computations.cpp:104 | each sample enters the delay line at the front and the oldest leaves |
| `FirFilter.History` | lib/actual_computations.cpp:103-129 | the delay line keeps its length |
| `FirFilter.Outputs` | lib/actual_computations.cpp:103-129 | one output per input sample |
| `FirFilter.Filter.constructor` | lib/actual_computations.cpp:100 | a new filter has the designed taps and a zero delay line |
| `FirFilter.Filter.DoSample` | lib/actual_computations.cpp:104 | one sample shifts the delay line and returns the dot product with the taps |
| `FirFilter.HistoryAppend` | lib/actual_computations.cpp:103-129 | feeding two runs is feeding their concatenation |
| `FirFilter.OutputsAppend` | lib/actual_computations.cpp:103-129 | the outputs of a concatenation are those of each run, the second starting from the first's state |
| `FirFilter.UnitFilterIsIdentity` | lib/actual_computations.cpp:103-110 | a one-tap unit filter returns its input |
| `FirFilter.HistoryForgets` | lib/actual_computations.cpp:103-129 | after at least as many samples as taps the delay line holds the newest samples, reversed |
| `FirFilter.HistoryFilled` | lib/actual_computations.cpp:103-129 | exactly as many samples as taps leave them reversed |
| `FirFilter.HistoryPartial` | lib/actual_computations.cpp:103-129 | fewer samples than taps push them in front of the oldest part of the old state |
| `TimeSort.Iota` | lib/actual_computations.cpp:66-67 | the indices 0 to n−1 in order |
| `TimeSort.Pairs` | lib/actual_computations.cpp:73-78 | one sample per gravity value |
| `TimeSort.Pick` | lib/actual_computations.cpp:75-78 | one sample per index |
| `TimeSort.PickRespectsMultiset` | lib/actual_computations.cpp:75-78 | reordering indices reorders the picked samples |
| `TimeSort.PickConcat` | lib/actual_computations.cpp:75-78 | picking by joined index lists joins the picks |
| `TimeSort.PermutedPairs` | lib/actual_computations.cpp:66-78 | a permutation of the indices picks a permutation of the samples |
| `TimeSort.SortIndices` | lib/actual_computations.cpp:66-71 | the index vector is sorted by time and a permutation of 0..n−1 |
| `TimeSort.SwapStep` | lib/actual_computations.cpp:69-71 | one swap moves the entry being inserted one place down |
| `TimeSort.InsertDone` | lib/actual_computations.cpp:69-71 | the insertion stops with one more entry sorted |
| `TimeSort.Insert` | lib/actual_computations.cpp:69-71 | insertion into the array keeps it a permutation and extends the sorted prefix |
| `TimeSort.SortByTime` | lib/actual_computations.cpp:65-78 | the reordered gravity and time vectors are a permutation of the sample pairs in time order |
| `Numerics.CDivTruncates` | lib/time-functions.cpp:14-18 | C integer division truncates toward zero, and the remainder takes the dividend's sign |
| `TimeFunctions.MyTimegm` | lib/time-functions.cpp:4-33 | my_timegm of a broken-down time; `MyTimegmAgrees` and the lemmas below state its value |
| `TimeFunctions.MyTimegmAgrees` | lib/time-functions.cpp:4-33 | from 1968 on, my_timegm is the second count of the proleptic Gregorian calendar |
| `TimeFunctions.CalendarAgreement` | lib/time-functions.cpp:14-21 | the closed-form day count of a month start equals the calendar's from 1968 on |
| `TimeFunctions.LeapDays` | lib/time-functions.cpp:15-18 | the leap-day corrections count the leap years since 1970 |
| `TimeFunctions.CumDaysAgree` | lib/time-functions.cpp:10-11 | the cumulative day table plus the Feb 29 correction is the days before a month |
| `TimeFunctions.EpochIsZero` | lib/time-functions.cpp:4-33 | 1970-01-01 00:00:00 is second 0 |
| `TimeFunctions.Timegm1967OneDayLate` | lib/time-functions.cpp:16 | for 1967 the truncating leap term makes the result one day late |
| `TimeFunctions.TimegmClockLinear` | lib/time-functions.cpp:22-28 | seconds, minutes and hours add linearly, without normalisation |
| `TimeFunctions.TimegmDayLinear` | lib/time-functions.cpp:22 | each day of the month adds 86400 seconds |
| `TimeFunctions.TimegmDst` | lib/time-functions.cpp:29-30 | only tm_isdst == 1 subtracts an hour |
| `TimeFunctions.TimegmMonthCarry` | lib/time-functions.cpp:14-15 | twelve months more and one year less give the same second |
| `TimeFunctions.Scanf` | lib/time-functions.cpp:39-44 | the conversions stop at the first mismatch, never more values than conversions |
| `TimeFunctions.StrToTm` | lib/time-functions.cpp:35-53 | the parsed time never claims daylight saving time |
| `TimeFunctions.ParsedTimeHasNoDst` | lib/time-functions.cpp:51 | a parsed time converts as standard time |
| `TimeFunctions.StrToTmIsoFull` | lib/time-functions.cpp:43-52 | six scanned ISO fields give year − 1900 and month − 1 |
| `TimeFunctions.ScanRendered` | lib/time-functions.cpp:44 | scanning rendered digit fields with their separators returns the field values |
| `TimeFunctions.IsoTextParses` | lib/rw-ties.cpp:53-56 | the ISO stamp the tie file writes parses back to the broken-down time |
| `TimeFunctions.TimegmOfUtc` | lib/time-functions.cpp:4-33 | a printable UTC time converts to its calendar second |
| `TimeFunctions.TimestampRoundTrip` | lib/rw-ties.cpp:53-56 | a timestamp written to the tie file reads back as the same second |
| `TextLines.Find` | lib/rw-general.cpp:51 | the first position of the character, or none when it is absent |
| `TextLines.UnquoteQuote` | lib/rw-general.cpp:55-60 | stripping the quotes around a quoted value gives the value back |
| `TextLines.UnquotePlain` | lib/rw-general.cpp:55-60 | an unquoted value is kept |
| `TextLines.UnquoteStripsOnce` | lib/rw-general.cpp:55-60 | only one pair of quotes is removed |
| `TextLines.SplitKeyValueParts` | lib/rw-general.cpp:51-60 | a key without '=' splits off at its '=' and the value is unquoted |
| `TextLines.Tokens` | lib/rw-general.cpp:137-140 | every token is nonempty and without white space |
| `TextLines.TokensOfJoin` | lib/rw-general.cpp:137-140 | words joined by spaces tokenise back to the words |
| `TextLines.SplitTokens` | lib/rw-general.cpp:137-140 | the tokenising loop computes the token list |
| `TextLines.SplitFields` | lib/rw-general.cpp:178-184 | the comma-splitting loop computes the field list |
| `TextLines.FieldsOfJoin` | lib/rw-general.cpp:182-184 | fields joined by commas split back to the fields |
| `RwGeneral.Scan` | lib/rw-general.cpp:30-64 | the line scan of the database reader; `ScanInvariant`, `ScanStep` and `ScanStopsAtError` state its properties |
| `RwGeneral.DatabaseOf` | lib/rw-general.cpp:16-67 | the database read from a file; `DatabaseSize` and `ReadSections` state it |
| `RwGeneral.ScanStopsAtError` | lib/rw-general.cpp:30-64 | once the record key overflows, later lines change nothing |
| `RwGeneral.ScanStep` | lib/rw-general.cpp:30-64 | each line advances the reader by one step |
| `RwGeneral.ReadSections` | lib/rw-general.cpp:16-67 | the reading loop computes the database function, an empty database for an unopened file |
| `RwGeneral.ReadStationFile` | lib/rw-general.cpp:16-67 | the station reader with the STATION_ prefix |
| `RwGeneral.ReadMeterFile` | lib/rw-general.cpp:70-120 | the meter reader with the LAND_METER_ prefix |
| `RwGeneral.RecordKeyShape` | lib/rw-general.cpp:41-42 | record keys below 100 are two digits whose value is the record number |
| `RwGeneral.RecordKeyInjective` | lib/rw-general.cpp:41-42 | distinct records get distinct keys |
| `RwGeneral.RecordKeysBelow` | lib/rw-general.cpp:41-44 | the keys of n records are numerals below n |
| `RwGeneral.RecordKeysCount` | lib/rw-general.cpp:41-44 | n records have n distinct keys |
| `RwGeneral.ScanInvariant` | lib/rw-general.cpp:16-67 | reading succeeds exactly when at most 100 sections open, and the counter is the number opened |
| `RwGeneral.DatabaseSize` | lib/rw-general.cpp:35-44 | the database holds one record per matching section, keyed 00, 01, … |
| `RwGeneral.OpenRecord` | lib/rw-general.cpp:38-44 | a matching header opens a fresh empty record under the next key |
| `RwGeneral.StoreValue` | lib/rw-general.cpp:49-62 | a key=value line inside a record stores the unquoted value under its key |
| `RwGeneral.IgnoreLineWithoutEquals` | lib/rw-general.cpp:51-52 | a line without '=' changes nothing |
| `RwGeneral.SkipForeignSection` | lib/rw-general.cpp:45-48 | another section closes the record, and its lines are ignored |
| `RwGeneral.IgnoreLinesBeforeHeader` | lib/rw-general.cpp:49 | lines before any header are ignored |
| `RwGeneral.Floats` | lib/rw-general.cpp:140-145 | tokens that do not convert are skipped |
| `RwGeneral.CalibFrom` | lib/rw-general.cpp:133-151 | a well-formed table with at most one row per line |
| `RwGeneral.CalibrationOf` | lib/rw-general.cpp:123-154 | the calibration read is always well formed, empty for an unopened file |
| `RwGeneral.ParseFloats` | lib/rw-general.cpp:140-145 | the token loop computes the converted floats |
| `RwGeneral.CalibStep` | lib/rw-general.cpp:146-150 | a line adds a row exactly when exactly three tokens convert |
| `RwGeneral.ReadLmCalib` | lib/rw-general.cpp:123-154 | the reading loop computes the calibration function |
| `RwGeneral.CalibFromAppend` | lib/rw-general.cpp:133-151 | the table of two runs of lines is the two tables one after the other |
| `RwGeneral.CalibOneLine` | lib/rw-general.cpp:137-150 | a single line gives a row exactly when it has three floats |
| `RwGeneral.CalibTableLine` | lib/rw-general.cpp:137-150 | a line of three numbers is read as the row of those numbers |
| `RwGeneral.ParseInts` | lib/rw-general.cpp:189-194 | all fields parse, or the read fails |
| `RwGeneral.ParseDgsLine` | lib/rw-general.cpp:174-217 | one line's tokenising and parsing computes the reading function, with the ship's format |
| `RwGeneral.DgsLinesStopAtError` | lib/rw-general.cpp:173-218 | a failed line ends the read |
| `RwGeneral.DgsFilesStopAtError` | lib/rw-general.cpp:167-220 | a failed file ends the read |
| `RwGeneral.DgsLinesStep` | lib/rw-general.cpp:173-218 | each line pushes at most one reading |
| `RwGeneral.ReadDgsFile` | lib/rw-general.cpp:172-219 | the line loop computes the series function for one file |
| `RwGeneral.DgsOf` | lib/rw-general.cpp:157-222 | the DGS series read from the files; `ReadDatDgs`, `DgsFilesParallel` and `DgsFilesAllOpen` state it |
| `RwGeneral.ReadDatDgs` | lib/rw-general.cpp:157-222 | the file loop computes the series: empty for an unsupported ship, failed for a file that does not open |
| `RwGeneral.DgsLinesParallel` | lib/rw-general.cpp:186-216 | each nonempty line adds one gravity and one time, keeping what came before |
| `RwGeneral.DgsFilesParallel` | lib/rw-general.cpp:157-222 | the gravity and time vectors returned have equal length |
| `RwGeneral.DgsFilesAllOpen` | lib/rw-general.cpp:169-171 | a successful read opened every file |
| `RwGeneral.LaptopReading` | lib/rw-general.cpp:186-204 | one laptop line's gravity and time; `LaptopStampIsUtc` states it |
| `RwGeneral.LaptopStampIsUtc` | lib/rw-general.cpp:186-204 | a laptop line's time fields give their UTC second |
| `RwGeneral.TimegmOfFields` | lib/rw-general.cpp:196-203 | the broken-down time built from the fields converts to their UTC second |
| `RwGeneral.ThompsonStampIsUtc` | lib/rw-general.cpp:206-216 | a Thompson line's date and time give their UTC second |
| `RwGeneral.UsTimeFields` | lib/time-functions.cpp:38-52 | the US date format gives month − 1 and year − 1900 |
| `RwTies.WithGroup` | lib/rw-ties.cpp:163-208 | the group written is the group read back |
| `RwTies.SetText` | lib/rw-ties.cpp:132-139 | a string field assignment keeps the tie's shape |
| `RwTies.SetNumber` | lib/rw-ties.cpp:148-158 | a float field assignment keeps the tie's shape |
| `RwTies.SetReading` | lib/rw-ties.cpp:163-204 | a reading assignment keeps the tie's shape |
| `RwTies.StoreNumber` | lib/rw-ties.cpp:148-184 | storing a converted number keeps the reader's shape |
| `RwTies.StoreStamp` | lib/rw-ties.cpp:188-208 | storing a converted time keeps the reader's shape |
| `RwTies.ApplySlot` | lib/rw-ties.cpp:131-210 | one key's assignment keeps the reader's shape |
| `RwTies.ApplyLine` | lib/rw-ties.cpp:111-212 | one line keeps the reader's shape |
| `RwTies.TomlFrom` | lib/rw-ties.cpp:111-213 | the lines keep the reader's shape |
| `RwTies.TomlOf` | lib/rw-ties.cpp:99-217 | the tie read keeps three readings per group and three averages |
| `RwTies.WriteText` | lib/rw-ties.cpp:132-139 | the method assigns exactly the named string field |
| `RwTies.WriteNumber` | lib/rw-ties.cpp:148-158 | the method assigns exactly the named float field |
| `RwTies.WriteReading` | lib/rw-ties.cpp:163-204 | the method assigns exactly the named reading |
| `RwTies.StoreNumberTo` | lib/rw-ties.cpp:148-184 | the tie and the local averages change as the reader function says |
| `RwTies.StoreStampTo` | lib/rw-ties.cpp:188-208 | the tie and the local times change as the reader function says |
| `RwTies.ApplySlotTo` | lib/rw-ties.cpp:131-210 | one key's assignment on the tie computes the reader function |
| `RwTies.ApplyLineTo` | lib/rw-ties.cpp:111-212 | one line on the tie computes the reader function |
| `RwTies.TomlStep` | lib/rw-ties.cpp:111-213 | each line advances the reader by one line |
| `RwTies.TomlStopsAtError` | lib/rw-ties.cpp:111-213 | an exception ends the read |
| `RwTies.TomlToTie` | lib/rw-ties.cpp:99-217 | the reader leaves the tie as the reader function gives, or reports its exception |
| `RwTies.WriteGroup` | lib/rw-ties.cpp:49-59 | the loop over one group emits its .c, .t and .m lines |
| `RwTies.WriteCounts` | lib/rw-ties.cpp:45-69 | the loop over the three groups emits their lines with their averages |
| `RwTies.WriteHeights` | lib/rw-ties.cpp:79-88 | the loop over the heights emits their .h and .t lines |
| `RwTies.TomlText` | lib/rw-ties.cpp:12-93 | the tie file text; `TieToToml` computes it and the `*KeysHandled` lemmas read it back |
| `RwTies.TieToToml` | lib/rw-ties.cpp:12-93 | the writer emits the tie file text of the tie |
| `RwTies.ReadingKeyText` | lib/rw-ties.cpp:51-57 | a reading key is a letter, a digit, a dot and a field letter |
| `RwTies.SlotOf` | lib/rw-ties.cpp:131-210 | the field a tie file key names; `StampKeySlot`, `StampKeyOf`, `ValueKeysOf` and the `*KeysHandled` lemmas state it |
| `RwTies.StampKeySlot` | lib/rw-ties.cpp:188 | a four-character key ending in .t is a time key |
| `RwTies.StampKeyOf` | lib/rw-ties.cpp:193-201 | the .t key of a count selects the time of that reading |
| `RwTies.ValueKeysOf` | lib/rw-ties.cpp:163-180 | the .c and .m keys of a count select that reading's counts and mGal value |
| `RwTies.AverageStampKeyOf` | lib/rw-ties.cpp:206-208 | an average time key selects that average's time |
| `RwTies.AverageMgalKeyOf` | lib/rw-ties.cpp:159-161 | an average value key selects that average |
| `RwTies.ReadingKeysHandled` | lib/rw-ties.cpp:51-57 | every key the writer emits for a count is read back into the same reading |
| `RwTies.AverageKeysHandled` | lib/rw-ties.cpp:64-65 | every average key the writer emits is read back into the same average |
| `RwTies.HeightKeysHandled` | lib/rw-ties.cpp:81-86 | every height key the writer emits is read back into the same height |
| `RwTies.TextKeyHandled` | lib/rw-ties.cpp:21-43 | every string key the writer emits is read back into the same field |
| `RwTies.NumberKeyHandled` | lib/rw-ties.cpp:30-43 | every float key the writer emits is read back into the same field |
| `TomlProperties.SkippedLines` | lib/rw-ties.cpp:112-122 | empty lines, headers and lines without '=' change nothing |
| `TomlProperties.KeyValueLine` | lib/rw-ties.cpp:121-130 | a key=value line applies its key to the unquoted value |
| `TomlProperties.ReadsQuotedText` | lib/rw-ties.cpp:132-139 | a quoted string value is stored without its quotes |
| `TomlProperties.LandtieValues` | lib/rw-ties.cpp:142-145 | "true" and "false" set the flag; any other value leaves it |
| `TomlProperties.StampKeys` | lib/rw-ties.cpp:188 | every key with .t at characters 2 and 3 is read as a time |
| `TomlProperties.ShortKeyThrows` | lib/rw-ties.cpp:188 | a key shorter than two characters throws out_of_range |
| `TomlProperties.SetTextIgnoresAverages` | lib/rw-ties.cpp:132-139 | string assignments do not touch the averages |
| `TomlProperties.SetNumberIgnoresAverages` | lib/rw-ties.cpp:148-158 | float assignments do not touch the averages |
| `TomlProperties.SetReadingIgnoresAverages` | lib/rw-ties.cpp:163-204 | reading assignments do not touch the averages |
| `TomlProperties.StoreNumberIgnoresAverages` | lib/rw-ties.cpp:148-184 | storing a number commutes with the tie's averages |
| `TomlProperties.StoreStampIgnoresAverages` | lib/rw-ties.cpp:188-208 | storing a time commutes with the tie's averages |
| `TomlProperties.ApplySlotIgnoresAverages` | lib/rw-ties.cpp:131-210 | a key's assignment commutes with the tie's averages |
| `TomlProperties.ApplyLineIgnoresAverages` | lib/rw-ties.cpp:111-212 | a line commutes with the tie's averages |
| `TomlProperties.TomlFromIgnoresAverages` | lib/rw-ties.cpp:111-213 | the whole read commutes with the tie's averages |
| `TomlProperties.AveragesReplaced` | lib/rw-ties.cpp:107-108 | the averages a tie held before the read never matter |
| `TomlProperties.AverageSlotStep` | lib/rw-ties.cpp:159-208 | only an average's own keys change it |
| `TomlProperties.AverageLineStep` | lib/rw-ties.cpp:159-208 | only lines with an average's keys change it |
| `TomlProperties.AveragesUntouched` | lib/rw-ties.cpp:111-213 | without its keys an average keeps its start value |
| `TomlProperties.MissingAverageIsUnset` | lib/rw-ties.cpp:107-217 | an average missing from the file is -999 after the read |
| `TomlProperties.NoHeightMgalKey` | lib/rw-ties.cpp:172-180 | no key reaches a height's mGal field |
| `TomlProperties.SetTextKeepsUnkeyed` | lib/rw-ties.cpp:132-139 | string assignments keep the fields no key names |
| `TomlProperties.SetNumberKeepsUnkeyed` | lib/rw-ties.cpp:148-158 | float assignments keep the fields no key names |
| `TomlProperties.SetReadingKeepsUnkeyed` | lib/rw-ties.cpp:163-204 | reading assignments keep the fields no key names |
| `TomlProperties.StoreNumberKeepsUnkeyed` | lib/rw-ties.cpp:148-184 | storing a number keeps the fields no key names |
| `TomlProperties.StoreStampKeepsUnkeyed` | lib/rw-ties.cpp:188-208 | storing a time keeps the fields no key names |
| `TomlProperties.UnkeyedSlotStep` | lib/rw-ties.cpp:131-210 | a key's assignment keeps the fields no key names |
| `TomlProperties.UnkeyedLineStep` | lib/rw-ties.cpp:111-212 | a line keeps the fields no key names |
| `TomlProperties.UnkeyedFold` | lib/rw-ties.cpp:111-213 | all lines keep the fields no key names |
| `TomlProperties.ReaderKeepsUnkeyed` | lib/rw-ties.cpp:99-217 | reading a tie file keeps meter data, databases, calibration and the other fields no key names |
| `TieReport.CorrectedReportPierGrav` | lib/actual_computations.cpp:48-52 | the pier gravity to print is the land tie value exactly when the bias used it |
| `TieReport.ReportMatchesLandTie` | lib/rw-ties.cpp:449-457 | after a complete land tie, the report's drift, corrected base reading and pier gravity lines add up to the stored land tie value |
| `TieReport.FormulaLines` | lib/rw-ties.cpp:449-457 | the report's three equations equal the drift and the tie formula |
| `TieReport.ReportPierAgreement` | lib/rw-ties.cpp:466-472 | the printed pier gravity is the one the bias used, except for a land tie whose value is not positive and differs from the station gravity |
| `TieReport.ReportPierMismatchExample` | lib/rw-ties.cpp:466-472 | a land tie switched on but not computed prints -999 while the bias used the station gravity |
| `TieReport.WaterLineEquation` | lib/rw-ties.cpp:495-503 | with the corrected pier gravity the water line equation holds after the bias |
| `PyTie.ImpToMetricInverse` | py/tie_functions.py:56-60 | converting back gives the total inches, and 12 inches are a foot |
| `PyTie.WrittenEntry` | py/tie_functions.py:269-286 | as written: a typed 0 or a skip gives no value, any other number is kept; the stamp is the time of entry |
| `PyTie.Entry` | py/tie_functions.py:276 | corrected half of the `or np.nan` finding: a typed number, zero included, is kept and a skip gives no value; the stamp is the time of entry |
| `PyTie.ZeroEntryIsLost` | py/tie_functions.py:276 | as written, a typed 0 becomes NaN |
| `PyTie.EntriesAgreeOffZero` | py/tie_functions.py:276 | the written and the corrected entry agree exactly when the input is not 0 |
| `PyTie.HeightsFrom` | py/tie_functions.py:301-311 | the kept heights are finite measurements keyed by their position, in order, at most one per measurement |
| `PyTie.FiniteHeightsKept` | py/tie_functions.py:303-311 | every finite measurement is kept |
| `PyTie.Finite` | py/tie_functions.py:331-334 | only readings with a value are kept |
| `PyTie.FiniteKeepsExactly` | py/tie_functions.py:331-334 | a reading is kept exactly when it is present and has a value |
| `PyTie.BracketBelow` | py/tie_functions.py:381-385 | no bracket below the count exactly when none is strictly below; otherwise the row of the largest one |
| `PyTie.BracketBelowIsChoice` | py/tie_functions.py:382-390 | the row found is the row satisfying the choice rule |
| `PyTie.EqualCountUsesLowerRow` | py/tie_functions.py:382 | a count equal to a bracket uses the row below, where the C++ conversion uses the equal row |
| `PyTie.ConvertOne` | py/tie_functions.py:381-396 | one count's conversion; `BracketBelow`, `BracketBelowIsChoice` and `ConvertReading` state it |
| `PyTie.ConvertCounts` | py/tie_functions.py:380-396 | every count converts, in order, or the first failing count stops the key |
| `PyTie.ConvertFrom` | py/tie_functions.py:377-398 | the dictionary keeps its size |
| `PyTie.ConvertFromEffect` | py/tie_functions.py:377-399 | every key keeps its counts and times, and is converted or untouched; all are converted on success |
| `PyTie.ConvertFromStops` | py/tie_functions.py:383-388 | a failing key is left, with every later key, unconverted |
| `PyTie.Lookup` | py/tie_functions.py:408-414 | the entry found has the key; none is found only when no entry has it |
| `PyTie.PyLandTie` | py/tie_functions.py:403-432 | the Python land tie and drift; `PyLandTieIsCpp` states them |
| `PyTie.PyLandTieIsCpp` | py/tie_functions.py:403-432 | the Python land tie and drift are the C++ formula |
| `PyTie.RealMin` | py/tie_functions.py:447 | the minimum is an element and no element is smaller |
| `PyTie.RealMax` | py/tie_functions.py:447 | the maximum is an element and no element is larger |
| `PyTie.CoversInclusiveIffInside` | py/tie_functions.py:447-449 | coverage holds exactly when every height time lies within the sample times, ends included |
| `PyTie.EqualEndsCovered` | py/tie_functions.py:447 | equal ends count as covered, where the C++ check refuses them |
| `PyTie.GoodIndices` | py/tie_functions.py:450 | the kept indices are increasing and inside the window |
| `PyTie.GoodIndicesComplete` | py/tie_functions.py:450 | every index inside the window is kept |
| `PyTie.Pick` | py/tie_functions.py:451-452 | indexing picks the element at each index |
| `PyTie.RoundTenthNearest` | py/tie_functions.py:456 | within 5 of a tenth, ties to even, zero exactly for at most 5 samples and at most 2 exactly for at most 25 |
| `PyTie.MeterGrav` | py/tie_functions.py:434-469 | the average meter gravity, or the exception raised; `MeterGravWindow` and `ShortWindowRaises` state it |
| `PyTie.MeterGravWindow` | py/tie_functions.py:434-469 | a result requires coverage and more than 25 samples, and is the mean of the filtered samples inside the window |
| `PyTie.ShortWindowRaises` | py/tie_functions.py:455-461 | 6 to 25 samples in the window give a cutoff of at least the Nyquist frequency, and firwin raises ValueError |
| `PyTie.Depths` | py/tie_functions.py:477 | each depth is minus the absolute height |
| `PyTie.MeanDepthNonPositive` | py/tie_functions.py:477-478 | the mean depth is not positive |
| `PyTie.PierChoicesAgree` | py/tie_functions.py:479-482 | the Python and C++ pier gravity agree except for a land tie whose value is not positive and differs from the station's |
| `PyTie.Values` | py/tie_functions.py:357 | one value per reading |
| `PyTie.Stamps` | py/tie_functions.py:357 | one stamp per reading |
| `PyTie.GroupsComputable` | py/tie_functions.py:354-357 | the stored groups have one time per count, no gravities yet, and the tie can be computed |
| `PyTie.LookupKeepsStamps` | py/tie_functions.py:398 | a lookup finds the same times after the conversion |
| `PyTie.ConvertKeepsComputable` | py/tie_functions.py:369-400 | conversion keeps what the land tie needs |
| `PyTie.HeightTimes` | py/tie_functions.py:446 | one time per height |
| `PyTie.RawGravs` | py/tie_functions.py:440-442 | one gravity per raw reading |
| `PyTie.HeightsStep` | py/tie_functions.py:288-316 | the heights step; `HeightsStepEffect` states it |
| `PyTie.ConvertStep` | py/tie_functions.py:369-400 | the conversion step; `ConvertStepEffect` states it |
| `PyTie.LandTieStep` | py/tie_functions.py:403-432 | the land tie step; `LandTieStepEffect` states it |
| `PyTie.BiasStep` | py/tie_functions.py:471-490 | the bias step; `BiasStepEffect` states it |
| `PyTie.MeterGravStep` | py/tie_functions.py:434-469 | the meter gravity step: the attribute is set to `MeterGrav`'s value, or the exception leaves the tie |
| `PyTie.HeightsStepEffect` | py/tie_functions.py:301-315 | the method exits exactly when no measurement is finite, leaving the tie; otherwise the heights are exactly the finite measurements |
| `PyTie.ConvertStepEffect` | py/tie_functions.py:369-400 | a one-row table is refused; every key keeps its data and is converted or untouched; all are converted on success |
| `PyTie.LandTieStepEffect` | py/tie_functions.py:403-432 | on success only the tie value and drift change, to the C++ formula of the means; on an exception nothing changes |
| `PyTie.FailedConversionStillMarksLandTie` | py/tie_functions.py:359-362 | after a conversion that stops early the tie is marked a land tie and raises IndexError, keeping the old tie value |
| `PyTie.UnconvertedKeyRaises` | py/tie_functions.py:412-414 | a key without gravities raises IndexError |
| `PyTie.ConvertFailLeavesUnconverted` | py/tie_functions.py:383-388 | a failed conversion leaves a key without gravities |
| `PyTie.BiasStepEffect` | py/tie_functions.py:471-490 | the method raises exactly when an attribute is unset; otherwise only the water gravity, at most the pier gravity, and the bias change |
| `PyTie.TieObject.constructor` | py/tie_functions.py:47-50 | a new tie has no land tie and every attribute unset |
| `PyTie.TieObject.UseImperial` | py/tie_functions.py:52-54 | only the unit changes |
| `PyTie.TieObject.ThreeWaterHeights` | py/tie_functions.py:288-316 | the method computes the heights step |
| `PyTie.TieObject.ConvertMeterCounts` | py/tie_functions.py:369-400 | the loop over the keys computes the conversion step |
| `PyTie.TieObject.ComputeLandTie` | py/tie_functions.py:403-432 | the method computes the land tie step |
| `PyTie.TieObject.LandTieCounts` | py/tie_functions.py:318-363 | the command-line land tie computes its step: guards, kept readings, store, convert, mark, compute |
| `PyTie.TieObject.StoreAndTie` | py/tie_functions.py:354-362 | the end of the land tie computes its step |
| `PyTie.TieObject.CalculateAverageMeterGrav` | py/tie_functions.py:434-469 | the method computes the meter gravity step |
| `PyTie.TieObject.ComputeBias` | py/tie_functions.py:471-490 | the method computes the bias step |
| `PyTie.KeepFinite` | py/tie_functions.py:331-334 | the loop keeps exactly the finite readings |
| `PyTie.ConvertKey` | py/tie_functions.py:379-396 | the loop over one key's counts computes its conversion or its first failure |
| `PyTie.ConvertReading` | py/tie_functions.py:381-396 | one count converts, or prints why it cannot |
| `PyTie.ConvertCountsStep` | py/tie_functions.py:380-396 | one count extends the conversion, or stops it |
| `PyTie.PrefixFails` | py/tie_functions.py:383-388 | a failure in a prefix is the failure of the whole key |
| `PyTie.ValidAfterConvert` | py/tie_functions.py:398-399 | storing converted keys keeps the object valid |

## Left out

- The GTK half of every callback: labels, buttons, entries and the widget updates of `toml_to_tie`, lib/rw-ties.cpp:219-385. The GUI branches of the Python methods (`cmd` false, `kwargs`) are also left out.
- RwTies.TomlToTie, TomlProperties.ReaderKeepsUnkeyed: describe lib/rw-ties.cpp:99-217 only. The lookup at lib/rw-ties.cpp:255-264, which replaces `stinfo.this_station` from the station database when the station is named (and is not "Other" without an alternative name), is not modelled, so after the real callback `this_station` may differ from what these contracts say. Modelling it needs the GUI's iteration over the database, which is in the GTK half.
- The `debug_dgs` branches of `on_compute_bias`. They are switched off by a constant, `lib/grav-constants.h`.
- BiasComputation.MeterAverage, BiasComputation.OnComputeBias, BiasComputation.BiasFigures: compute the corrected window of the first finding (the mirrored slice of the reversed series) and keep the -99999 sentinel when the window is empty. The code as written (forward slice, 0/0 on an empty slice) is `BiasProperties.WrittenDgsAverage`, described by `BiasProperties.WrittenAverageIsMirroredMean`.
- BiasComputation.AverageOf: requires a nonempty slice. The source divides 0 by 0 there, giving NaN, which reals cannot represent; the empty case is the second finding.
- FirFilter.Filter.DoSample, FirFilter.Filter.constructor: `filt.h` is not part of this model. The filter is taken to be a direct-form FIR: a delay line of one entry per tap, zero at the start, and an output that is the dot product of the taps with the delay line. `BiasProperties.UnitFilterSeries`, `MeterAverageIsWindowMean` and the first finding rest on this.
- LandTie.SiteTimesDiffer: the land tie divides the drift by the difference of A's two mean times (lib/actual_computations.cpp:251-253) without checking it. Equal times give a float infinity or NaN. The model requires the times to differ, in `ComputeLandTie` and `OnComputeLandTie`.
- Floating point: `float` and `double` are modelled as reals. The model does not capture float32 rounding of station gravity and counts, NaN or infinity.
  - NaN from numpy's mean of an empty list, or from equal mean times, is kept out by preconditions: `PyTie.TieComputable`, `PyTie.ShipTimesDiffer`, and nonempty heights in `PyTie.PyValid`.
  - C++ `difftime` is exact integer subtraction.
- `std::stof`/`std::stoi` are parameters returning an optional value; "none" stands for `invalid_argument`. Fixed-point formatting, `gmtime`, `strftime` and the Blackman filter design are parameters too. The model does not say which digits are printed.
- Undefined behaviour is modelled as the nearest defined behaviour:
  - `value.front()` and `value.back()` on an empty string, and an out-of-range token index in `read_dat_dgs`, become a no-op or an error result.
  - `cumdays` with a negative month index is excluded by `TimeFunctions.MonthIndexDefined`.
- `RwTies.TomlToTie`: on an exception the C++ leaves the tie partly updated. The model only reports the exception.
- Values containing line breaks, and files that do not split into lines as `std::getline` splits them: files are sequences of lines, or none when they do not open.
- File opening and writing: `tie_to_toml` and `write_report` produce line lists, and the open failure of `tie_to_toml`, lib/rw-ties.cpp:16-19, is not modelled. `write_report` is modelled only for its computed figures (`TieReport`). The model does not cover the lines it prints, their formatting or their times.
- Python:
  - `hasattr` checks are modelled as optional attributes.
  - The database reads in `__init__` and the JSON `save_tie`/`reread_tie` are not part of this model.
  - `np.loadtxt` returns a one-dimensional array for a one-row table, and an empty table is possible. The model keeps a well-formed table and refuses one row with the source's message.
  - `read_dat_dgs`, `read_raw_dgs_theor` and file reading are inputs: sample vectors of equal length.
  - `filtfilt`/`firwin` are one length-preserving parameter. firwin's one error modelled is its ValueError for a cutoff at or above the Nyquist frequency (`PyTie.ShortWindowRaises`); the filter's coefficients are not modelled.
  - The interactive retry loop of `_get_timestamped_float` is replaced by the typed entry (`PyTie.Typed`).
  - `station_info['GRAVITY']` is modelled as an already parsed optional real.
- `BiasComputation.OnComputeBias` returns its sort of the samples as ghost outputs, because `std::sort` is unstable. The model states that such a sort exists and that the result is computed from it, not which of the equal-time orders is chosen.

## Findings

| source | as written | input that shows it | evidently intended | confidence | as-written member | corrected member |
|---|---|---|---|---|---|---|
| lib/actual_computations.cpp:131-136 | after `std::reverse`, the window is sliced with the forward indices `lower_index..upper_index` | samples 10, 20, 30, 40 at times 0..3 with one height at time 1 and a one-tap unit filter: the average is 30 | the mean of the samples inside the height window, here 20 | not executed | `BiasProperties.MirroredWindowExample` | `BiasProperties.MeterAverageIsWindowMean` |
| lib/actual_computations.cpp:136-143 | coverage is checked but the window may hold no sample, and `gravsum/result.size()` divides 0 by 0 | samples at 0 and 10 with one height at 5 | no meter average, leaving the -99999 sentinel | not executed | `BiasProperties.EmptyWindowExample` | `BiasProperties.MeterAverageNeedsSamples` |
| py/tie_functions.py:276 | `float(input(text)) or np.nan` turns a typed 0 into NaN, so "x ft 0 in" is dropped although the prompt asks for 0 | typing 0 at any prompt | the number 0 is kept | not executed | `PyTie.ZeroEntryIsLost` | `PyTie.EntriesAgreeOffZero` |
| lib/rw-ties.cpp:466-472 | the report prints the land tie value as pier gravity whenever the land tie flag is on | land tie on, tie not computed (value -999), station gravity 979000: the report prints -999, the bias used 979000 | the pier gravity the bias was computed from | not executed | `TieReport.ReportPierMismatchExample` | `TieReport.WaterLineEquation` |
