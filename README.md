# Failure events and labels of the synthetic mill and crusher data

This project models the discrete event and label logic of two synthetic data generators for
grinding equipment at a Peruvian mine, and proves properties of it in Dafny.

The ball-mill generator (`RealisticMillDataGenerator`) works as follows:
- It builds a configuration for each of six mills by merging per-mill variations over shared
  base settings.
- It schedules failure events for each mill with a Weibull clock and a 7-to-30-day cool-down.
  The failure type is a tendency-weighted categorical draw and the severity a type-conditioned
  one.
- It degrades three signals in the open window of 720 hours before each failure. The feed- and
  discharge-bearing vibrations, both copies of each, change under the two bearing failure types
  only. The feed-bearing temperature rises under every failure. No other column is degraded.
- It labels every hourly row with 7-, 14- and 30-day failure flags, the failure type, the
  severity and the days to the nearest failure within 30 days (365 when there is none).

The crusher script builds one table per crusher, for three crushers, with one row every 30
minutes for two years:
- each row gets a shift, an operating-hours counter and clipped sensor columns;
- each alert row gets a failure type, mode, component and severity;
- a clamped forward row of each alert is marked as the failure's occurrence, together with the
  confirmed component and the affected system.

Every random value (Weibull gaps, uniform samples, categorical choices, noise factors) is an
input to the model. Times are exact `real` hours from the start of the simulation. Mill row `i`
is hour `i`, and crusher row `i` is hour `i / 2`.

Modules, in dependency order:
- `Signals`: `np.clip` of values, series and column tables.
- `FailureModes`: the failure-type table, the tendency weighting and normalisation, and
  categorical draws as inverse-CDF picks on a uniform sample.
- `Scheduling`: `_schedule_failures`. It is a specification (`FailureTimes`, `Records`,
  `Schedule`) plus the while loop (`RunSchedule`), which is proved to build exactly that list.
- `FailureTargets`: `_generate_failure_targets`. It is a fold `LabelsAt` plus the in-place
  update of a label array.
- `Degradation`: `_apply_degradation_effects` and the lubrication and liner-wear helpers of
  `DegradationModels`.
- `MillOperation`: the hourly index, the shift offset and shift label, and the clip ranges of
  the mill columns.
- `MillGenerator`: the configuration merge, and the generator object with its
  `scheduled_failures` list.
- `Crushers`: the crusher script.

Inside a failure's window, `_apply_degradation_effects` adds a linear ramp to a temperature
signal. It replaces a vibration signal by the bearing-degradation value only for the two bearing
failure types, and it leaves any other signal alone. The per-type growth patterns of the
`degradation_patterns` table (exponential, linear, sudden) reach the data only through that
bearing-degradation value, which is an input here.

## Model

| member | source | states |
|---|---|---|
| Signals.Clip | generacion_data/maquina_bolas_data_generator.py:412 | The clipped value lies in [lo, hi]. It equals the input when the input is in range, and the nearer bound otherwise. |
| Signals.ClipSeries | generacion_data/maquina_bolas_data_generator.py:284 | A clipped series has the input's length and lies in [lo, hi]. In-range elements are kept. |
| Signals.ClipToRange | generacion_data/maquina_bolas_data_generator.py:288 | A column clipped to its range lies in that range and keeps its in-range values. |
| Signals.ClipColumns | generacion_data/generar_datos_sinteticos_chancadoras_2anios.py:24-35 | Each column of the table lies in its own range, keeps its length and keeps its in-range values. |
| FailureModes.Contains | generacion_data/maquina_bolas_data_generator.py:581 | Python's substring test `sub in s`. It holds only when `sub` is no longer than `s`. |
| FailureModes.ContainsIffOccurs | generacion_data/maquina_bolas_data_generator.py:581 | `sub in s` holds exactly when `sub` occurs in `s` at some offset. |
| FailureModes.BearingKeys | generacion_data/maquina_bolas_data_generator.py:581 | `'bearing' in failure_type` holds exactly for `bearing_feed` and `bearing_discharge`, among the five keys. |
| FailureModes.TendencyWeights | generacion_data/maquina_bolas_data_generator.py:339-346 | The adjusted weights are positive and never below the table weights. A weight rises exactly for the types the mill's tendency favours. |
| FailureModes.Normalize | generacion_data/maquina_bolas_data_generator.py:348-350 | Each probability times the total is the original weight. The probabilities are positive and sum to exactly 1. |
| FailureModes.TendencyTotal | generacion_data/maquina_bolas_data_generator.py:339-349 | The adjusted weights sum to 1.35 for "bearings", 1.2 for "liners", 1.1 for "lubrication" and 1 for any other tendency. |
| FailureModes.FailureTypeProbabilities | generacion_data/maquina_bolas_data_generator.py:331-350 | The probabilities form a positive distribution over the five types. After normalisation a type ends above its table weight exactly when the mill's tendency favours it, for every tendency. A favoured type also gets more probability than an unfavoured type with the same table weight. |
| FailureModes.Pick | generacion_data/maquina_bolas_data_generator.py:363-366 | The pick from position `i` is the index whose cumulative-sum interval holds `u`. |
| FailureModes.Categorical | generacion_data/maquina_bolas_data_generator.py:363-366 | `np.random.choice(p=...)` on a uniform sample returns an index whose interval [cdf(r), cdf(r) + p[r]) holds `u`. That index never has probability zero. |
| FailureModes.DrawFailureType | generacion_data/maquina_bolas_data_generator.py:363-366 | The drawn type is the table key at an index of positive probability. |
| FailureModes.SeverityProbabilities | generacion_data/maquina_bolas_data_generator.py:369-374 | Each type's severity probabilities are three positive numbers that sum to 1. |
| FailureModes.DrawSeverity | generacion_data/maquina_bolas_data_generator.py:368-374 | The drawn severity is 1, 2 or 3. |
| Scheduling.MillMtbf | generacion_data/maquina_bolas_data_generator.py:353-354 | The MTBF is non-negative and at most the 4380-hour base for a condition of at most 1. |
| Scheduling.ScaleDraws | generacion_data/maquina_bolas_data_generator.py:358 | There is one draw per sample, in the ranges numpy produces. A Weibull sample of at most 1 gives a gap of at most the MTBF. |
| Scheduling.NextFailure | generacion_data/maquina_bolas_data_generator.py:361-381 | A recorded failure carries the mill id, the failure time and a severity in {1, 2, 3}. Its type has positive probability under the mill's distribution. |
| Scheduling.FailureTimes | generacion_data/maquina_bolas_data_generator.py:356-385 | The loop records at most one failure per draw it consumes. |
| Scheduling.FailureTimesSpaced | generacion_data/maquina_bolas_data_generator.py:356-385 | Every recorded failure time lies in [start, end). Consecutive times are at least 168 hours (7 days) apart. |
| Scheduling.Records | generacion_data/maquina_bolas_data_generator.py:376-381 | There is one record per failure time. |
| Scheduling.Schedule | generacion_data/maquina_bolas_data_generator.py:356-385 | The failures the loop records: at most one per draw, each with the mill id and a severity in {1, 2, 3}. |
| Scheduling.ScheduleWellFormed | generacion_data/maquina_bolas_data_generator.py:356-385 | A mill's schedule lies in [start, end) and is spaced at least 7 days apart. Every failure carries the mill id and a severity in {1, 2, 3}. |
| Scheduling.RunSchedule | generacion_data/maquina_bolas_data_generator.py:356-385 | The while loop terminates, because the hours left before the horizon decrease. It builds exactly `Schedule`, so its result is well formed. |
| Scheduling.ScheduleFailures | generacion_data/maquina_bolas_data_generator.py:322-387 | `_schedule_failures` returns the schedule for the tendency's normalised probabilities, and that schedule is well formed. |
| FailureTargets.Mark | generacion_data/maquina_bolas_data_generator.py:618-635 | A failure leaves a row outside its 30-day window unchanged. Inside, it sets `falla_en_30d`, writes its type and severity, and lowers `dias_hasta_falla` to the smaller of the old value and its own distance. |
| FailureTargets.LabelsAt | generacion_data/maquina_bolas_data_generator.py:605-635 | The labels of a row after all failures, applied in list order. A row without `falla_en_30d` holds exactly the defaults. |
| FailureTargets.MarkRow | generacion_data/maquina_bolas_data_generator.py:618-635 | The column-by-column updates of one row give that row's labels after the failure is applied. |
| FailureTargets.MarkRows | generacion_data/maquina_bolas_data_generator.py:612-635 | After one failure, every row of the label array holds its old labels with that failure applied. |
| FailureTargets.GenerateFailureTargets | generacion_data/maquina_bolas_data_generator.py:597-637 | After the defaults and the loop over failures, every row holds `LabelsAt` of its time and the whole failure list. |
| FailureTargets.LabelsNested | generacion_data/maquina_bolas_data_generator.py:621-627 | `falla_en_7d` implies `falla_en_14d`, which implies `falla_en_30d`. |
| FailureTargets.LabelsCovered | generacion_data/maquina_bolas_data_generator.py:621-627 | Each window flag is set if and only if some failure's window of that width covers the row. |
| FailureTargets.UncoveredKeepsDefaults | generacion_data/maquina_bolas_data_generator.py:605-610 | A row outside every failure's 30-day window keeps all defaults: false flags, 'normal', severity 0 and 365.0 days. |
| FailureTargets.DaysIsMinimum | generacion_data/maquina_bolas_data_generator.py:631-635 | On a covered row, `dias_hasta_falla` is at most every covering failure's distance, equals one of them, and lies in (0, 30]. On an uncovered row it is 365. |
| FailureTargets.LastCoveringExists | generacion_data/maquina_bolas_data_generator.py:623-629 | If some failure covers the row, there is a last one in list order. |
| FailureTargets.KindFromLastCovering | generacion_data/maquina_bolas_data_generator.py:627-629 | On a row with a last covering failure, `falla_en_30d` is set, and `tipo_falla` and `severidad_falla` are that failure's. |
| FailureTargets.PastFailureIgnored | generacion_data/maquina_bolas_data_generator.py:618-623 | A failure at or before the row's time does not affect the row's labels, wherever it stands in the list. |
| Degradation.TemperatureRamp | generacion_data/maquina_bolas_data_generator.py:592 | Inside the window the temperature increase lies strictly between 0 and 2 degrees. |
| Degradation.Degrade | generacion_data/maquina_bolas_data_generator.py:573-593 | One failure leaves a row outside its window unchanged. It raises a temperature row inside the window by between 0 and 2 degrees. It leaves a vibration row unchanged unless the failure is a bearing failure, and it never changes any other signal. |
| Degradation.DegradeV | generacion_data/maquina_bolas_data_generator.py:581-588 | The second signal changes only for a vibration signal, inside the window, under a bearing failure. |
| Degradation.DegradedAt | generacion_data/maquina_bolas_data_generator.py:566-595 | The main signal after all failures, applied in list order. A temperature signal never ends below its base value. |
| Degradation.DegradedVAt | generacion_data/maquina_bolas_data_generator.py:567-595 | The second signal after all failures, applied in list order. For a signal other than vibration it stays at its noisy starting value. |
| Degradation.ApplyFailure | generacion_data/maquina_bolas_data_generator.py:573-593 | For one failure, every row of both signal arrays holds its old value with that failure applied. |
| Degradation.ApplyDegradationEffects | generacion_data/maquina_bolas_data_generator.py:562-595 | Both returned signals, row by row, are the base signal and its noisy copy with all failures applied in list order. |
| Degradation.OutsideWindowsUnchanged | generacion_data/maquina_bolas_data_generator.py:574-575 | A row outside the (0, 720)-hour window of every failure keeps both signals. |
| Degradation.TemperatureGainsAdd | generacion_data/maquina_bolas_data_generator.py:590-593 | A temperature signal ends as its base value plus the ramps of all covering failures. |
| Degradation.GainBounds | generacion_data/maquina_bolas_data_generator.py:592-593 | The total gain is between 0 and 2 degrees per covering failure. It is zero exactly when no failure covers the row. |
| Degradation.NonBearingLeavesVibration | generacion_data/maquina_bolas_data_generator.py:581 | A vibration signal with no covering bearing failure keeps its base value. |
| Degradation.LastBearingExists | generacion_data/maquina_bolas_data_generator.py:581-588 | If some bearing failure covers the row, there is a last one in list order. |
| Degradation.LastBearingWins | generacion_data/maquina_bolas_data_generator.py:581-588 | Both vibration signals hold the value drawn for the last covering bearing failure. The second signal also carries that failure's noise factor. |
| Degradation.OnlyVibrationChangesSecond | generacion_data/maquina_bolas_data_generator.py:566-593 | Only a vibration signal's second copy ever changes. A signal that is neither vibration nor temperature is left as it was. |
| Degradation.OilDegradation | generacion_data/maquina_bolas_data_generator.py:167 | Oil degradation is clamped to at most 1. It is non-negative for a non-negative age, and it is 1 exactly from one year (8760 h) on. |
| Degradation.LubricationDegradation | generacion_data/maquina_bolas_data_generator.py:162-171 | For an oil quality in [0, 100] the temperature rise is between 0 and 25 degrees. Perfect oil older than a year adds exactly 5. |
| Degradation.WearFactor | generacion_data/maquina_bolas_data_generator.py:159 | For wear in [0, 100]% the factor is between 1 and 1.15, and it is exactly 1.15 at 100%. |
| Degradation.LinerWearEffect | generacion_data/maquina_bolas_data_generator.py:154-160 | A non-negative power grows by at most 15%. |
| MillOperation.DurationDays | generacion_data/maquina_bolas_data_generator.py:222 | `int(duration_years * 365.25)` is the floor of the product. |
| MillOperation.HourlyIndex | generacion_data/maquina_bolas_data_generator.py:276 | There are `days * 24 + 1` hourly timestamps from 0 to the end, both included, one hour apart. |
| MillOperation.HourOfDay | generacion_data/maquina_bolas_data_generator.py:406 | The hour of day is below 24 and congruent to the row index modulo 24. |
| MillOperation.ShiftOffset | generacion_data/maquina_bolas_data_generator.py:407-409 | The offset is -10 exactly for hours before 8, +5 exactly for 8 to 15, and 0 exactly from 16 on. |
| MillOperation.TurnoLabelAsWritten | generacion_data/maquina_bolas_data_generator.py:491-492 | `pd.cut` with right-closed bins labels hours 0 to 8 as A and hours 17 to 23 as C. |
| MillOperation.TurnoLabel | generacion_data/maquina_bolas_data_generator.py:407-409 | The shift of an hour is its eight-hour block: A, B or C. |
| MillOperation.ShiftOffsetMatchesTurno | generacion_data/maquina_bolas_data_generator.py:406-409 | The feed-rate offset of each hour is the effect of that hour's shift. |
| MillOperation.TurnoAsWrittenDisagrees | generacion_data/maquina_bolas_data_generator.py:491-492 | The `turno` column as written differs from the offset's shift exactly at hours 8 and 16. |
| MillOperation.BaseConditionColumns | generacion_data/maquina_bolas_data_generator.py:284-307 | Work index lies in [10, 20], hardness in [3, 6.5], humidity in [4, 12] and feed P80 in [9000, 15000]. |
| MillOperation.OperationColumns | generacion_data/maquina_bolas_data_generator.py:415-467 | Speed lies in [70, 85]% of critical, ball charge in [28, 36], pulp density in [68, 78] and oil quality in [70, 100]. |
| MillOperation.FeedRate | generacion_data/maquina_bolas_data_generator.py:402-412 | The feed rate lies in [180, 350]. Each row is 280 plus its variation plus its shift offset, clipped. |
| MillOperation.FeedRateUnclippedNearMean | generacion_data/maquina_bolas_data_generator.py:411-412 | With a variation within 60 t/h either way the clip never bites. |
| MillGenerator.Merge | generacion_data/maquina_bolas_data_generator.py:265-266 | The merged config has every key of both maps. The variation's value wins, and base values survive where the variation has no key. |
| MillGenerator.BaseConfig | generacion_data/maquina_bolas_data_generator.py:242-247 | The base settings are exactly the motor power rating (2000 kW), mill diameter, mill length and critical speed. The critical speed is the given value. |
| MillGenerator.MillVariationsTable | generacion_data/maquina_bolas_data_generator.py:250-263 | `mill_variations` has the six mills M1 to M6. M1 tends to bearing failures, M3 to liner wear and M5 to lubrication failures, and M2, M4 and M6 are normal. |
| MillGenerator.VariationSchedulable | generacion_data/maquina_bolas_data_generator.py:265-266 | A merged config holds every base key, and it has the mill's own condition and tendency. |
| MillGenerator.MergeAll | generacion_data/maquina_bolas_data_generator.py:265-266 | There is one merged config per mill. Each holds every base key, is usable by the scheduler, and carries its mill's own condition and tendency. |
| MillGenerator.ConditionsInRange | generacion_data/maquina_bolas_data_generator.py:250-263 | All six mills have a condition in (0, 1]. |
| MillGenerator.InitializeMillConfigs | generacion_data/maquina_bolas_data_generator.py:236-268 | There is one config per mill M1 to M6, each holding all base keys and usable by the scheduler. |
| MillGenerator.MillDataGenerator.constructor | generacion_data/maquina_bolas_data_generator.py:218-234 | The horizon is `int(duration_years * 365.25)` days of hours, the configs are initialised and no failure is scheduled yet. |
| MillGenerator.MillDataGenerator.ScheduleMill | generacion_data/maquina_bolas_data_generator.py:396-398 | The mill's schedule is well formed, and `scheduled_failures` is extended by exactly that list. The generator stays valid: every stored failure belongs to a configured mill, lies in [0, end) and has a severity in {1, 2, 3}. |
| Crushers.HourOfRow | generacion_data/generar_datos_sinteticos_chancadoras_2anios.py:12 | Half-hourly row `i` falls in hour `(i / 2) % 24`: the hour is below 24 and is congruent to `i / 2` modulo 24. |
| Crushers.Turno | generacion_data/generar_datos_sinteticos_chancadoras_2anios.py:19 | `turno` is "Día" exactly when 6 <= hour < 18, and "Noche" otherwise. |
| Crushers.OperatingHours | generacion_data/generar_datos_sinteticos_chancadoras_2anios.py:39 | The counter lies in [0, 720) and is the elapsed hours minus a whole number of 720-hour periods. |
| Crushers.Occurrence | generacion_data/generar_datos_sinteticos_chancadoras_2anios.py:72 | The occurrence satisfies `idx <= occ <= n - 1` and `occ <= idx + offset`. It is exactly `idx + offset`, between 12 and 95 rows later, whenever that row exists, and the last row otherwise. |
| Crushers.Sistema | generacion_data/generar_datos_sinteticos_chancadoras_2anios.py:76-84 | A system is given exactly for the three failure types of the choice list. |
| Crushers.SistemaOfEachType | generacion_data/generar_datos_sinteticos_chancadoras_2anios.py:76-84 | Mecánica maps to the mechanical system, Lubricación to the lubrication system and Eléctrica to the electrical system. |
| Crushers.MarkAlert | generacion_data/generar_datos_sinteticos_chancadoras_2anios.py:61-84 | One alert iteration keeps the table's length. |
| Crushers.Marked | generacion_data/generar_datos_sinteticos_chancadoras_2anios.py:59-84 | The alert loop keeps the table's length. Its contents are stated by the lemmas below. |
| Crushers.MarkFailures | generacion_data/generar_datos_sinteticos_chancadoras_2anios.py:59-84 | The cell-by-cell loop over the alert rows builds exactly `Marked`. |
| Crushers.AlertAttributes | generacion_data/generar_datos_sinteticos_chancadoras_2anios.py:61-69 | A row has failure attributes exactly when it is an alert. Those attributes are its own draws from the fixed choice lists. |
| Crushers.OccurrenceFlag | generacion_data/generar_datos_sinteticos_chancadoras_2anios.py:72-73 | `falla_ocurrida` is 1 exactly when some alert's occurrence is that row. Otherwise it is 0, with no confirmed component and no system. |
| Crushers.LastOccurrenceExists | generacion_data/generar_datos_sinteticos_chancadoras_2anios.py:72-74 | An occurrence row has a last alert whose occurrence it is. |
| Crushers.LastOccurrenceWins | generacion_data/generar_datos_sinteticos_chancadoras_2anios.py:73-84 | An occurrence row's confirmed component is that of its last alert. Its system is that alert's type's system, which is always present. |
| Crushers.UntouchedRowsKeepDefaults | generacion_data/generar_datos_sinteticos_chancadoras_2anios.py:45-51 | A row that is neither an alert nor an occurrence keeps every default: no attributes and `falla_ocurrida` 0. |
| Crushers.CrusherTableOf | generacion_data/generar_datos_sinteticos_chancadoras_2anios.py:18-42 | A crusher's table has one shift, counter and fault row per timestamp. The counters lie in [0, 720) and every sensor column lies in its range. |
| Crushers.GenerateCrusherData | generacion_data/generar_datos_sinteticos_chancadoras_2anios.py:15-86 | The loop over crushers 1 to 3 appends exactly each crusher's table, in order, each with 731 * 48 half-hourly rows. |

## Left out

- Physics: the square-root, power and efficiency formulas of `MillPhysicsEngine` are left out. So are the columns derived from them (power draw, bearing load, base vibration and temperatures, motor current, water added). The critical speed enters `MillGenerator.BaseConfig` as a parameter.
- Bearing degradation: the value `generate_bearing_degradation` produces inside a window is an input, one per row and failure. This covers its precursor window, its exponential or linear multiplier and its noise.
- Random values: every `np.random` draw is an input. This includes the Weibull gaps, the uniform samples behind each categorical choice, the cool-downs, the noise factors, the alert flags, the crusher choice indices and offsets, and the raw pre-clip series.
- Categorical draws: `np.random.choice(p=...)` is modelled as numpy's inverse-CDF pick on one uniform sample.
- Scheduling.RunSchedule: draws come as a finite list that must be long enough (`EnoughDraws`). One draw per 7 days of horizon, plus one, always suffices. The model does not cover running out of draws, because numpy's stream never runs out.
- Scheduling.FailureTimes: `pd.Timedelta` rounds hours and days to whole nanoseconds. The model adds exact reals.
- FailureModes.Normalize: the weights are normalised over exact reals. Floating-point rounding of the sum is not modelled.
- Seasonal sine terms, ambient conditions, density, clay content and abrasiveness are left out: they are transcendental or unclipped random columns.
- Noise and aggregation are left out: `IndustrialNoiseModels`, `_apply_sensor_noise`, the derived and trend features, the anomaly z-scores and the specialised views.
- MillOperation.FeedRate: the bound [180, 350] holds for the clipped value at line 412, not for the output column. `_apply_sensor_noise` (lines 644-656) later multiplies `feed_rate` by a noise factor, so the written column can leave that range.
- MillOperation.OperationColumns: the pulp-density bound [68, 78] holds for the value at line 425, not for the output column, which `_apply_sensor_noise` also perturbs. The degraded vibration and temperature columns of `Degradation.ApplyDegradationEffects` are perturbed by the same noise before output, so that noise is not modelled either.
- MillOperation.HourOfDay: the start of the hourly index is midnight, as with the default `start_date` of 2023-01-01 (line 218). A start date with a time of day other than midnight would shift every hour of day, and so the shift offsets.
- Crusher columns that are only rounded or cumulative random draws are left out: power factor, abrasiveness, hardness and start-stop cycles.
- Crushers.HourOfRow: the row's timestamp is represented by its index from midnight of 2023-01-01, not by a calendar date.
- Output and scripts are left out: CSV and Parquet output, printing, `main`, `load_and_explore_dataset`, the path helper in `EDAs/utils.py` and the quick-validation script.

## Findings

| source | as written | input that shows it | evidently intended | confidence | as-written member | corrected member |
|---|---|---|---|---|---|---|
| generacion_data/maquina_bolas_data_generator.py:491-492 | `pd.cut(hour, bins=[0, 8, 16, 24], labels=['A','B','C'], include_lowest=True)` closes bins on the right, so hour 8 is labelled A and hour 16 is labelled B | hour of day 8: `turno` is A, but the feed-rate offset at lines 407-409 applies shift B's +5 | shifts are the blocks [0, 8), [8, 16) and [16, 24) that the offset uses | not executed | MillOperation.TurnoLabelAsWritten, MillOperation.TurnoAsWrittenDisagrees | MillOperation.TurnoLabel, MillOperation.ShiftOffsetMatchesTurno |
