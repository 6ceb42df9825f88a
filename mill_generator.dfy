/**
  The ball-mill generator object (`RealisticMillDataGenerator`): the per-mill
  configurations it builds at construction, the simulation horizon, and the
  list `scheduled_failures` that each mill's run extends with the failures
  scheduled for it.
 */
module MillGenerator {
  import opened FailureModes
  import opened Scheduling
  import opened MillOperation

  /** A configuration value: the generator's configs hold numbers and tendency names. */
  datatype ConfigValue = Num(x: real) | Text(s: string)

  type Config = map<string, ConfigValue>

  /** `{**base, **variations}`: every key of either map, the variation's value winning. */
  function Merge(base: Config, variations: Config): (m: Config)
    ensures m.Keys == base.Keys + variations.Keys
    ensures forall k :: k in variations ==> m[k] == variations[k]
    ensures forall k :: k in base && k !in variations ==> m[k] == base[k]
  {
    base + variations
  }

  /** The settings shared by all mills; the critical speed comes from the physics engine
      (a square root) and is a parameter here. */
  function BaseConfig(criticalSpeed: real): (c: Config)
    ensures c.Keys == {"motor_power_rating", "mill_diameter", "mill_length", "critical_speed"}
    ensures c["motor_power_rating"] == Num(2000.0) && c["critical_speed"] == Num(criticalSpeed)
  {
    map["motor_power_rating" := Num(2000.0), "mill_diameter" := Num(5.5),
        "mill_length" := Num(7.0), "critical_speed" := Num(criticalSpeed)]
  }

  /** The individual settings of one mill. */
  datatype MillSettings = MillSettings(age: real, condition: real, efficiency: real, tendency: string, liner: real)

  /** A mill's settings as configuration entries. */
  function Variation(m: MillSettings): Config
  {
    map["age_years" := Num(m.age), "condition" := Num(m.condition), "efficiency_factor" := Num(m.efficiency),
        "failure_tendency" := Text(m.tendency), "liner_condition" := Num(m.liner)]
  }

  /** `mill_variations`: the six mills and their individual settings. */
  const MillVariations: map<string, MillSettings> :=
    map["M1" := MillSettings(8.0, 0.85, 0.98, "bearings", 0.6),
        "M2" := MillSettings(6.0, 0.92, 1.02, "normal", 0.8),
        "M3" := MillSettings(10.0, 0.78, 0.94, "liners", 0.4),
        "M4" := MillSettings(5.0, 0.94, 1.01, "normal", 0.9),
        "M5" := MillSettings(9.0, 0.82, 0.96, "lubrication", 0.7),
        "M6" := MillSettings(7.0, 0.88, 0.99, "normal", 0.75)]

  /** A configuration the scheduler can use: a condition in (0, 1] and a tendency name. */
  predicate Schedulable(c: Config)
  {
    && "condition" in c && c["condition"].Num? && 0.0 < c["condition"].x <= 1.0
    && "failure_tendency" in c && c["failure_tendency"].Text?
  }

  /** A mill's configuration: every base setting is present and the scheduler can use it. */
  predicate MillConfig(c: Config, criticalSpeed: real)
  {
    BaseConfig(criticalSpeed).Keys <= c.Keys && Schedulable(c)
  }

  /** A merged configuration keeps every base setting's key, and with a condition in (0, 1]
      the scheduler can use it: it carries the mill's own condition and tendency. */
  lemma VariationSchedulable(base: Config, m: MillSettings)
    requires 0.0 < m.condition <= 1.0
    ensures var c := Merge(base, Variation(m));
      && base.Keys <= c.Keys && Schedulable(c)
      && c["condition"] == Num(m.condition) && c["failure_tendency"] == Text(m.tendency)
  {
    var v := Variation(m);
    assert "condition" in v && "failure_tendency" in v;
  }

  /** The six mills M1 to M6; M1 tends to bearing failures, M3 to liner wear, M5 to lubrication
      failures, and the other three are normal. */
  lemma MillVariationsTable()
    ensures MillVariations.Keys == {"M1", "M2", "M3", "M4", "M5", "M6"}
    ensures MillVariations["M1"].tendency == "bearings" && MillVariations["M3"].tendency == "liners"
    ensures MillVariations["M5"].tendency == "lubrication"
    ensures MillVariations["M2"].tendency == MillVariations["M4"].tendency == MillVariations["M6"].tendency == "normal"
  {
  }

  /** Every mill's condition lies in (0, 1]. */
  lemma ConditionsInRange()
    ensures forall id :: id in MillVariations ==> 0.0 < MillVariations[id].condition <= 1.0
  {
  }

  /** The loop over `mill_variations.items()`: each mill's variations merged over `base`. */
  function MergeAll(base: Config, variations: map<string, MillSettings>): (configs: map<string, Config>)
    requires forall id :: id in variations ==> 0.0 < variations[id].condition <= 1.0
    ensures configs.Keys == variations.Keys
    ensures forall id :: id in configs ==>
      && base.Keys <= configs[id].Keys && Schedulable(configs[id])
      && configs[id]["condition"] == Num(variations[id].condition)
      && configs[id]["failure_tendency"] == Text(variations[id].tendency)
  {
    var configs := map id | id in variations :: Merge(base, Variation(variations[id]));
    forall id | id in configs
      ensures base.Keys <= configs[id].Keys && Schedulable(configs[id])
      ensures configs[id]["condition"] == Num(variations[id].condition)
      ensures configs[id]["failure_tendency"] == Text(variations[id].tendency)
    {
      VariationSchedulable(base, variations[id]);
    }
    configs
  }

  /** `_initialize_mill_configs`: each mill's variations merged over the base settings. */
  function InitializeMillConfigs(criticalSpeed: real): (configs: map<string, Config>)
    ensures configs.Keys == MillVariations.Keys
    ensures forall id :: id in configs ==> MillConfig(configs[id], criticalSpeed)
  {
    ConditionsInRange();
    MergeAll(BaseConfig(criticalSpeed), MillVariations)
  }

  /** Every scheduled failure belongs to a configured mill, lies in [0, end) hours and has a
      severity in {1, 2, 3}. */
  predicate ScheduledWithin(failures: seq<Failure>, mills: set<string>, end: real)
  {
    forall i :: 0 <= i < |failures| ==>
      && failures[i].millId in mills
      && 0.0 <= failures[i].time < end
      && 1 <= failures[i].severity <= 3
  }

  class MillDataGenerator {
    /** Hours from the start to the last hourly timestamp. */
    var endHours: real
    var millConfigs: map<string, Config>
    var scheduledFailures: seq<Failure>

    predicate Valid()
      reads this
    {
      && endHours >= 0.0
      && (forall id :: id in millConfigs ==> Schedulable(millConfigs[id]))
      && ScheduledWithin(scheduledFailures, millConfigs.Keys, endHours)
    }

    /** `__init__`: the horizon is `int(duration_years * 365.25)` days of hourly rows, the
        configurations are built, and no failure is scheduled yet. */
    constructor(durationYears: real, criticalSpeed: real)
      requires durationYears >= 0.0
      ensures Valid()
      ensures endHours == (DurationDays(durationYears) * 24) as real
      ensures millConfigs == InitializeMillConfigs(criticalSpeed)
      ensures scheduledFailures == []
    {
      endHours := (DurationDays(durationYears) * 24) as real;
      var configs := InitializeMillConfigs(criticalSpeed);
      assert forall id :: id in configs ==> MillConfig(configs[id], criticalSpeed);
      millConfigs := configs;
      scheduledFailures := [];
    }

    /** The scheduling part of `_generate_mill_operation`: schedules the mill's failures over
        its hourly index, from hour 0 to `endHours`, with the MTBF of its condition and the
        probabilities of its tendency, then extends `scheduled_failures` with them. */
    method ScheduleMill(millId: string, samples: seq<Sample>) returns (failures: seq<Failure>)
      requires Valid() && millId in millConfigs
      requires ValidSamples(samples) && endHours < |samples| as real * MinCooldownHours
      modifies this
      ensures Valid()
      ensures endHours == old(endHours) && millConfigs == old(millConfigs)
      ensures var c := millConfigs[millId];
        failures == Schedule(millId, FailureTypeProbabilities(c["failure_tendency"].s),
                             ScaleDraws(samples, MillMtbf(c["condition"].x)), 0.0, endHours)
      ensures WellFormedSchedule(failures, millId, 0.0, endHours)
      ensures scheduledFailures == old(scheduledFailures) + failures
    {
      var config := millConfigs[millId];
      var mtbf := MillMtbf(config["condition"].x);
      var draws := ScaleDraws(samples, mtbf);
      failures := ScheduleFailures(millId, config["failure_tendency"].s, draws, 0.0, endHours);
      scheduledFailures := scheduledFailures + failures;
    }
  }
}
