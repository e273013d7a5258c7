/** The clinical rule engine of the AI engine (StatisticalAnomalyDetector.Analyze):
    a measurement snapshot and an alarm snapshot are checked against seven
    threshold rules in a fixed priority order, and the first rule that matches
    decides the single result. The engine holds no state. */
module AnomalyDetection {
  import opened Common

  /** RiskLevel, an ordered enumeration. */
  datatype RiskLevel = Low | Moderate | High | Critical

  function Rank(level: RiskLevel): nat {
    match level
    case Low => 0
    case Moderate => 1
    case High => 2
    case Critical => 3
  }

  /** What a result reports, with the measured value that triggered it (the
      display text built from it is not modelled). */
  datatype Finding =
    | BloodFlowCriticallyLow(bloodFlow: real)
    | Hypotension(arterialPressure: real)
    | VenousPressureElevated(venousPressure: real)
    | TemperatureElevated(temperature: real)
    | ConductivityOutOfRange(conductivity: real)
    | LowPressureAlarm
    | HighVenousPressureAlarm

  datatype AnomalyResult = AnomalyResult(
    Severity: RiskLevel,
    Finding: Finding,
    Recommendation: string,
    DetectedAt: Instant)

  // Clinical thresholds
  const BloodFlowCritical: real := 150.0
  const ArterialPressureWarning: real := 80.0
  const VenousPressureCritical: real := 250.0
  const TemperatureWarning: real := 38.5
  const ConductivityMin: real := 13.0
  const ConductivityMax: real := 15.0

  const BloodFlowAdvice := "Check vascular access, possible recirculation or access malfunction"
  const HypotensionAdvice := "Immediate intervention required: reduce ultrafiltration, check patient status"
  const VenousPressureAdvice := "Check for venous needle malposition or venous line occlusion"
  const TemperatureAdvice := "Check heater calibration and dialysate preparation"
  const ConductivityAdvice := "Check dialysate composition and conductivity probe"
  const LowPressureAdvice := "Verify patient hemodynamic status"
  const HighPressureAdvice := "Check venous line integrity and position"

  /** Analyze: each rule whose key is absent is skipped; the first rule that
      matches returns; no match gives None. `now` stands for DateTime.UtcNow. */
  function Analyze(measurements: map<string, real>, alarms: map<string, bool>, now: Instant): (r: Option<AnomalyResult>)
    ensures r.Some? ==> Rank(r.value.Severity) >= Rank(High) && r.value.DetectedAt == now
  {
    if "bloodFlow" in measurements && measurements["bloodFlow"] < BloodFlowCritical then
      Some(AnomalyResult(Critical, BloodFlowCriticallyLow(measurements["bloodFlow"]), BloodFlowAdvice, now))
    else if "arterialPressure" in measurements && measurements["arterialPressure"] < ArterialPressureWarning then
      Some(AnomalyResult(Critical, Hypotension(measurements["arterialPressure"]), HypotensionAdvice, now))
    else if "venousPressure" in measurements && measurements["venousPressure"] > VenousPressureCritical then
      Some(AnomalyResult(Critical, VenousPressureElevated(measurements["venousPressure"]), VenousPressureAdvice, now))
    else if "dialysateTemperature" in measurements && measurements["dialysateTemperature"] > TemperatureWarning then
      Some(AnomalyResult(High, TemperatureElevated(measurements["dialysateTemperature"]), TemperatureAdvice, now))
    else if "conductivity" in measurements
      && (measurements["conductivity"] < ConductivityMin || measurements["conductivity"] > ConductivityMax) then
      Some(AnomalyResult(High, ConductivityOutOfRange(measurements["conductivity"]), ConductivityAdvice, now))
    else if "pressureLow" in alarms && alarms["pressureLow"] then
      Some(AnomalyResult(High, LowPressureAlarm, LowPressureAdvice, now))
    else if "pressureHigh" in alarms && alarms["pressureHigh"] then
      Some(AnomalyResult(High, HighVenousPressureAlarm, HighPressureAdvice, now))
    else
      None
  }

  // ----- An independent statement of the rule table -----

  datatype Rule =
    | BloodFlowRule | ArterialPressureRule | VenousPressureRule | TemperatureRule
    | ConductivityRule | PressureLowRule | PressureHighRule

  /** The priority order of the rules. */
  const RuleOrder: seq<Rule> := [BloodFlowRule, ArterialPressureRule, VenousPressureRule,
                                 TemperatureRule, ConductivityRule, PressureLowRule, PressureHighRule]

  /** The rules that look at measurements (the other two look at alarm flags). */
  predicate IsMeasurementRule(rule: Rule) {
    !(rule.PressureLowRule? || rule.PressureHighRule?)
  }

  /** The condition of one rule, on its own. */
  predicate Fires(rule: Rule, m: map<string, real>, a: map<string, bool>) {
    match rule
    case BloodFlowRule => "bloodFlow" in m && m["bloodFlow"] < 150.0
    case ArterialPressureRule => "arterialPressure" in m && m["arterialPressure"] < 80.0
    case VenousPressureRule => "venousPressure" in m && m["venousPressure"] > 250.0
    case TemperatureRule => "dialysateTemperature" in m && m["dialysateTemperature"] > 38.5
    case ConductivityRule => "conductivity" in m && !(13.0 <= m["conductivity"] <= 15.0)
    case PressureLowRule => "pressureLow" in a && a["pressureLow"] == true
    case PressureHighRule => "pressureHigh" in a && a["pressureHigh"] == true
  }

  /** The result a rule reports when it fires. */
  function Outcome(rule: Rule, m: map<string, real>, a: map<string, bool>, now: Instant): AnomalyResult
    requires Fires(rule, m, a)
  {
    match rule
    case BloodFlowRule => AnomalyResult(Critical, BloodFlowCriticallyLow(m["bloodFlow"]), BloodFlowAdvice, now)
    case ArterialPressureRule => AnomalyResult(Critical, Hypotension(m["arterialPressure"]), HypotensionAdvice, now)
    case VenousPressureRule => AnomalyResult(Critical, VenousPressureElevated(m["venousPressure"]), VenousPressureAdvice, now)
    case TemperatureRule => AnomalyResult(High, TemperatureElevated(m["dialysateTemperature"]), TemperatureAdvice, now)
    case ConductivityRule => AnomalyResult(High, ConductivityOutOfRange(m["conductivity"]), ConductivityAdvice, now)
    case PressureLowRule => AnomalyResult(High, LowPressureAlarm, LowPressureAdvice, now)
    case PressureHighRule => AnomalyResult(High, HighVenousPressureAlarm, HighPressureAdvice, now)
  }

  /** The position of the first rule of `rules` that fires, if any. */
  function FirstFiring(rules: seq<Rule>, m: map<string, real>, a: map<string, bool>): (r: Option<nat>)
    ensures r.Some? ==> r.value < |rules| && Fires(rules[r.value], m, a)
    ensures r.Some? ==> forall j :: 0 <= j < r.value ==> !Fires(rules[j], m, a)
    ensures r.None? ==> forall j :: 0 <= j < |rules| ==> !Fires(rules[j], m, a)
  {
    if rules == [] then None
    else if Fires(rules[0], m, a) then Some(0)
    else match FirstFiring(rules[1..], m, a)
      case None => None
      case Some(i) => Some(i + 1)
  }

  // ----- Properties of Analyze -----

  /** The first firing rule is pinned down by the firing pattern. */
  lemma FirstFiringAt(rules: seq<Rule>, m: map<string, real>, a: map<string, bool>, k: nat)
    requires k < |rules| && Fires(rules[k], m, a)
    requires forall j :: 0 <= j < k ==> !Fires(rules[j], m, a)
    ensures FirstFiring(rules, m, a) == Some(k)
  {
    var f := FirstFiring(rules, m, a);
    assert f.Some?;
  }

  lemma FirstFiringNone(rules: seq<Rule>, m: map<string, real>, a: map<string, bool>)
    requires forall j :: 0 <= j < |rules| ==> !Fires(rules[j], m, a)
    ensures FirstFiring(rules, m, a) == None
  {
  }

  /** The rule table read as a decision procedure: the outcome of the first
      rule in priority order that fires, or None. */
  function ByRuleTable(m: map<string, real>, a: map<string, bool>, now: Instant): Option<AnomalyResult> {
    match FirstFiring(RuleOrder, m, a)
    case None => None
    case Some(i) => Some(Outcome(RuleOrder[i], m, a, now))
  }

  /** Analyze returns exactly the outcome of the first rule, in priority order,
      whose condition holds, and nothing when no rule holds. */
  lemma AnalyzeIsFirstFiringRule(m: map<string, real>, a: map<string, bool>, now: Instant)
    ensures Analyze(m, a, now) == ByRuleTable(m, a, now)
  {
    if Fires(BloodFlowRule, m, a) {
      FirstFiringAt(RuleOrder, m, a, 0);
    } else if Fires(ArterialPressureRule, m, a) {
      FirstFiringAt(RuleOrder, m, a, 1);
    } else if Fires(VenousPressureRule, m, a) {
      FirstFiringAt(RuleOrder, m, a, 2);
    } else if Fires(TemperatureRule, m, a) {
      FirstFiringAt(RuleOrder, m, a, 3);
    } else if Fires(ConductivityRule, m, a) {
      FirstFiringAt(RuleOrder, m, a, 4);
    } else if Fires(PressureLowRule, m, a) {
      FirstFiringAt(RuleOrder, m, a, 5);
    } else if Fires(PressureHighRule, m, a) {
      FirstFiringAt(RuleOrder, m, a, 6);
    } else {
      FirstFiringNone(RuleOrder, m, a);
    }
  }

  /** A result is Critical exactly when one of the three pressure/flow rules
      decided it, and otherwise High: Low and Moderate are never reported. */
  lemma SeverityIsHighOrCritical(m: map<string, real>, a: map<string, bool>, now: Instant)
    requires Analyze(m, a, now).Some?
    ensures Analyze(m, a, now).value.Severity in {High, Critical}
    ensures Analyze(m, a, now).value.Severity == Critical <==>
      (Fires(BloodFlowRule, m, a) || Fires(ArterialPressureRule, m, a) || Fires(VenousPressureRule, m, a))
  {
  }

  /** A blood flow below 150 decides the result whatever else the snapshot holds. */
  lemma BloodFlowRuleDominates(m: map<string, real>, a: map<string, bool>, now: Instant)
    requires "bloodFlow" in m && m["bloodFlow"] < 150.0
    ensures Analyze(m, a, now) == Some(AnomalyResult(Critical, BloodFlowCriticallyLow(m["bloodFlow"]), BloodFlowAdvice, now))
  {
  }

  /** A snapshot without keys produces no result. */
  lemma EmptySnapshotIsNormal(now: Instant)
    ensures Analyze(map[], map[], now) == None
  {
  }

  /** Thresholds are strict: readings exactly at every threshold are normal. */
  lemma BoundaryReadingsAreNormal(now: Instant, conductivity: real)
    requires conductivity == 13.0 || conductivity == 15.0
    ensures Analyze(map["bloodFlow" := 150.0, "arterialPressure" := 80.0, "venousPressure" := 250.0,
                        "dialysateTemperature" := 38.5, "conductivity" := conductivity], map[], now) == None
  {
  }

  /** Once no earlier rule fires, the conductivity reading decides by lying
      outside the closed interval [13.0, 15.0]. */
  lemma ConductivityRuleIff(m: map<string, real>, a: map<string, bool>, now: Instant)
    requires "conductivity" in m
    requires forall j :: 0 <= j < 4 ==> !Fires(RuleOrder[j], m, a)
    ensures (Analyze(m, a, now).Some? && Analyze(m, a, now).value.Finding.ConductivityOutOfRange?)
      <==> (m["conductivity"] < 13.0 || m["conductivity"] > 15.0)
  {
    assert !Fires(RuleOrder[0], m, a) && !Fires(RuleOrder[1], m, a);
    assert !Fires(RuleOrder[2], m, a) && !Fires(RuleOrder[3], m, a);
  }

  /** The two alarm-flag rules decide only when no measurement rule fires, and
      only on a flag that is present and true. */
  lemma AlarmRulesComeLast(m: map<string, real>, a: map<string, bool>, now: Instant)
    requires Analyze(m, a, now).Some?
    requires Analyze(m, a, now).value.Finding in {LowPressureAlarm, HighVenousPressureAlarm}
    ensures forall j :: 0 <= j < |RuleOrder| && IsMeasurementRule(RuleOrder[j]) ==> !Fires(RuleOrder[j], m, a)
    ensures Analyze(m, a, now).value.Finding == LowPressureAlarm ==> "pressureLow" in a && a["pressureLow"]
    ensures Analyze(m, a, now).value.Finding == HighVenousPressureAlarm ==>
      "pressureHigh" in a && a["pressureHigh"] && !("pressureLow" in a && a["pressureLow"])
  {
  }
}
