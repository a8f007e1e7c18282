/**
 * The analytics view: a simulated sensor feed that drifts every three seconds, and the
 * rule-based engine that turns one reading into watering, fertilizer and weather advice.
 */
module Analytics {
  import opened Wrappers

  datatype Priority = Low | Medium | High

  /** One snapshot of the six simulated sensors. */
  datatype SensorReading = SensorReading(
    temperature: real,     // degrees Celsius
    humidity: real,        // percent
    soilMoisture: real,    // percent
    phLevel: real,
    lightIntensity: real,  // lux
    batteryLevel: real)    // percent

  /**
   * Message text. `Reading(before, v, after)` is the template `before + v.toFixed(1) + after`;
   * the decimal rendering of `v` is left abstract.
   */
  datatype Message = Fixed(text: string) | Reading(before: string, value: real, after: string)

  /**
   * One recommendation record. `confidence` is the record's `ml_confidence`; `nutrients` only
   * appears on fertilizer records and `forecast` only on weather records.
   */
  datatype Recommendation = Recommendation(
    action: string,
    message: Message,
    priority: Priority,
    icon: string,
    confidence: Option<real>,
    nutrients: Option<string>,
    forecast: Option<string>)

  datatype RecommendationSet = RecommendationSet(
    watering: Recommendation,
    fertilizer: Recommendation,
    weather: Recommendation)

  /** A triggered rule: it carries a confidence. */
  predicate Triggered(r: Recommendation) {
    r.confidence.Some?
  }

  const WateringActions: set<string> := {"water_now", "water_soon", "reduce_water", "optimal"}
  const FertilizerActions: set<string> := {"add_lime", "add_sulfur", "fertilize_now", "optimal"}
  const WeatherActions: set<string> := {"heat_stress", "cold_protection", "disease_risk", "favorable"}

  // ---------------------------------------------------------------- watering

  /** The watering cascade: most severe dryness first, then waterlogging, else optimal. */
  function Watering(s: SensorReading): (r: Recommendation)
    ensures r.action in WateringActions && r.nutrients == None && r.forecast == None
    ensures s.soilMoisture < 30.0 ==>
      r.action == "water_now" && r.priority == High && r.confidence == Some(0.94)
    ensures 30.0 <= s.soilMoisture < 40.0 ==>
      r.action == "water_soon" && r.priority == Medium && r.confidence == Some(0.87)
    ensures s.soilMoisture > 70.0 ==>
      r.action == "reduce_water" && r.priority == Medium && r.confidence == Some(0.91)
    ensures 40.0 <= s.soilMoisture <= 70.0 ==>
      r.action == "optimal" && r.priority == Low && r.confidence == None
  {
    var m := s.soilMoisture;
    if m < 30.0 then
      Recommendation("water_now",
        Reading("Critical: Soil moisture at ", m, "%. Water immediately with 25-30mm"),
        High, "\U{1F6A8}", Some(0.94), None, None)
    else if m < 40.0 then
      Recommendation("water_soon",
        Reading("Soil moisture dropping to ", m, "%. Plan watering within 12 hours"),
        Medium, "\U{26A0}\U{FE0F}", Some(0.87), None, None)
    else if m > 70.0 then
      Recommendation("reduce_water",
        Reading("High moisture (", m, "%). Risk of root rot. Skip next watering"),
        Medium, "\U{1F4A7}", Some(0.91), None, None)
    else
      DefaultWatering
  }

  const DefaultWatering := Recommendation("optimal", Fixed("Soil moisture is perfect"), Low, "\U{2713}", None, None, None)

  // ---------------------------------------------------------------- fertilizer

  /** The fertilizer cascade: soil acidity, then alkalinity, then the fertilizing window. */
  function Fertilizer(s: SensorReading): (r: Recommendation)
    ensures r.action in FertilizerActions && r.nutrients.Some? == Triggered(r) && r.forecast == None
    ensures s.phLevel < 6.0 ==>
      r.action == "add_lime" && r.priority == High && r.confidence == Some(0.89)
    ensures s.phLevel > 7.3 ==>
      r.action == "add_sulfur" && r.priority == Medium && r.confidence == Some(0.86)
    ensures 6.0 <= s.phLevel <= 7.3 && s.soilMoisture > 40.0 && s.temperature > 25.0 ==>
      r.action == "fertilize_now" && r.priority == Low && r.confidence == Some(0.92)
    ensures 6.0 <= s.phLevel <= 7.3 && !(s.soilMoisture > 40.0 && s.temperature > 25.0) ==>
      r.action == "optimal" && r.priority == Low && r.confidence == None
  {
    if s.phLevel < 6.0 then
      Recommendation("add_lime",
        Reading("Acidic soil detected (pH ", s.phLevel, "). Apply 2kg limestone per 10m\U{B2}"),
        High, "\U{1F9EA}", Some(0.89), Some("Add calcium carbonate to raise pH"), None)
    else if s.phLevel > 7.3 then
      Recommendation("add_sulfur",
        Reading("Alkaline soil (pH ", s.phLevel, "). Apply sulfur-based fertilizer"),
        Medium, "\U{2697}\U{FE0F}", Some(0.86), Some("Use elemental sulfur to lower pH"), None)
    else if s.soilMoisture > 40.0 && s.temperature > 25.0 then
      Recommendation("fertilize_now",
        Fixed("Ideal conditions for fertilization. Apply NPK 10-10-10"),
        Low, "\U{1F331}", Some(0.92), Some("Good nitrogen uptake conditions"), None)
    else
      DefaultFertilizer
  }

  const DefaultFertilizer := Recommendation("optimal", Fixed("Soil pH is in healthy range"), Low, "\U{2713}", None, None, None)

  // ---------------------------------------------------------------- weather

  /** The weather cascade: heat, then cold, then the warm-and-humid disease window. */
  function Weather(s: SensorReading): (r: Recommendation)
    ensures r.action in WeatherActions && r.forecast.Some? == Triggered(r) && r.nutrients == None
    ensures s.temperature > 35.0 ==>
      r.action == "heat_stress" && r.priority == High && r.confidence == Some(0.95)
    ensures s.temperature < 18.0 ==>
      r.action == "cold_protection" && r.priority == Medium && r.confidence == Some(0.88)
    ensures 25.0 < s.temperature <= 35.0 && s.humidity > 80.0 ==>
      r.action == "disease_risk" && r.priority == Medium && r.confidence == Some(0.84)
    ensures 18.0 <= s.temperature <= 35.0 && !(s.temperature > 25.0 && s.humidity > 80.0) ==>
      r.action == "favorable" && r.priority == Low && r.confidence == None
  {
    var t := s.temperature;
    if t > 35.0 then
      Recommendation("heat_stress",
        Reading("Heat stress alert! Temperature ", t, "\U{B0}C. Increase watering by 30%"),
        High, "\U{1F321}\U{FE0F}", Some(0.95), None, Some("Continue for next 48 hours"))
    else if t < 18.0 then
      Recommendation("cold_protection",
        Reading("Low temperature (", t, "\U{B0}C). Risk of slow growth. Consider row covers"),
        Medium, "\U{2744}\U{FE0F}", Some(0.88), None, Some("Cold spell expected"))
    else if s.humidity > 80.0 && t > 25.0 then
      Recommendation("disease_risk",
        Fixed("High humidity + warm temps = fungal disease risk. Improve ventilation"),
        Medium, "\U{1F344}", Some(0.84), None, Some("Monitor for next 3 days"))
    else
      DefaultWeather
  }

  const DefaultWeather := Recommendation("favorable", Fixed("Weather conditions are optimal for growth"), Low, "\U{2600}\U{FE0F}", None, None, None)

  /** `generateRecommendations`: the three categories, each evaluated on its own. */
  function Recommend(s: SensorReading): (rs: RecommendationSet)
    ensures rs.watering.action in WateringActions
    ensures rs.fertilizer.action in FertilizerActions
    ensures rs.weather.action in WeatherActions
  {
    RecommendationSet(Watering(s), Fertilizer(s), Weather(s))
  }

  /** The records the view shows before the first evaluation. */
  const InitialRecommendations := RecommendationSet(DefaultWatering, DefaultFertilizer, DefaultWeather)

  // ---------------------------------------------------------------- properties of the engine

  /** Watering reads only the soil moisture; weather reads only temperature and humidity. */
  lemma CategoryInputs(s: SensorReading, s': SensorReading)
    ensures s.soilMoisture == s'.soilMoisture ==> Watering(s) == Watering(s')
    ensures s.temperature == s'.temperature && s.humidity == s'.humidity ==> Weather(s) == Weather(s')
    ensures s.phLevel == s'.phLevel && s.soilMoisture == s'.soilMoisture && s.temperature == s'.temperature
            ==> Fertilizer(s) == Fertilizer(s')
  {
  }

  /** Strong acidity wins over everything else in the fertilizer cascade, and heat over humidity. */
  lemma SevereRulesTakePrecedence(s: SensorReading)
    ensures s.phLevel < 6.0 ==> Fertilizer(s).action == "add_lime"
    ensures s.temperature > 35.0 ==> Weather(s).action == "heat_stress"
  {
  }

  /** Each action of each category fires on exactly one band of its inputs (read both ways). */
  lemma ActionBands(s: SensorReading)
    ensures Watering(s).action == "water_now" <==> s.soilMoisture < 30.0
    ensures Watering(s).action == "water_soon" <==> 30.0 <= s.soilMoisture < 40.0
    ensures Watering(s).action == "reduce_water" <==> s.soilMoisture > 70.0
    ensures Watering(s).action == "optimal" <==> 40.0 <= s.soilMoisture <= 70.0
    ensures Fertilizer(s).action == "add_lime" <==> s.phLevel < 6.0
    ensures Fertilizer(s).action == "add_sulfur" <==> s.phLevel > 7.3
    ensures Fertilizer(s).action == "fertilize_now" <==>
      6.0 <= s.phLevel <= 7.3 && s.soilMoisture > 40.0 && s.temperature > 25.0
    ensures Weather(s).action == "heat_stress" <==> s.temperature > 35.0
    ensures Weather(s).action == "cold_protection" <==> s.temperature < 18.0
    ensures Weather(s).action == "disease_risk" <==> 25.0 < s.temperature <= 35.0 && s.humidity > 80.0
  {
  }

  /** A record carries a confidence exactly when its action is not the category's default. */
  lemma ConfidenceIffNotDefault(s: SensorReading)
    ensures Triggered(Watering(s)) <==> Watering(s).action != "optimal"
    ensures Triggered(Fertilizer(s)) <==> Fertilizer(s).action != "optimal"
    ensures Triggered(Weather(s)) <==> Weather(s).action != "favorable"
    ensures !Triggered(Watering(s)) ==> Watering(s) == DefaultWatering
    ensures !Triggered(Fertilizer(s)) ==> Fertilizer(s) == DefaultFertilizer
    ensures !Triggered(Weather(s)) ==> Weather(s) == DefaultWeather
  {
  }

  function Rank(p: Priority): nat {
    match p
    case Low => 0
    case Medium => 1
    case High => 2
  }

  /** Drier soil (up to the waterlogging threshold) never lowers the urgency of watering. */
  lemma WateringUrgencyMonotone(s: SensorReading, s': SensorReading)
    requires s.soilMoisture <= s'.soilMoisture <= 70.0
    ensures Rank(Watering(s).priority) >= Rank(Watering(s').priority)
  {
  }

  /** Initially the view shows defaults that disagree with the initial reading until the first evaluation. */
  lemma InitialRecommendationsAreStale()
    ensures Recommend(InitialReading) != InitialRecommendations
    ensures Recommend(InitialReading).fertilizer.action == "fertilize_now"
  {
  }

  /** The comparisons are strict: each threshold value itself falls into the milder band. */
  lemma ThresholdBoundaries(s: SensorReading)
    ensures s.soilMoisture == 30.0 ==> Watering(s).action == "water_soon"
    ensures s.soilMoisture == 40.0 || s.soilMoisture == 70.0 ==> Watering(s).action == "optimal"
    ensures s.phLevel == 6.0 || s.phLevel == 7.3 ==> Fertilizer(s).action in {"fertilize_now", "optimal"}
    ensures 6.0 <= s.phLevel <= 7.3 && (s.soilMoisture == 40.0 || s.temperature == 25.0) ==>
      Fertilizer(s).action == "optimal"
    ensures s.temperature == 35.0 && s.humidity <= 80.0 ==> Weather(s).action == "favorable"
    ensures s.temperature == 18.0 || s.temperature == 25.0 ==> Weather(s).action == "favorable"
    ensures 18.0 <= s.temperature <= 35.0 && s.humidity == 80.0 ==> Weather(s).action == "favorable"
  {
  }

  /** Two whole readings: a hot day with damp, neutral soil, and a cool humid day with dry, acidic soil. */
  lemma SampleReadings()
    ensures var r := Recommend(SensorReading(36.0, 50.0, 50.0, 6.5, 40000.0, 80.0));
      r.weather.action == "heat_stress" && r.weather.priority == High && r.weather.confidence == Some(0.95)
      && r.watering.action == "optimal" && r.fertilizer.action == "fertilize_now"
    ensures var r := Recommend(SensorReading(20.0, 85.0, 25.0, 5.8, 40000.0, 80.0));
      r.watering.action == "water_now" && r.watering.confidence == Some(0.94)
      && r.fertilizer.action == "add_lime" && r.weather.action == "favorable"
  {
  }

  // ---------------------------------------------------------------- priority styling

  /** The colour family shared by a priority's card border and its badge. */
  function Hue(p: Priority): string {
    match p
    case High => "red"
    case Medium => "yellow"
    case Low => "green"
  }

  /** `getPriorityColor`: the card's border and background classes. */
  function PriorityColor(p: Priority): (c: string)
    ensures c == "border-" + Hue(p) + "-500 bg-" + Hue(p) + "-50"
  {
    match p
    case High => "border-red-500 bg-red-50"
    case Medium => "border-yellow-500 bg-yellow-50"
    case Low => "border-green-500 bg-green-50"
  }

  /** `getPriorityBadge`: the badge class. */
  function PriorityBadge(p: Priority): (c: string)
    ensures c == "bg-" + Hue(p) + "-500"
  {
    match p
    case High => "bg-red-500"
    case Medium => "bg-yellow-500"
    case Low => "bg-green-500"
  }

  /** Different priorities are styled differently. */
  lemma StylingDistinguishesPriorities(p: Priority, q: Priority)
    requires p != q
    ensures PriorityColor(p) != PriorityColor(q) && PriorityBadge(p) != PriorityBadge(q)
  {
  }

  // ---------------------------------------------------------------- the simulated sensor feed

  /** `Math.max(lo, Math.min(hi, x))` */
  function Clamp(lo: real, hi: real, x: real): (r: real)
    requires lo <= hi
    ensures lo <= r <= hi
    ensures lo <= x <= hi ==> r == x
  {
    if x > hi then hi else if x < lo then lo else x
  }

  /** The five `Math.random()` draws of one tick, one per drifting sensor. */
  datatype Draw = Draw(temperature: real, humidity: real, soilMoisture: real, phLevel: real, lightIntensity: real)

  predicate UnitDraw(u: Draw) {
    && 0.0 <= u.temperature < 1.0 && 0.0 <= u.humidity < 1.0 && 0.0 <= u.soilMoisture < 1.0
    && 0.0 <= u.phLevel < 1.0 && 0.0 <= u.lightIntensity < 1.0
  }

  /** The ranges the feed keeps each sensor in. */
  predicate InSimulatedRange(s: SensorReading) {
    && 15.0 <= s.temperature <= 40.0
    && 30.0 <= s.humidity <= 90.0
    && 20.0 <= s.soilMoisture <= 80.0
    && 5.5 <= s.phLevel <= 7.5
    && 10000.0 <= s.lightIntensity <= 80000.0
    && 20.0 <= s.batteryLevel
  }

  /** One tick of the feed: each sensor drifts by `(u - 0.5) * step` and is clamped; the battery drains by 0.1. */
  function NextReading(prev: SensorReading, u: Draw): (next: SensorReading)
    ensures InSimulatedRange(next)
    ensures prev.batteryLevel >= 20.0 ==> next.batteryLevel <= prev.batteryLevel
    ensures prev.batteryLevel >= 20.1 ==> next.batteryLevel == prev.batteryLevel - 0.1
  {
    SensorReading(
      Clamp(15.0, 40.0, prev.temperature + (u.temperature - 0.5) * 2.0),
      Clamp(30.0, 90.0, prev.humidity + (u.humidity - 0.5) * 3.0),
      Clamp(20.0, 80.0, prev.soilMoisture + (u.soilMoisture - 0.5) * 4.0),
      Clamp(5.5, 7.5, prev.phLevel + (u.phLevel - 0.5) * 0.2),
      Clamp(10000.0, 80000.0, prev.lightIntensity + (u.lightIntensity - 0.5) * 5000.0),
      if prev.batteryLevel - 0.1 > 20.0 then prev.batteryLevel - 0.1 else 20.0)
  }

  function Distance(a: real, b: real): real {
    if a >= b then a - b else b - a
  }

  /** Clamping into a range the value started in never moves it further than the raw step. */
  lemma ClampStep(lo: real, hi: real, x: real, d: real)
    requires lo <= x <= hi
    ensures Distance(Clamp(lo, hi, x + d), x) <= Distance(x + d, x)
  {
  }

  /** From a reading in range, a tick moves each sensor by at most half its step size. */
  lemma TickStepBounded(prev: SensorReading, u: Draw)
    requires InSimulatedRange(prev) && UnitDraw(u)
    ensures Distance(NextReading(prev, u).temperature, prev.temperature) <= 1.0
    ensures Distance(NextReading(prev, u).humidity, prev.humidity) <= 1.5
    ensures Distance(NextReading(prev, u).soilMoisture, prev.soilMoisture) <= 2.0
    ensures Distance(NextReading(prev, u).phLevel, prev.phLevel) <= 0.1
    ensures Distance(NextReading(prev, u).lightIntensity, prev.lightIntensity) <= 2500.0
  {
    ClampStep(15.0, 40.0, prev.temperature, (u.temperature - 0.5) * 2.0);
    ClampStep(30.0, 90.0, prev.humidity, (u.humidity - 0.5) * 3.0);
    ClampStep(20.0, 80.0, prev.soilMoisture, (u.soilMoisture - 0.5) * 4.0);
    ClampStep(5.5, 7.5, prev.phLevel, (u.phLevel - 0.5) * 0.2);
    ClampStep(10000.0, 80000.0, prev.lightIntensity, (u.lightIntensity - 0.5) * 5000.0);
  }

  const InitialReading := SensorReading(28.0, 65.0, 45.0, 6.8, 45000.0, 85.0)

  /** The view's state: the latest reading and the recommendations on display. */
  class AnalyticsPanel {
    var sensorData: SensorReading
    var recommendations: RecommendationSet

    ghost predicate Valid()
      reads this
    {
      InSimulatedRange(sensorData)
    }

    constructor ()
      ensures Valid()
      ensures sensorData == InitialReading && recommendations == InitialRecommendations
    {
      sensorData := InitialReading;
      recommendations := InitialRecommendations;
    }

    /** The interval body: `setSensorData(prev => ...)`. */
    method Tick(u: Draw)
      requires Valid()
      modifies this
      ensures Valid()
      ensures sensorData == NextReading(old(sensorData), u)
      ensures recommendations == old(recommendations)
    {
      sensorData := NextReading(sensorData, u);
    }

    /** The effect that reruns `generateRecommendations` whenever the reading changes. */
    method GenerateRecommendations()
      requires Valid()
      modifies this
      ensures Valid()
      ensures sensorData == old(sensorData)
      ensures recommendations == Recommend(sensorData)
    {
      var s := sensorData;
      recommendations := RecommendationSet(Watering(s), Fertilizer(s), Weather(s));
    }
  }
}
