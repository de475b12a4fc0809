/**
  The daily site report built from the 24-hour rainfall and the concrete
  evaporation rate. Every classified field is a strict-threshold test on those
  two numbers; the numbers themselves pass through unchanged.
 */
module SiteReport {
  import Evaporation
  import UsgsFeed

  /** weather_metrics.model_consensus */
  datatype Consensus = MonitorSiltFences | StableConditions {
    function Text(): string {
      match this
      case MonitorSiltFences => "Moderate Risk - Monitor Silt Fences"
      case StableConditions => "Stable Conditions"
    }
  }

  /** soil_moisture.status */
  datatype SoilStatus = Saturated | Workable {
    function Text(): string {
      match this
      case Saturated => "Saturated"
      case Workable => "Workable"
    }
  }

  /** swppp_compliance.risk_level */
  datatype RiskLevel = HighRisk | ModerateRisk {
    function Text(): string {
      match this
      case HighRisk => "HIGH"
      case ModerateRisk => "MODERATE"
    }
  }

  /** concrete_ops.pour_status */
  datatype PourStatus = Caution | Optimal {
    function Text(): string {
      match this
      case Caution => "CAUTION"
      case Optimal => "OPTIMAL"
    }
  }

  /** The priority of a stormwater map label. */
  datatype Priority = High | Med {
    function Text(): string {
      match this
      case High => "High"
      case Med => "Med"
    }
  }

  datatype SiteInfo = SiteInfo(name: string, gauge: string)
  datatype WeatherMetrics = WeatherMetrics(observed24hPrecip: real, modelConsensus: Consensus)
  datatype SoilMoisture = SoilMoisture(level: string, status: SoilStatus)
  datatype MapLabel = MapLabel(lat: real, lon: real, labelText: string, priority: Priority)
  datatype SwpppCompliance = SwpppCompliance(riskLevel: RiskLevel, mapLabels: seq<MapLabel>)
  datatype ConcreteOps = ConcreteOps(pourStatus: PourStatus, evapRate: real, notes: string)

  /** The whole report, one constructor argument per top-level key. */
  datatype Report = Report(
    siteInfo: SiteInfo,
    weatherMetrics: WeatherMetrics,
    soilMoisture: SoilMoisture,
    swpppCompliance: SwpppCompliance,
    concreteOps: ConcreteOps)

  const Site: SiteInfo := SiteInfo("6401 South Blvd", "USGS Archdale Dr")

  /** The stormwater map labels: the same three entries on every report. */
  const MapLabels: seq<MapLabel> := [
    MapLabel(35.108422, -80.858450, "URGENT: Silt Fence Breach", High),
    MapLabel(35.109150, -80.858280, "MAINTENANCE: Sediment Removal", Med),
    MapLabel(35.109620, -80.859850, "STABILIZE: NW Slope Rills", High)
  ]

  const CuringNote: string := "Ensure curing compound is ready if wind increases."
  const SaturatedLevel: string := "85%"
  const WorkableLevel: string := "48%"

  /** Rainfall (inches) above which silt fences need monitoring. */
  const SiltFenceRain: real := 0.25
  /** Rainfall (inches) above which the soil is saturated and SWPPP risk is high. */
  const SaturationRain: real := 0.5
  /** Rainfall (inches) above which a pour needs caution. */
  const PourRain: real := 0.1
  /** Evaporation rate (kg/m²/h) above which a pour needs caution. */
  const PourEvaporation: real := 0.5

  /** The report for one rainfall figure and one evaporation rate. */
  function BuildReport(rain: real, evap: real): (r: Report)
    ensures r.siteInfo == Site
    ensures r.weatherMetrics.observed24hPrecip == rain
    ensures r.weatherMetrics.modelConsensus == MonitorSiltFences <==> rain > 0.25
    ensures r.soilMoisture.status == Saturated <==> rain > 0.5
    ensures r.soilMoisture.level == "85%" <==> r.soilMoisture.status == Saturated
    ensures r.soilMoisture.level == "48%" <==> r.soilMoisture.status == Workable
    ensures r.swpppCompliance.riskLevel == HighRisk <==> rain > 0.5
    ensures r.swpppCompliance.mapLabels == MapLabels
    ensures r.concreteOps.pourStatus == Caution <==> evap > 0.5 || rain > 0.1
    ensures r.concreteOps.evapRate == evap
    ensures r.concreteOps.notes == CuringNote
  {
    var saturated := rain > SaturationRain;
    Report(
      Site,
      WeatherMetrics(rain, if rain > SiltFenceRain then MonitorSiltFences else StableConditions),
      SoilMoisture(if saturated then SaturatedLevel else WorkableLevel,
                   if saturated then Saturated else Workable),
      SwpppCompliance(if saturated then HighRisk else ModerateRisk, MapLabels),
      ConcreteOps(if evap > PourEvaporation || rain > PourRain then Caution else Optimal,
                  evap, CuringNote))
  }

  /** The report of one run: the fetched rainfall with the placeholder evaporation rate. */
  function DailyReport(rain: real): (r: Report)
    ensures r.concreteOps.evapRate == 0.42
    ensures r.concreteOps.pourStatus == Caution <==> rain > 0.1
  {
    BuildReport(rain, Evaporation.CalculateAci305r())
  }

  /** Every rainfall threshold is strict: a reading exactly on one stays on the calmer side. */
  lemma ThresholdsAreStrict(evap: real)
    ensures BuildReport(0.25, evap).weatherMetrics.modelConsensus == StableConditions
    ensures BuildReport(0.5, evap).soilMoisture.status == Workable
    ensures BuildReport(0.5, evap).swpppCompliance.riskLevel == ModerateRisk
  {
  }

  /** The pour thresholds are strict too, once evaporation is within limits. */
  lemma PourThresholdIsStrict(evap: real)
    requires evap <= 0.5
    ensures BuildReport(0.1, evap).concreteOps.pourStatus == Optimal
  {
  }

  /** The evaporation threshold is strict: a rate of exactly 0.5 alone does not caution the pour. */
  lemma EvaporationThresholdIsStrict()
    ensures BuildReport(0.0, 0.5).concreteOps.pourStatus == Optimal
    ensures BuildReport(0.0, 0.5).concreteOps.evapRate == 0.5
  {
  }

  /** Saturated soil, high SWPPP risk and the 85% level always appear together. */
  lemma SoilAndRiskAgree(rain: real, evap: real)
    ensures var r := BuildReport(rain, evap);
      && (r.swpppCompliance.riskLevel == HighRisk <==> r.soilMoisture.status == Saturated)
      && (r.soilMoisture.level == "85%" <==> r.swpppCompliance.riskLevel == HighRisk)
  {
  }

  /**
    The thresholds are nested (0.5 > 0.25 > 0.1), so a more severe field implies
    every less severe one: saturation implies silt-fence monitoring, which
    implies a cautious pour.
   */
  lemma EscalationIsConsistent(rain: real, evap: real)
    ensures var r := BuildReport(rain, evap);
      && (r.soilMoisture.status == Saturated ==> r.weatherMetrics.modelConsensus == MonitorSiltFences)
      && (r.weatherMetrics.modelConsensus == MonitorSiltFences ==> r.concreteOps.pourStatus == Caution)
      && (r.soilMoisture.status == Saturated ==> r.concreteOps.pourStatus == Caution)
  {
  }

  /** Above 0.5 kg/m²/h of evaporation the pour needs caution whatever the rainfall. */
  lemma HighEvaporationAlwaysCautions(rain: real, evap: real)
    requires evap > 0.5
    ensures BuildReport(rain, evap).concreteOps.pourStatus == Caution
  {
  }

  /** The classified fields of a report, without the numbers passed through. */
  datatype Outlook = Outlook(consensus: Consensus, soil: SoilStatus, risk: RiskLevel, pour: PourStatus)

  function OutlookOf(r: Report): Outlook
  {
    Outlook(r.weatherMetrics.modelConsensus, r.soilMoisture.status,
            r.swpppCompliance.riskLevel, r.concreteOps.pourStatus)
  }

  /** The escalation stages, calmest first. */
  const Stages: seq<Outlook> := [
    Outlook(StableConditions, Workable, ModerateRisk, Optimal),
    Outlook(StableConditions, Workable, ModerateRisk, Caution),
    Outlook(MonitorSiltFences, Workable, ModerateRisk, Caution),
    Outlook(MonitorSiltFences, Saturated, HighRisk, Caution)
  ]

  /** The rainfall band: 0 up to 0.1 in, 1 up to 0.25 in, 2 up to 0.5 in, 3 above. */
  function Band(rain: real): (b: nat)
    ensures b < |Stages|
  {
    if rain > SaturationRain then 3
    else if rain > SiltFenceRain then 2
    else if rain > PourRain then 1
    else 0
  }

  /** Once evaporation is within limits, the rainfall band alone decides the outlook. */
  lemma OutlookIsStageOfBand(rain: real, evap: real)
    requires evap <= 0.5
    ensures OutlookOf(BuildReport(rain, evap)) == Stages[Band(rain)]
  {
  }

  /** Two rainfall figures give the same outlook exactly when they fall in the same band. */
  lemma SameOutlookIffSameBand(rain1: real, rain2: real, evap: real)
    requires evap <= 0.5
    ensures OutlookOf(BuildReport(rain1, evap)) == OutlookOf(BuildReport(rain2, evap))
            <==> Band(rain1) == Band(rain2)
  {
  }

  /** More rain never makes the outlook calmer. */
  lemma EscalationIsMonotone(rain1: real, rain2: real, evap: real)
    requires rain1 <= rain2
    ensures Band(rain1) <= Band(rain2)
    ensures var r1, r2 := BuildReport(rain1, evap), BuildReport(rain2, evap);
      && (r1.weatherMetrics.modelConsensus == MonitorSiltFences ==> r2.weatherMetrics.modelConsensus == MonitorSiltFences)
      && (r1.soilMoisture.status == Saturated ==> r2.soilMoisture.status == Saturated)
      && (r1.swpppCompliance.riskLevel == HighRisk ==> r2.swpppCompliance.riskLevel == HighRisk)
      && (r1.concreteOps.pourStatus == Caution ==> r2.concreteOps.pourStatus == Caution)
  {
  }

  /** Every escalation stage is produced by some rainfall figure: none of the four is dead. */
  lemma EveryStageIsReachable(evap: real, k: nat)
    requires evap <= 0.5 && k < |Stages|
    ensures exists rain :: OutlookOf(BuildReport(rain, evap)) == Stages[k]
  {
    var rain := [0.0, 0.2, 0.3, 0.6][k];
    assert OutlookOf(BuildReport(rain, evap)) == Stages[k];
  }

  /**
    A failed rainfall fetch (missing path, empty series or non-numeric last
    reading) yields the calmest report of the day: stable conditions, workable
    soil, moderate SWPPP risk and an optimal pour.
   */
  lemma FailedFetchGivesCalmestReport(data: UsgsFeed.Response)
    requires UsgsFeed.Readings(data).None? || UsgsFeed.LastReading(UsgsFeed.Readings(data).value).None?
    ensures OutlookOf(DailyReport(UsgsFeed.LatestRainfall(data))) == Stages[0]
    ensures DailyReport(UsgsFeed.LatestRainfall(data)).weatherMetrics.observed24hPrecip == 0.0
  {
  }

  /** The three map labels, in order, with priorities High, Med, High. */
  lemma MapLabelsAreFixed(rain: real, evap: real)
    ensures var labels := BuildReport(rain, evap).swpppCompliance.mapLabels;
      && |labels| == 3
      && labels[0].priority == High && labels[1].priority == Med && labels[2].priority == High
      && labels[0].labelText == "URGENT: Silt Fence Breach"
      && labels[1].labelText == "MAINTENANCE: Sediment Removal"
      && labels[2].labelText == "STABILIZE: NW Slope Rills"
  {
  }

  /** The written texts tell the classifications apart, so the saved report loses nothing. */
  lemma TextsAreDistinct()
    ensures MonitorSiltFences.Text() != StableConditions.Text()
    ensures Saturated.Text() != Workable.Text()
    ensures HighRisk.Text() != ModerateRisk.Text()
    ensures Caution.Text() != Optimal.Text()
    ensures High.Text() != Med.Text()
  {
  }
}
