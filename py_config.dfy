/** The ML service's configuration: the zone and time-slot baseline table, seasonal
  * factors, thresholds and node table, and the lookups over them. The time-slot
  * rule is the backend's one, `MockStore.GetTimeSlot`, which it repeats word for word. */
module Config {
  import opened Common
  import MockStore

  datatype Zone = Commercial | Residential | Mixed

  datatype Season = Summer | Monsoon | Winter | Spring

  /** A baseline record: the expected noise, temperature, AQI and crowd. */
  datatype Baseline = Baseline(noise: real, temp: real, aqi: real, crowd: real)

  /** An entry of the node table. */
  datatype NodeInfo = NodeInfo(zone: Zone, name: string)

  /** The slot names used as keys and in messages. */
  function SlotName(slot: MockStore.TimeSlot): string {
    match slot
    case Morning => "morning"
    case Afternoon => "afternoon"
    case Evening => "evening"
    case Night => "night"
  }

  /** `MOHALI_CONFIG['zones'][zone][slot]`. */
  function ZoneBaseline(zone: Zone, slot: MockStore.TimeSlot): (b: Baseline)
    ensures b.noise > 0.0 && b.temp > 0.0 && b.aqi > 0.0 && b.crowd > 0.0
  {
    match zone
    case Commercial =>
      (match slot
       case Morning => Baseline(55.0, 24.0, 80.0, 8.0)
       case Afternoon => Baseline(65.0, 32.0, 95.0, 15.0)
       case Evening => Baseline(70.0, 28.0, 90.0, 20.0)
       case Night => Baseline(45.0, 22.0, 70.0, 3.0))
    case Residential =>
      (match slot
       case Morning => Baseline(45.0, 23.0, 75.0, 5.0)
       case Afternoon => Baseline(50.0, 31.0, 85.0, 8.0)
       case Evening => Baseline(55.0, 27.0, 80.0, 12.0)
       case Night => Baseline(35.0, 21.0, 65.0, 2.0))
    case Mixed =>
      (match slot
       case Morning => Baseline(50.0, 24.0, 78.0, 6.0)
       case Afternoon => Baseline(58.0, 32.0, 90.0, 12.0)
       case Evening => Baseline(65.0, 28.0, 85.0, 18.0)
       case Night => Baseline(40.0, 21.0, 68.0, 3.0))
  }

  /** `MOHALI_CONFIG['seasonal_adjustments'][season]`, as (temp, aqi) factors. */
  datatype Adjustment = Adjustment(temp: real, aqi: real)

  function SeasonalAdjustment(season: Season): Adjustment {
    match season
    case Summer => Adjustment(1.2, 1.1)
    case Monsoon => Adjustment(0.85, 0.8)
    case Winter => Adjustment(0.7, 1.3)
    case Spring => Adjustment(1.0, 1.0)
  }

  // MOHALI_CONFIG['thresholds']
  const NoiseCritical: real := 85.0
  const TempCritical: real := 38.0
  const AqiCritical: real := 150.0
  const CrowdCritical: real := 25.0
  const StressElevated: int := 55
  const StressCritical: int := 80

  /** The node ids of `MOHALI_CONFIG['nodes']`, in table order. */
  const NodeIds: seq<string> := ["CP-MOH-01", "CP-MOH-02", "CP-MOH-03", "CP-MOH-04", "CP-MOH-05"]

  /** `MOHALI_CONFIG['nodes'].get(node_id)`. */
  function NodeConfig(nodeId: string): (info: Option<NodeInfo>)
    ensures info.Some? <==> nodeId in NodeIds
  {
    if nodeId == "CP-MOH-01" then Some(NodeInfo(Commercial, "IT Park Sector 70"))
    else if nodeId == "CP-MOH-02" then Some(NodeInfo(Residential, "Phase 11"))
    else if nodeId == "CP-MOH-03" then Some(NodeInfo(Mixed, "Phase 7"))
    else if nodeId == "CP-MOH-04" then Some(NodeInfo(Residential, "Sector 77"))
    else if nodeId == "CP-MOH-05" then Some(NodeInfo(Commercial, "Phase 3B2"))
    else None
  }

  /** `get_season`. */
  function GetSeason(month: int): (season: Season)
    ensures season == Summer <==> month in {4, 5, 6}
    ensures season == Monsoon <==> month in {7, 8, 9}
    ensures season == Winter <==> month in {10, 11, 12, 1}
    ensures season == Spring <==> month !in {1, 4, 5, 6, 7, 8, 9, 10, 11, 12}
  {
    if month in [4, 5, 6] then Summer
    else if month in [7, 8, 9] then Monsoon
    else if month in [10, 11, 12, 1] then Winter
    else Spring
  }

  /** The zone a node's baseline comes from: its own, or `mixed` when unlisted. */
  function ZoneOf(nodeId: string): Zone {
    match NodeConfig(nodeId)
    case Some(info) => info.zone
    case None => Mixed
  }

  /** Python truthiness of the optional `month` argument. */
  predicate Truthy(month: Option<int>) {
    month.Some? && month.value != 0
  }

  /** `get_baseline`: the table entry for the node's zone and the hour's slot, with
    * temperature and AQI scaled by the season's factors when a month is given. */
  function GetBaseline(nodeId: string, hour: int, month: Option<int>): (b: Baseline)
    ensures var entry := ZoneBaseline(ZoneOf(nodeId), MockStore.GetTimeSlot(hour));
      !Truthy(month) ==> b == entry
    ensures var entry := ZoneBaseline(ZoneOf(nodeId), MockStore.GetTimeSlot(hour));
      b.noise == entry.noise && b.crowd == entry.crowd
    ensures var entry := ZoneBaseline(ZoneOf(nodeId), MockStore.GetTimeSlot(hour));
      Truthy(month) ==>
        var adj := SeasonalAdjustment(GetSeason(month.value));
        b.temp == entry.temp * adj.temp && b.aqi == entry.aqi * adj.aqi
    ensures b.noise > 0.0 && b.temp > 0.0 && b.aqi > 0.0 && b.crowd > 0.0
  {
    var baseline := ZoneBaseline(ZoneOf(nodeId), MockStore.GetTimeSlot(hour));
    if Truthy(month) then
      var adj := SeasonalAdjustment(GetSeason(month.value));
      baseline.(temp := baseline.temp * adj.temp, aqi := baseline.aqi * adj.aqi)
    else baseline
  }

  /** An unlisted node gets the baseline of the `mixed` zone, the one `CP-MOH-03` has. */
  lemma UnknownNodeUsesMixedZone(nodeId: string, hour: int, month: Option<int>)
    requires nodeId !in NodeIds
    ensures GetBaseline(nodeId, hour, month) == GetBaseline("CP-MOH-03", hour, month)
  {
  }

  /** The factors of the spring months (2 and 3, and any month number out of range)
    * are 1, so there the table entry comes back as it is. */
  lemma SpringKeepsTable(nodeId: string, hour: int, month: int)
    requires GetSeason(month) == Spring
    ensures GetBaseline(nodeId, hour, Some(month)) == GetBaseline(nodeId, hour, None)
  {
  }

  /** Winter raises the expected AQI and lowers the expected temperature. */
  lemma WinterShiftsBaseline(nodeId: string, hour: int, month: int)
    requires month in {10, 11, 12, 1}
    ensures GetBaseline(nodeId, hour, Some(month)).aqi > GetBaseline(nodeId, hour, None).aqi
    ensures GetBaseline(nodeId, hour, Some(month)).temp < GetBaseline(nodeId, hour, None).temp
  {
  }
}
