/**
 * The farming-tools service: the usage statistics computed for every tool a
 * query returns, the category list, and the four demo tools with their
 * category filter. The queries themselves are not part of this model; their
 * rows are the inputs here.
 */
module ToolService {
  import opened Wrappers
  import opened Seqs

  /** A `farming_tools` row. */
  datatype FarmingTool = FarmingTool(
    id: string,
    name: string,
    category: string,
    description: string,
    benefits: Option<seq<string>>,
    suitableCrops: Option<seq<string>>,
    createdAt: string)

  /** A joined `tool_usage` row: its rating may be null or missing (`None`). */
  datatype UsageRow = UsageRow(effectivenessRating: Option<int>)

  /** A tool row as the query returns it, with its usage rows or none at all. */
  datatype ToolRow = ToolRow(tool: FarmingTool, toolUsage: Option<seq<UsageRow>>)

  /**
   * `avg_rating`: 0 when no rating is present, otherwise the mean of the
   * present ratings rounded to one decimal. The mean is a floating-point
   * computation and is kept here as the ratings it is taken over.
   */
  datatype AvgRating = NoRatings | MeanOf(ratings: seq<int>)

  datatype ToolWithUsage = ToolWithUsage(tool: FarmingTool, usageCount: nat, avgRating: AvgRating)

  /**
   * `usages.map(u => u.effectiveness_rating).filter(r => r !== null && r !== undefined)`:
   * every rating present, as often as rows carry it.
   */
  function PresentRatings(usages: seq<UsageRow>): (r: seq<int>)
    ensures |r| <= |usages|
    ensures forall v | v in r :: UsageRow(Some(v)) in usages
    ensures r == [] <==> forall u | u in usages :: u.effectivenessRating.None?
    ensures forall v :: multiset(r)[v] == multiset(usages)[UsageRow(Some(v))]
    decreases |usages|
  {
    if usages == [] then []
    else
      var rest := PresentRatings(usages[1..]);
      assert forall u | u in usages[1..] :: u in usages;
      assert usages == [usages[0]] + usages[1..];
      match usages[0].effectivenessRating
      case Some(v) => [v] + rest
      case None => rest
  }

  /** The number of usage rows carrying a rating, counted one by one. */
  function CountRated(usages: seq<UsageRow>): nat
    decreases |usages|
  {
    if usages == [] then 0 else (if usages[0].effectivenessRating.Some? then 1 else 0) + CountRated(usages[1..])
  }

  /** One rating is kept per usage row that has one. */
  lemma {:induction false} PresentRatingsCount(usages: seq<UsageRow>)
    ensures |PresentRatings(usages)| == CountRated(usages)
    decreases |usages|
  {
    if usages != [] {
      PresentRatingsCount(usages[1..]);
    }
  }

  /**
   * The statistics every tool query attaches: `usage_count` is the number of
   * usage rows (0 when the row has none), and `avg_rating` is 0 exactly when
   * no usage row carries a rating, otherwise taken over the ratings present.
   */
  function WithUsageStats(row: ToolRow): (r: ToolWithUsage)
    ensures r.tool == row.tool
    ensures row.toolUsage.None? ==> r.usageCount == 0 && r.avgRating == NoRatings
    ensures row.toolUsage.Some? ==> r.usageCount == |row.toolUsage.value|
    ensures r.avgRating.NoRatings? <==> forall u | u in row.toolUsage.GetOr([]) :: u.effectivenessRating.None?
    ensures r.avgRating.MeanOf? ==> r.avgRating.ratings == PresentRatings(row.toolUsage.GetOr([])) && |r.avgRating.ratings| > 0
  {
    var usages := row.toolUsage.GetOr([]);
    var ratings := PresentRatings(usages);
    ToolWithUsage(row.tool, |usages|, if |ratings| > 0 then MeanOf(ratings) else NoRatings)
  }

  /** `(data || []).map(...)` in `getFarmingTools`, `searchTools` and `getRecommendedTools`: one entry per row, in order. */
  function WithUsageStatsAll(data: Option<seq<ToolRow>>): (r: seq<ToolWithUsage>)
    ensures |r| == |data.GetOr([])|
    ensures forall i :: 0 <= i < |r| ==> r[i] == WithUsageStats(data.GetOr([])[i])
  {
    var rows := data.GetOr([]);
    seq(|rows|, i requires 0 <= i < |rows| => WithUsageStats(rows[i]))
  }

  /** The statistics of a list are the statistics of its parts, so mapping commutes with concatenation. */
  lemma WithUsageStatsAllAppend(xs: seq<ToolRow>, ys: seq<ToolRow>)
    ensures WithUsageStatsAll(Some(xs + ys)) == WithUsageStatsAll(Some(xs)) + WithUsageStatsAll(Some(ys))
  {
  }

  /**
   * `getToolCategories`: `[...new Set(rows.map(item => item.category))]` over
   * the rows the query returns: every category once, in order of first
   * appearance, and no category that is not in some row.
   */
  function GetToolCategories(data: Option<seq<string>>): (r: seq<string>)
    ensures NoDuplicates(r)
    ensures forall c | c in r :: c in data.GetOr([])
    ensures forall c | c in data.GetOr([]) :: c in r
    ensures forall i, j :: 0 <= i < j < |r| ==> IndexOf(data.GetOr([]), r[i]) < IndexOf(data.GetOr([]), r[j])
  {
    DedupeFirstSeenOrder(data.GetOr([]));
    Dedupe(data.GetOr([]))
  }

  // ---------------------------------------------------------------------------
  // The demo branch of getFarmingTools

  /** The fixed fields of a demo tool, everything but its creation time. */
  datatype ToolInfo = ToolInfo(
    id: string, name: string, category: string, description: string,
    benefits: seq<string>, suitableCrops: seq<string>, costEstimate: int)

  /**
   * A demo tool: its fixed fields and the time it was created (the time of
   * the call). Its usage count and rating are drawn at random in the source
   * and are not part of this model.
   */
  datatype DemoTool = DemoTool(info: ToolInfo, createdAt: string)

  const SmartIrrigationSystem := ToolInfo("tool1", "Smart Irrigation System", "Irrigation",
    "Automated drip irrigation system with IoT sensors for optimal water management",
    ["Water conservation", "Automated watering", "Crop monitoring", "Remote control"],
    ["Rice", "Cotton", "Vegetables", "Fruits"], 25000)

  const SoilPhMeter := ToolInfo("tool2", "Soil pH Meter", "Testing",
    "Digital soil pH and moisture meter with instant readings",
    ["Accurate pH measurement", "Moisture detection", "Portable design", "Easy to use"],
    ["All crops"], 2500)

  const DroneCropSprayer := ToolInfo("tool3", "Drone Crop Sprayer", "Spraying",
    "Autonomous drone for precise pesticide and fertilizer application",
    ["Precision spraying", "Time saving", "Reduced chemical waste", "GPS guided"],
    ["Cotton", "Rice", "Sugarcane", "Wheat"], 150000)

  const WeatherStation := ToolInfo("tool4", "Weather Station", "Monitoring",
    "Comprehensive weather monitoring system with mobile alerts",
    ["Real-time weather data", "Mobile notifications", "Historical data", "Forecast alerts"],
    ["All crops"], 35000)

  /** The four demo tools, created now. */
  function DemoTools(now: string): (r: seq<DemoTool>)
    ensures |r| == 4
    ensures forall i, j :: 0 <= i < j < |r| ==> r[i].info.category != r[j].info.category && r[i].info.id != r[j].info.id
    ensures forall t | t in r :: t.createdAt == now
  {
    [ DemoTool(SmartIrrigationSystem, now), DemoTool(SoilPhMeter, now),
      DemoTool(DroneCropSprayer, now), DemoTool(WeatherStation, now) ]
  }

  function InCategory(category: string): DemoTool -> bool
  {
    (t: DemoTool) => t.info.category == category
  }

  /**
   * The demo branch: every demo tool when no category is given, otherwise
   * exactly the tools of that category, in their fixed order.
   */
  function DemoToolsByCategory(category: string, now: string): (r: seq<DemoTool>)
    ensures category == "" ==> r == DemoTools(now)
    ensures category != "" ==> IsSelection(r, DemoTools(now), InCategory(category))
  {
    if category != "" then
      FilterSelects(InCategory(category), DemoTools(now));
      Filter(InCategory(category), DemoTools(now))
    else DemoTools(now)
  }

  /** A category names at most one demo tool, and one of the four names exactly one. */
  lemma DemoCategoryNamesOneTool(category: string, now: string)
    requires category != ""
    ensures |DemoToolsByCategory(category, now)| <= 1
    ensures (exists t :: t in DemoTools(now) && t.info.category == category) ==> |DemoToolsByCategory(category, now)| == 1
  {
    var all := DemoTools(now);
    FilterAtMostOne(InCategory(category), all);
    if exists t :: t in all && t.info.category == category {
      var t :| t in all && t.info.category == category;
      var i :| 0 <= i < |all| && all[i] == t;
      assert InCategory(category)(all[i]);
    }
  }

  /** What a call of `getFarmingTools` settles to. */
  datatype ToolsResult = Tools(tools: seq<DemoTool>) | Rejected(error: string)

  const UndefinedFlagError: string := "ReferenceError: isSupabaseConfigured is not defined"

  /**
   * `getFarmingTools` as written: its first statement reads
   * `isSupabaseConfigured`, which the file never imports, so the call always
   * rejects with a ReferenceError that its catch block rethrows.
   */
  function GetFarmingToolsAsWritten(category: string, now: string): (r: ToolsResult)
    ensures r.Rejected? && r.error == UndefinedFlagError
  {
    Rejected(UndefinedFlagError)
  }

  /** As written, the demo tools are never returned, whatever the category. */
  lemma DemoToolsUnreachable(category: string, now: string)
    ensures GetFarmingToolsAsWritten(category, now) != Tools(DemoToolsByCategory(category, now))
    ensures GetFarmingToolsAsWritten("", now).Rejected?
  {
  }

  /**
   * `getFarmingTools` with the flag imported and false (no backend): it
   * returns the demo tools, filtered by category when one is given.
   */
  function GetFarmingTools(category: string, now: string): (r: ToolsResult)
    ensures r.Tools?
    ensures category == "" ==> r.tools == DemoTools(now)
    ensures category != "" ==> IsSelection(r.tools, DemoTools(now), InCategory(category))
  {
    Tools(DemoToolsByCategory(category, now))
  }
}
