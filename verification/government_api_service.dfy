/**
 * The government data service as it stands: a fixed list of three mandi
 * price records filtered by state and district, and two canned replies that
 * echo their arguments. Today's date is a parameter (`YYYY-MM-DD`).
 */
module GovernmentApiService {
  import opened Wrappers
  import opened Seqs
  import opened Text

  /** One day's prices for a commodity at a market, in rupees per quintal. */
  datatype PriceRecord = PriceRecord(
    state: string,
    district: string,
    market: string,
    commodity: string,
    variety: string,
    arrivalDate: string,
    minPrice: int,
    maxPrice: int,
    modalPrice: int)

  /** The three records the service returns, all dated today, in this order. */
  function PriceFixture(today: string): (r: seq<PriceRecord>)
    ensures |r| == 3
    ensures forall rec | rec in r :: rec.arrivalDate == today && rec.minPrice <= rec.modalPrice <= rec.maxPrice
  {
    [ PriceRecord("Andhra Pradesh", "Krishna", "Vijayawada", "Rice", "Common", today, 2400, 2600, 2500),
      PriceRecord("Telangana", "Hyderabad", "Hyderabad", "Tomato", "Local", today, 1800, 2200, 2000),
      PriceRecord("Andhra Pradesh", "Guntur", "Guntur", "Cotton", "Medium Staple", today, 5800, 6200, 6000) ]
  }

  function StateTest(state: string): PriceRecord -> bool
  {
    (rec: PriceRecord) => state == "" || ContainsIgnoreCase(rec.state, state)
  }

  function DistrictTest(district: string): PriceRecord -> bool
  {
    (rec: PriceRecord) => district == "" || ContainsIgnoreCase(rec.district, district)
  }

  /** A record passes when its state and district contain the given ones, ignoring case ("" for absent). */
  function InRegion(state: string, district: string): PriceRecord -> bool
  {
    (rec: PriceRecord) => StateTest(state)(rec) && DistrictTest(district)(rec)
  }

  /** The two successive filters of `getDailyCropPrices`: state when given, then district when given. */
  function FilterPrices(records: seq<PriceRecord>, state: string, district: string): seq<PriceRecord>
  {
    var byState := if state != "" then Filter(StateTest(state), records) else records;
    if district != "" then Filter(DistrictTest(district), byState) else byState
  }

  lemma FilterPricesSelects(records: seq<PriceRecord>, state: string, district: string)
    ensures IsSelection(FilterPrices(records, state, district), records, InRegion(state, district))
  {
    var byState := if state != "" then Filter(StateTest(state), records) else records;
    if state != "" {
      FilterSelects(StateTest(state), records);
    } else {
      SelectionOfAll(records, StateTest(state));
    }
    if district != "" {
      FilterSelects(DistrictTest(district), byState);
    } else {
      SelectionOfAll(byState, DistrictTest(district));
    }
    SelectionCompose(byState, FilterPrices(records, state, district), records,
      StateTest(state), DistrictTest(district), InRegion(state, district));
  }

  /**
   * `getDailyCropPrices(state, district)`: the fixture records whose state
   * and district contain the given ones, ignoring case, in fixture order.
   */
  function GetDailyCropPrices(state: string, district: string, today: string): (r: seq<PriceRecord>)
    ensures IsSelection(r, PriceFixture(today), InRegion(state, district))
  {
    FilterPricesSelects(PriceFixture(today), state, district);
    FilterPrices(PriceFixture(today), state, district)
  }

  /** Without a state or district the whole fixture comes back, in order. */
  lemma NoRegionGivesFixture(today: string)
    ensures GetDailyCropPrices("", "", today) == PriceFixture(today)
  {
    var all := PriceFixture(today);
    SelectionIsFilter(GetDailyCropPrices("", "", today), all, InRegion("", ""));
    FilterKeepsAll(InRegion("", ""), all);
  }

  /** With only a state given, the result is exactly the records whose state contains it. */
  lemma StateOnlyFilter(state: string, today: string)
    ensures GetDailyCropPrices(state, "", today) == Filter(StateTest(state), PriceFixture(today))
  {
    var all := PriceFixture(today);
    SelectionIsFilter(GetDailyCropPrices(state, "", today), all, InRegion(state, ""));
    FilterExtensional(InRegion(state, ""), StateTest(state), all);
  }

  /** Every returned record has min price <= modal price <= max price. */
  lemma PricesOrdered(state: string, district: string, today: string)
    ensures forall rec | rec in GetDailyCropPrices(state, district, today) :: rec.minPrice <= rec.modalPrice <= rec.maxPrice
  {
    var r := GetDailyCropPrices(state, district, today);
    SubsequenceMultiset(r, PriceFixture(today));
    forall rec | rec in r
      ensures rec in PriceFixture(today)
    {
      assert rec in multiset(r);
    }
  }

  /** Weather in tenths where the reply has a decimal (rainfall 2.5 is 25). */
  datatype WeatherData = WeatherData(
    location: string, temperature: int, humidity: int, rainfallTenths: int, weatherCondition: string, date: string)

  /** `getWeatherData(location)`: a canned reading for the given location, dated today. */
  function GetWeatherData(location: string, today: string): (r: WeatherData)
    ensures r.location == location && r.date == today
  {
    WeatherData(location, 28, 65, 25, "Partly Cloudy", today)
  }

  /** The trend reply; the percentage is in tenths (5.2 is 52). */
  datatype MarketTrends = MarketTrends(
    commodity: string, periodDays: int, trend: string, priceChangeTenths: int, averagePrice: int, forecast: string)

  /**
   * `getMarketTrends(commodity, days = 30)`: the canned trend for the given
   * commodity over the given period; only an omitted `days` becomes 30.
   */
  function GetMarketTrends(commodity: string, days: Option<int>): (r: MarketTrends)
    ensures r.commodity == commodity
    ensures days.Some? ==> r.periodDays == days.value
    ensures days.None? ==> r.periodDays == 30
  {
    MarketTrends(commodity, days.GetOr(30), "upward", 52, 2450, "Prices expected to rise due to reduced supply")
  }
}
