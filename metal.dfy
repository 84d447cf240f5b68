/** The metal price records and price resolution of `huh/metal.py`.

    The two web services are not called: each is a function from the request
    to its decoded JSON response, given by the caller. */
module Metal {
  import opened Wrappers
  import SpaceTime

  const GoldPriceOrg: string := "goldprice.org"
  const GoldOrg: string := "gold.org"

  /** A price observation. The defaults are those of the dataclass, except the
      timestamp, whose default is the moment the class was defined. */
  datatype MetalPrice = MetalPrice(
    price: real := 0.0,
    timestamp: int,
    currency: string := "USD",
    weight: string := "oz",
    element: string := "au",
    site: Option<string> := None)

  /** A record built with only a timestamp carries the dataclass defaults. */
  lemma MetalPriceDefaults(timestamp: int)
    ensures var p := MetalPrice(timestamp := timestamp);
      p.price == 0.0 && p.currency == "USD" && p.weight == "oz" && p.element == "au" && p.site.None?
  {
  }

  /** The sort key `nearestTime` uses. */
  function Stamp(p: MetalPrice): int {
    p.timestamp
  }

  /** The first entry of goldprice.org's `items`. */
  datatype SpotItem = SpotItem(xauPrice: real, xagPrice: real, curr: string)

  /** goldprice.org's decoded response; `EmptySpot` is a falsy JSON value. */
  datatype SpotPayload = EmptySpot | Spot(items: seq<SpotItem>, tsj: int)

  /** One `[timestamp, price]` pair of gold.org's chart data. */
  datatype ChartPoint = ChartPoint(time: int, value: real)

  /** gold.org's decoded response, `chartData` keyed by currency; `EmptyChart`
      is a falsy JSON value. */
  datatype ChartPayload = EmptyChart | Chart(chartData: map<string, seq<ChartPoint>>)

  /** The path parameters of a gold.org chart request. */
  datatype ChartRequest = ChartRequest(start: int, end: int, currency: string, weight: string)

  datatype MetalError =
    | AcquireFailed(site: string)        // ErrorAcquireMetalData
    | MissingCurrency(currency: string)  // KeyError on chartData[currency]

  /** `fetchGoldPriceNow`: a gold record and then a silver record, both from
      the first item of the response. */
  function FetchGoldPriceNow(res: SpotPayload): (r: Result<seq<MetalPrice>, MetalError>)
    ensures r.Failure? <==> res.EmptySpot? || |res.items| == 0
    ensures r.Failure? ==> r.error == AcquireFailed(GoldPriceOrg)
    ensures r.Success? ==> |r.value| == 2
    ensures r.Success? ==> r.value[0].element == "au" && r.value[1].element == "ag"
    ensures r.Success? ==> r.value[0].price == res.items[0].xauPrice && r.value[1].price == res.items[0].xagPrice
    ensures r.Success? ==> forall i :: 0 <= i < 2 ==>
      && r.value[i].timestamp == res.tsj
      && r.value[i].currency == res.items[0].curr
      && r.value[i].weight == "oz"
      && r.value[i].site == Some(GoldPriceOrg)
  {
    if res.EmptySpot? || |res.items| == 0 then Failure(AcquireFailed(GoldPriceOrg))
    else
      var item := res.items[0];
      Success([
        MetalPrice(item.xauPrice, res.tsj, item.curr, site := Some(GoldPriceOrg)),
        MetalPrice(item.xagPrice, res.tsj, item.curr, element := "ag", site := Some(GoldPriceOrg))
      ])
  }

  /** `fetchGoldOrg`: one gold record per chart point for the requested
      currency, in payload order, labelled with the requested currency and weight. */
  function FetchGoldOrg(req: ChartRequest, res: ChartPayload): (r: Result<seq<MetalPrice>, MetalError>)
    ensures res.EmptyChart? ==> r == Failure(AcquireFailed(GoldOrg))
    ensures res.Chart? && req.currency !in res.chartData ==> r == Failure(MissingCurrency(req.currency))
    ensures r.Success? <==> res.Chart? && req.currency in res.chartData
    ensures r.Success? ==> |r.value| == |res.chartData[req.currency]|
    ensures r.Success? ==> forall i :: 0 <= i < |r.value| ==>
      && r.value[i].timestamp == res.chartData[req.currency][i].time
      && r.value[i].price == res.chartData[req.currency][i].value
      && r.value[i].currency == req.currency
      && r.value[i].weight == req.weight
      && r.value[i].element == "au"
      && r.value[i].site == Some(GoldOrg)
  {
    if res.EmptyChart? then Failure(AcquireFailed(GoldOrg))
    else if req.currency !in res.chartData then Failure(MissingCurrency(req.currency))
    else
      var points := res.chartData[req.currency];
      Success(seq(|points|, i requires 0 <= i < |points| =>
        MetalPrice(points[i].value, points[i].time, req.currency, req.weight, site := Some(GoldOrg))))
  }

  /** A request for silver, matched exactly. */
  predicate IsSilver(metalType: string) {
    metalType in {"silver", "ag"}
  }

  /** The gold.org request `metal_price` makes: the window around the target. */
  function ChartRequestFor(target: int, now: int, currency: string, weight: string): (req: ChartRequest)
    ensures req.end <= now && req.start < target
    ensures req.currency == currency && req.weight == weight
  {
    var times := SpaceTime.TimeRange(target, now);
    ChartRequest(times.start, times.end, currency, weight)
  }

  /** The pool `metal_price` searches: goldprice.org's two records first,
      then gold.org's, when both fetches succeed; the first failure otherwise. */
  function Pool(target: int, now: int, currency: string, weight: string,
                goldPrice: string -> SpotPayload, goldOrg: ChartRequest -> ChartPayload): (r: Result<seq<MetalPrice>, MetalError>)
    ensures var spot := FetchGoldPriceNow(goldPrice(currency));
      var req := ChartRequestFor(target, now, currency, weight);
      var chart := FetchGoldOrg(req, goldOrg(req));
      && (r.Success? <==> spot.Success? && chart.Success?)
      && (spot.Failure? ==> r == Failure(spot.error))
      && (spot.Success? && chart.Failure? ==> r == Failure(chart.error))
      && (r.Success? ==> |r.value| >= 2 && r.value[..2] == spot.value && r.value[2..] == chart.value)
  {
    var fgpn :- FetchGoldPriceNow(goldPrice(currency));
    var req := ChartRequestFor(target, now, currency, weight);
    var fgo :- FetchGoldOrg(req, goldOrg(req));
    Success(fgpn + fgo)
  }

  /** `metal_price`: fetch both sources (goldprice.org first), pool them in
      that order, answer a silver request with goldprice.org's silver record
      (`fgpn[1]`, the pool's second entry) and any other request with the
      pooled record nearest the target. */
  function MetalPriceAt(target: int, now: int, currency: string, weight: string, metalType: string,
                        goldPrice: string -> SpotPayload, goldOrg: ChartRequest -> ChartPayload): (r: Result<MetalPrice, MetalError>)
  {
    var prices :- Pool(target, now, currency, weight, goldPrice, goldOrg);
    if IsSilver(metalType) && prices[1].element == "ag" then Success(prices[1])
    else Success(SpaceTime.NearestTime(target, prices, Stamp).value)
  }

  /** Errors: goldprice.org is fetched first, so its failure wins; a silver
      request still fails when gold.org fails. */
  lemma MetalPriceErrors(target: int, now: int, currency: string, weight: string, metalType: string,
                         goldPrice: string -> SpotPayload, goldOrg: ChartRequest -> ChartPayload)
    ensures var req := ChartRequestFor(target, now, currency, weight);
      && (MetalPriceAt(target, now, currency, weight, metalType, goldPrice, goldOrg).Failure?
          <==> FetchGoldPriceNow(goldPrice(currency)).Failure? || FetchGoldOrg(req, goldOrg(req)).Failure?)
      && (FetchGoldPriceNow(goldPrice(currency)).Failure? ==>
          MetalPriceAt(target, now, currency, weight, metalType, goldPrice, goldOrg) == Failure(AcquireFailed(GoldPriceOrg)))
      && (FetchGoldPriceNow(goldPrice(currency)).Success? && FetchGoldOrg(req, goldOrg(req)).Failure? ==>
          MetalPriceAt(target, now, currency, weight, metalType, goldPrice, goldOrg) == Failure(FetchGoldOrg(req, goldOrg(req)).error))
  {
  }

  /** A silver request returns goldprice.org's silver record, without any
      nearest-time search. */
  lemma SilverShortCircuit(target: int, now: int, currency: string, weight: string, metalType: string,
                           goldPrice: string -> SpotPayload, goldOrg: ChartRequest -> ChartPayload)
    requires IsSilver(metalType)
    requires MetalPriceAt(target, now, currency, weight, metalType, goldPrice, goldOrg).Success?
    ensures MetalPriceAt(target, now, currency, weight, metalType, goldPrice, goldOrg) ==
      Success(FetchGoldPriceNow(goldPrice(currency)).value[1])
    ensures MetalPriceAt(target, now, currency, weight, metalType, goldPrice, goldOrg).value.price ==
      goldPrice(currency).items[0].xagPrice
  {
  }

  /** Any other request returns a pooled record at the least distance from
      the target, the first such in pool order (goldprice.org before
      gold.org), and it is never the silver record: goldprice.org's gold
      record carries the same timestamp and comes first in the pool. */
  lemma GoldRequestIsNearestGold(target: int, now: int, currency: string, weight: string, metalType: string,
                                 goldPrice: string -> SpotPayload, goldOrg: ChartRequest -> ChartPayload)
    requires !IsSilver(metalType)
    requires MetalPriceAt(target, now, currency, weight, metalType, goldPrice, goldOrg).Success?
    ensures Pool(target, now, currency, weight, goldPrice, goldOrg).Success?
    ensures var p := MetalPriceAt(target, now, currency, weight, metalType, goldPrice, goldOrg).value;
      var pool := Pool(target, now, currency, weight, goldPrice, goldOrg).value;
      && p in pool
      && (forall x :: x in pool ==> SpaceTime.Distance(p.timestamp, target) <= SpaceTime.Distance(x.timestamp, target))
      && p.element == "au"
      && (var k := SpaceTime.NearestIndex(pool, Stamp, target);
          && p == pool[k]
          && forall j :: 0 <= j < k ==> SpaceTime.Distance(p.timestamp, target) < SpaceTime.Distance(pool[j].timestamp, target))
  {
    var spot := FetchGoldPriceNow(goldPrice(currency)).value;
    var req := ChartRequestFor(target, now, currency, weight);
    var chart := FetchGoldOrg(req, goldOrg(req)).value;
    var pool := spot + chart;
    var i := SpaceTime.NearestIndex(pool, Stamp, target);
    assert Stamp(pool[0]) == Stamp(pool[1]);
    assert i != 1;
    if i >= 2 {
      assert pool[i] == chart[i - 2];
    }
  }
}
