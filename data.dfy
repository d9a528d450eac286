/**
 * Records of src/data.rs and the checking and joining part of `read_data`.
 *
 * Parsed forecasts and prices come in as sequences; reading and parsing the
 * JSON and TOML files is not part of this model. Timestamps are only copied
 * and compared for equality, so any type with equality serves; integers are
 * used here.
 */
module Data {
  import opened Wrappers

  type Timestamp = int

  /** One consumption forecast: average power over a quarter of an hour. */
  datatype Consumption = Consumption(start: Timestamp, end: Timestamp, power: real)

  /** One market price, valid for an hour. */
  datatype Price = Price(start: Timestamp, end: Timestamp, value: real)

  /** A forecast interval joined with its price (the source's `Data`). */
  datatype Interval = Interval(start: Timestamp, end: Timestamp, power: real, price: real)

  datatype Config = Config(
    maxConsumption: real,
    batteryCapacity: real,
    batteryMaxCharge: real,
    batteryInitialCharge: real,
    batteryEfficiency: real,
    batteryFinalCharge: real)

  /** Energy moved into or out of the battery during one interval. */
  datatype Plan = Plan(start: Timestamp, end: Timestamp, energyFromBatteryWh: real, energyToBatteryWh: real)

  const NoConsumptionData: string := "No consumption data"
  const NoPriceData: string := "No price data"
  const StartMismatch: string := "Start of time series is not the same for both forecasts and prices"
  const EndMismatch: string := "End of time series is not the same for both forecasts and prices"

  /** The consistency checks of `read_data` all pass. */
  predicate SeriesAgree(forecasts: seq<Consumption>, prices: seq<Price>) {
    && forecasts != []
    && prices != []
    && forecasts[0].start == prices[0].start
    && forecasts[|forecasts| - 1].end == prices[|prices| - 1].end
  }

  /** Checks that both series are non-empty and span the same time, then
      attaches to forecast `i` the price at index `i / 4` (one hourly price
      per four quarter-hour forecasts). Each failed check ends the program
      with its message in the source; here it is the error of the result. */
  method ReadData(forecasts: seq<Consumption>, prices: seq<Price>) returns (r: Result<seq<Interval>, string>)
    requires SeriesAgree(forecasts, prices) ==> |forecasts| <= 4 * |prices|
    ensures forecasts == [] <==> r == Err(NoConsumptionData)
    ensures forecasts != [] && prices == [] <==> r == Err(NoPriceData)
    ensures (forecasts != [] && prices != [] && forecasts[0].start != prices[0].start)
              <==> r == Err(StartMismatch)
    ensures (&& forecasts != [] && prices != [] && forecasts[0].start == prices[0].start
             && forecasts[|forecasts| - 1].end != prices[|prices| - 1].end)
              <==> r == Err(EndMismatch)
    ensures r.Ok? <==> SeriesAgree(forecasts, prices)
    ensures r.Ok? ==> |r.value| == |forecasts|
    ensures r.Ok? ==> forall i :: 0 <= i < |forecasts| ==>
              r.value[i] == Interval(forecasts[i].start, forecasts[i].end, forecasts[i].power, prices[i / 4].value)
  {
    if |forecasts| == 0 {
      return Err(NoConsumptionData);
    }
    if |prices| == 0 {
      return Err(NoPriceData);
    }
    if forecasts[0].start != prices[0].start {
      return Err(StartMismatch);
    }
    if forecasts[|forecasts| - 1].end != prices[|prices| - 1].end {
      return Err(EndMismatch);
    }

    var joinedData: seq<Interval> := [];
    for i := 0 to |forecasts|
      invariant |joinedData| == i
      invariant forall k :: 0 <= k < i ==>
                  joinedData[k] == Interval(forecasts[k].start, forecasts[k].end, forecasts[k].power, prices[k / 4].value)
    {
      var val := forecasts[i];
      joinedData := joinedData + [Interval(val.start, val.end, val.power, prices[i / 4].value)];
    }
    return Ok(joinedData);
  }
}
