/** The pump-or-dump detector: a last closed candle that reached one and a
    half half-widths beyond the middle band and closed outside the band. A
    dump is reported as bearish and a pump as bullish, and a dump wins. */
module PumpDumpDetector {
  import opened Types

  /** The detector stays silent unless more band values than this exist. */
  const MinBandCount: nat := 5
  /** How far beyond the middle band, in percent of the half-width, a wick
      must reach. */
  const StretchPercentage: real := 150.0

  /** The price one and a half half-widths below the middle band. */
  function DumpLimit(band: Band): (r: real)
    ensures band.lower <= band.middle ==> r <= band.lower
    ensures r == band.lower - (band.middle - band.lower) / 2.0
  {
    band.middle - (band.middle - band.lower) / 100.0 * StretchPercentage
  }

  /** The price one and a half half-widths above the middle band. */
  function PumpLimit(band: Band): (r: real)
    ensures band.middle <= band.upper ==> r >= band.upper
    ensures r == band.upper + (band.upper - band.middle) / 2.0
  {
    band.middle + (band.upper - band.middle) / 100.0 * StretchPercentage
  }

  predicate Dumped(candle: PriceRecord, band: Band) {
    candle.low <= DumpLimit(band) && candle.close < band.lower
  }

  predicate Pumped(candle: PriceRecord, band: Band) {
    candle.high >= PumpLimit(band) && candle.close > band.upper
  }

  /** `findOpportunity` of the pump-or-dump detector, on the last closed
      candle and band value. */
  function FindOpportunity(symbol: string, tf: Timeframe, candles: seq<PriceRecord>,
                           bands: seq<Band>, rsi: seq<real>): (r: Option<AnalyzeResult>)
    requires |bands| > MinBandCount ==> |candles| >= 2
    ensures |bands| <= MinBandCount ==> r.None?
    ensures |bands| > MinBandCount ==>
      var candle := candles[|candles| - 2];
      var band := bands[|bands| - 2];
      && (r.Some? <==> Dumped(candle, band) || Pumped(candle, band))
      && (r.Some? ==> r.value == AnalyzeResult(symbol, PumpOrDump, r.value.direction, tf, candle.eventNumber,
                                               LastClosed(rsi), None, candle.close, None))
      && (r.Some? ==> (r.value.direction == Bearish <==> Dumped(candle, band)))
      && (r.Some? ==> (r.value.direction == Bullish <==> !Dumped(candle, band)))
  {
    if |bands| > MinBandCount then
      var candle := candles[|candles| - 2];
      var band := bands[|bands| - 2];
      if Dumped(candle, band) then
        Some(AnalyzeResult(symbol, PumpOrDump, Bearish, tf, candle.eventNumber, LastClosed(rsi), None, candle.close, None))
      else if Pumped(candle, band) then
        Some(AnalyzeResult(symbol, PumpOrDump, Bullish, tf, candle.eventNumber, LastClosed(rsi), None, candle.close, None))
      else None
    else None
  }

  /** With ordered bands a candle cannot both dump and pump, so the dump's
      precedence never hides a pump. */
  lemma NoCandleBothDumpsAndPumps(candle: PriceRecord, band: Band)
    requires band.lower <= band.upper
    ensures !(Dumped(candle, band) && Pumped(candle, band))
  {
  }
}
