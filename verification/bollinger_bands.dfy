/** The Bollinger-band detector (a candle that dips to the lower band and
    closes back inside it with a low RSI, or the mirror at the upper band) and
    the two band-position measures used to rank and track opportunities. */
module BollingerBandDetector {
  import opened Types

  /** The detector stays silent unless more band values than this exist. */
  const MinBandCount: nat := 5
  /** Offsets from the end, `FirstRecentOffset` up to but excluding
      `EndRecentOffset`, of the candles that must not have broken the band. */
  const FirstRecentOffset: nat := 3
  const EndRecentOffset: nat := 15

  /** The candle `offset` positions from the end had its low below the lower
      band. */
  predicate BrokeLowerAt(candles: seq<PriceRecord>, bands: seq<Band>, offset: int)
    requires FirstRecentOffset <= offset < EndRecentOffset
    requires |candles| >= EndRecentOffset - 1 && |bands| >= EndRecentOffset - 1
  {
    candles[|candles| - offset].low < bands[|bands| - offset].lower
  }

  /** The candle `offset` positions from the end had its high above the
      upper band. */
  predicate BrokeUpperAt(candles: seq<PriceRecord>, bands: seq<Band>, offset: int)
    requires FirstRecentOffset <= offset < EndRecentOffset
    requires |candles| >= EndRecentOffset - 1 && |bands| >= EndRecentOffset - 1
  {
    candles[|candles| - offset].high > bands[|bands| - offset].upper
  }

  /** The conditions of the bullish signal, on the last closed candle. */
  predicate TouchesLowerBand(candles: seq<PriceRecord>, bands: seq<Band>, rsi: seq<real>)
    requires |candles| >= EndRecentOffset - 1 && |bands| >= EndRecentOffset - 1
  {
    var candle := candles[|candles| - 2];
    var band := bands[|bands| - 2];
    && candle.low <= band.lower && candle.close > band.lower
    && LastClosed(rsi).Some? && LastClosed(rsi).value < 35.0
    && !(exists offset :: FirstRecentOffset <= offset < EndRecentOffset && BrokeLowerAt(candles, bands, offset))
  }

  /** The conditions of the bearish signal, mirror of `TouchesLowerBand`. */
  predicate TouchesUpperBand(candles: seq<PriceRecord>, bands: seq<Band>, rsi: seq<real>)
    requires |candles| >= EndRecentOffset - 1 && |bands| >= EndRecentOffset - 1
  {
    var candle := candles[|candles| - 2];
    var band := bands[|bands| - 2];
    && candle.high >= band.upper && candle.close < band.upper
    && LastClosed(rsi).Some? && LastClosed(rsi).value > 65.0
    && !(exists offset :: FirstRecentOffset <= offset < EndRecentOffset && BrokeUpperAt(candles, bands, offset))
  }

  /** `findOpportunity` of the band detector. Reading fourteen candles and
      band values back is safe only when that many exist, which callers must
      ensure whenever more than five band values are passed. */
  function FindOpportunity(symbol: string, tf: Timeframe, candles: seq<PriceRecord>,
                           bands: seq<Band>, rsi: seq<real>): (r: Option<AnalyzeResult>)
    requires |bands| > MinBandCount ==> |candles| >= EndRecentOffset - 1 && |bands| >= EndRecentOffset - 1
    ensures |bands| <= MinBandCount ==> r.None?
    ensures r.Some? ==>
      var candle := candles[|candles| - 2];
      && r.value == AnalyzeResult(symbol, RsiWithBb, r.value.direction, tf, candle.eventNumber,
                                  LastClosed(rsi), None, candle.close, None)
      && (r.value.direction == Bullish <==> TouchesLowerBand(candles, bands, rsi))
      && (r.value.direction == Bearish ==> TouchesUpperBand(candles, bands, rsi))
      && r.value.direction != Unrecognised
    ensures r.None? && |bands| > MinBandCount ==>
      !TouchesLowerBand(candles, bands, rsi) && !TouchesUpperBand(candles, bands, rsi)
  {
    if |bands| > MinBandCount then
      var candle := candles[|candles| - 2];
      if TouchesLowerBand(candles, bands, rsi) then
        Some(AnalyzeResult(symbol, RsiWithBb, Bullish, tf, candle.eventNumber, LastClosed(rsi), None, candle.close, None))
      else if TouchesUpperBand(candles, bands, rsi) then
        Some(AnalyzeResult(symbol, RsiWithBb, Bearish, tf, candle.eventNumber, LastClosed(rsi), None, candle.close, None))
      else None
    else None
  }

  /** A candle that broke below the lower band three to fourteen candles ago
      suppresses the bullish signal, whatever the last closed candle did. */
  lemma RecentLowerBreakSuppressesBullish(symbol: string, tf: Timeframe, candles: seq<PriceRecord>,
                                          bands: seq<Band>, rsi: seq<real>, offset: int)
    requires |bands| > MinBandCount && |candles| >= EndRecentOffset - 1 && |bands| >= EndRecentOffset - 1
    requires FirstRecentOffset <= offset < EndRecentOffset
    requires candles[|candles| - offset].low < bands[|bands| - offset].lower
    ensures FindOpportunity(symbol, tf, candles, bands, rsi).None? ||
            FindOpportunity(symbol, tf, candles, bands, rsi).value.direction == Bearish
  {
    assert BrokeLowerAt(candles, bands, offset);
  }

  /** `findBollingerBandPercentage`: how far the price has travelled from the
      middle band toward the band on the signal's side, in percent of that
      half-width. Only the half-width actually divided by must be non-zero. */
  function BandPercentage(direction: Direction, price: real, band: Band): (r: real)
    requires direction == Bullish ==> band.middle != band.lower
    requires direction == Bearish ==> band.upper != band.middle
    ensures direction == Unrecognised ==> r == 0.0
    ensures direction == Bullish ==>
      && (r == 0.0 <==> price == band.middle)
      && (price == band.lower ==> r == 100.0)
      && (band.lower < band.middle ==> (r > 0.0 <==> price < band.middle))
      && (band.lower < band.middle ==> (r >= 100.0 <==> price <= band.lower))
    ensures direction == Bearish ==>
      && (r == 0.0 <==> price == band.middle)
      && (price == band.upper ==> r == 100.0)
      && (band.middle < band.upper ==> (r > 0.0 <==> price > band.middle))
      && (band.middle < band.upper ==> (r >= 100.0 <==> price >= band.upper))
  {
    match direction
    case Bullish =>
      QuotientFacts(band.middle - price, band.middle - band.lower);
      (band.middle - price) / (band.middle - band.lower) * 100.0
    case Bearish =>
      QuotientFacts(price - band.middle, band.upper - band.middle);
      (price - band.middle) / (band.upper - band.middle) * 100.0
    case Unrecognised => 0.0
  }

  /** The three bands are strictly ordered, as the indicator produces them
      whenever prices are not all equal. */
  predicate Ordered(band: Band) {
    band.lower < band.middle < band.upper
  }

  /** `bollingerBandScore`: the signed position of the price between the
      middle band (0) and the upper (+1) or lower (-1) band. Only the
      half-width on the price's side must be non-zero. */
  function BandScore(price: real, band: Band): (r: real)
    requires price < band.middle ==> band.middle != band.lower
    requires price > band.middle ==> band.upper != band.middle
    ensures price == band.middle ==> r == 0.0
    ensures price == band.lower && band.lower < band.middle ==> r == -1.0
    ensures price == band.upper && band.middle < band.upper ==> r == 1.0
    ensures Ordered(band) ==> (r < 0.0 <==> price < band.middle) && (r > 0.0 <==> price > band.middle)
    ensures Ordered(band) ==>
      (r > 0.8 <==> price > band.middle + 0.8 * (band.upper - band.middle))
    ensures Ordered(band) ==>
      (r < -0.8 <==> price < band.middle - 0.8 * (band.middle - band.lower))
  {
    if price < band.middle then
      QuotientFacts(band.middle - price, band.middle - band.lower);
      (band.middle - price) / (band.middle - band.lower) * -1.0
    else if price > band.middle then
      QuotientFacts(price - band.middle, band.upper - band.middle);
      (price - band.middle) / (band.upper - band.middle)
    else 0.0
  }

  /** A product with a positive factor has the sign of the other factor. */
  lemma MulSign(a: real, d: real)
    requires d > 0.0
    ensures a > 0.0 <==> a * d > 0.0
    ensures a >= 0.0 <==> a * d >= 0.0
  {
  }

  /** Dividing by a positive number keeps comparisons with a threshold. */
  lemma QuotientVersusThreshold(x: real, d: real, t: real)
    requires d > 0.0
    ensures x / d > t <==> x > t * d
    ensures x / d >= t <==> x >= t * d
  {
    var q := x / d;
    var e := q - t;
    assert q * d == x;
    assert e * d == q * d - t * d;
    MulSign(e, d);
  }

  /** Sign and threshold facts about a quotient. */
  lemma QuotientFacts(x: real, d: real)
    requires d != 0.0
    ensures d > 0.0 ==> (x / d > 0.0 <==> x > 0.0) && (x / d >= 1.0 <==> x >= d) && (x / d > 0.8 <==> x > 0.8 * d)
    ensures x == 0.0 ==> x / d == 0.0
    ensures x == d ==> x / d == 1.0
  {
    if d > 0.0 {
      QuotientVersusThreshold(x, d, 0.0);
      QuotientVersusThreshold(x, d, 1.0);
      QuotientVersusThreshold(x, d, 0.8);
    }
  }
}
