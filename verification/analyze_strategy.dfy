/** The composite detector of one symbol and timeframe: the RSI divergence,
    the Bollinger-band and the pump-or-dump detectors are asked in that
    order and the first answer wins. Every answer is also remembered in a
    log of the session's candidates. */
module StrategyChain {
  import opened Types
  import opened Utils
  import RsiDivergenceDetector
  import BollingerBandDetector
  import PumpDumpDetector

  /** The chain's answer together with the updated candidate log. */
  datatype Found = Found(result: Option<AnalyzeResult>, log: seq<AnalyzeResult>)

  /** What the detectors that are actually asked need of their inputs: the
      divergence detector always, the band detector (and after it the
      pump-or-dump detector) only when the divergence detector is silent. */
  predicate InputsReady(symbol: string, tf: Timeframe, candles: seq<PriceRecord>, rsi: seq<real>, bands: seq<Band>) {
    && (|rsi| > RsiDivergenceDetector.MinRsiCount ==> |candles| >= RsiDivergenceDetector.WindowSize)
    && (RsiDivergenceDetector.FindOpportunity(symbol, tf, candles, rsi).None? &&
        |bands| > BollingerBandDetector.MinBandCount ==>
          |candles| >= BollingerBandDetector.EndRecentOffset - 1 &&
          |bands| >= BollingerBandDetector.EndRecentOffset - 1)
  }

  /** `findOpportunity` of the strategy service: the first detector that
      reports something decides the answer, which is passed on unmodified
      and appended to the log exactly once. */
  function FindOpportunity(log: seq<AnalyzeResult>, symbol: string, tf: Timeframe,
                           candles: seq<PriceRecord>, rsi: seq<real>, bands: seq<Band>): (r: Found)
    requires InputsReady(symbol, tf, candles, rsi, bands)
    ensures r.result.None? ==> r.log == log
    ensures r.result.Some? ==> r.log == log + [r.result.value]
    ensures r.result.Some? ==> r.result.value.symbol == symbol && r.result.value.timeFrame == tf
    ensures r.result.Some? ==> r.result.value.strategy in {RsiDivergence, RsiWithBb, PumpOrDump}
    ensures r.result.None? <==>
      && RsiDivergenceDetector.FindOpportunity(symbol, tf, candles, rsi).None?
      && BollingerBandDetector.FindOpportunity(symbol, tf, candles, bands, rsi).None?
      && PumpDumpDetector.FindOpportunity(symbol, tf, candles, bands, rsi).None?
  {
    var divergence := RsiDivergenceDetector.FindOpportunity(symbol, tf, candles, rsi);
    if divergence.Some? then Found(divergence, log + [divergence.value])
    else
      var band := BollingerBandDetector.FindOpportunity(symbol, tf, candles, bands, rsi);
      if band.Some? then Found(band, log + [band.value])
      else
        var pumpDump := PumpDumpDetector.FindOpportunity(symbol, tf, candles, bands, rsi);
        if pumpDump.Some? then Found(pumpDump, log + [pumpDump.value])
        else Found(None, log)
  }

  /** The strategy of the chain's answer names the detector that produced
      it, and every detector before it in the chain found nothing. */
  lemma FirstMatchWins(log: seq<AnalyzeResult>, symbol: string, tf: Timeframe,
                       candles: seq<PriceRecord>, rsi: seq<real>, bands: seq<Band>)
    requires InputsReady(symbol, tf, candles, rsi, bands)
    ensures var r := FindOpportunity(log, symbol, tf, candles, rsi, bands).result;
      && (RsiDivergenceDetector.FindOpportunity(symbol, tf, candles, rsi).Some? ==>
            r == RsiDivergenceDetector.FindOpportunity(symbol, tf, candles, rsi))
      && (r.Some? && r.value.strategy == RsiWithBb ==>
            && RsiDivergenceDetector.FindOpportunity(symbol, tf, candles, rsi).None?
            && r == BollingerBandDetector.FindOpportunity(symbol, tf, candles, bands, rsi))
      && (r.Some? && r.value.strategy == PumpOrDump ==>
            && RsiDivergenceDetector.FindOpportunity(symbol, tf, candles, rsi).None?
            && BollingerBandDetector.FindOpportunity(symbol, tf, candles, bands, rsi).None?
            && r == PumpDumpDetector.FindOpportunity(symbol, tf, candles, bands, rsi))
  {
  }

  /** One log entry: the symbol without its quote currency, a dash, the
      timeframe and a separator. */
  function Entry(item: AnalyzeResult): string {
    TrimUsdt(item.symbol) + "-" + TimeframeName(item.timeFrame) + ", "
  }

  /** All log entries, oldest first. */
  function Entries(log: seq<AnalyzeResult>): string {
    if |log| == 0 then "" else Entry(log[0]) + Entries(log[1..])
  }

  const LogHeader: string := "candidates: "

  /** `logSessionSignals`: the message written (none for an empty log) and
      the emptied log. */
  datatype Flushed = Flushed(message: Option<string>, log: seq<AnalyzeResult>)

  function LogSessionSignals(log: seq<AnalyzeResult>): (r: Flushed)
    ensures r.log == []
    ensures r.message.Some? <==> |log| > 0
    ensures r.message.Some? ==> LogHeader <= r.message.value
  {
    if |log| > 0 then
      var message := LogHeader + Entries(log);
      Flushed(Some(message), [])
    else Flushed(None, [])
  }

  /** The message lists the entries of a log split anywhere in order: the
      entries of the older part, then those of the newer part. */
  lemma {:induction false} EntriesOfConcatenation(a: seq<AnalyzeResult>, b: seq<AnalyzeResult>)
    ensures Entries(a + b) == Entries(a) + Entries(b)
  {
    if |a| == 0 {
      assert a + b == b;
    } else {
      assert (a + b)[1..] == a[1..] + b;
      EntriesOfConcatenation(a[1..], b);
    }
  }

  /** A candidate appended to the log (as `FindOpportunity` does) shows up
      in the next flushed message right after the entries logged before it. */
  lemma AppendedCandidateIsListed(log: seq<AnalyzeResult>, item: AnalyzeResult)
    ensures LogSessionSignals(log + [item]).message == Some(LogHeader + Entries(log) + Entry(item))
  {
    EntriesOfConcatenation(log, [item]);
    SingleEntry(item);
    ConcatenationAssociates(LogHeader, Entries(log), Entry(item));
  }

  lemma SingleEntry(item: AnalyzeResult)
    ensures Entries([item]) == Entry(item)
  {
    assert [item][1..] == [];
  }

  lemma ConcatenationAssociates(a: string, b: string, c: string)
    ensures a + (b + c) == a + b + c
  {
  }
}
