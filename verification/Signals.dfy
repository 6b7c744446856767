/** Trading signals, and the lookup of the latest one for a symbol. */
module Signals {
  import opened Wrappers
  import opened Window

  type int64 = x: int | -0x8000_0000_0000_0000 <= x < 0x8000_0000_0000_0000

  datatype BuildTx = BuildTx(
    nonce: int64, sender: string, to: string, value: int64, gas: int64, maxFeePerGas: int64, data: string)

  datatype PathItem = PathItem(symbol: string, priceAvg: real, exchange: int64, market: int64, symbolType: int64)

  datatype Detail = Detail(path: seq<PathItem>, amountSum: real, consumeRatio: real)

  datatype Signal = Signal(
    symbol: string,
    buildTx: BuildTx,
    baseGasPrice: real,
    tradeBlockNum: int64,
    registId: int64,
    hedgeId: int64,
    depthDetails: map<string, seq<Detail>>,
    symbolsTradeSide: map<string, map<string, string>>,
    priceExpect: real,
    side: string,
    amountArb: real)

  /** The zero value of the struct. */
  const ZERO_SIGNAL := Signal("", BuildTx(0, "", "", 0, 0, 0, ""), 0.0, 0, 0, 0, map[], map[], 0.0, "", 0.0)

  /** The position of the newest signal for a symbol. */
  function Newest(signals: seq<Signal>, symbol: string): (r: Option<nat>)
    ensures r.Some? ==> r.value < |signals| && signals[r.value].symbol == symbol
    ensures r.Some? ==> forall j :: r.value < j < |signals| ==> signals[j].symbol != symbol
    ensures r.None? ==> forall j :: 0 <= j < |signals| ==> signals[j].symbol != symbol
  {
    if signals == [] then None
    else if signals[|signals|-1].symbol == symbol then Some(|signals| - 1)
    else Newest(signals[..|signals|-1], symbol)
  }

  /** What the lookup returns: on a miss the last signal looked at, which is the oldest. */
  function Lookup(signals: seq<Signal>, symbol: string): Signal {
    match Newest(signals, symbol)
    case Some(i) => signals[i]
    case None => if signals == [] then ZERO_SIGNAL else signals[0]
  }

  /** The backward scan, whose result variable keeps the last signal it was assigned. */
  method GetLastSignalBySymbol(signals: seq<Signal>, symbol: string) returns (signal: Signal)
    ensures signal == Lookup(signals, symbol)
  {
    signal := ZERO_SIGNAL;
    var i := |signals| - 1;
    while i >= 0
      invariant -1 <= i < |signals|
      invariant forall j :: i < j < |signals| ==> signals[j].symbol != symbol
      invariant i + 1 < |signals| ==> signal == signals[i + 1]
      invariant i + 1 == |signals| ==> signal == ZERO_SIGNAL
    {
      signal := signals[i];
      if signal.symbol == symbol {
        NewestIs(signals, symbol, i);
        return;
      }
      i := i - 1;
    }
  }

  lemma NewestIs(signals: seq<Signal>, symbol: string, i: nat)
    requires i < |signals| && signals[i].symbol == symbol
    requires forall j :: i < j < |signals| ==> signals[j].symbol != symbol
    ensures Newest(signals, symbol) == Some(i)
  {
  }

  lemma NewestInSuffix(history: seq<Signal>, d: nat, symbol: string)
    requires d <= |history|
    ensures var newest := Newest(history, symbol);
            Newest(history[d..], symbol) == if newest.Some? && newest.value >= d then Some(newest.value - d) else None
  {
    var newest, suffix := Newest(history, symbol), history[d..];
    assert forall j :: 0 <= j < |suffix| ==> suffix[j] == history[d + j];
    if newest.Some? && newest.value >= d {
      NewestIs(suffix, symbol, newest.value - d);
    }
  }

  lemma LookupHit(history: seq<Signal>, d: nat, symbol: string)
    requires d <= |history| && Newest(history, symbol).Some? && Newest(history, symbol).value >= d
    ensures Lookup(history[d..], symbol) == Lookup(history, symbol) == history[Newest(history, symbol).value]
  {
  }

  lemma LookupMiss(history: seq<Signal>, d: nat, symbol: string)
    requires d < |history| && (Newest(history, symbol).Some? ==> Newest(history, symbol).value < d)
    ensures Newest(history[d..], symbol).None? && Lookup(history[d..], symbol) == history[d]
  {
    NewestInSuffix(history, d, symbol);
  }

  /** The lookup in the retained window against the full history of signals: it finds the
      newest match of all time exactly when that one is still retained.  Otherwise, whether the
      symbol was never seen or only too long ago, it returns the oldest retained signal. */
  lemma WindowedLookup(history: seq<Signal>, symbol: string)
    requires history != []
    ensures var w, d, newest := Recent(history), Dropped(|history|), Newest(history, symbol);
            if newest.Some? && newest.value >= d
            then Lookup(w, symbol) == Lookup(history, symbol) == history[newest.value]
            else Newest(w, symbol).None? && d < |history| && Lookup(w, symbol) == history[d]
  {
    WindowIsSuffix(history);
    var d, newest := Dropped(|history|), Newest(history, symbol);
    if newest.Some? && newest.value >= d {
      LookupHit(history, d, symbol);
    } else {
      LookupMiss(history, d, symbol);
    }
  }

  /** For instance, with a single signal retained, every other symbol is answered with it. */
  lemma MissOnOneSignal(signal: Signal, symbol: string)
    requires signal.symbol != symbol
    ensures Lookup(Recent([signal]), symbol) == signal && Lookup(Recent([signal]), symbol).symbol != symbol
  {
    WindowedLookup([signal], symbol);
  }

  /** In particular when the newest match is among the last 102 signals received. */
  lemma RecentMatchIsFound(history: seq<Signal>, symbol: string, i: nat)
    requires Newest(history, symbol) == Some(i) && |history| - i <= 102
    ensures Lookup(Recent(history), symbol) == history[i]
  {
    LastItemsAreKept(history, i);
    WindowedLookup(history, symbol);
  }
}
