/** The order that answers a competitor: its fee, its tokens and its hedges. */
module Trade {
  import opened Wrappers
  import opened GoStrings
  import opened Sequences
  import opened Signals
  import Startup

  const UINT64: int := 0x1_0000_0000_0000_0000
  const GWEI: real := 1000000000.0

  // ------------------------------------------------------------------------ fees

  /** Conversion of a float to an integer truncates towards zero. */
  function Truncate(x: real): int {
    if x >= 0.0 then x.Floor else -(-x).Floor
  }

  function AsUint64(x: int64): nat {
    if x < 0 then x + UINT64 else x
  }

  /** A big integer as uint64: unspecified out of range. */
  datatype Fee = Known(value: nat) | Unspecified

  function FeeOf(x: int): Fee {
    if 0 <= x < UINT64 then Known(x) else Unspecified
  }

  /** The signal's base price, in wei. */
  function BasePrice(signal: Signal): int {
    Truncate(signal.baseGasPrice * GWEI)
  }

  /** For a price in whole gwei it is that many times 10^9, and in general it is the scaled price
      without its fraction. */
  lemma BasePriceInGwei(signal: Signal, gwei: int)
    ensures signal.baseGasPrice == gwei as real ==> BasePrice(signal) == gwei * 1000000000
    ensures signal.baseGasPrice >= 0.0 ==>
              BasePrice(signal) as real <= signal.baseGasPrice * 1000000000.0 < BasePrice(signal) as real + 1.0
    ensures signal.baseGasPrice <= 0.0 ==>
              BasePrice(signal) as real - 1.0 < signal.baseGasPrice * 1000000000.0 <= BasePrice(signal) as real
  {
    var x := signal.baseGasPrice * GWEI;
    if signal.baseGasPrice == gwei as real {
      assert x == (gwei * 1000000000) as real;
    }
  }

  /** Which fees are in range. */
  lemma FeeRange(x: int)
    ensures FeeOf(x) == if 0 <= x <= 18446744073709551615 then Known(x) else Unspecified
  {
  }

  /** The big-integer arithmetic, step by step as in the source. */
  method NewGasPrice(signal: Signal, txGasPrice: int) returns (price: int)
    ensures price + BasePrice(signal) == txGasPrice + 1
  {
    price := 1;
    price := price + txGasPrice;
    var base := BasePrice(signal);
    price := price - base;
  }

  /** What a transaction pays per unit of gas in a block with base fee `baseFee` (EIP-1559,
      section "Specification"): the base fee and the priority fee, capped by the maximum. */
  function EffectivePrice(baseFee: int, priorityFee: int, maxFee: int): int {
    var headroom := maxFee - baseFee;
    baseFee + if priorityFee <= headroom then priorityFee else headroom
  }

  /** If the fee is in range, the priority fee on top of the signal's base price is exactly one
      more than the competitor's price; and in a block with that base fee the order outbids the
      competitor exactly when its fee cap exceeds the competitor's price. */
  lemma Outbids(order: Order, signal: Signal, txGasPrice: int)
    requires order.priorityFee == FeeOf(txGasPrice + 1 - BasePrice(signal)) && order.priorityFee.Known?
    requires order.priorityFee.value <= order.maxFee
    ensures BasePrice(signal) + order.priorityFee.value == txGasPrice + 1
    ensures EffectivePrice(BasePrice(signal), order.priorityFee.value, order.maxFee)
            == if BasePrice(signal) + order.priorityFee.value <= order.maxFee
               then BasePrice(signal) + order.priorityFee.value else order.maxFee
    ensures EffectivePrice(BasePrice(signal), order.priorityFee.value, order.maxFee) > txGasPrice
            <==> order.maxFee > txGasPrice
  {
  }

  // ---------------------------------------------------------------------- hedges

  datatype Side = Buy | Sell

  datatype Hedge = Hedge(
    side: Side, priceExpected: real, amount: real,
    exchange: int64, market: int64, symbolType: int64, token: string, quote: string)

  datatype Order = Order(
    side: Side, token: string, quote: string, amount: real, priceExpect: real,
    reqNo: int64, hedgeId: int64, signer: string, to: string,
    gasLimit: nat, nonce: nat, data: string, value: int64,
    priorityFee: Fee, maxFee: nat, hedges: seq<Hedge>)

  function SideOf(s: string): Side {
    if s == "buy" then Buy else Sell
  }

  /** The symbol under which the trade side of a path item is filed. */
  function Normalised(symbol: string): string {
    ToLower(Replace(symbol, "/", "_", -1))
  }

  /** Reading a nested map of strings: a missing key reads as the empty string. */
  function TradeSide(signal: Signal, subject: string, symbol: string): string {
    if subject in signal.symbolsTradeSide && symbol in signal.symbolsTradeSide[subject]
    then signal.symbolsTradeSide[subject][symbol]
    else ""
  }

  function HedgeAmount(d: Detail): real {
    d.consumeRatio * d.amountSum
  }

  function HedgeOf(signal: Signal, subject: string, d: Detail, item: PathItem): Hedge {
    var tokens := Split(item.symbol, '/');
    Hedge(SideOf(TradeSide(signal, subject, Normalised(item.symbol))),
          item.priceAvg, HedgeAmount(d),
          item.exchange, item.market, item.symbolType,
          tokens[0], if |tokens| > 1 then tokens[1] else "")
  }

  function PathHedges(signal: Signal, subject: string, d: Detail, path: seq<PathItem>): seq<Hedge> {
    if path == [] then []
    else PathHedges(signal, subject, d, path[..|path|-1]) + [HedgeOf(signal, subject, d, path[|path|-1])]
  }

  function DetailHedges(signal: Signal, subject: string, details: seq<Detail>): seq<Hedge> {
    if details == [] then []
    else
      var d := details[|details|-1];
      DetailHedges(signal, subject, details[..|details|-1]) + PathHedges(signal, subject, d, d.path)
  }

  function DetailsOf(signal: Signal, subject: string): seq<Detail> {
    if subject in signal.depthDetails then signal.depthDetails[subject] else []
  }

  /** The hedges, when the map of details is iterated in the order `subjects`. */
  function Hedges(signal: Signal, subjects: seq<string>): seq<Hedge> {
    if subjects == [] then []
    else
      var last := subjects[|subjects|-1];
      Hedges(signal, subjects[..|subjects|-1]) + DetailHedges(signal, last, DetailsOf(signal, last))
  }

  /** Every path item's symbol has a slash, so that indexing the part after it succeeds. */
  predicate PathReadable(path: seq<PathItem>) {
    forall item <- path :: '/' in item.symbol
  }

  predicate DetailsReadable(details: seq<Detail>) {
    forall d <- details :: PathReadable(d.path)
  }

  predicate HedgesReadable(signal: Signal, subjects: seq<string>) {
    forall k <- subjects :: DetailsReadable(DetailsOf(signal, k))
  }

  /** One turn of the innermost loop. */
  lemma PathStep(signal: Signal, subject: string, d: Detail, path: seq<PathItem>, j: nat)
    requires j < |path|
    ensures PathHedges(signal, subject, d, path[..j + 1])
            == PathHedges(signal, subject, d, path[..j]) + [HedgeOf(signal, subject, d, path[j])]
    ensures PathReadable(path[..j + 1]) <==> PathReadable(path[..j]) && '/' in path[j].symbol
    ensures PathReadable(path) ==> '/' in path[j].symbol
  {
    assert path[..j + 1][..j] == path[..j];
    assert path[..j + 1] == path[..j] + [path[j]];
  }

  /** One turn of the middle loop. */
  lemma DetailStep(signal: Signal, subject: string, details: seq<Detail>, i: nat)
    requires i < |details|
    ensures DetailHedges(signal, subject, details[..i + 1])
            == DetailHedges(signal, subject, details[..i]) + PathHedges(signal, subject, details[i], details[i].path)
    ensures DetailsReadable(details[..i + 1]) <==> DetailsReadable(details[..i]) && PathReadable(details[i].path)
    ensures DetailsReadable(details) ==> PathReadable(details[i].path)
  {
    assert details[..i + 1][..i] == details[..i];
    assert details[..i + 1] == details[..i] + [details[i]];
  }

  lemma HedgesSnoc(signal: Signal, init: seq<string>, last: string)
    ensures Hedges(signal, init + [last])
            == Hedges(signal, init) + DetailHedges(signal, last, DetailsOf(signal, last))
  {
    assert (init + [last])[..|init|] == init;
  }

  /** The innermost loop, over one path; false where indexing panics. */
  method BuildPath(signal: Signal, subject: string, d: Detail) returns (ok: bool, hedges: seq<Hedge>)
    ensures ok <==> PathReadable(d.path)
    ensures ok ==> hedges == PathHedges(signal, subject, d, d.path)
  {
    hedges := [];
    for j := 0 to |d.path|
      invariant PathReadable(d.path[..j])
      invariant hedges == PathHedges(signal, subject, d, d.path[..j])
    {
      PathStep(signal, subject, d, d.path, j);
      var hedge := MakeHedge(signal, subject, d, d.path[j]);
      if hedge.None? {
        return false, hedges;
      }
      hedges := hedges + [hedge.value];
    }
    assert d.path[..|d.path|] == d.path;
    return true, hedges;
  }

  method MakeHedge(signal: Signal, subject: string, d: Detail, item: PathItem) returns (hedge: Option<Hedge>)
    ensures hedge == if '/' in item.symbol then Some(HedgeOf(signal, subject, d, item)) else None
  {
    var symbol := Normalised(item.symbol);
    var tokens := Split(item.symbol, '/');
    SplitCount(item.symbol, '/');
    if |tokens| < 2 {
      return None;
    }
    var side := SideOf(TradeSide(signal, subject, symbol));
    return Some(Hedge(side, item.priceAvg, HedgeAmount(d),
                      item.exchange, item.market, item.symbolType, tokens[0], tokens[1]));
  }

  /** The middle loop, over one subject's details. */
  method BuildDetails(signal: Signal, subject: string) returns (ok: bool, hedges: seq<Hedge>)
    ensures ok <==> DetailsReadable(DetailsOf(signal, subject))
    ensures ok ==> hedges == DetailHedges(signal, subject, DetailsOf(signal, subject))
  {
    hedges := [];
    var details := DetailsOf(signal, subject);
    for i := 0 to |details|
      invariant DetailsReadable(details[..i])
      invariant hedges == DetailHedges(signal, subject, details[..i])
    {
      DetailStep(signal, subject, details, i);
      var readable, more := BuildPath(signal, subject, details[i]);
      if !readable {
        return false, hedges;
      }
      hedges := hedges + more;
    }
    assert details[..|details|] == details;
    return true, hedges;
  }

  /** The outer loop, over the map of details in the order `subjects`. */
  method BuildHedges(signal: Signal, subjects: seq<string>) returns (ok: bool, hedges: seq<Hedge>)
    ensures ok <==> HedgesReadable(signal, subjects)
    ensures ok ==> hedges == Hedges(signal, subjects)
  {
    hedges := [];
    for i := 0 to |subjects|
      invariant HedgesReadable(signal, subjects[..i])
      invariant hedges == Hedges(signal, subjects[..i])
    {
      var readable, more := BuildDetails(signal, subjects[i]);
      if !readable {
        assert subjects[i] in subjects;
        return false, hedges;
      }
      hedges := hedges + more;
      HedgesSnoc(signal, subjects[..i], subjects[i]);
      assert subjects[..i + 1] == subjects[..i] + [subjects[i]];
    }
    assert subjects[..|subjects|] == subjects;
    return true, hedges;
  }

  // ---------------------------------------------------------------- conservation

  function PathLengths(details: seq<Detail>): nat {
    if details == [] then 0 else PathLengths(details[..|details|-1]) + |details[|details|-1].path|
  }

  /** `n` times `x`. */
  function Times(n: nat, x: real): real {
    if n == 0 then 0.0 else Times(n - 1, x) + x
  }

  lemma {:induction false} TimesIsProduct(n: nat, x: real)
    ensures Times(n, x) == n as real * x
  {
    if n > 0 {
      TimesIsProduct(n - 1, x);
      var m := (n - 1) as real;
      assert n as real == m + 1.0;
      assert (m + 1.0) * x == m * x + x;
    }
  }

  function Amounts(details: seq<Detail>): real {
    if details == [] then 0.0
    else
      var d := details[|details|-1];
      Amounts(details[..|details|-1]) + Times(|d.path|, HedgeAmount(d))
  }

  /** Over all details, path length times consumed ratio times amount. */
  function Promised(details: seq<Detail>): real {
    if details == [] then 0.0
    else
      var d := details[|details|-1];
      Promised(details[..|details|-1]) + |d.path| as real * (d.consumeRatio * d.amountSum)
  }

  lemma {:induction false} AmountsArePromised(details: seq<Detail>)
    ensures Amounts(details) == Promised(details)
  {
    if details != [] {
      AmountsArePromised(details[..|details|-1]);
      var d := details[|details|-1];
      TimesIsProduct(|d.path|, HedgeAmount(d));
    }
  }

  /** All details of all subjects, in iteration order. */
  function AllDetails(signal: Signal, subjects: seq<string>): seq<Detail> {
    if subjects == [] then []
    else AllDetails(signal, subjects[..|subjects|-1]) + DetailsOf(signal, subjects[|subjects|-1])
  }

  function TotalAmount(hedges: seq<Hedge>): real {
    if hedges == [] then 0.0 else TotalAmount(hedges[..|hedges|-1]) + hedges[|hedges|-1].amount
  }

  lemma {:induction false} TotalAppend(a: seq<Hedge>, b: seq<Hedge>)
    ensures TotalAmount(a + b) == TotalAmount(a) + TotalAmount(b)
  {
    if b == [] {
      assert a + b == a;
    } else {
      assert (a + b)[..|a + b|-1] == a + b[..|b|-1];
      TotalAppend(a, b[..|b|-1]);
    }
  }

  lemma {:induction false} DetailsAppend(a: seq<Detail>, b: seq<Detail>)
    ensures PathLengths(a + b) == PathLengths(a) + PathLengths(b)
    ensures Amounts(a + b) == Amounts(a) + Amounts(b)
  {
    if b == [] {
      assert a + b == a;
    } else {
      assert (a + b)[..|a + b|-1] == a + b[..|b|-1];
      DetailsAppend(a, b[..|b|-1]);
    }
  }

  lemma {:induction false} PathConservation(signal: Signal, subject: string, d: Detail, path: seq<PathItem>)
    ensures |PathHedges(signal, subject, d, path)| == |path|
    ensures TotalAmount(PathHedges(signal, subject, d, path)) == Times(|path|, HedgeAmount(d))
  {
    if path != [] {
      var init := PathHedges(signal, subject, d, path[..|path|-1]);
      PathConservation(signal, subject, d, path[..|path|-1]);
      var last := [HedgeOf(signal, subject, d, path[|path|-1])];
      assert (init + last)[..|init|] == init;
    }
  }

  /** The j-th hedge of a path is that of its j-th item. */
  lemma {:induction false} PathHedgeAt(signal: Signal, subject: string, d: Detail, path: seq<PathItem>, j: nat)
    requires j < |path|
    ensures |PathHedges(signal, subject, d, path)| == |path|
    ensures PathHedges(signal, subject, d, path)[j] == HedgeOf(signal, subject, d, path[j])
  {
    PathConservation(signal, subject, d, path);
    if j < |path| - 1 {
      PathHedgeAt(signal, subject, d, path[..|path|-1], j);
      PathConservation(signal, subject, d, path[..|path|-1]);
    }
  }

  lemma {:induction false} DetailConservation(signal: Signal, subject: string, details: seq<Detail>)
    ensures |DetailHedges(signal, subject, details)| == PathLengths(details)
    ensures TotalAmount(DetailHedges(signal, subject, details)) == Amounts(details)
  {
    if details != [] {
      var d := details[|details|-1];
      DetailConservation(signal, subject, details[..|details|-1]);
      PathConservation(signal, subject, d, d.path);
      TotalAppend(DetailHedges(signal, subject, details[..|details|-1]), PathHedges(signal, subject, d, d.path));
    }
  }

  /** One hedge per path item; in total, what the details promise: path length times consumed
      ratio times amount, summed over all details. */
  lemma HedgeConservation(signal: Signal, subjects: seq<string>)
    ensures |Hedges(signal, subjects)| == PathLengths(AllDetails(signal, subjects))
    ensures TotalAmount(Hedges(signal, subjects)) == Promised(AllDetails(signal, subjects))
  {
    HedgesConserve(signal, subjects);
    AmountsArePromised(AllDetails(signal, subjects));
  }

  lemma {:induction false} HedgesConserve(signal: Signal, subjects: seq<string>)
    ensures |Hedges(signal, subjects)| == PathLengths(AllDetails(signal, subjects))
    ensures TotalAmount(Hedges(signal, subjects)) == Amounts(AllDetails(signal, subjects))
  {
    if subjects != [] {
      var init, last := subjects[..|subjects|-1], subjects[|subjects|-1];
      var details := DetailsOf(signal, last);
      HedgesConserve(signal, init);
      DetailConservation(signal, last, details);
      TotalAppend(Hedges(signal, init), DetailHedges(signal, last, details));
      DetailsAppend(AllDetails(signal, init), details);
    }
  }

  lemma {:induction false} HedgesAppend(signal: Signal, a: seq<string>, b: seq<string>)
    ensures Hedges(signal, a + b) == Hedges(signal, a) + Hedges(signal, b)
  {
    if b == [] {
      assert a + b == a;
    } else {
      var init, last := b[..|b|-1], b[|b|-1];
      assert b == init + [last] && a + b == (a + init) + [last];
      HedgesAppend(signal, a, init);
      HedgesSnoc(signal, init, last);
      HedgesSnoc(signal, a + init, last);
      Associative(Hedges(signal, a), Hedges(signal, init), DetailHedges(signal, last, DetailsOf(signal, last)));
    }
  }

  /** Where a subject stands in the iteration order does not matter for what it contributes. */
  lemma HedgesAnywhere(signal: Signal, a: seq<string>, subject: string, b: seq<string>)
    ensures multiset(Hedges(signal, a + [subject] + b))
            == multiset(Hedges(signal, a + b)) + multiset(Hedges(signal, [subject]))
  {
    HedgesAppend(signal, a + [subject], b);
    HedgesAppend(signal, a, [subject]);
    HedgesAppend(signal, a, b);
  }

  /** Taking one occurrence of an element out of a permutation. */
  lemma TakeOut(init: seq<string>, last: string, perm: seq<string>) returns (before: seq<string>, after: seq<string>)
    requires multiset(init + [last]) == multiset(perm)
    ensures perm == before + [last] + after && multiset(init) == multiset(before + after)
  {
    assert last in multiset(perm);
    var i :| 0 <= i < |perm| && perm[i] == last;
    before, after := perm[..i], perm[i + 1..];
    assert perm == before + [last] + after;
    assert multiset(init) == multiset(init + [last]) - multiset{last} == multiset(before + after);
  }

  /** The same hedges come out, whatever the order in which the map is iterated. */
  lemma {:induction false} HedgesAnyOrder(signal: Signal, subjects: seq<string>, perm: seq<string>)
    requires multiset(subjects) == multiset(perm)
    ensures multiset(Hedges(signal, subjects)) == multiset(Hedges(signal, perm))
    decreases |subjects|
  {
    if subjects == [] {
      assert |multiset(perm)| == 0;
    } else {
      var init, last := subjects[..|subjects|-1], subjects[|subjects|-1];
      assert subjects == init + [last];
      var before, after := TakeOut(init, last, perm);
      HedgesAnyOrder(signal, init, before + after);
      HedgesAnywhere(signal, before, last, after);
      HedgesAppend(signal, init, [last]);
    }
  }

  /** A hedge buys exactly when its normalised symbol is filed under its subject as "buy"; for
      `A/B` that is the symbol `a_b`, and the tokens are `A` and `B` as they are. */
  lemma HedgeFields(signal: Signal, subject: string, d: Detail, item: PathItem, a: string, b: string)
    requires item.symbol == a + "/" + b && '/' !in a && '/' !in b
    ensures var h, symbol := HedgeOf(signal, subject, d, item), ToLower(a) + "_" + ToLower(b);
            && h.token == a && h.quote == b
            && h.priceExpected == item.priceAvg && h.amount == d.consumeRatio * d.amountSum
            && h.exchange == item.exchange && h.market == item.market && h.symbolType == item.symbolType
            && (h.side.Buy? <==> subject in signal.symbolsTradeSide && symbol in signal.symbolsTradeSide[subject]
                                 && signal.symbolsTradeSide[subject][symbol] == "buy")
  {
    SplitHead(a, b, '/');
    SplitWhole(b, '/');
    ReplaceSlash(a, b);
    ToLowerAppend(a + "_", b);
    ToLowerAppend(a, "_");
    assert ToLower("_") == "_";
  }

  /** If the symbol has further slashes, the quote is what stands between the first two. */
  lemma HedgeOfLongSymbol(signal: Signal, subject: string, d: Detail, item: PathItem, a: string, b: string, rest: string)
    requires item.symbol == a + "/" + b + "/" + rest && '/' !in a && '/' !in b
    ensures var h := HedgeOf(signal, subject, d, item); h.token == a && h.quote == b
  {
    assert item.symbol == a + ['/'] + (b + ['/'] + rest);
    SplitHead(a, b + ['/'] + rest, '/');
    SplitHead(b, rest, '/');
  }

  /** Normalising turns every slash into an underscore and upper case into lower case. */
  lemma NormalisedChars(symbol: string, i: nat)
    requires i < |symbol|
    ensures |Normalised(symbol)| == |symbol|
    ensures Normalised(symbol)[i] == if symbol[i] == '/' then '_'
                                     else if 'A' <= symbol[i] <= 'Z' then (symbol[i] as int + 32) as char
                                     else symbol[i]
  {
    SlashChars(symbol, i);
  }

  lemma {:induction false} SlashChars(s: string, i: nat)
    requires i < |s|
    ensures var r := Replace(s, "/", "_", -1); |r| == |s| && r[i] == if s[i] == '/' then '_' else s[i]
    decreases |s|
  {
    ReplaceStep(s, "/", "_");
    assert "/" <= s <==> s[0] == '/';
    assert s[|"/"|..] == s[1..];
    if |s| > 1 {
      SlashChars(s[1..], if i > 0 then i - 1 else 0);
    } else {
      assert s[1..] == "";
    }
  }

  lemma {:induction false} ReplaceSlash(a: string, b: string)
    requires '/' !in a && '/' !in b
    ensures Replace(a + "/" + b, "/", "_", -1) == a + "_" + b
    decreases |a|
  {
    var s := a + "/" + b;
    ReplaceStep(s, "/", "_");
    if a == "" {
      assert s[|"/"|..] == b;
      ReplaceNothing(b, "/", "_", -1);
    } else {
      assert s[0] == a[0] != '/' && s[1..] == a[1..] + "/" + b;
      ReplaceSlash(a[1..], b);
      assert [a[0]] + (a[1..] + "_" + b) == a + "_" + b;
    }
  }

  // ---------------------------------------------------------------------- orders

  predicate Readable(signal: Signal, subjects: seq<string>) {
    '_' in signal.symbol && HedgesReadable(signal, subjects)
  }

  /** The order for a signal, a fee and an iteration order of the details. */
  function OrderFor(signal: Signal, fee: int, subjects: seq<string>): Order {
    var (token, quote) := match Startup.OrderTokens(signal.symbol) case Some(t) => t case None => ("", "");
    Order(SideOf(signal.side), token, quote, signal.amountArb, signal.priceExpect,
          signal.registId, signal.hedgeId, signal.buildTx.sender, signal.buildTx.to,
          AsUint64(signal.buildTx.gas), AsUint64(signal.buildTx.nonce), signal.buildTx.data, signal.buildTx.value,
          FeeOf(fee), AsUint64(signal.buildTx.maxFeePerGas), Hedges(signal, subjects))
  }

  /** A number of the node's as uint64: its own value, or 2^64 more if it is negative. */
  predicate IsUint64Of(u: nat, x: int64) {
    u == if x < 0 then x + 18446744073709551616 else x
  }

  /** What an order takes from the signal it answers. */
  predicate FromSignal(order: Order, signal: Signal) {
    && (order.side.Buy? <==> signal.side == "buy")
    && order.reqNo == signal.registId && order.hedgeId == signal.hedgeId
    && order.amount == signal.amountArb && order.priceExpect == signal.priceExpect
    && order.signer == signal.buildTx.sender && order.to == signal.buildTx.to
    && order.data == signal.buildTx.data && order.value == signal.buildTx.value
    && IsUint64Of(order.gasLimit, signal.buildTx.gas) && IsUint64Of(order.nonce, signal.buildTx.nonce)
    && IsUint64Of(order.maxFee, signal.buildTx.maxFeePerGas)
  }

  lemma OrderIsFromSignal(signal: Signal, fee: int, subjects: seq<string>)
    ensures var order := OrderFor(signal, fee, subjects);
            FromSignal(order, signal) && order.priorityFee == FeeOf(fee) && order.hedges == Hedges(signal, subjects)
  {
  }

  /** `Trade` up to the publishing: the order, or `None` where a malformed symbol panics. */
  method BuildOrder(signal: Signal, newGasPrice: int, subjects: seq<string>) returns (order: Option<Order>)
    ensures order.Some? <==> '_' in signal.symbol &&
                             forall k <- subjects | k in signal.depthDetails ::
                               forall d <- signal.depthDetails[k] :: forall item <- d.path :: '/' in item.symbol
    ensures order.Some? ==> FromSignal(order.value, signal) && order.value.hedges == Hedges(signal, subjects)
    ensures order.Some? ==> if 0 <= newGasPrice <= 18446744073709551615 then order.value.priorityFee == Known(newGasPrice)
                            else order.value.priorityFee.Unspecified?
    ensures order.Some? ==> var tokens := Split(signal.symbol, '_');
                            |tokens| > 1 && order.value.token == ToUpper(tokens[0]) && order.value.quote == ToLower(tokens[1])
    ensures order == if Readable(signal, subjects) then Some(OrderFor(signal, newGasPrice, subjects)) else None
  {
    var side := SideOf(signal.side);
    var tokens := Split(signal.symbol, '_');
    SplitCount(signal.symbol, '_');
    if |tokens| < 2 {
      return None;
    }
    var ok, hedges := BuildHedges(signal, subjects);
    if !ok {
      return None;
    }
    return Some(Order(side, ToUpper(tokens[0]), ToLower(tokens[1]), signal.amountArb, signal.priceExpect,
                      signal.registId, signal.hedgeId, signal.buildTx.sender, signal.buildTx.to,
                      AsUint64(signal.buildTx.gas), AsUint64(signal.buildTx.nonce), signal.buildTx.data,
                      signal.buildTx.value, FeeOf(newGasPrice), AsUint64(signal.buildTx.maxFeePerGas), hedges));
  }
}
