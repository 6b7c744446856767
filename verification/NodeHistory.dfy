/** What the run of the event machine so far tells about its state: which events the histories
    hold, and which transaction the analyser is busy with, up to the order that it publishes. */
module NodeHistory {
  import opened Wrappers
  import opened Signals
  import opened Trade
  import opened NodeModel
  import CallTree

  // ------------------------------------------------------------------------ runs

  lemma {:induction false} PrefixIsRun(cfg: Config, s: State, run: seq<Event>, n: nat)
    requires IsRun(cfg, s, run) && n <= |run|
    ensures IsRun(cfg, s, run[..n])
    decreases |run|
  {
    if n > 0 {
      PrefixIsRun(cfg, Step(cfg, s, run[0]), run[1..], n - 1);
      assert run[..n][1..] == run[1..][..n - 1];
    }
  }

  /** The last event of a run. */
  lemma {:induction false} ExecLast(cfg: Config, s: State, run: seq<Event>)
    requires run != [] && IsRun(cfg, s, run)
    ensures var init, last := run[..|run|-1], run[|run|-1];
            && IsRun(cfg, s, init) && Enabled(Exec(cfg, s, init), last)
            && Exec(cfg, s, run) == Step(cfg, Exec(cfg, s, init), last)
    decreases |run|
  {
    if |run| > 1 {
      ExecLast(cfg, Step(cfg, s, run[0]), run[1..]);
      assert run[..|run|-1][1..] == run[1..][..|run|-2];
    }
  }

  // ------------------------------------------------------------------- histories

  /** The headers that arrived, without those with number zero. */
  function HeadersOf(run: seq<Event>): seq<Header> {
    if run == [] then []
    else
      var e := run[|run|-1];
      HeadersOf(run[..|run|-1]) + if e.NewHead? && e.header.number != 0 then [e.header] else []
  }

  function SignalsOf(run: seq<Event>): seq<Signal> {
    if run == [] then []
    else
      var e := run[|run|-1];
      SignalsOf(run[..|run|-1]) + if e.TakeSignal? && e.data.Some? then [e.data.value] else []
  }

  /** A transaction to a competitor that is not also a router. */
  predicate ToCompetitor(cfg: Config, tx: Tx) {
    tx.to !in cfg.routers && tx.to in cfg.enemies && cfg.enemies[tx.to]
  }

  function CompetitorsOf(cfg: Config, run: seq<Event>): seq<Tx> {
    if run == [] then []
    else
      var e := run[|run|-1];
      CompetitorsOf(cfg, run[..|run|-1]) + if e.TakeTx? && ToCompetitor(cfg, e.tx) then [e.tx] else []
  }

  lemma HistoryStep(cfg: Config, s: State, e: Event)
    requires Enabled(s, e)
    ensures var s' := Step(cfg, s, e);
            && s'.allHeaders == s.allHeaders + (if e.NewHead? && e.header.number != 0 then [e.header] else [])
            && s'.allSignals == s.allSignals + (if e.TakeSignal? && e.data.Some? then [e.data.value] else [])
            && s'.allPending == s.allPending + (if e.TakeTx? && ToCompetitor(cfg, e.tx) then [e.tx] else [])
  {
  }

  /** The three histories are the headers, signals and competitors' transactions of the run, all
      of them and in order, whatever panicked in between. */
  lemma {:induction false} HistoriesAreProjections(cfg: Config, run: seq<Event>)
    requires IsRun(cfg, INIT, run)
    ensures var s := Exec(cfg, INIT, run);
            s.allHeaders == HeadersOf(run) && s.allSignals == SignalsOf(run) && s.allPending == CompetitorsOf(cfg, run)
    decreases |run|
  {
    if run != [] {
      var init := run[..|run|-1];
      ExecLast(cfg, INIT, run);
      HistoriesAreProjections(cfg, init);
      HistoryStep(cfg, Exec(cfg, INIT, init), run[|run|-1]);
    }
  }

  // ------------------------------------------------- the transaction being handled

  /** Between the events `i` and `j` nothing but headers arrived. */
  ghost predicate OnlyHeads(run: seq<Event>, i: nat, j: nat) {
    forall k :: i <= k < j && k < |run| ==> run[k].NewHead?
  }

  /** The symbols of a transaction that is not traced: a router's token pair, both ways round. */
  function RoutedSymbols(cfg: Config, tx: Tx, routed: RouterResult): seq<string> {
    if tx.to in cfg.routers && cfg.routers[tx.to] == "traderjoe" && routed.TokenPair?
    then [routed.token0 + "_" + routed.token1, routed.token1 + "_" + routed.token0]
    else []
  }

  /** Event `j` is a competitor's transaction, which is being traced after `n` events. */
  ghost predicate TracedSince(cfg: Config, run: seq<Event>, j: nat, n: nat, tx: Tx) {
    j < n <= |run| && run[j].TakeTx? && run[j].tx == tx && ToCompetitor(cfg, tx) && OnlyHeads(run, j + 1, n)
  }

  /** Event `j` is a transaction that has been decoded by event `d`, which is `j` itself unless it
      was traced, and has not been decided on after `n` events. */
  ghost predicate DecodedSince(cfg: Config, run: seq<Event>, j: nat, d: nat, n: nat,
                               symbols: seq<string>, onChain: bool, gasPrice: int) {
    && j <= d < n <= |run| && run[j].TakeTx? && gasPrice == run[j].tx.gasPrice && OnlyHeads(run, d + 1, n)
    && if ToCompetitor(cfg, run[j].tx) then
         && j < d && OnlyHeads(run, j + 1, d) && run[d].Decode? && onChain == run[d].found
         && symbols == (if run[d].found || run[d].trace.None? then []
                        else CallTree.Project(CallTree.Flatten([run[d].trace.value]), cfg.pairs))
       else j == d && !onChain && symbols == RoutedSymbols(cfg, run[j].tx, run[j].routed)
  }

  /** And it has been decided on by event `c`, in favour of its first symbol. */
  ghost predicate DecidedSince(cfg: Config, run: seq<Event>, j: nat, d: nat, c: nat, n: nat,
                               symbols: seq<string>, symbol: string, gasPrice: int) {
    && c < n <= |run| && run[c].Decide? && OnlyHeads(run, c + 1, n)
    && DecodedSince(cfg, run, j, d, c, symbols, false, gasPrice) && symbols != [] && symbol == symbols[0]
  }

  /** What the stage of the analyser says about the first `n` events. */
  ghost predicate StageFrom(cfg: Config, run: seq<Event>, n: nat, stage: Stage) {
    match stage
    case Idle => true
    case Decoding(tx) => exists j :: TracedSince(cfg, run, j, n, tx)
    case Decoded(symbols, onChain, gasPrice) => exists j, d :: DecodedSince(cfg, run, j, d, n, symbols, onChain, gasPrice)
    case Checking(_, symbol, gasPrice) =>
      exists j, d, c, symbols :: DecidedSince(cfg, run, j, d, c, n, symbols, symbol, gasPrice)
  }

  /** A header leaves the analyser where it is. */
  lemma StageFromHead(cfg: Config, run: seq<Event>, n: nat, stage: Stage)
    requires n < |run| && run[n].NewHead? && StageFrom(cfg, run, n, stage)
    ensures StageFrom(cfg, run, n + 1, stage)
  {
    match stage
    case Idle =>
    case Decoding(tx) =>
      var j :| TracedSince(cfg, run, j, n, tx);
      assert TracedSince(cfg, run, j, n + 1, tx);
    case Decoded(symbols, onChain, gasPrice) =>
      var j, d :| DecodedSince(cfg, run, j, d, n, symbols, onChain, gasPrice);
      assert DecodedSince(cfg, run, j, d, n + 1, symbols, onChain, gasPrice);
    case Checking(_, symbol, gasPrice) =>
      var j, d, c, symbols :| DecidedSince(cfg, run, j, d, c, n, symbols, symbol, gasPrice);
      assert DecidedSince(cfg, run, j, d, c, n + 1, symbols, symbol, gasPrice);
  }

  lemma StageFromTx(cfg: Config, run: seq<Event>, n: nat, s: State)
    requires n < |run| && run[n].TakeTx? && s.stage.Idle?
    ensures StageFrom(cfg, run, n + 1, AfterTx(cfg, s, run[n].tx, run[n].routed).stage)
  {
    var tx, stage := run[n].tx, AfterTx(cfg, s, run[n].tx, run[n].routed).stage;
    TxOutcome(cfg, s, tx, run[n].routed);
    if stage.Decoding? {
      assert TracedSince(cfg, run, n, n + 1, tx);
    } else if stage.Decoded? {
      assert DecodedSince(cfg, run, n, n, n + 1, stage.symbols, stage.onChain, stage.gasPrice);
    }
  }

  lemma StageFromDecode(cfg: Config, run: seq<Event>, n: nat, s: State)
    requires n < |run| && run[n].Decode? && s.stage.Decoding? && StageFrom(cfg, run, n, s.stage)
    ensures StageFrom(cfg, run, n + 1, Step(cfg, s, run[n]).stage)
  {
    var j :| TracedSince(cfg, run, j, n, s.stage.tx);
    var stage := Step(cfg, s, run[n]).stage;
    assert DecodedSince(cfg, run, j, n, n + 1, stage.symbols, stage.onChain, stage.gasPrice);
  }

  lemma StageFromDecide(cfg: Config, run: seq<Event>, n: nat, s: State)
    requires n < |run| && run[n].Decide? && s.stage.Decoded? && StageFrom(cfg, run, n, s.stage)
    ensures StageFrom(cfg, run, n + 1, AfterDecide(s).stage)
  {
    var symbols, gasPrice := s.stage.symbols, s.stage.gasPrice;
    var j, d :| DecodedSince(cfg, run, j, d, n, symbols, s.stage.onChain, gasPrice);
    var stage := AfterDecide(s).stage;
    if stage.Checking? {
      DecideOutcome(s);
      assert DecidedSince(cfg, run, j, d, n, n + 1, symbols, stage.symbol, gasPrice);
    }
  }

  lemma StageFromStep(cfg: Config, run: seq<Event>, n: nat, s: State)
    requires n < |run| && Enabled(s, run[n]) && StageFrom(cfg, run, n, s.stage)
    ensures StageFrom(cfg, run, n + 1, Step(cfg, s, run[n]).stage)
  {
    match run[n]
    case NewHead(h) => StageFromHead(cfg, run, n, s.stage);
    case TakeTx(tx, routed) => StageFromTx(cfg, run, n, s);
    case Decode(trace, found) => StageFromDecode(cfg, run, n, s);
    case Decide => StageFromDecide(cfg, run, n, s);
    case Check(now, subjects, delivered) => CheckOutcome(s, now, subjects, delivered);
    case _ =>
  }

  lemma {:induction false} StageOrigin(cfg: Config, run: seq<Event>, n: nat)
    requires IsRun(cfg, INIT, run) && n <= |run|
    ensures IsRun(cfg, INIT, run[..n]) && StageFrom(cfg, run, n, Exec(cfg, INIT, run[..n]).stage)
  {
    PrefixIsRun(cfg, INIT, run, n);
    if n > 0 {
      StageOrigin(cfg, run, n - 1);
      assert run[..n][..n - 1] == run[..n - 1];
      ExecLast(cfg, INIT, run[..n]);
      StageFromStep(cfg, run, n - 1, Exec(cfg, INIT, run[..n - 1]));
    }
  }

  // -------------------------------------------------------------- what triggers an order

  /** `symbol` is that of the first known pair that the trace calls, in pre-order. */
  ghost predicate FirstSymbol(cfg: Config, trace: CallTree.Call, symbol: string) {
    exists i, address :: FirstKnownPair(cfg, trace, i, address) && address in cfg.pairs && cfg.pairs[address] == symbol
  }

  lemma {:induction false} FirstOf(addresses: seq<string>, pairs: map<string, string>) returns (i: nat)
    requires CallTree.Project(addresses, pairs) != []
    ensures i < |addresses| && addresses[i] in pairs && (forall j :: 0 <= j < i ==> addresses[j] !in pairs)
    ensures CallTree.Project(addresses, pairs)[0] == pairs[addresses[i]]
  {
    if addresses[0] in pairs {
      i := 0;
    } else {
      i := FirstOf(addresses[1..], pairs);
      i := i + 1;
    }
  }

  /** The order `p` answers the transaction of event `j`: its price is that transaction's, and its
      symbol is what that transaction touches.  Decoded by event `d`, decided on by event `c`,
      it is checked by event `k`; in between nothing but headers arrived. */
  ghost predicate Answers(cfg: Config, run: seq<Event>, p: Publication, j: nat, d: nat, c: nat, k: nat) {
    && j <= d < c < k < |run| && run[j].TakeTx? && run[c].Decide? && run[k].Check?
    && OnlyHeads(run, j + 1, d) && OnlyHeads(run, d + 1, c) && OnlyHeads(run, c + 1, k)
    && p.gasPrice == run[j].tx.gasPrice
    && (if run[j].tx.to in cfg.routers then
          && d == j && cfg.routers[run[j].tx.to] == "traderjoe" && run[j].routed.TokenPair?
          && p.symbol == run[j].routed.token0 + "_" + run[j].routed.token1
        else
          && run[j].tx.to in cfg.enemies && cfg.enemies[run[j].tx.to]
          && j < d && run[d].Decode? && !run[d].found && run[d].trace.Some? && FirstSymbol(cfg, run[d].trace.value, p.symbol))
  }

  lemma DecidedAnswers(cfg: Config, run: seq<Event>, p: Publication, j: nat, d: nat, c: nat, k: nat, symbols: seq<string>)
    requires k < |run| && run[k].Check? && DecidedSince(cfg, run, j, d, c, k, symbols, p.symbol, p.gasPrice)
    ensures Answers(cfg, run, p, j, d, c, k)
  {
    if ToCompetitor(cfg, run[j].tx) {
      var trace := run[d].trace.value;
      var addresses := CallTree.Flatten([trace]);
      var i := FirstOf(addresses, cfg.pairs);
      assert FirstKnownPair(cfg, trace, i, addresses[i]);
    }
  }

  /** And at the moment of that check it was justified. */
  ghost predicate JustlyAnswers(cfg: Config, run: seq<Event>, p: Publication, j: nat, d: nat, c: nat, k: nat) {
    && Answers(cfg, run, p, j, d, c, k)
    && IsRun(cfg, INIT, run[..k]) && PublishedAt(Exec(cfg, INIT, run[..k]), run[k], p)
  }

  ghost predicate HasItsTransaction(cfg: Config, run: seq<Event>, p: Publication) {
    exists j: nat, d: nat, c: nat, k: nat :: JustlyAnswers(cfg, run, p, j, d, c, k)
  }

  lemma CheckedHasItsTransaction(cfg: Config, run: seq<Event>, p: Publication, k: nat)
    requires IsRun(cfg, INIT, run) && k < |run| && IsRun(cfg, INIT, run[..k])
    requires PublishedAt(Exec(cfg, INIT, run[..k]), run[k], p)
    ensures HasItsTransaction(cfg, run, p)
  {
    StageOrigin(cfg, run, k);
    var j, d, c, symbols :| DecidedSince(cfg, run, j, d, c, k, symbols, p.symbol, p.gasPrice);
    DecidedAnswers(cfg, run, p, j, d, c, k, symbols);
    assert JustlyAnswers(cfg, run, p, j, d, c, k);
  }

  /** Every order that a run ever publishes answers a transaction of that run, a router's or a
      traced competitor's, at whose price and for whose first symbol the check was made; and at
      the moment of the check it was justified. */
  lemma EveryPublicationHasItsTransaction(cfg: Config, run: seq<Event>, i: nat)
    requires IsRun(cfg, INIT, run) && i < |Exec(cfg, INIT, run).published|
    ensures HasItsTransaction(cfg, run, Exec(cfg, INIT, run).published[i])
  {
    var k := PublishedBy(cfg, INIT, run, i);
    CheckedHasItsTransaction(cfg, run, Exec(cfg, INIT, run).published[i], k);
  }

  /** The order pays one more than the transaction of event `j` on top of the base price, and by
      the effective price of EIP-1559 outbids it exactly when its fee cap exceeds that price. */
  predicate OutbidsEvent(run: seq<Event>, p: Publication, j: nat) {
    && j < |run| && run[j].TakeTx? && p.order.priorityFee.Known?
    && var base, fee, cap, price := BasePrice(p.signal), p.order.priorityFee.value, p.order.maxFee, run[j].tx.gasPrice;
       base + fee == price + 1 && (EffectivePrice(base, fee, cap) > price <==> cap > price)
  }

  /** And if its fee is in range, it outbids that very transaction; the fee cap is the signal's. */
  lemma EveryPublicationOutbidsItsTransaction(cfg: Config, run: seq<Event>, i: nat)
    requires IsRun(cfg, INIT, run) && i < |Exec(cfg, INIT, run).published|
    requires var order := Exec(cfg, INIT, run).published[i].order;
             order.priorityFee.Known? && order.priorityFee.value <= order.maxFee
    ensures var p := Exec(cfg, INIT, run).published[i];
            && IsUint64Of(p.order.maxFee, p.signal.buildTx.maxFeePerGas)
            && exists j: nat, d: nat, c: nat, k: nat ::
                 JustlyAnswers(cfg, run, p, j, d, c, k) && OutbidsEvent(run, p, j)
  {
    var s := Exec(cfg, INIT, run);
    var p := s.published[i];
    EveryPublicationHasItsTransaction(cfg, run, i);
    var j: nat, d: nat, c: nat, k: nat :| JustlyAnswers(cfg, run, p, j, d, c, k);
    assert Reachable(cfg, s);
    PublishedOrdersOutbid(cfg, s, p);
    PublishedOrdersAreFromTheirSignals(cfg, s, p);
    assert OutbidsEvent(run, p, j);
  }
}
