/** The analyser as an event machine.  Headers, pending transactions and signals arrive in any
    order; the header goroutine may run between any two steps of the analyser.  A panic drops
    the event in hand, keeps every write already made, and restarts the one analyser. */
module NodeModel {
  import opened Wrappers
  import opened Window
  import opened Signals
  import opened Trade
  import opened GoStrings
  import CallTree
  import Startup

  type uint64 = x: int | 0 <= x < 0x1_0000_0000_0000_0000
  type Second = x: int | 0 <= x < 60

  datatype Header = Header(number: int64, time: uint64)

  datatype Tx = Tx(to: string, gasPrice: int)

  /** The router table, the competitors and the known pairs, as `main` has filled them. */
  datatype Config = Config(routers: map<string, string>, enemies: map<string, bool>, pairs: map<string, string>)

  /** What decoding the input of a router transaction gives. */
  datatype RouterResult = DecoderPanics | NoPair | TokenPair(token0: string, token1: string)

  datatype Stage =
    | Idle
    | Decoding(tx: Tx)                                          // a competitor's transaction
    | Decoded(symbols: seq<string>, onChain: bool, gasPrice: int)
    | Checking(signal: Signal, symbol: string, gasPrice: int)   // the signal has been looked up

  /** A published order and what it was derived from. */
  datatype Publication = Publication(order: Order, signal: Signal, symbol: string, gasPrice: int, latest: Header)

  datatype State = State(
    headers: seq<Header>,
    pending: seq<Tx>,
    signals: seq<Signal>,
    stage: Stage,
    // history
    allHeaders: seq<Header>,
    allPending: seq<Tx>,
    allSignals: seq<Signal>,
    published: seq<Publication>,
    cancels: nat,
    staleChecks: nat,
    panics: nat)
  {
    function Panic(): State {
      this.(stage := Idle, panics := panics + 1)
    }
  }

  const INIT := State([], [], [], Idle, [], [], [], [], 0, 0, 0)

  // ---------------------------------------------------------- the pending block

  const INT64: int := 0x8000_0000_0000_0000

  /** Two's complement. */
  function Wrap(x: int): int64 {
    (x + INT64) % (2 * INT64) - INT64
  }

  /** The source compares the second of the minute with a Unix timestamp. */
  predicate Stale(latest: Header, now: Second) {
    Wrap(now - Wrap(latest.time)) > 2
  }

  function PendingBlock(latest: Header, now: Second): int64 {
    if Stale(latest, now) then 0 else Wrap(latest.number + 1)
  }

  /** When the staleness test fires: for a timestamp within the first minute of 1970, or for
      one that is negative as a signed number, unless the subtraction overflows. */
  lemma StaleExactly(latest: Header, now: Second)
    ensures Stale(latest, now) <==>
            || latest.time + 2 < now
            || (latest.time >= 9223372036854775808
                && 3 <= now + 18446744073709551616 - latest.time < 9223372036854775808)
    ensures Stale(latest, now) ==> PendingBlock(latest, now) == 0
    ensures !Stale(latest, now) ==>
              PendingBlock(latest, now) == if latest.number < 9223372036854775807 then latest.number + 1
                                           else -9223372036854775808
  {
  }

  /** A header whose time and successor fit a signed integer, not from the first minute of 1970. */
  predicate Sane(h: Header) {
    57 <= h.time < 9223372036854775808 && h.number < 9223372036854775807
  }

  lemma SaneIsNeverStale(h: Header, now: Second)
    requires Sane(h)
    ensures !Stale(h, now) && PendingBlock(h, now) == h.number + 1
  {
    StaleExactly(h, now);
  }

  // ----------------------------------------------------------------------- steps

  datatype Event =
    | NewHead(header: Header)
    | UnreadableTx(panics: bool)
    | TakeTx(tx: Tx, routed: RouterResult)
    | Decode(trace: Option<CallTree.Call>, found: bool)
    | Decide
    | Check(now: Second, subjects: seq<string>, delivered: bool)
    | TakeSignal(data: Option<Signal>)

  /** `subjects` is one of the orders in which the signal's map of details can be iterated. */
  ghost predicate IterationOrder(signal: Signal, subjects: seq<string>) {
    multiset(subjects) == multiset(signal.depthDetails.Keys)
  }

  ghost predicate Enabled(s: State, e: Event) {
    match e
    case NewHead(_) => true
    case UnreadableTx(_) => s.stage.Idle?
    case TakeTx(_, _) => s.stage.Idle?
    case TakeSignal(_) => s.stage.Idle?
    case Decode(_, _) => s.stage.Decoding?
    case Decide => s.stage.Decoded?
    case Check(_, subjects, _) => s.stage.Checking? && IterationOrder(s.stage.signal, subjects)
  }

  function RouterSymbols(dex: string, routed: RouterResult): seq<string> {
    if dex == "traderjoe" && routed.TokenPair? then
      [routed.token0 + "_" + routed.token1, routed.token1 + "_" + routed.token0]
    else []
  }

  predicate IsEnemy(cfg: Config, to: string) {
    to in cfg.enemies && cfg.enemies[to]
  }

  function AfterTx(cfg: Config, s: State, tx: Tx, routed: RouterResult): State {
    if tx.to in cfg.routers then
      if routed.DecoderPanics? then s.Panic()
      else s.(stage := Decoded(RouterSymbols(cfg.routers[tx.to], routed), false, tx.gasPrice))
    else if IsEnemy(cfg, tx.to) then
      var s' := s.(pending := Push(s.pending, tx), allPending := s.allPending + [tx]);
      if s.headers == [] then s'.Panic() else s'.(stage := Decoding(tx))
    else s.(stage := Decoded([], false, tx.gasPrice))
  }

  function AfterDecide(s: State): State
    requires s.stage.Decoded?
  {
    if s.stage.symbols == [] || s.signals == [] then s.(stage := Idle)
    else if s.stage.onChain then s.(stage := Idle, cancels := s.cancels + 1)
    else if s.headers == [] then s.Panic()
    else
      var symbol := s.stage.symbols[0];
      s.(stage := Checking(Lookup(s.signals, symbol), symbol, s.stage.gasPrice))
  }

  function Last<T>(items: seq<T>): T
    requires items != []
  {
    items[|items|-1]
  }

  /** The order that a check publishes, with what it was derived from. */
  function Answer(s: State, subjects: seq<string>): Publication
    requires s.stage.Checking? && s.headers != []
  {
    var signal, gasPrice := s.stage.signal, s.stage.gasPrice;
    Publication(OrderFor(signal, gasPrice + 1 - BasePrice(signal), subjects), signal, s.stage.symbol, gasPrice, Last(s.headers))
  }

  function AfterCheck(s: State, now: Second, subjects: seq<string>, delivered: bool): State
    requires s.stage.Checking?
  {
    if s.headers == [] then s.Panic()
    else
      var signal, latest := s.stage.signal, Last(s.headers);
      var s' := s.(stage := Idle, staleChecks := s.staleChecks + if Stale(latest, now) then 1 else 0);
      if signal.tradeBlockNum < PendingBlock(latest, now) then s'
      else if !Readable(signal, subjects) then s'.Panic()
      else if delivered then s'.(published := s.published + [Answer(s, subjects)])
      else s'
  }

  function AfterSignal(s: State, signal: Signal): State {
    var s' := s.(signals := Push(s.signals, signal), allSignals := s.allSignals + [signal]);
    if s.pending != [] && s.headers == [] then s'.Panic() else s'
  }

  function AfterHead(s: State, header: Header): State {
    if header.number == 0 then s
    else s.(headers := Push(s.headers, header), allHeaders := s.allHeaders + [header])
  }

  function Step(cfg: Config, s: State, e: Event): State
    requires Enabled(s, e)
  {
    match e
    case NewHead(h) => AfterHead(s, h)
    case UnreadableTx(panics) => if panics then s.Panic() else s
    case TakeTx(tx, routed) => AfterTx(cfg, s, tx, routed)
    case Decode(trace, found) =>
      var (symbols, onChain) := CallTree.Decode(trace, found, cfg.pairs);
      s.(stage := Decoded(symbols, onChain, s.stage.tx.gasPrice))
    case Decide => AfterDecide(s)
    case Check(now, subjects, delivered) => AfterCheck(s, now, subjects, delivered)
    case TakeSignal(data) => if data.Some? then AfterSignal(s, data.value) else s
  }

  ghost predicate IsRun(cfg: Config, s: State, run: seq<Event>)
    decreases |run|
  {
    run == [] || (Enabled(s, run[0]) && IsRun(cfg, Step(cfg, s, run[0]), run[1..]))
  }

  ghost function Exec(cfg: Config, s: State, run: seq<Event>): State
    requires IsRun(cfg, s, run)
    decreases |run|
  {
    if run == [] then s else Exec(cfg, Step(cfg, s, run[0]), run[1..])
  }

  ghost predicate Reachable(cfg: Config, s: State) {
    exists run: seq<Event> :: IsRun(cfg, INIT, run) && Exec(cfg, INIT, run) == s
  }

  lemma {:induction false} ExecSnoc(cfg: Config, s: State, run: seq<Event>, e: Event)
    requires IsRun(cfg, s, run) && Enabled(Exec(cfg, s, run), e)
    ensures IsRun(cfg, s, run + [e]) && Exec(cfg, s, run + [e]) == Step(cfg, Exec(cfg, s, run), e)
    decreases |run|
  {
    if run == [] {
      assert run + [e] == [e];
    } else {
      assert (run + [e])[1..] == run[1..] + [e];
      ExecSnoc(cfg, Step(cfg, s, run[0]), run[1..], e);
    }
  }

  /** Every event leads from a reachable state to a reachable state. */
  lemma ReachableStep(cfg: Config, s: State, e: Event)
    requires Reachable(cfg, s) && Enabled(s, e)
    ensures Reachable(cfg, Step(cfg, s, e))
  {
    var run: seq<Event> :| IsRun(cfg, INIT, run) && Exec(cfg, INIT, run) == s;
    ExecSnoc(cfg, INIT, run, e);
  }

  lemma InitIsReachable(cfg: Config)
    ensures Reachable(cfg, INIT)
  {
    assert IsRun(cfg, INIT, []) && Exec(cfg, INIT, []) == INIT;
  }

  // ------------------------------------------------------------------- invariant

  /** All three windows are what their histories say. */
  ghost predicate WindowsInv(s: State) {
    && s.headers == Recent(s.allHeaders)
    && s.pending == Recent(s.allPending)
    && s.signals == Recent(s.allSignals)
  }

  ghost predicate StageInv(s: State) {
    match s.stage
    case Idle => true
    case Decoding(_) => s.headers != []
    case Decoded(symbols, onChain, _) => onChain ==> symbols == []
    case Checking(signal, symbol, _) => s.headers != [] && s.signals != [] && signal == Lookup(s.signals, symbol)
  }

  ghost predicate OutbidsFor(p: Publication, subjects: seq<string>) {
    && IterationOrder(p.signal, subjects) && Readable(p.signal, subjects)
    && p.order == OrderFor(p.signal, p.gasPrice + 1 - BasePrice(p.signal), subjects)
  }

  /** The order answers a signal that was received, at a block the signal was still good for. */
  ghost predicate Justified(p: Publication, headers: seq<Header>, signals: seq<Signal>) {
    && p.signal in signals && p.latest in headers
    && (Sane(p.latest) ==> p.signal.tradeBlockNum >= p.latest.number + 1)
    && (exists subjects :: OutbidsFor(p, subjects))
  }

  ghost predicate Inv(s: State) {
    && WindowsInv(s) && StageInv(s) && s.cancels == 0
    && (forall p <- s.published :: Justified(p, s.allHeaders, s.allSignals))
    && ((forall h <- s.allHeaders :: Sane(h)) ==> s.staleChecks == 0)
  }

  lemma LookupIsRetained(signals: seq<Signal>, symbol: string)
    requires signals != []
    ensures Lookup(signals, symbol) in signals
  {
  }

  lemma RecentIn<T>(history: seq<T>, x: T)
    requires x in Recent(history)
    ensures x in history
  {
  }

  lemma AllJustifiedLater(published: seq<Publication>, headers: seq<Header>, signals: seq<Signal>,
                          headers': seq<Header>, signals': seq<Signal>)
    requires forall p <- published :: Justified(p, headers, signals)
    requires headers <= headers' && signals <= signals'
    ensures forall p <- published :: Justified(p, headers', signals')
  {
  }

  lemma StepHead(s: State, h: Header)
    requires Inv(s)
    ensures Inv(AfterHead(s, h))
  {
    if h.number != 0 {
      PushRecent(s.allHeaders, h);
      AllJustifiedLater(s.published, s.allHeaders, s.allSignals, s.allHeaders + [h], s.allSignals);
      assert forall x <- s.allHeaders :: x in s.allHeaders + [h];
    }
  }

  lemma StepTx(cfg: Config, s: State, tx: Tx, routed: RouterResult)
    requires Inv(s)
    ensures Inv(AfterTx(cfg, s, tx, routed))
  {
    PushRecent(s.allPending, tx);
  }

  lemma StepSignal(s: State, signal: Signal)
    requires Inv(s) && s.stage.Idle?
    ensures Inv(AfterSignal(s, signal))
  {
    PushRecent(s.allSignals, signal);
    AllJustifiedLater(s.published, s.allHeaders, s.allSignals, s.allHeaders, s.allSignals + [signal]);
  }

  lemma StepDecode(cfg: Config, s: State, trace: Option<CallTree.Call>, found: bool)
    requires Inv(s) && s.stage.Decoding?
    ensures Inv(Step(cfg, s, Decode(trace, found)))
  {
  }

  lemma StepDecide(s: State)
    requires Inv(s) && s.stage.Decoded?
    ensures Inv(AfterDecide(s))
  {
  }

  lemma CheckJustified(s: State, now: Second, subjects: seq<string>)
    requires Inv(s) && s.stage.Checking? && IterationOrder(s.stage.signal, subjects)
    requires s.stage.signal.tradeBlockNum >= PendingBlock(Last(s.headers), now) && Readable(s.stage.signal, subjects)
    ensures Justified(Answer(s, subjects), s.allHeaders, s.allSignals)
  {
    assert OutbidsFor(Answer(s, subjects), subjects);
    LookupIsRetained(s.signals, s.stage.symbol);
    RecentIn(s.allSignals, s.stage.signal);
    RecentIn(s.allHeaders, Last(s.headers));
    if Sane(Last(s.headers)) {
      SaneIsNeverStale(Last(s.headers), now);
    }
  }

  lemma StepCheck(s: State, now: Second, subjects: seq<string>, delivered: bool)
    requires Inv(s) && s.stage.Checking? && IterationOrder(s.stage.signal, subjects)
    ensures Inv(AfterCheck(s, now, subjects, delivered))
  {
    var latest := Last(s.headers);
    RecentIn(s.allHeaders, latest);
    if Sane(latest) {
      SaneIsNeverStale(latest, now);
    }
    if s.stage.signal.tradeBlockNum >= PendingBlock(latest, now) && Readable(s.stage.signal, subjects) {
      CheckJustified(s, now, subjects);
    }
  }

  lemma StepInv(cfg: Config, s: State, e: Event)
    requires Inv(s) && Enabled(s, e)
    ensures Inv(Step(cfg, s, e))
  {
    match e
    case NewHead(h) => StepHead(s, h);
    case UnreadableTx(_) =>
    case TakeTx(tx, routed) => StepTx(cfg, s, tx, routed);
    case Decode(trace, found) => StepDecode(cfg, s, trace, found);
    case Decide => StepDecide(s);
    case Check(now, subjects, delivered) => StepCheck(s, now, subjects, delivered);
    case TakeSignal(data) =>
      if data.Some? {
        StepSignal(s, data.value);
      }
  }

  lemma {:induction false} RunKeepsInv(cfg: Config, s: State, run: seq<Event>)
    requires Inv(s) && IsRun(cfg, s, run)
    ensures Inv(Exec(cfg, s, run))
    decreases |run|
  {
    if run != [] {
      StepInv(cfg, s, run[0]);
      RunKeepsInv(cfg, Step(cfg, s, run[0]), run[1..]);
    }
  }

  lemma ReachableInv(cfg: Config, s: State)
    requires Reachable(cfg, s)
    ensures Inv(s)
  {
    var run: seq<Event> :| IsRun(cfg, INIT, run) && Exec(cfg, INIT, run) == s;
    RunKeepsInv(cfg, INIT, run);
  }

  // ---------------------------------------------------------------- main results

  /** In every run, whatever panics and restarts it contains, each window is the suffix of the
      full history that the truncation rule leaves. */
  lemma WindowsInEveryRun(cfg: Config, s: State)
    requires Reachable(cfg, s)
    ensures s.headers == PushAll(s.allHeaders) == s.allHeaders[if |s.allHeaders| < 102 then 0 else 100 * ((|s.allHeaders| - 102) / 100)..]
    ensures s.pending == PushAll(s.allPending) == s.allPending[if |s.allPending| < 102 then 0 else 100 * ((|s.allPending| - 102) / 100)..]
    ensures s.signals == PushAll(s.allSignals) == s.allSignals[if |s.allSignals| < 102 then 0 else 100 * ((|s.allSignals| - 102) / 100)..]
    ensures |s.headers| <= 201 && |s.pending| <= 201 && |s.signals| <= 201
  {
    ReachableInv(cfg, s);
    WindowIsSuffix(s.allHeaders);
    WindowIsSuffix(s.allPending);
    WindowIsSuffix(s.allSignals);
  }

  /** Nothing is ever cancelled: a transaction that is on chain already has no symbols. */
  lemma CancelIsUnreachable(cfg: Config, s: State)
    requires Reachable(cfg, s)
    ensures s.cancels == 0
    ensures s.stage.Decoded? && s.stage.onChain ==> s.stage.symbols == []
  {
    ReachableInv(cfg, s);
  }

  // ------------------------------------------------- what the steps do, case by case

  /** A header: recorded in the window, unless its number is zero. */
  lemma HeadOutcome(s: State, h: Header)
    ensures var s' := AfterHead(s, h);
            && (h.number == 0 ==> s' == s)
            && (h.number != 0 ==>
                  && s' == s.(headers := s'.headers, allHeaders := s.allHeaders + [h])
                  && s'.headers == (if |s.headers| > 200 then s.headers[100..] else s.headers) + [h])
  {
  }

  /** A transaction: decoded by the router's decoder, which may panic; or recorded and traced if
      its receiver is a competitor, unless there is no header, which panics after the recording;
      or without symbols. */
  lemma TxOutcome(cfg: Config, s: State, tx: Tx, routed: RouterResult)
    ensures var s', enemy := AfterTx(cfg, s, tx, routed), tx.to in cfg.enemies && cfg.enemies[tx.to];
            if tx.to in cfg.routers then
              if routed.DecoderPanics? then s' == s.(stage := Idle, panics := s.panics + 1)
              else s' == s.(stage := Decoded(if cfg.routers[tx.to] == "traderjoe" && routed.TokenPair?
                                             then [routed.token0 + "_" + routed.token1, routed.token1 + "_" + routed.token0]
                                             else [],
                                             false, tx.gasPrice))
            else if enemy then
              && s'.pending == (if |s.pending| > 200 then s.pending[100..] else s.pending) + [tx]
              && s' == s.(pending := s'.pending, allPending := s.allPending + [tx],
                          stage := if s.headers == [] then Idle else Decoding(tx),
                          panics := if s.headers == [] then s.panics + 1 else s.panics)
            else s' == s.(stage := Decoded([], false, tx.gasPrice))
  {
  }

  /** A signal: recorded; and the log line panics if there is a pending transaction and no header. */
  lemma SignalOutcome(s: State, signal: Signal)
    requires s.stage.Idle?
    ensures var s' := AfterSignal(s, signal);
            && s'.signals == (if |s.signals| > 200 then s.signals[100..] else s.signals) + [signal]
            && s' == s.(signals := s'.signals, allSignals := s.allSignals + [signal],
                        panics := s.panics + if s.pending != [] && s.headers == [] then 1 else 0)
  {
  }

  /** A decision: nothing without symbols or signals, a cancellation if on chain, a panic without
      a header; and otherwise, hit or miss, it goes on to the check with a signal: the newest
      one for the first symbol, or, on a miss, the oldest one retained. */
  lemma DecideOutcome(s: State)
    requires s.stage.Decoded?
    ensures var s', symbols, onChain := AfterDecide(s), s.stage.symbols, s.stage.onChain;
            if symbols == [] || s.signals == [] then s' == s.(stage := Idle)
            else if onChain then s' == s.(stage := Idle, cancels := s.cancels + 1)
            else if s.headers == [] then s' == s.(stage := Idle, panics := s.panics + 1)
            else
              && s'.stage.Checking? && s' == s.(stage := s'.stage)
              && s'.stage.symbol == symbols[0] && s'.stage.gasPrice == s.stage.gasPrice
              && ((forall x <- s.signals :: x.symbol != symbols[0]) ==> s'.stage.signal == s.signals[0])
              && ((exists x <- s.signals :: x.symbol == symbols[0]) ==>
                    exists i :: 0 <= i < |s.signals| && s'.stage.signal == s.signals[i] && s.signals[i].symbol == symbols[0]
                                && forall j :: i < j < |s.signals| ==> s.signals[j].symbol != symbols[0])
  {
    if s.stage.symbols != [] {
      var newest := Newest(s.signals, s.stage.symbols[0]);
    }
  }

  /** A check: it always comes back to the select; it panics without a header, or on a malformed
      symbol in a signal that is still good; and it publishes exactly if the signal's trade block
      is at least the pending one, no symbol is malformed and the bus takes the order. */
  lemma CheckOutcome(s: State, now: Second, subjects: seq<string>, delivered: bool)
    requires s.stage.Checking?
    ensures var s', signal := AfterCheck(s, now, subjects, delivered), s.stage.signal;
            if s.headers == [] then s' == s.(stage := Idle, panics := s.panics + 1)
            else
              var latest := s.headers[|s.headers|-1];
              var good := signal.tradeBlockNum >= PendingBlock(latest, now);
              s' == s.(stage := Idle,
                       staleChecks := s.staleChecks + (if Stale(latest, now) then 1 else 0),
                       panics := s.panics + (if good && !Readable(signal, subjects) then 1 else 0),
                       published := s.published + if good && Readable(signal, subjects) && delivered
                                                  then [Answer(s, subjects)] else [])
  {
  }

  lemma LastIsRecorded(cfg: Config, s: State)
    requires Reachable(cfg, s) && s.stage.Checking?
    ensures s.headers != [] && s.allHeaders != [] && Last(s.headers) == Last(s.allHeaders)
    ensures s.stage.signal == Lookup(s.signals, s.stage.symbol) && s.stage.signal in s.signals
  {
    ReachableInv(cfg, s);
    WindowIsSuffix(s.allHeaders);
    LookupIsRetained(s.signals, s.stage.symbol);
  }

  /** Publish safety, at the moment of the check.  In a run whose headers are all sane the
      staleness result is never used, and an order is published exactly when the signal that
      the lookup in the window gives, which is still in the window, has a trade block beyond
      the latest header ever recorded, no symbol in it is malformed, and the bus takes it. */
  lemma PublishSafety(cfg: Config, s: State, now: Second, subjects: seq<string>, delivered: bool)
    requires Reachable(cfg, s) && Enabled(s, Check(now, subjects, delivered))
    requires forall h <- s.allHeaders :: Sane(h)
    ensures s.headers != [] && s.allHeaders != [] && s.staleChecks == 0
    ensures var signal, latest := Lookup(s.signals, s.stage.symbol), Last(s.allHeaders);
            var s' := AfterCheck(s, now, subjects, delivered);
            && signal in s.signals && s'.staleChecks == 0
            && s'.published
               == if delivered && signal.tradeBlockNum >= latest.number + 1 && Readable(signal, subjects)
                  then s.published + [Answer(s, subjects)]
                  else s.published
  {
    ReachableInv(cfg, s);
    LastIsRecorded(cfg, s);
    CheckOutcome(s, now, subjects, delivered);
    SaneIsNeverStale(Last(s.headers), now);
  }

  /** And no other event publishes anything. */
  lemma OnlyChecksPublish(cfg: Config, s: State, e: Event)
    requires Enabled(s, e) && !e.Check?
    ensures Step(cfg, s, e).published == s.published && Step(cfg, s, e).staleChecks == s.staleChecks
  {
  }

  /** What a check in state `c` publishes: the order for the signal that the lookup gives, which
      is still retained, at the latest header ever recorded, and the bus takes it. */
  ghost predicate PublishedAt(c: State, e: Event, p: Publication) {
    && e.Check? && e.delivered && Enabled(c, e) && c.headers != [] && c.allHeaders != []
    && p == Answer(c, e.subjects) && Readable(p.signal, e.subjects)
    && p.signal == Lookup(c.signals, p.symbol) && p.signal in c.signals
    && p.latest == Last(c.allHeaders)
    && (Sane(p.latest) ==> p.signal.tradeBlockNum >= p.latest.number + 1)
  }

  lemma AnswerIsChecked(s: State, e: Event)
    requires Inv(s) && e.Check? && e.delivered && Enabled(s, e)
    requires Readable(s.stage.signal, e.subjects)
    requires s.stage.signal.tradeBlockNum >= PendingBlock(Last(s.headers), e.now)
    ensures PublishedAt(s, e, Answer(s, e.subjects))
  {
    WindowIsSuffix(s.allHeaders);
    LookupIsRetained(s.signals, s.stage.symbol);
    if Sane(Last(s.headers)) {
      SaneIsNeverStale(Last(s.headers), e.now);
    }
  }

  /** An event publishes nothing, or it is a check that publishes one justified order. */
  ghost predicate PublishesAtMostOne(s: State, e: Event, s': State) {
    || s'.published == s.published
    || (exists p :: PublishedAt(s, e, p) && s'.published == s.published + [p])
  }

  lemma CheckPublishes(cfg: Config, s: State, e: Event)
    requires Inv(s) && Enabled(s, e)
    ensures PublishesAtMostOne(s, e, Step(cfg, s, e))
  {
    if e.Check? {
      var signal := s.stage.signal;
      if e.delivered && Readable(signal, e.subjects) && signal.tradeBlockNum >= PendingBlock(Last(s.headers), e.now) {
        var p := Answer(s, e.subjects);
        AnswerIsChecked(s, e);
        assert Step(cfg, s, e).published == s.published + [p];
      } else {
        assert Step(cfg, s, e).published == s.published;
      }
    } else {
      OnlyChecksPublish(cfg, s, e);
    }
  }

  lemma {:induction false} PublishedGrows(cfg: Config, s: State, run: seq<Event>)
    requires Inv(s) && IsRun(cfg, s, run)
    ensures s.published <= Exec(cfg, s, run).published
    decreases |run|
  {
    if run != [] {
      CheckPublishes(cfg, s, run[0]);
      StepInv(cfg, s, run[0]);
      PublishedGrows(cfg, Step(cfg, s, run[0]), run[1..]);
    }
  }

  lemma {:induction false} PublishedBy(cfg: Config, s: State, run: seq<Event>, i: nat) returns (k: nat)
    requires Inv(s) && IsRun(cfg, s, run) && |s.published| <= i < |Exec(cfg, s, run).published|
    ensures k < |run| && IsRun(cfg, s, run[..k])
    ensures PublishedAt(Exec(cfg, s, run[..k]), run[k], Exec(cfg, s, run).published[i])
    decreases |run|
  {
    var s' := Step(cfg, s, run[0]);
    CheckPublishes(cfg, s, run[0]);
    StepInv(cfg, s, run[0]);
    if i < |s'.published| {
      PublishedGrows(cfg, s', run[1..]);
      k := 0;
    } else {
      k := PublishedBy(cfg, s', run[1..], i);
      k := k + 1;
      assert run[..k][0] == run[0] && run[..k][1..] == run[1..][..k - 1];
    }
  }

  /** Publish safety over whole runs: every order ever published, by whatever run, was published
      by one of its checks; at the moment of that check its signal was the one the lookup gives
      and still retained, its header the latest recorded, and, if that is sane, its trade block
      beyond that header. */
  lemma EveryPublicationWasChecked(cfg: Config, run: seq<Event>, i: nat)
    requires IsRun(cfg, INIT, run) && i < |Exec(cfg, INIT, run).published|
    ensures exists k: nat :: k < |run| && IsRun(cfg, INIT, run[..k])
                             && PublishedAt(Exec(cfg, INIT, run[..k]), run[k], Exec(cfg, INIT, run).published[i])
  {
    var k := PublishedBy(cfg, INIT, run, i);
  }

  /** In particular every order derives from a signal that was received and a header that was
      recorded. */
  lemma EveryPublicationIsJustified(cfg: Config, s: State, p: Publication)
    requires Reachable(cfg, s) && p in s.published
    ensures Justified(p, s.allHeaders, s.allSignals)
  {
    ReachableInv(cfg, s);
  }

  /** Every published order takes side, amounts, identifiers, limits and data from the signal it
      answers, and its hedges from all the details of that signal. */
  lemma PublishedOrdersAreFromTheirSignals(cfg: Config, s: State, p: Publication)
    requires Reachable(cfg, s) && p in s.published
    ensures FromSignal(p.order, p.signal)
    ensures (p.order.side.Buy? <==> p.signal.side == "buy") && IsUint64Of(p.order.maxFee, p.signal.buildTx.maxFeePerGas)
    ensures exists subjects ::
              multiset(subjects) == multiset(p.signal.depthDetails.Keys) && p.order.hedges == Hedges(p.signal, subjects)
  {
    ReachableInv(cfg, s);
    var subjects :| OutbidsFor(p, subjects);
    OrderIsFromSignal(p.signal, p.gasPrice + 1 - BasePrice(p.signal), subjects);
    assert multiset(subjects) == multiset(p.signal.depthDetails.Keys);
  }

  /** Every published order whose fee is in range offers the signal's base price plus a priority
      fee that together exceed the competitor's price by one; mined at that base fee, it pays
      more than the competitor exactly when its fee cap exceeds the competitor's price. */
  lemma PublishedOrdersOutbid(cfg: Config, s: State, p: Publication)
    requires Reachable(cfg, s) && p in s.published
    requires p.order.priorityFee.Known? && p.order.priorityFee.value <= p.order.maxFee
    ensures BasePrice(p.signal) + p.order.priorityFee.value == p.gasPrice + 1
    ensures EffectivePrice(BasePrice(p.signal), p.order.priorityFee.value, p.order.maxFee) > p.gasPrice
            <==> p.order.maxFee > p.gasPrice
  {
    ReachableInv(cfg, s);
    Outbids(p.order, p.signal, p.gasPrice);
  }

  /** The order is for the symbol that the competitor touched exactly when the newest signal
      for that symbol is still retained.  Otherwise it is for the oldest retained signal. */
  lemma OrderIsForTheTouchedSymbol(cfg: Config, s: State)
    requires Reachable(cfg, s) && s.stage.Checking?
    ensures var symbol, signal := s.stage.symbol, s.stage.signal;
            var newest, dropped := Newest(s.allSignals, symbol), Dropped(|s.allSignals|);
            && (newest.Some? && newest.value >= dropped ==> signal == s.allSignals[newest.value] && signal.symbol == symbol)
            && (newest.None? || newest.value < dropped ==>
                  dropped < |s.allSignals| && signal == s.allSignals[dropped] && signal.symbol != symbol)
  {
    ReachableInv(cfg, s);
    WindowedLookup(s.allSignals, s.stage.symbol);
    var dropped := Dropped(|s.allSignals|);
    assert s.signals[0] == s.allSignals[dropped];
    var newest := Newest(s.allSignals, s.stage.symbol);
    if newest.None? || newest.value < dropped {
      assert s.signals[0].symbol != s.stage.symbol;
    }
  }

  /** The pair table as `Startup.PairSymbolMap` leaves it; `address` gives a key's contract in
      lower case. */
  ghost predicate FilledFrom(cfg: Config, keys: seq<string>, address: string -> string) {
    Startup.LastWins(cfg.pairs, keys, address, Startup.SymbolOrEmpty)
  }

  /** No key after the k-th has the same contract. */
  ghost predicate LastOfItsContract(keys: seq<string>, address: string -> string, k: nat) {
    k < |keys| && forall j :: k < j < |keys| ==> address(keys[j]) != address(keys[k])
  }

  /** The i-th callee, in pre-order, is `address`, and no known pair is called before it. */
  ghost predicate FirstKnownPair(cfg: Config, trace: CallTree.Call, i: nat, address: string) {
    var addresses := CallTree.Flatten([trace]);
    && i < |addresses| && addresses[i] == address
    && (forall j :: 0 <= j < i ==> addresses[j] !in cfg.pairs)
  }

  /** The newest signal for `symbol` is still in the window. */
  predicate NewestIsRetained(s: State, symbol: string) {
    var newest := Newest(s.allSignals, symbol);
    newest.Some? && newest.value >= Dropped(|s.allSignals|)
  }

  /** In such a table the contract of the k-th key finds that key's symbol. */
  lemma LastKeyIsFound(cfg: Config, keys: seq<string>, address: string -> string, k: nat)
    requires FilledFrom(cfg, keys, address) && LastOfItsContract(keys, address, k)
    ensures address(keys[k]) in cfg.pairs
    ensures cfg.pairs[address(keys[k])] == Startup.SymbolOrEmpty(keys[k])
  {
    var a := address(keys[k]);
    var i :| 0 <= i < |keys| && address(keys[i]) == a && cfg.pairs[a] == Startup.SymbolOrEmpty(keys[i])
             && (forall j :: i < j < |keys| ==> address(keys[j]) != a);
  }

  /** The signal looked up is the newest one for the first known pair, if that is retained. */
  lemma TouchedSymbolIsLookedUp(cfg: Config, s: State, trace: CallTree.Call, i: nat, address: string, symbol: string)
    requires Reachable(cfg, s) && s.stage.Decoding?
    requires FirstKnownPair(cfg, trace, i, address) && address in cfg.pairs && cfg.pairs[address] == symbol
    requires NewestIsRetained(s, symbol)
    ensures var s1 := Step(cfg, s, Decode(Some(trace), false));
            && s1.stage.Decoded?
            && var s2 := AfterDecide(s1);
               && s2.stage.Checking? && s2.stage.symbol == symbol == s2.stage.signal.symbol
               && s2.stage.signal == s.allSignals[Newest(s.allSignals, symbol).value]
  {
    ReachableInv(cfg, s);
    CallTree.FirstKnown(CallTree.Flatten([trace]), cfg.pairs, i);
    WindowedLookup(s.allSignals, symbol);
    LastItemsAreKept(s.allSignals, |s.allSignals| - 1);
  }

  lemma OrderTradesThePair(signal: Signal, p: string, a: string, b: string, tail: string, fee: int, subjects: seq<string>)
    requires '@' !in p && Startup.Plain(a) && Startup.Plain(b) && '@' !in tail && (tail == "" || tail[0] == '_')
    requires signal.symbol == Startup.SymbolOrEmpty(p + "@" + a + "/" + b + tail)
    ensures var order := OrderFor(signal, fee, subjects); order.token == ToUpper(a) && order.quote == ToLower(b)
  {
    Startup.PairRoundTrip(p, a, b, tail);
  }

  /** From the configuration and the trace to the order.  The pair table is the one filled from
      `keys`; the k-th key is `P@A/B` or `P@A/B_fee`, and no later key has its contract; its
      contract, in lower case, is the first known pair that a competitor's transaction calls, in
      pre-order.  Then the signal looked up is the newest one for that pair's symbol, if it is
      still retained, and an order for it trades A for B. */
  lemma TouchedPairIsTraded(cfg: Config, s: State, trace: CallTree.Call, i: nat,
                            keys: seq<string>, address: string -> string, k: nat,
                            p: string, a: string, b: string, tail: string, fee: int, subjects: seq<string>)
    requires Reachable(cfg, s) && s.stage.Decoding?
    requires FilledFrom(cfg, keys, address) && LastOfItsContract(keys, address, k)
    requires keys[k] == p + "@" + a + "/" + b + tail
    requires '@' !in p && Startup.Plain(a) && Startup.Plain(b) && '@' !in tail && (tail == "" || tail[0] == '_')
    requires FirstKnownPair(cfg, trace, i, address(keys[k]))
    requires NewestIsRetained(s, Startup.SymbolOrEmpty(keys[k]))
    ensures var symbol := Startup.SymbolOrEmpty(keys[k]);
            var s1 := Step(cfg, s, Decode(Some(trace), false));
            && s1.stage.Decoded?
            && var s2 := AfterDecide(s1);
               && s2.stage.Checking? && s2.stage.symbol == symbol == s2.stage.signal.symbol
               && s2.stage.signal == s.allSignals[Newest(s.allSignals, symbol).value]
               && var order := OrderFor(s2.stage.signal, fee, subjects);
                  order.token == ToUpper(a) && order.quote == ToLower(b)
  {
    LastKeyIsFound(cfg, keys, address, k);
    var symbol := Startup.SymbolOrEmpty(keys[k]);
    TouchedSymbolIsLookedUp(cfg, s, trace, i, address(keys[k]), symbol);
    OrderTradesThePair(AfterDecide(Step(cfg, s, Decode(Some(trace), false))).stage.signal, p, a, b, tail, fee, subjects);
  }
}
