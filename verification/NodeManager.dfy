/** `NodeMgr` as an object whose methods update its fields, one method per step of the two
    goroutines, each proved to make exactly the step of the event machine. */
module NodeManager {
  import opened Wrappers
  import opened Window
  import opened Signals
  import opened Trade
  import opened NodeModel
  import CallTree

  class NodeMgr {
    const cfg: Config
    var headerWsList: seq<Header>
    var pendingTxList: seq<Tx>
    var signals: seq<Signal>
    var stage: Stage                 // the analyser's local variables
    var published: seq<Publication>
    ghost var allHeaders: seq<Header>
    ghost var allPending: seq<Tx>
    ghost var allSignals: seq<Signal>
    ghost var cancels: nat
    ghost var staleChecks: nat
    ghost var panics: nat

    ghost function View(): State
      reads this
    {
      State(headerWsList, pendingTxList, signals, stage, allHeaders, allPending, allSignals,
            published, cancels, staleChecks, panics)
    }

    /** The state is one that some sequence of events leads to: whatever is proved of all
        reachable states, or of all runs, holds of this object. */
    ghost predicate Valid()
      reads this
    {
      Reachable(cfg, View())
    }

    twostate predicate Did(e: Event)
      reads this
    {
      Enabled(old(View()), e) && View() == Step(cfg, old(View()), e)
    }

    constructor (cfg: Config)
      ensures this.cfg == cfg && View() == INIT && Valid()
    {
      this.cfg := cfg;
      headerWsList, pendingTxList, signals, stage, published := [], [], [], Idle, [];
      allHeaders, allPending, allSignals := [], [], [];
      cancels, staleChecks, panics := 0, 0, 0;
      new;
      InitIsReachable(cfg);
    }

    /** One turn of `SubGethBlockHeader`. */
    method NewHead(newHead: Header)
      requires Valid()
      modifies this
      ensures Valid() && Did(NodeModel.NewHead(newHead))
    {
      ReachableStep(cfg, View(), NodeModel.NewHead(newHead));
      if newHead.number == 0 {
        return;
      }
      if |headerWsList| > LIMIT {
        headerWsList := headerWsList[BATCH..];
      }
      headerWsList := headerWsList + [newHead];
      allHeaders := allHeaders + [newHead];
    }

    /** The recovery: the event in hand is dropped and the analyser starts again. */
    method Recover()
      modifies this
      ensures View() == old(View()).Panic()
    {
      stage := Idle;
      panics := panics + 1;
    }

    method GetPendingBlockNum(now: Second) returns (blockNum: Option<int64>)
      ensures blockNum == if headerWsList == [] then None else Some(PendingBlock(Last(headerWsList), now))
    {
      if |headerWsList| == 0 {
        return None;   // the index panics
      }
      var last := headerWsList[|headerWsList|-1];
      var timestamp := Wrap(last.time);
      if Wrap(now - timestamp) > 2 {
        return Some(0);
      }
      return Some(Wrap(last.number + 1));
    }

    /** A pending transaction that cannot be decoded, or that panics when it is read. */
    method UnreadableTx(panicking: bool)
      requires Valid() && stage.Idle?
      modifies this
      ensures Valid() && Did(NodeModel.UnreadableTx(panicking))
    {
      ReachableStep(cfg, View(), NodeModel.UnreadableTx(panicking));
      if panicking {
        Recover();
      }
    }

    /** A pending transaction, up to the tracing of a competitor's. */
    method TakeTx(tx: Tx, routed: RouterResult)
      requires Valid() && stage.Idle?
      modifies this
      ensures Valid() && Did(NodeModel.TakeTx(tx, routed))
    {
      ReachableStep(cfg, View(), NodeModel.TakeTx(tx, routed));
      if tx.to in cfg.routers {
        if routed.DecoderPanics? {
          Recover();
          return;
        }
        var symbols := [];
        if cfg.routers[tx.to] == "traderjoe" && routed.TokenPair? {
          symbols := symbols + [routed.token0 + "_" + routed.token1];
          symbols := symbols + [routed.token1 + "_" + routed.token0];
        }
        assert symbols == RouterSymbols(cfg.routers[tx.to], routed);
        stage := Decoded(symbols, false, tx.gasPrice);
      } else if tx.to in cfg.enemies && cfg.enemies[tx.to] {
        if |pendingTxList| > LIMIT {
          pendingTxList := pendingTxList[BATCH..];
        }
        pendingTxList := pendingTxList + [tx];
        allPending := allPending + [tx];
        if |headerWsList| == 0 {
          Recover();
          return;
        }
        stage := Decoding(tx);
      } else {
        stage := Decoded([], false, tx.gasPrice);
      }
    }

    /** The joined result of the trace and the receipt. */
    method DecodeToSymbol(trace: Option<CallTree.Call>, found: bool)
      requires Valid() && stage.Decoding?
      modifies this
      ensures Valid() && Did(Decode(trace, found))
    {
      ReachableStep(cfg, View(), Decode(trace, found));
      var symbols: seq<string> := [];
      if !found && trace.Some? {
        var addresses := CallTree.GetAllAddress([trace.value]);
        symbols := CallTree.ProjectLoop(addresses, cfg.pairs);
      }
      stage := Decoded(symbols, found, stage.tx.gasPrice);
    }

    /** The decision after decoding and, unless there is nothing to do, the lookup. */
    method ChooseSignal()
      requires Valid() && stage.Decoded?
      modifies this
      ensures Valid() && Did(Decide)
    {
      ReachableStep(cfg, View(), Decide);
      if |stage.symbols| == 0 || |signals| == 0 {
        stage := Idle;
      } else if stage.onChain {
        cancels := cancels + 1;
        stage := Idle;
      } else {
        var signal := GetLastSignalBySymbol(signals, stage.symbols[0]);
        if |headerWsList| == 0 {
          Recover();
          return;
        }
        stage := Checking(signal, stage.symbols[0], stage.gasPrice);
      }
    }

    /** The block check, the fee and the order. */
    method CheckAndTrade(now: Second, subjects: seq<string>, delivered: bool)
      requires Valid() && stage.Checking? && IterationOrder(stage.signal, subjects)
      modifies this
      ensures Valid() && Did(Check(now, subjects, delivered))
    {
      ReachableStep(cfg, View(), Check(now, subjects, delivered));
      var pendingBlock := GetPendingBlockNum(now);
      if pendingBlock.None? {
        Recover();
        return;
      }
      var latest := headerWsList[|headerWsList|-1];
      var done := true;
      if stage.signal.tradeBlockNum >= pendingBlock.value {
        done := RebuildTx(latest, subjects, delivered);
      }
      staleChecks := staleChecks + if Stale(latest, now) then 1 else 0;
      if done {
        stage := Idle;
      } else {
        Recover();
      }
    }

    /** The new fee, the order and its publication; false where building the order panics. */
    method RebuildTx(latest: Header, subjects: seq<string>, delivered: bool) returns (done: bool)
      requires stage.Checking? && headerWsList != [] && latest == Last(headerWsList)
      modifies this`published
      ensures done <==> Readable(stage.signal, subjects)
      ensures published == old(published) + if done && delivered then [Answer(old(View()), subjects)] else []
    {
      var newGasPrice := NewGasPrice(stage.signal, stage.gasPrice);
      var order := BuildOrder(stage.signal, newGasPrice, subjects);
      if order.None? {
        return false;
      }
      if delivered {
        published := published + [Publication(order.value, stage.signal, stage.symbol, stage.gasPrice, latest)];
      }
      return true;
    }

    /** A message from the signal channel; `None` if it cannot be decoded. */
    method TakeSignal(data: Option<Signal>)
      requires Valid() && stage.Idle?
      modifies this
      ensures Valid() && Did(NodeModel.TakeSignal(data))
    {
      ReachableStep(cfg, View(), NodeModel.TakeSignal(data));
      if data.None? {
        return;
      }
      if |signals| > LIMIT {
        signals := signals[BATCH..];
      }
      signals := signals + [data.value];
      allSignals := allSignals + [data.value];
      if |pendingTxList| > 0 && |headerWsList| == 0 {
        Recover();
      }
    }
  }

  /** The notification that the websocket client receives: decoded or not, with its method. */
  datatype HeadData = InvalidRequest | Malformed | HeadRsp(rpcMethod: string, header: Header)

  class NodeClient {
    var headerWsList: seq<HeadData>
    ghost var accepted: seq<HeadData>

    ghost predicate Valid()
      reads this
    {
      headerWsList == Recent(accepted)
    }

    /** `HeadsHandler`: the fourth of the truncating windows. */
    method HeadsHandler(data: HeadData) returns (failed: bool)
      requires Valid()
      modifies this
      ensures Valid()
      ensures headerWsList == accepted[if |accepted| < 102 then 0 else 100 * ((|accepted| - 102) / 100)..]
      ensures failed <==> data.Malformed?
      ensures accepted == old(accepted) + if data.HeadRsp? && data.rpcMethod != "" then [data] else []
    {
      if data.InvalidRequest? {
        return false;
      }
      if data.Malformed? {
        return true;
      }
      if data.rpcMethod == "" {
        return false;
      }
      PushRecent(accepted, data);
      if |headerWsList| > LIMIT {
        headerWsList := headerWsList[BATCH..];
      }
      headerWsList := headerWsList + [data];
      accepted := accepted + [data];
      return false;
    }
  }
}
