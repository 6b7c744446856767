/** From the call trace of a pending transaction to the symbols of the pairs it touches. */
module CallTree {
  import opened Sequences
  import opened Wrappers

  type Address = string

  datatype Call = Call(to: Address, calls: seq<Call>)

  /** All callees, each call before the calls it makes. */
  function Flatten(calls: seq<Call>): seq<Address> {
    if calls == [] then []
    else [calls[0].to] + Flatten(calls[0].calls) + Flatten(calls[1..])
  }

  /** The source's form: a loop over one level, recursing into the next. */
  method GetAllAddress(calls: seq<Call>) returns (addresses: seq<Address>)
    ensures addresses == Flatten(calls)
  {
    addresses := [];
    for i := 0 to |calls|
      invariant addresses + Flatten(calls[i..]) == Flatten(calls)
    {
      ghost var before := addresses;
      addresses := addresses + [calls[i].to];
      var nested := GetAllAddress(calls[i].calls);
      addresses := addresses + nested;
      assert calls[i..][1..] == calls[i + 1..];
      Associative(before, [calls[i].to], nested);
      Associative(before, [calls[i].to] + nested, Flatten(calls[i + 1..]));
    }
  }

  function NodeCount(calls: seq<Call>): nat {
    if calls == [] then 0 else 1 + NodeCount(calls[0].calls) + NodeCount(calls[1..])
  }

  lemma {:induction false} FlattenAppend(a: seq<Call>, b: seq<Call>)
    ensures Flatten(a + b) == Flatten(a) + Flatten(b)
    ensures NodeCount(a + b) == NodeCount(a) + NodeCount(b)
    decreases |a|
  {
    if a == [] {
      assert a + b == b;
    } else {
      assert (a + b)[1..] == a[1..] + b;
      FlattenAppend(a[1..], b);
    }
  }

  /** Reference definition of pre-order: walk the forest with an explicit stack, always taking
      the next call off the top and putting the calls it makes in its place. */
  function Walk(stack: seq<Call>): seq<Address>
    decreases NodeCount(stack)
  {
    if stack == [] then []
    else
      FlattenAppend(stack[0].calls, stack[1..]);
      [stack[0].to] + Walk(stack[0].calls + stack[1..])
  }

  /** The addresses are the pre-order of the call forest, one per call. */
  lemma {:induction false} FlattenIsPreorder(calls: seq<Call>)
    ensures Flatten(calls) == Walk(calls)
    ensures |Flatten(calls)| == NodeCount(calls)
    decreases NodeCount(calls)
  {
    if calls != [] {
      FlattenAppend(calls[0].calls, calls[1..]);
      FlattenIsPreorder(calls[0].calls + calls[1..]);
    }
  }

  // --------------------------------------------------------- projection to symbols

  /** The symbols of the addresses that are known pairs, in order. */
  function Project(addresses: seq<Address>, pairs: map<Address, string>): seq<string> {
    if addresses == [] then []
    else (if addresses[0] in pairs then [pairs[addresses[0]]] else []) + Project(addresses[1..], pairs)
  }

  lemma {:induction false} ProjectAppend(a: seq<Address>, b: seq<Address>, pairs: map<Address, string>)
    ensures Project(a + b, pairs) == Project(a, pairs) + Project(b, pairs)
    decreases |a|
  {
    if a == [] {
      assert a + b == b;
    } else {
      assert (a + b)[1..] == a[1..] + b;
      ProjectAppend(a[1..], b, pairs);
    }
  }

  /** The source's loop. */
  method ProjectLoop(addresses: seq<Address>, pairs: map<Address, string>) returns (symbols: seq<string>)
    ensures symbols == Project(addresses, pairs)
  {
    symbols := [];
    for i := 0 to |addresses|
      invariant symbols + Project(addresses[i..], pairs) == Project(addresses, pairs)
    {
      ghost var before, todo := symbols, addresses[i..];
      ghost var piece := if todo[0] in pairs then [pairs[todo[0]]] else [];
      assert todo[1..] == addresses[i + 1..];
      if addresses[i] in pairs {
        symbols := symbols + [pairs[addresses[i]]];
      }
      assert symbols == before + piece;
      Associative(before, piece, Project(todo[1..], pairs));
    }
  }

  /** Projecting while flattening. */
  function Symbols(calls: seq<Call>, pairs: map<Address, string>): seq<string> {
    if calls == [] then []
    else
      (if calls[0].to in pairs then [pairs[calls[0].to]] else [])
      + Symbols(calls[0].calls, pairs) + Symbols(calls[1..], pairs)
  }

  /** Filtering by known pairs commutes with flattening. */
  lemma {:induction false} ProjectFlatten(calls: seq<Call>, pairs: map<Address, string>)
    ensures Project(Flatten(calls), pairs) == Symbols(calls, pairs)
  {
    if calls != [] {
      var head, inner, rest := [calls[0].to], Flatten(calls[0].calls), Flatten(calls[1..]);
      ProjectFlatten(calls[0].calls, pairs);
      ProjectFlatten(calls[1..], pairs);
      ProjectAppend(head + inner, rest, pairs);
      ProjectAppend(head, inner, pairs);
      assert Project(head, pairs) == if head[0] in pairs then [pairs[head[0]]] else [];
    }
  }

  /** There is no symbol exactly when no known pair was called. */
  lemma {:induction false} NoSymbol(addresses: seq<Address>, pairs: map<Address, string>)
    ensures Project(addresses, pairs) == [] <==> forall a <- addresses :: a !in pairs
  {
    if addresses != [] {
      NoSymbol(addresses[1..], pairs);
    }
  }

  /** The first symbol, the one `RebuildTx` acts on, is that of the first known pair in
      pre-order. */
  lemma {:induction false} FirstKnown(addresses: seq<Address>, pairs: map<Address, string>, i: nat)
    requires i < |addresses| && addresses[i] in pairs && (forall j :: 0 <= j < i ==> addresses[j] !in pairs)
    ensures Project(addresses, pairs) != [] && Project(addresses, pairs)[0] == pairs[addresses[i]]
  {
    if i > 0 {
      FirstKnown(addresses[1..], pairs, i - 1);
    }
  }

  // ----------------------------------------------------- the two joined goroutines

  /** The goroutine that traces: waiting for the trace, holding it, done. */
  datatype Tracer = Tracing | Traced(result: Option<Call>) | TraceDone
  datatype Receipt = Asking | Answered(found: bool) | ReceiptDone

  datatype Join = Join(tracer: Tracer, receipt: Receipt, addresses: seq<Address>, onChain: bool)

  datatype Turn = TracerTurn | ReceiptTurn

  const START := Join(Tracing, Asking, [], true)

  /** One step of one of the two goroutines; a finished one does nothing. */
  function Advance(s: Join, turn: Turn, trace: Option<Call>, found: bool): Join {
    match turn
    case TracerTurn =>
      (match s.tracer
       case Tracing => s.(tracer := Traced(trace))
       case Traced(r) => s.(tracer := TraceDone, addresses := if r.Some? then Flatten([r.value]) else s.addresses)
       case TraceDone => s)
    case ReceiptTurn =>
      (match s.receipt
       case Asking => s.(receipt := Answered(found))
       case Answered(f) => s.(receipt := ReceiptDone, onChain := if f then s.onChain else false)
       case ReceiptDone => s)
  }

  function Schedule(s: Join, turns: seq<Turn>, trace: Option<Call>, found: bool): Join
    decreases |turns|
  {
    if turns == [] then s else Schedule(Advance(s, turns[0], trace, found), turns[1..], trace, found)
  }

  predicate Joined(s: Join) {
    s.tracer.TraceDone? && s.receipt.ReceiptDone?
  }

  /** What the decoder returns: symbols, and whether the transaction is on chain already. */
  function Decode(trace: Option<Call>, found: bool, pairs: map<Address, string>): (seq<string>, bool) {
    (if found || trace.None? then [] else Project(Flatten([trace.value]), pairs), found)
  }

  function Result(s: Join, pairs: map<Address, string>): (seq<string>, bool) {
    (if s.onChain then [] else Project(s.addresses, pairs), s.onChain)
  }

  ghost predicate JoinInv(s: Join, trace: Option<Call>, found: bool) {
    && (s.tracer.Traced? ==> s.tracer.result == trace)
    && (s.receipt.Answered? ==> s.receipt.found == found)
    && s.addresses == (if s.tracer.TraceDone? && trace.Some? then Flatten([trace.value]) else [])
    && s.onChain == (s.receipt.ReceiptDone? ==> found)
  }

  lemma {:induction false} ScheduleInv(s: Join, turns: seq<Turn>, trace: Option<Call>, found: bool)
    requires JoinInv(s, trace, found)
    ensures JoinInv(Schedule(s, turns, trace, found), trace, found)
    decreases |turns|
  {
    if turns != [] {
      ScheduleInv(Advance(s, turns[0], trace, found), turns[1..], trace, found);
    }
  }

  /** Whatever the interleaving of the two goroutines, once both are done the result is the
      same function of their outcomes. */
  lemma EveryScheduleDecodesTheSame(turns: seq<Turn>, trace: Option<Call>, found: bool, pairs: map<Address, string>)
    requires Joined(Schedule(START, turns, trace, found))
    ensures Result(Schedule(START, turns, trace, found), pairs) == Decode(trace, found, pairs)
  {
    ScheduleInv(START, turns, trace, found);
    assert Project([], pairs) == [];
  }
}
