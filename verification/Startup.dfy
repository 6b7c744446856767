/** What `main` prepares for each chain: the maps from addresses to names, and the symbols of
    the trading pairs, whose tokens a published order later takes apart again. */
module Startup {
  import opened Wrappers
  import opened GoStrings

  /** The symbol of a pair key such as `joeswap@AVAX/USDC`; `None` where indexing the part
      after the `@` panics. */
  function PairSymbol(key: string): Option<string> {
    var parts := Split(key, '@');
    if |parts| < 2 then None else Some(ToLower(Replace(parts[1], "/", "_", 1)))
  }

  /** Base token and quote token of an order for `symbol`; `None` where indexing panics. */
  function OrderTokens(symbol: string): Option<(string, string)> {
    var tokens := Split(symbol, '_');
    if |tokens| < 2 then None else Some((ToUpper(tokens[0]), ToLower(tokens[1])))
  }

  /** A name that may occur between the separators. */
  predicate Plain(s: string) {
    '@' !in s && '/' !in s && '_' !in s
  }

  lemma {:induction false} FirstSlash(a: string, b: string)
    requires '/' !in a
    ensures Replace(a + "/" + b, "/", "_", 1) == a + "_" + b
    decreases |a|
  {
    var s := a + "/" + b;
    if a == "" {
      assert s[1..] == b;
    } else {
      assert s[0] == a[0] != '/' && s[1..] == a[1..] + "/" + b;
      assert !("/" <= s);
      FirstSlash(a[1..], b);
      assert [a[0]] + (a[1..] + "_" + b) == a + "_" + b;
    }
  }

  /** The symbol of `P@A/B` or `P@A/B_fee`; `tail` is the fee with its underscore, or nothing. */
  lemma PairSymbolOf(p: string, a: string, b: string, tail: string)
    requires '@' !in p && Plain(a) && Plain(b) && '@' !in tail
    ensures PairSymbol(p + "@" + a + "/" + b + tail) == Some(ToLower(a) + "_" + ToLower(b) + ToLower(tail))
    ensures NoUpper(ToLower(a) + "_" + ToLower(b) + ToLower(tail))
  {
    var pair := a + "/" + (b + tail);
    assert p + "@" + a + "/" + b + tail == p + "@" + pair;
    SplitHead(p, pair, '@');
    SplitWhole(pair, '@');
    FirstSlash(a, b + tail);
    ToLowerAppend(a + "_", b + tail);
    ToLowerAppend(a, "_");
    ToLowerAppend(b, tail);
    assert ToLower("_") == "_";
    assert ToLower(a) + "_" + (ToLower(b) + ToLower(tail)) == ToLower(a) + "_" + ToLower(b) + ToLower(tail);
  }

  /** What stands between the first two `@` counts, and of its slashes the first one only. */
  lemma PairSymbolOfLongKey(p: string, a: string, b: string, rest: string)
    requires '@' !in p && '@' !in a && '@' !in b && '/' !in a
    ensures PairSymbol(p + "@" + a + "/" + b + "@" + rest) == Some(ToLower(a + "_" + b))
  {
    var pair := a + "/" + b;
    assert p + "@" + a + "/" + b + "@" + rest == p + ['@'] + (pair + ['@'] + rest);
    SplitHead(p, pair + ['@'] + rest, '@');
    SplitHead(pair, rest, '@');
    FirstSlash(a, b);
  }

  /** For instance. */
  lemma AvaxUsdc()
    ensures PairSymbol("joeswap@AVAX/USDC") == Some("avax_usdc")
  {
    PairSymbolOf("joeswap", "AVAX", "USDC", "");
    assert ToLower("AVAX") == "avax" && ToLower("USDC") == "usdc" && ToLower("") == "";
    assert "joeswap" + "@" + "AVAX" + "/" + "USDC" + "" == "joeswap@AVAX/USDC";
    assert "avax" + "_" + "usdc" + "" == "avax_usdc";
  }

  lemma TokensOf(a: string, b: string, tail: string)
    requires Plain(a) && Plain(b) && (tail == "" || tail[0] == '_')
    ensures OrderTokens(ToLower(a) + "_" + ToLower(b) + ToLower(tail)) == Some((ToUpper(a), ToLower(b)))
  {
    var base, quote, rest := ToLower(a), ToLower(b), ToLower(tail);
    ToLowerKeeps(a, '_');
    ToLowerKeeps(b, '_');
    CaseRoundTrip(a);
    CaseRoundTrip(b);
    assert base + "_" + quote + rest == base + "_" + (quote + rest);
    SplitHead(base, quote + rest, '_');
    if tail == "" {
      assert quote + rest == quote;
      SplitWhole(quote, '_');
    } else {
      assert rest[0] == '_' && rest == "_" + rest[1..];
      assert quote + rest == quote + "_" + rest[1..];
      SplitHead(quote, rest[1..], '_');
    }
  }

  /** From the configuration to the order: the tokens of an order for the symbol of a pair are
      the pair's own, the base in upper case and the quote in lower case, with or without fee. */
  lemma PairRoundTrip(p: string, a: string, b: string, tail: string)
    requires '@' !in p && Plain(a) && Plain(b) && '@' !in tail && (tail == "" || tail[0] == '_')
    ensures var symbol := PairSymbol(p + "@" + a + "/" + b + tail);
            symbol.Some? && OrderTokens(symbol.value) == Some((ToUpper(a), ToLower(b)))
  {
    PairSymbolOf(p, a, b, tail);
    TokensOf(a, b, tail);
  }

  // -------------------------------------------------------- maps filled in a loop

  /** `m` is what a loop over `keys` leaves that stores `value(k)` under `index(k)`: on equal
      indices the last one wins. */
  ghost predicate LastWins(m: map<string, string>, keys: seq<string>, index: string -> string, value: string -> string) {
    && (forall i :: 0 <= i < |keys| ==> index(keys[i]) in m)
    && (forall a <- m :: exists i ::
          && 0 <= i < |keys| && index(keys[i]) == a && m[a] == value(keys[i])
          && (forall j :: i < j < |keys| ==> index(keys[j]) != a))
  }

  ghost predicate Distinct(keys: seq<string>, index: string -> string) {
    forall i, j :: 0 <= i < |keys| && 0 <= j < |keys| && index(keys[i]) == index(keys[j]) ==> keys[i] == keys[j]
  }

  /** If no two keys have the same index, every key finds its own value. */
  lemma FindsItsOwn(m: map<string, string>, keys: seq<string>, i: nat, index: string -> string, value: string -> string)
    requires LastWins(m, keys, index, value) && Distinct(keys, index) && i < |keys|
    ensures index(keys[i]) in m && m[index(keys[i])] == value(keys[i])
  {
  }

  /** And then the iteration order of the source's maps is irrelevant. */
  lemma OrderIsIrrelevant(m: map<string, string>, n: map<string, string>, keys: seq<string>, perm: seq<string>,
                          index: string -> string, value: string -> string)
    requires LastWins(m, keys, index, value) && LastWins(n, perm, index, value)
    requires multiset(keys) == multiset(perm) && Distinct(keys, index)
    ensures m == n
  {
    SameElements(keys, perm);
    forall a | a in m
      ensures a in n && n[a] == m[a]
    {
      var i :| 0 <= i < |keys| && index(keys[i]) == a && m[a] == value(keys[i]);
      var j :| 0 <= j < |perm| && perm[j] == keys[i];
      FindsItsOwn(n, perm, j, index, value);
    }
    forall a | a in n
      ensures a in m
    {
      var j :| 0 <= j < |perm| && index(perm[j]) == a && n[a] == value(perm[j]);
      var i :| 0 <= i < |keys| && keys[i] == perm[j];
      FindsItsOwn(m, keys, i, index, value);
    }
  }

  lemma SameElements(keys: seq<string>, perm: seq<string>)
    requires multiset(keys) == multiset(perm)
    ensures forall i :: 0 <= i < |keys| ==> keys[i] in perm
    ensures forall i :: 0 <= i < |perm| ==> perm[i] in keys
  {
    forall i | 0 <= i < |keys| ensures keys[i] in perm {
      assert keys[i] in multiset(keys);
    }
    forall i | 0 <= i < |perm| ensures perm[i] in keys {
      assert perm[i] in multiset(perm);
    }
  }

  lemma LastWinsStep(m: map<string, string>, keys: seq<string>, k: string, index: string -> string, value: string -> string)
    requires LastWins(m, keys, index, value)
    ensures LastWins(m[index(k) := value(k)], keys + [k], index, value)
  {
    var m', keys' := m[index(k) := value(k)], keys + [k];
    forall a | a in m'
      ensures exists i ::
                && 0 <= i < |keys'| && index(keys'[i]) == a && m'[a] == value(keys'[i])
                && (forall j :: i < j < |keys'| ==> index(keys'[j]) != a)
    {
      if a == index(k) {
        assert keys'[|keys|] == k;
      } else {
        var i :| 0 <= i < |keys| && index(keys[i]) == a && m[a] == value(keys[i])
                 && (forall j :: i < j < |keys| ==> index(keys[j]) != a);
        assert keys'[i] == keys[i];
      }
    }
  }

  /** The map that a loop over `keys` fills. */
  function Filled(keys: seq<string>, index: string -> string, value: string -> string): map<string, string> {
    if keys == [] then map[]
    else
      var last := keys[|keys|-1];
      Filled(keys[..|keys|-1], index, value)[index(last) := value(last)]
  }

  lemma {:induction false} FilledLastWins(keys: seq<string>, index: string -> string, value: string -> string)
    ensures LastWins(Filled(keys, index, value), keys, index, value)
  {
    if keys != [] {
      var init := keys[..|keys|-1];
      FilledLastWins(init, index, value);
      LastWinsStep(Filled(init, index, value), init, keys[|keys|-1], index, value);
      assert init + [keys[|keys|-1]] == keys;
    }
  }

  /** The inversions of the router table and of the token table: from name to address, to
      address to name.  `keys` is the order in which the map happens to be iterated. */
  method Invert(keys: seq<string>, address: string -> string) returns (inverse: map<string, string>)
    ensures inverse == Filled(keys, address, k => k)
    ensures LastWins(inverse, keys, address, k => k)
  {
    ghost var same := k => k;
    inverse := map[];
    for i := 0 to |keys|
      invariant inverse == Filled(keys[..i], address, same)
    {
      inverse := inverse[address(keys[i]) := keys[i]];
      assert keys[..i + 1][..i] == keys[..i];
    }
    assert keys[..|keys|] == keys;
    FilledLastWins(keys, address, same);
  }

  function SymbolOrEmpty(key: string): string {
    match PairSymbol(key) case Some(s) => s case None => ""
  }

  /** The pair maps are indexed by the contract's address in lower case. */
  function LowerOf(contract: string -> string): string -> string {
    key => ToLower(contract(key))
  }

  method EncodePair(key: string) returns (symbol: Option<string>)
    ensures symbol == PairSymbol(key)
    ensures symbol.Some? <==> '@' in key
  {
    SplitCount(key, '@');
    var parts := Split(key, '@');
    if |parts| < 2 {
      return None;
    }
    var s := parts[1];
    s := Replace(s, "/", "_", 1);
    s := ToLower(s);
    return Some(s);
  }

  /** The loop over the pairs; `None` where `value` has none, which is where the source panics. */
  method FillMap(keys: seq<string>, index: string -> string, value: string -> Option<string>, ghost plain: string -> string)
    returns (r: Option<map<string, string>>)
    requires forall k :: value(k).Some? ==> value(k).value == plain(k)
    ensures r.None? <==> exists k <- keys :: value(k).None?
    ensures r.Some? ==> r.value == Filled(keys, index, plain)
  {
    var m: map<string, string> := map[];
    for i := 0 to |keys|
      invariant forall k <- keys[..i] :: value(k).Some?
      invariant m == Filled(keys[..i], index, plain)
    {
      var v := value(keys[i]);
      if v.None? {
        return None;
      }
      m := m[index(keys[i]) := v.value];
      assert keys[..i + 1][..i] == keys[..i];
    }
    assert keys[..|keys|] == keys;
    return Some(m);
  }

  /** The map from pair contracts, in lower case, to symbols; it fails, with a panic, exactly if
      a key has no `@`. */
  method PairSymbolMap(keys: seq<string>, contract: string -> string) returns (r: Option<map<string, string>>)
    ensures r.None? <==> exists k <- keys :: '@' !in k
    ensures r.Some? ==> LastWins(r.value, keys, LowerOf(contract), SymbolOrEmpty)
    ensures r.Some? ==> forall a <- r.value :: NoUpper(a)
    ensures r.Some? ==> forall k <- keys :: ToLower(contract(k)) in r.value
    ensures r.Some? ==> forall a <- r.value ::
                          exists k <- keys :: a == ToLower(contract(k)) && PairSymbol(k) == Some(r.value[a])
  {
    forall k ensures PairSymbol(k).None? <==> '@' !in k {
      SplitCount(k, '@');
    }
    r := FillMap(keys, LowerOf(contract), PairSymbol, SymbolOrEmpty);
    FilledLastWins(keys, LowerOf(contract), SymbolOrEmpty);
    if r.Some? {
      LowerTable(r.value, keys, contract);
    }
  }

  lemma LowerTable(m: map<string, string>, keys: seq<string>, contract: string -> string)
    requires LastWins(m, keys, LowerOf(contract), SymbolOrEmpty) && forall k <- keys :: PairSymbol(k).Some?
    ensures forall a <- m :: NoUpper(a)
    ensures forall k <- keys :: ToLower(contract(k)) in m
    ensures forall a <- m :: exists k <- keys :: a == ToLower(contract(k)) && PairSymbol(k) == Some(m[a])
  {
    forall a | a in m
      ensures NoUpper(a) && exists k <- keys :: a == ToLower(contract(k)) && PairSymbol(k) == Some(m[a])
    {
      var i :| 0 <= i < |keys| && LowerOf(contract)(keys[i]) == a && m[a] == SymbolOrEmpty(keys[i]);
      ToLowerHasNoUpper(contract(keys[i]));
      assert keys[i] in keys;
    }
    forall k | k in keys
      ensures ToLower(contract(k)) in m
    {
      var i :| 0 <= i < |keys| && keys[i] == k;
      assert LowerOf(contract)(keys[i]) in m;
    }
  }

  /** The set of competitors: their addresses in lower case. */
  method EnemyMap(addresses: seq<string>) returns (enemies: map<string, bool>)
    ensures forall a <- enemies :: enemies[a] && NoUpper(a) && exists addr <- addresses :: a == ToLower(addr)
    ensures forall addr <- addresses :: ToLower(addr) in enemies
  {
    enemies := map[];
    for i := 0 to |addresses|
      invariant forall a <- enemies :: enemies[a] && NoUpper(a) && exists addr <- addresses :: a == ToLower(addr)
      invariant forall addr <- addresses[..i] :: ToLower(addr) in enemies
    {
      ToLowerHasNoUpper(addresses[i]);
      assert addresses[i] in addresses;
      enemies := enemies[ToLower(addresses[i]) := true];
    }
    assert addresses[..|addresses|] == addresses;
  }
}
