/** `ActiveSymbol` of deriv/symbol.py: a tradeable symbol with its market
    placement, its open/suspended flags and its sorted list of assets, kept in a
    get-or-create registry; the keyword search `find` and the joins to `Asset`. */
module ActiveSymbols {
  import opened Wrappers
  import opened Strings
  import opened Values
  import opened Sequences
  import opened Util
  import opened Durations
  import opened Assets

  datatype ActiveSymbol = ActiveSymbol(
    symbol: string,
    displayName: string,
    assets: seq<Asset>,
    exchangeIsOpen: Value,
    isTradingSuspended: Value,
    market: Option<string>,
    marketDisplayName: Option<string>,
    subMarket: Option<string>,
    submarketDisplayName: Option<string>,
    key: string)

  function SymbolKey(x: ActiveSymbol): string { x.key }

  /** f'{not is_trading_suspended}{not exchange_is_open}{market}{sub_market}{symbol}' */
  function MakeKey(symbol: string, exchangeIsOpen: Value, isTradingSuspended: Value,
                   market: Option<string>, subMarket: Option<string>): (key: string)
    ensures |key| >= 4 && key[0] in "TF"
  {
    BoolRepr(!Truthy(isTradingSuspended)) + BoolRepr(!Truthy(exchangeIsOpen)) + Show(market) + Show(subMarket) + symbol
  }

  /** Symbols that differ in a flag's truthiness never share a key. */
  lemma KeySeparatesFlags(s1: string, o1: Value, t1: Value, m1: Option<string>, u1: Option<string>,
                          s2: string, o2: Value, t2: Value, m2: Option<string>, u2: Option<string>)
    requires Truthy(t1) != Truthy(t2) || Truthy(o1) != Truthy(o2)
    ensures MakeKey(s1, o1, t1, m1, u1) != MakeKey(s2, o2, t2, m2, u2)
  {
    var k1, k2 := MakeKey(s1, o1, t1, m1, u1), MakeKey(s2, o2, t2, m2, u2);
    var a1, a2 := BoolRepr(!Truthy(t1)), BoolRepr(!Truthy(t2));
    if Truthy(t1) != Truthy(t2) {
      assert k1[0] == a1[0] && k2[0] == a2[0];
    } else {
      var b1, b2 := BoolRepr(!Truthy(o1)), BoolRepr(!Truthy(o2));
      assert k1[|a1|] == b1[0] && k2[|a2|] == b2[0];
    }
  }

  // ---------------------------------------------------------------------
  // ActiveSymbol.find(**kwargs)

  /** Keyword arguments in call order; Python keeps them distinct. */
  type Kwargs = seq<(string, Value)>

  const ResearchNames: seq<string> := ["restrict"]
  const FilterNames: seq<string> := ["assets", "exchange_is_open", "is_trading_suspended"]
  const PropNames: seq<string> := ["key", "symbol", "display_name", "market", "market_display_name",
                                   "sub_market", "submarket_display_name"]

  predicate Known(name: string) { name in ResearchNames || name in FilterNames || name in PropNames }

  predicate IsFilterArg(kv: (string, Value)) { kv.0 in FilterNames }

  predicate IsPropArg(kv: (string, Value)) { kv.0 in PropNames }

  /** A truthy value that is not a bool. */
  predicate BadFlag(v: Value) { Truthy(v) && !v.Bool? }

  function Lookup(kwargs: Kwargs, name: string): (r: Option<Value>)
    ensures r.Some? ==> (name, r.value) in kwargs
    ensures r.None? <==> forall i :: 0 <= i < |kwargs| ==> kwargs[i].0 != name
  {
    if kwargs == [] then None
    else if kwargs[0].0 == name then Some(kwargs[0].1)
    else Lookup(kwargs[1..], name)
  }

  /** `getattr(inst, f'_{name}')` for the property names. */
  function Attr(x: ActiveSymbol, name: string): Option<string>
  {
    if name == "key" then Some(x.key)
    else if name == "symbol" then Some(x.symbol)
    else if name == "display_name" then Some(x.displayName)
    else if name == "market" then x.market
    else if name == "market_display_name" then x.marketDisplayName
    else if name == "sub_market" then x.subMarket
    else if name == "submarket_display_name" then x.submarketDisplayName
    else None
  }

  /** One step of the `reduce`: the attribute is truthy and equals the value, or
      contains it ignoring case when `restrict` is set. */
  predicate PropMatches(x: ActiveSymbol, kv: (string, Value), restrict: bool)
  {
    var attr := Attr(x, kv.0);
    && attr.Some? && attr.value != ""
    && if restrict then kv.1.Str? && ContainsIgnoreCase(attr.value, kv.1.s) else Str(attr.value) == kv.1
  }

  predicate AllPropsMatch(x: ActiveSymbol, props: Kwargs, restrict: bool)
  {
    forall i :: 0 <= i < |props| ==> PropMatches(x, props[i], restrict)
  }

  lemma AllPropsMatchSplit(x: ActiveSymbol, props: Kwargs, restrict: bool)
    requires props != []
    ensures AllPropsMatch(x, props, restrict) <==>
            PropMatches(x, props[0], restrict) && AllPropsMatch(x, props[1..], restrict)
  {
    if PropMatches(x, props[0], restrict) && AllPropsMatch(x, props[1..], restrict) {
      forall i | 0 <= i < |props| ensures PropMatches(x, props[i], restrict) {
        if i > 0 { assert props[1..][i - 1] == props[i]; }
      }
    }
    if AllPropsMatch(x, props, restrict) {
      forall i | 0 <= i < |props[1..]| ensures PropMatches(x, props[1..][i], restrict) {
        assert props[1..][i] == props[i + 1];
      }
    }
  }

  /** The `reduce` over the property arguments, one comprehension per argument. */
  function SelectByProps(s: seq<ActiveSymbol>, props: Kwargs, restrict: bool): (r: seq<ActiveSymbol>)
    ensures forall x :: multiset(r)[x] == if AllPropsMatch(x, props, restrict) then multiset(s)[x] else 0
    ensures forall x :: x in r ==> x in s
    ensures SortedBy(s, SymbolKey) ==> SortedBy(r, SymbolKey)
    decreases |props|
  {
    if props == [] then s
    else
      var first := Filter(s, x => PropMatches(x, props[0], restrict));
      FilterSorted(s, x => PropMatches(x, props[0], restrict), SymbolKey);
      assert forall x :: AllPropsMatch(x, props, restrict) <==>
                         PropMatches(x, props[0], restrict) && AllPropsMatch(x, props[1..], restrict) by {
        forall x ensures AllPropsMatch(x, props, restrict) <==>
                         PropMatches(x, props[0], restrict) && AllPropsMatch(x, props[1..], restrict) {
          AllPropsMatchSplit(x, props, restrict);
        }
      }
      SelectByProps(first, props[1..], restrict)
  }

  /** The result of find: a list of symbols, or, once the `assets` filter ran, of
      (symbol, assets) pairs. */
  datatype FindResult = Symbols(symbols: seq<ActiveSymbol>) | WithAssets(pairs: seq<(ActiveSymbol, seq<Asset>)>)

  /** The symbols a result holds. */
  function Members(res: FindResult): set<ActiveSymbol>
  {
    match res
    case Symbols(ss) => set x | x in ss
    case WithAssets(ps) => set i | 0 <= i < |ps| :: ps[i].0
  }

  /** A list of symbols is sorted by key; a pair holds its symbol's own assets. */
  ghost predicate WellFormed(res: FindResult)
  {
    match res
    case Symbols(ss) => SortedBy(ss, SymbolKey)
    case WithAssets(ps) => forall i :: 0 <= i < |ps| ==> ps[i].1 == ps[i].0.assets
  }

  /** A well-formed result holding only registered symbols. */
  ghost predicate Drawn(res: FindResult, insts: seq<ActiveSymbol>)
  {
    WellFormed(res) && forall x :: x in Members(res) ==> x in insts
  }

  predicate FlagMatches(x: ActiveSymbol, name: string, value: Value)
  {
    if name == "is_trading_suspended" then Eq(x.isTradingSuspended, value) else Eq(x.exchangeIsOpen, value)
  }

  /** One pass of the filter loop; a flag filter on a list of pairs reads an
      attribute of a tuple. */
  function ApplyFilter(res: FindResult, f: (string, Value)): (r: Result<FindResult>)
    ensures r.Ok? ==> Members(r.value) <= Members(res) && (WellFormed(res) ==> WellFormed(r.value))
    ensures r.Err? ==> r.error == TupleHasNoAttribute
    ensures r.Err? <==> res.WithAssets? && res.pairs != [] && f.0 in FilterNames
    ensures f.0 !in FilterNames ==> r == Ok(res)
    ensures f.0 in FilterNames && f.0 != "assets" && res.Symbols? ==>
              && r.Ok? && r.value.Symbols? && Subsequence(r.value.symbols, res.symbols)
              && forall x :: multiset(r.value.symbols)[x] ==
                             if FlagMatches(x, f.0, f.1) then multiset(res.symbols)[x] else 0
    ensures f.0 == "assets" && res.Symbols? ==>
              && r.Ok? && r.value.WithAssets? && |r.value.pairs| == |res.symbols|
              && forall i :: 0 <= i < |res.symbols| ==> r.value.pairs[i] == (res.symbols[i], res.symbols[i].assets)
  {
    if f.0 == "is_trading_suspended" || f.0 == "exchange_is_open" then
      match res
      case Symbols(ss) =>
        FilterSorted(ss, x => FlagMatches(x, f.0, f.1), SymbolKey);
        FilterIsSubsequence(ss, x => FlagMatches(x, f.0, f.1));
        Ok(Symbols(Filter(ss, x => FlagMatches(x, f.0, f.1))))
      case WithAssets(ps) => if ps == [] then Ok(res) else Err(TupleHasNoAttribute)
    else if f.0 == "assets" then
      match res
      case Symbols(ss) =>
        var ps := seq(|ss|, i requires 0 <= i < |ss| => (ss[i], ss[i].assets));
        assert forall x :: x in Members(WithAssets(ps)) ==> x in ss by {
          forall x | x in Members(WithAssets(ps)) ensures x in ss {
            var i :| 0 <= i < |ps| && ps[i].0 == x;
            assert ss[i] == x;
          }
        }
        Ok(WithAssets(ps))
      case WithAssets(ps) => if ps == [] then Ok(res) else Err(TupleHasNoAttribute)
    else Ok(res)
  }

  /** The filter loop over the filter arguments, in call order. */
  function ApplyFilters(res: FindResult, filters: Kwargs): (r: Result<FindResult>)
    decreases |filters|
    ensures r.Ok? ==> Members(r.value) <= Members(res) && (WellFormed(res) ==> WellFormed(r.value))
    ensures r.Err? ==> r.error == TupleHasNoAttribute
  {
    if filters == [] then Ok(res)
    else
      var step := ApplyFilter(res, filters[0]);
      if step.Err? then step else ApplyFilters(step.value, filters[1..])
  }

  /** The loop over `a + b` is the loop over `a`, then, unless it raised, the loop over `b`. */
  lemma {:induction false} ApplyFiltersConcat(res: FindResult, a: Kwargs, b: Kwargs)
    ensures ApplyFilters(res, a + b) ==
            if ApplyFilters(res, a).Err? then ApplyFilters(res, a) else ApplyFilters(ApplyFilters(res, a).value, b)
    decreases |a|
  {
    if a == [] {
      assert a + b == b;
    } else {
      assert (a + b)[0] == a[0] && (a + b)[1..] == a[1..] + b;
      var step := ApplyFilter(res, a[0]);
      if step.Ok? { ApplyFiltersConcat(step.value, a[1..], b); }
    }
  }

  /** Every flag filter among `filters` matches `x`. */
  predicate AllFlagsMatch(x: ActiveSymbol, filters: Kwargs)
  {
    forall i :: 0 <= i < |filters| && filters[i].0 in FilterNames ==> FlagMatches(x, filters[i].0, filters[i].1)
  }

  /** Without an `assets` filter the loop keeps, in order, exactly the symbols every
      flag filter matches. */
  lemma {:induction false} FlagFiltersSelect(ss: seq<ActiveSymbol>, filters: Kwargs)
    requires forall i :: 0 <= i < |filters| ==> filters[i].0 != "assets"
    ensures var r := ApplyFilters(Symbols(ss), filters);
            && r.Ok? && r.value.Symbols? && Subsequence(r.value.symbols, ss)
            && forall x :: multiset(r.value.symbols)[x] == if AllFlagsMatch(x, filters) then multiset(ss)[x] else 0
    decreases |filters|
  {
    if filters == [] {
      SubsequenceReflexive(ss);
    } else {
      var f := filters[0];
      var step := ApplyFilter(Symbols(ss), f);
      var t := step.value.symbols;
      forall i | 0 <= i < |filters[1..]| ensures filters[1..][i].0 != "assets" {
        assert filters[1..][i] == filters[i + 1];
      }
      FlagFiltersSelect(t, filters[1..]);
      var r := ApplyFilters(Symbols(t), filters[1..]);
      if f.0 !in FilterNames { SubsequenceReflexive(ss); }
      SubsequenceTransitive(r.value.symbols, t, ss);
      forall x ensures AllFlagsMatch(x, filters) <==>
                       (f.0 in FilterNames ==> FlagMatches(x, f.0, f.1)) && AllFlagsMatch(x, filters[1..]) {
        AllFlagsMatchSplit(x, filters);
      }
    }
  }

  lemma AllFlagsMatchSplit(x: ActiveSymbol, filters: Kwargs)
    requires filters != []
    ensures AllFlagsMatch(x, filters) <==>
            (filters[0].0 in FilterNames ==> FlagMatches(x, filters[0].0, filters[0].1)) && AllFlagsMatch(x, filters[1..])
  {
    if AllFlagsMatch(x, filters) {
      forall i | 0 <= i < |filters[1..]| && filters[1..][i].0 in FilterNames
        ensures FlagMatches(x, filters[1..][i].0, filters[1..][i].1) {
        assert filters[1..][i] == filters[i + 1];
      }
    }
    if (filters[0].0 in FilterNames ==> FlagMatches(x, filters[0].0, filters[0].1)) && AllFlagsMatch(x, filters[1..]) {
      forall i | 0 <= i < |filters| && filters[i].0 in FilterNames ensures FlagMatches(x, filters[i].0, filters[i].1) {
        if i > 0 { assert filters[1..][i - 1] == filters[i]; }
      }
    }
  }

  /** Once the list holds (symbol, assets) pairs, the loop raises exactly when a filter
      argument is left. */
  lemma {:induction false} FiltersOnPairs(ps: seq<(ActiveSymbol, seq<Asset>)>, filters: Kwargs)
    requires ps != []
    ensures var r := ApplyFilters(WithAssets(ps), filters);
            && (r.Err? <==> exists i :: 0 <= i < |filters| && filters[i].0 in FilterNames)
            && (r.Ok? ==> r.value == WithAssets(ps))
    decreases |filters|
  {
    if filters != [] {
      FiltersOnPairs(ps, filters[1..]);
      if exists i :: 0 <= i < |filters[1..]| && filters[1..][i].0 in FilterNames {
        var i :| 0 <= i < |filters[1..]| && filters[1..][i].0 in FilterNames;
        assert filters[i + 1].0 in FilterNames;
      }
      if exists i :: 0 <= i < |filters| && filters[i].0 in FilterNames {
        var i :| 0 <= i < |filters| && filters[i].0 in FilterNames;
        if i > 0 { assert filters[1..][i - 1].0 in FilterNames; }
      }
    }
  }

  /** The condition of the key comprehension. */
  function KeyIs(key: string): ActiveSymbol -> bool
  {
    x => SymbolKey(x) == key
  }

  /** The key comprehension over the sorted list keeps two instances exactly when two
      registered instances carry that key. */
  lemma KeyRepeats(insts: seq<ActiveSymbol>, key: string)
    ensures |Filter(SortByKey(insts, SymbolKey), KeyIs(key))| >= 2 <==>
            exists i, j :: 0 <= i < j < |insts| && insts[i].key == key && insts[j].key == key
  {
    FilterSizeOfPermutation(SortByKey(insts, SymbolKey), insts, KeyIs(key));
    FilterHasTwo(insts, KeyIs(key));
  }

  /** The instances with exactly the given key, from the sorted list; several of them raise. */
  function FindKey(insts: seq<ActiveSymbol>, key: string): (r: Result<seq<ActiveSymbol>>)
    ensures r.Err? ==> r.error == MultipleInstances
    ensures r.Err? <==> exists i, j :: 0 <= i < j < |insts| && insts[i].key == key && insts[j].key == key
    ensures UniqueKeys(insts, SymbolKey) ==> r.Ok? && |r.value| <= 1
    ensures r.Ok? ==> forall x :: x in r.value <==> x in insts && x.key == key
    ensures r.Ok? ==> SortedBy(r.value, SymbolKey)
  {
    var sorted := SortByKey(insts, SymbolKey);
    var matched := Filter(sorted, KeyIs(key));
    FilterSorted(sorted, KeyIs(key), SymbolKey);
    KeyRepeats(insts, key);
    assert forall x :: x in matched <==> x in insts && x.key == key by {
      forall x ensures x in matched <==> x in insts && x.key == key {
        assert x in matched <==> x in multiset(matched);
        assert x in insts <==> x in multiset(insts);
      }
    }
    if |matched| > 1 then Err(MultipleInstances) else Ok(matched)
  }

  /** A keyword argument find accepts: a known name, a flag that is a bool or falsy,
      a property value that is a non-empty str other than 'all'. */
  predicate ValidKwarg(kv: (string, Value))
  {
    && Known(kv.0)
    && (kv.0 in PropNames ==> kv.1.Str? && kv.1.s != "" && kv.1.s != "all")
    && (kv.0 !in PropNames ==> !BadFlag(kv.1))
  }

  /** A property given the value 'all', which find cannot handle. */
  predicate IsAllProperty(kv: (string, Value))
  {
    kv.0 in PropNames && kv.1 == Str("all")
  }

  /** The checks find makes before searching, in the order it makes them. */
  function CheckKwargs(kwargs: Kwargs): (e: Option<Error>)
    ensures e == Some(InvalidKeyword) <==> exists i :: 0 <= i < |kwargs| && !Known(kwargs[i].0)
    ensures e.None? <==> forall i :: 0 <= i < |kwargs| ==> ValidKwarg(kwargs[i])
    ensures e == Some(UnboundAllCount) <==>
            (forall i :: 0 <= i < |kwargs| ==> ValidKwarg(kwargs[i]) || IsAllProperty(kwargs[i])) &&
            exists i :: 0 <= i < |kwargs| && IsAllProperty(kwargs[i])
  {
    if exists i | 0 <= i < |kwargs| :: !Known(kwargs[i].0) then Some(InvalidKeyword)
    else if exists i | 0 <= i < |kwargs| :: kwargs[i].0 in ResearchNames && BadFlag(kwargs[i].1) then Some(InvalidSearchValue)
    else if exists i | 0 <= i < |kwargs| :: kwargs[i].0 in FilterNames && BadFlag(kwargs[i].1) then Some(InvalidFilterValue)
    else if exists i | 0 <= i < |kwargs| :: kwargs[i].0 in PropNames && CheckStr(kwargs[i].1).Err? then Some(InvalidString)
    else if exists i | 0 <= i < |kwargs| :: kwargs[i].0 in PropNames && kwargs[i].1 == Str("all") then Some(UnboundAllCount)
    else None
  }

  /** `args_research.get('restrict', False)`, read for its truth value. */
  function RestrictArg(kwargs: Kwargs): bool
  {
    match Lookup(kwargs, "restrict")
    case Some(v) => Truthy(v)
    case None => false
  }

  /** Everything find does before its filter loop: the validation of the keyword
      arguments, then the key lookup or the conjunctive property search. */
  function Preselect(insts: seq<ActiveSymbol>, kwargs: Kwargs): (r: Result<FindResult>)
    ensures r.Ok? ==> r.value.Symbols? && Drawn(r.value, insts)
  {
    if kwargs == [] then Ok(Symbols(PropSearch(insts, [], false)))
    else
      var invalid := CheckKwargs(kwargs);
      if invalid.Some? then Err(invalid.value)
      else
        var props := Filter(kwargs, IsPropArg);
        match Lookup(kwargs, "key")
        case Some(Str(k)) => KeySearch(insts, props, k)
        case _ => Ok(Symbols(PropSearch(insts, props, RestrictArg(kwargs))))
  }

  /** The key branch of find: a key may not be combined with another property. */
  function KeySearch(insts: seq<ActiveSymbol>, props: Kwargs, k: string): (r: Result<FindResult>)
    ensures r.Ok? ==> r.value.Symbols? && Drawn(r.value, insts)
    ensures r.Err? ==> r.error in {KeyCombined, MultipleInstances}
    ensures r == Err(KeyCombined) <==> exists i :: 0 <= i < |props| && props[i].0 != "key"
    ensures r == Err(MultipleInstances) <==>
            && (forall i :: 0 <= i < |props| ==> props[i].0 == "key")
            && exists i, j :: 0 <= i < j < |insts| && insts[i].key == k && insts[j].key == k
    ensures r.Ok? ==> forall x :: x in r.value.symbols <==> x in insts && x.key == k
  {
    if exists i | 0 <= i < |props| :: props[i].0 != "key" then Err(KeyCombined)
    else
      var found := FindKey(insts, k);
      if found.Err? then Err(found.error)
      else
        assert forall x :: x in Members(Symbols(found.value)) ==> x in insts;
        Ok(Symbols(found.value))
  }

  /** The property branch of find, on the instances sorted by key. */
  function PropSearch(insts: seq<ActiveSymbol>, props: Kwargs, restrict: bool): (r: seq<ActiveSymbol>)
    ensures SortedBy(r, SymbolKey) && forall x :: x in r ==> x in insts
  {
    var sorted := SortByKey(insts, SymbolKey);
    assert forall x :: x in sorted ==> x in insts by {
      forall x | x in sorted ensures x in insts { assert x in multiset(sorted); }
    }
    SelectByProps(sorted, props, restrict)
  }

  /** `ActiveSymbol.find(**kwargs)` */
  function FindSpec(insts: seq<ActiveSymbol>, kwargs: Kwargs): (r: Result<FindResult>)
    ensures kwargs == [] ==> r.Ok? && r.value.Symbols? &&
                             SortedBy(r.value.symbols, SymbolKey) && multiset(r.value.symbols) == multiset(insts)
    ensures r == Err(InvalidKeyword) <==> kwargs != [] && exists i :: 0 <= i < |kwargs| && !Known(kwargs[i].0)
    ensures r.Ok? ==> Drawn(r.value, insts)
  {
    var pre := Preselect(insts, kwargs);
    if pre.Err? then pre else ApplyFilters(pre.value, Filter(kwargs, IsFilterArg))
  }

  /** find(key=k): the instances with that key (one or none), or MultipleInstances
      when the key is repeated. */
  lemma FindOnlyKey(insts: seq<ActiveSymbol>, k: string)
    requires k != "" && k != "all"
    ensures FindSpec(insts, [("key", Str(k))]) ==
            if FindKey(insts, k).Ok? then Ok(Symbols(FindKey(insts, k).value)) else Err(FindKey(insts, k).error)
  {
    var kwargs := [("key", Str(k))];
    assert ValidKwarg(kwargs[0]);
    assert CheckKwargs(kwargs).None?;
    assert Lookup(kwargs, "key") == Some(Str(k));
    assert kwargs[1..] == [];
    assert Filter(kwargs, IsPropArg) == kwargs;
    assert Filter(kwargs, IsFilterArg) == [];
    var f := FindKey(insts, k);
    PreselectByKey(insts, kwargs, k);
    if f.Ok? { assert ApplyFilters(Symbols(f.value), []) == Ok(Symbols(f.value)); }
  }

  lemma FindUniqueKey(insts: seq<ActiveSymbol>, k: string)
    requires k != "" && k != "all" && UniqueKeys(insts, SymbolKey)
    ensures var r := FindSpec(insts, [("key", Str(k))]);
            && r.Ok? && r.value.Symbols? && |r.value.symbols| <= 1
            && (r.value.symbols == [] <==> forall x :: x in insts ==> x.key != k)
            && forall x :: x in r.value.symbols <==> x in insts && x.key == k
  {
    FindOnlyKey(insts, k);
    var f := FindKey(insts, k);
    if f.value != [] { assert f.value[0] in f.value; }
  }

  lemma PreselectByProps(insts: seq<ActiveSymbol>, kwargs: Kwargs)
    requires kwargs != [] && CheckKwargs(kwargs).None? && Lookup(kwargs, "key").None?
    ensures Preselect(insts, kwargs) ==
            Ok(Symbols(SelectByProps(SortByKey(insts, SymbolKey), Filter(kwargs, IsPropArg), RestrictArg(kwargs))))
  {
  }

  lemma PreselectByKey(insts: seq<ActiveSymbol>, kwargs: Kwargs, k: string)
    requires kwargs != [] && CheckKwargs(kwargs).None? && Lookup(kwargs, "key") == Some(Str(k))
    requires forall kv :: kv in Filter(kwargs, IsPropArg) ==> kv.0 == "key"
    ensures Preselect(insts, kwargs) ==
            if FindKey(insts, k).Ok? then Ok(Symbols(FindKey(insts, k).value)) else Err(FindKey(insts, k).error)
  {
    var props := Filter(kwargs, IsPropArg);
    assert !exists i | 0 <= i < |props| :: props[i].0 != "key" by {
      forall i | 0 <= i < |props| ensures props[i].0 == "key" { assert props[i] in props; }
    }
    assert Preselect(insts, kwargs) == KeySearch(insts, props, k);
  }

  /** Keyword arguments that are property names only (no key), with non-empty
      string values other than 'all', and possibly restrict. */
  predicate PlainPropSearch(kwargs: Kwargs)
  {
    forall i :: 0 <= i < |kwargs| ==>
      ((kwargs[i].0 in PropNames && kwargs[i].0 != "key" && kwargs[i].1.Str? && kwargs[i].1.s != "" && kwargs[i].1.s != "all") ||
       (kwargs[i].0 == "restrict" && kwargs[i].1.Bool?))
  }

  lemma PlainPropSearchIsValid(kwargs: Kwargs)
    requires PlainPropSearch(kwargs)
    ensures CheckKwargs(kwargs).None? && Lookup(kwargs, "key").None?
  {
    forall i | 0 <= i < |kwargs| ensures ValidKwarg(kwargs[i]) && kwargs[i].0 != "key" {
      if kwargs[i].0 == "restrict" {
        assert kwargs[i].0 in ResearchNames && kwargs[i].0 !in PropNames;
      }
    }
  }

  lemma PlainPropSearchHasNoFilters(kwargs: Kwargs)
    requires PlainPropSearch(kwargs)
    ensures Filter(kwargs, IsFilterArg) == []
  {
    FilterNonEmpty(kwargs, IsFilterArg);
    forall x | x in kwargs ensures !IsFilterArg(x) {
      var i :| 0 <= i < |kwargs| && kwargs[i] == x;
      NotAFilterName(x.0);
    }
  }

  lemma NotAFilterName(n: string)
    requires n in PropNames || n == "restrict"
    ensures n !in FilterNames
  {
  }

  /** Property arguments combine with AND: find keeps exactly the instances for which
      every property argument matches, sorted by key. */
  lemma FindIsConjunctive(insts: seq<ActiveSymbol>, kwargs: Kwargs)
    requires kwargs != [] && PlainPropSearch(kwargs)
    ensures var r := FindSpec(insts, kwargs);
            var restrict := Lookup(kwargs, "restrict") == Some(Bool(true));
            && r.Ok? && r.value.Symbols? && SortedBy(r.value.symbols, SymbolKey)
            && forall x :: multiset(r.value.symbols)[x] ==
                           if AllPropsMatch(x, Filter(kwargs, IsPropArg), restrict) then multiset(insts)[x] else 0
  {
    PlainPropSearchIsValid(kwargs);
    var restrict := RestrictArg(kwargs);
    assert restrict == (Lookup(kwargs, "restrict") == Some(Bool(true))) by {
      if Lookup(kwargs, "restrict").Some? {
        var v := Lookup(kwargs, "restrict").value;
        var i :| 0 <= i < |kwargs| && kwargs[i] == ("restrict", v);
      }
    }
    PlainPropSearchHasNoFilters(kwargs);
    PreselectByProps(insts, kwargs);
    var sorted := SortByKey(insts, SymbolKey);
    var sel := SelectByProps(sorted, Filter(kwargs, IsPropArg), restrict);
    assert FindSpec(insts, kwargs) == Ok(Symbols(sel));
    assert multiset(sorted) == multiset(insts);
  }

  /** A flag filter compares with Python `==`: find(exchange_is_open=v) and
      find(is_trading_suspended=v) keep the instances whose flag equals v (so an int
      flag 1 matches True, and v=0 matches False). */
  lemma FindByFlag(insts: seq<ActiveSymbol>, name: string, v: Value)
    requires name == "exchange_is_open" || name == "is_trading_suspended"
    requires !BadFlag(v)
    ensures var r := FindSpec(insts, [(name, v)]);
            && r.Ok? && r.value.Symbols? && SortedBy(r.value.symbols, SymbolKey)
            && forall x :: multiset(r.value.symbols)[x] ==
                           if Eq(if name == "exchange_is_open" then x.exchangeIsOpen else x.isTradingSuspended, v)
                           then multiset(insts)[x] else 0
  {
    var kwargs := [(name, v)];
    assert ValidKwarg(kwargs[0]);
    assert CheckKwargs(kwargs).None?;
    assert Lookup(kwargs, "key").None?;
    assert Filter(kwargs, IsPropArg) == [];
    assert Filter(kwargs, IsFilterArg) == kwargs;
    PreselectByProps(insts, kwargs);
    var sorted := SortByKey(insts, SymbolKey);
    assert Preselect(insts, kwargs) == Ok(Symbols(sorted));
    FlagFiltersSelect(sorted, kwargs);
    forall x ensures AllFlagsMatch(x, kwargs) <==> FlagMatches(x, name, v) {
      assert kwargs[0].0 in FilterNames;
    }
  }

  /** A key combined with another property raises before anything is searched. */
  lemma FindKeyWithProperty(insts: seq<ActiveSymbol>, k: string, name: string, v: string)
    requires k != "" && k != "all" && v != "" && v != "all"
    requires name in PropNames && name != "key"
    ensures FindSpec(insts, [("key", Str(k)), (name, Str(v))]) == Err(KeyCombined)
  {
    var kwargs := [("key", Str(k)), (name, Str(v))];
    assert ValidKwarg(kwargs[0]) && ValidKwarg(kwargs[1]);
    assert CheckKwargs(kwargs).None?;
    assert Lookup(kwargs, "key") == Some(Str(k));
    assert kwargs[1..][1..] == [];
    assert Filter(kwargs, IsPropArg) == kwargs;
    PreselectKey(insts, kwargs, k);
    assert 0 <= 1 < |kwargs| && kwargs[1].0 != "key";
  }

  /** find with a property equal to 'all' raises, whatever the registry holds. */
  lemma FindAllRaises(insts: seq<ActiveSymbol>, name: string)
    requires name in PropNames
    ensures FindSpec(insts, [(name, Str("all"))]) == Err(UnboundAllCount)
  {
    var kwargs := [(name, Str("all"))];
    assert IsAllProperty(kwargs[0]);
    assert CheckKwargs(kwargs) == Some(UnboundAllCount);
  }

  lemma PreselectKey(insts: seq<ActiveSymbol>, kwargs: Kwargs, k: string)
    requires kwargs != [] && CheckKwargs(kwargs).None? && Lookup(kwargs, "key") == Some(Str(k))
    ensures Preselect(insts, kwargs) == KeySearch(insts, Filter(kwargs, IsPropArg), k)
  {
  }

  /** find(assets=True, exchange_is_open=True) on a non-empty registry fails: the
      flag filter then reads an attribute of a (symbol, assets) pair. */
  lemma FilterAfterAssetsFails(insts: seq<ActiveSymbol>)
    requires insts != []
    ensures FindSpec(insts, [("assets", Bool(true)), ("exchange_is_open", Bool(true))]) == Err(TupleHasNoAttribute)
  {
    var kwargs := [("assets", Bool(true)), ("exchange_is_open", Bool(true))];
    assert ValidKwarg(kwargs[0]) && ValidKwarg(kwargs[1]);
    assert CheckKwargs(kwargs).None?;
    assert Lookup(kwargs, "key").None?;
    assert Filter(kwargs, IsPropArg) == [];
    assert Filter(kwargs, IsFilterArg) == kwargs;
    PreselectByProps(insts, kwargs);
    var sorted := SortByKey(insts, SymbolKey);
    assert |sorted| == |insts|;
    AssetsThenFlagFails(sorted);
  }

  lemma AssetsThenFlagFails(ss: seq<ActiveSymbol>)
    requires ss != []
    ensures ApplyFilters(Symbols(ss), [("assets", Bool(true)), ("exchange_is_open", Bool(true))]) == Err(TupleHasNoAttribute)
  {
    var filters := [("assets", Bool(true)), ("exchange_is_open", Bool(true))];
    var step := ApplyFilter(Symbols(ss), filters[0]);
    assert step.Ok? && step.value.WithAssets? && |step.value.pairs| == |ss|;
    assert filters[1..] == [filters[1]];
    assert ApplyFilter(step.value, filters[1]) == Err(TupleHasNoAttribute);
  }

  // ---------------------------------------------------------------------
  // The registry `ActiveSymbol._instances`

  /** What `ActiveSymbol.__new__` hands back: the new instance, or the list find
      returned for an existing key. */
  datatype Construction = Created(created: ActiveSymbol) | Found(matches: seq<ActiveSymbol>)

  /** `ActiveSymbol(symbol=..., ...)` against a registry: the error, or the new
      registry and what the constructor returns. */
  function RegisterSymbol(insts: seq<ActiveSymbol>, symbol: Value, displayName: string, assets: seq<Asset>,
                          exchangeIsOpen: Value, isTradingSuspended: Value,
                          market: Option<string>, marketDisplayName: Option<string>,
                          subMarket: Option<string>, submarketDisplayName: Option<string>)
    : (r: Result<(seq<ActiveSymbol>, Construction)>)
    ensures CheckStr(symbol).Err? ==> r == Err(InvalidString)
    ensures UniqueKeys(insts, SymbolKey) ==> (r.Ok? <==> CheckStr(symbol).Ok?)
    ensures UniqueKeys(insts, SymbolKey) && r.Ok? ==>
            var (s, c) := r.value;
            var key := MakeKey(symbol.s, exchangeIsOpen, isTradingSuspended, market, subMarket);
            && UniqueKeys(s, SymbolKey)
            && match c
               case Created(x) =>
                 && s == insts + [x] && x.key == key && x.symbol == symbol.s
                 && x.displayName == displayName
                 && x.exchangeIsOpen == exchangeIsOpen && x.isTradingSuspended == isTradingSuspended
                 && x.market == market && x.marketDisplayName == marketDisplayName
                 && x.subMarket == subMarket && x.submarketDisplayName == submarketDisplayName
                 && SortedBy(x.assets, AssetKey) && multiset(x.assets) == multiset(assets)
                 && forall y :: y in insts ==> y.key != key
               case Found(ms) =>
                 s == insts && |ms| == 1 && ms[0] in insts && ms[0].key == key
  {
    var checked := CheckStr(symbol);
    if checked.Err? then Err(checked.error)
    else
      var key := MakeKey(checked.value, exchangeIsOpen, isTradingSuspended, market, subMarket);
      var found := FindKey(insts, key);
      if found.Err? then Err(found.error)
      else if found.value == [] then
        var x := ActiveSymbol(checked.value, displayName, SortByKey(assets, AssetKey), exchangeIsOpen,
                              isTradingSuspended, market, marketDisplayName, subMarket, submarketDisplayName, key);
        var s := insts + [x];
        assert forall i :: 0 <= i < |insts| ==> s[i] == insts[i] && s[i] in insts;
        Ok((s, Created(x)))
      else
        assert found.value[0] in found.value;
        Ok((insts, Found(found.value)))
  }

  class SymbolRegistry {
    var instances: seq<ActiveSymbol>

    ghost predicate Valid()
      reads this
    {
      UniqueKeys(instances, SymbolKey)
    }

    constructor ()
      ensures Valid() && instances == []
    {
      instances := [];
    }

    /** `ActiveSymbol.clear()` */
    method Clear()
      modifies this
      ensures Valid() && instances == []
    {
      instances := [];
    }

    /** `ActiveSymbol.find(**kwargs)`, with its filter loop. */
    method Find(kwargs: Kwargs) returns (r: Result<FindResult>)
      ensures r == FindSpec(instances, kwargs)
    {
      var pre := Preselect(instances, kwargs);
      if pre.Err? {
        return Err(pre.error);
      }
      var filters := Filter(kwargs, IsFilterArg);
      var current := pre.value;
      var i := 0;
      while i < |filters|
        invariant 0 <= i <= |filters|
        invariant ApplyFilters(current, filters[i..]) == ApplyFilters(pre.value, filters)
      {
        var step := ApplyFilter(current, filters[i]);
        assert filters[i..][1..] == filters[i + 1..];
        if step.Err? {
          return Err(step.error);
        }
        current := step.value;
        i := i + 1;
      }
      return Ok(current);
    }

    /** `ActiveSymbol.__new__` */
    method New(symbol: Value, displayName: string, assets: seq<Asset>,
               exchangeIsOpen: Value, isTradingSuspended: Value,
               market: Option<string>, marketDisplayName: Option<string>,
               subMarket: Option<string>, submarketDisplayName: Option<string>)
      returns (r: Result<Construction>)
      requires Valid()
      modifies this
      ensures Valid()
      ensures var c := RegisterSymbol(old(instances), symbol, displayName, assets, exchangeIsOpen, isTradingSuspended,
                                      market, marketDisplayName, subMarket, submarketDisplayName);
              if c.Err? then r == Err(c.error) && instances == old(instances)
              else r == Ok(c.value.1) && instances == c.value.0
    {
      var checked := CheckStr(symbol);
      if checked.Err? {
        return Err(checked.error);
      }
      var key := MakeKey(checked.value, exchangeIsOpen, isTradingSuspended, market, subMarket);
      var found := Find([("key", Str(key))]);
      FindOnlyKey(instances, key);
      var matches := if found.Ok? && found.value.Symbols? then found.value.symbols else [];
      if matches == [] {
        var x := ActiveSymbol(checked.value, displayName, SortByKey(assets, AssetKey), exchangeIsOpen,
                              isTradingSuspended, market, marketDisplayName, subMarket, submarketDisplayName, key);
        instances := instances + [x];
        r := Ok(Created(x));
      } else {
        r := Ok(Found(matches));
      }
    }
  }

  // ---------------------------------------------------------------------
  // Queries

  predicate Tradeable(x: ActiveSymbol) { Truthy(x.exchangeIsOpen) && !Truthy(x.isTradingSuspended) }

  /** `ActiveSymbol.get_available_symbols()` */
  function GetAvailableSymbols(insts: seq<ActiveSymbol>): (r: seq<ActiveSymbol>)
    ensures SortedBy(r, SymbolKey)
    ensures forall x :: multiset(r)[x] == if Tradeable(x) then multiset(insts)[x] else 0
  {
    SortByKey(Filter(insts, Tradeable), SymbolKey)
  }

  /** `ActiveSymbol.get_assets_by_symbol(symbol)`: each instance with that symbol,
      in registration order, paired with its assets. */
  function GetAssetsBySymbol(insts: seq<ActiveSymbol>, symbol: string): (r: seq<(ActiveSymbol, seq<Asset>)>)
    ensures |r| <= |insts|
    ensures forall p :: p in r ==> p.0 in insts && p.0.symbol == symbol && p.1 == p.0.assets
    ensures forall x :: x in insts && x.symbol == symbol ==> (x, x.assets) in r
  {
    if insts == [] then []
    else
      var rest := GetAssetsBySymbol(insts[1..], symbol);
      assert forall x :: x in insts <==> x == insts[0] || x in insts[1..];
      if insts[0].symbol == symbol then [(insts[0], insts[0].assets)] + rest else rest
  }

  predicate KeyListed(a: Asset, keys: seq<string>) { a.key in keys }

  /** `[asset for asset in inst if asset.key in keys]` */
  function KeepAssets(x: ActiveSymbol, keys: seq<string>): (r: seq<Asset>)
    ensures forall a :: a in r <==> a in x.assets && a.key in keys
    ensures r != [] <==> exists a :: a in x.assets && a.key in keys
    ensures Subsequence(r, x.assets)
  {
    var r := Filter(x.assets, a => KeyListed(a, keys));
    FilterNonEmpty(x.assets, a => KeyListed(a, keys));
    FilterIsSubsequence(x.assets, a => KeyListed(a, keys));
    assert forall a :: a in r <==> a in x.assets && a.key in keys by {
      forall a ensures a in r <==> a in x.assets && a.key in keys {
        assert a in r <==> a in multiset(r);
        assert a in x.assets <==> a in multiset(x.assets);
      }
    }
    r
  }

  predicate HasListedAsset(x: ActiveSymbol, keys: seq<string>) { exists a :: a in x.assets && a.key in keys }

  /** A pair of the comprehension: a symbol with exactly its listed assets, at least one. */
  ghost predicate Joined(p: (ActiveSymbol, seq<Asset>), keys: seq<string>)
  {
    p.1 != [] && forall a :: a in p.1 <==> a in p.0.assets && a.key in keys
  }

  /** The shared comprehension of filter_symbols_by_type and get_symbols_by_duration:
      each instance with at least one asset whose key is listed, with those assets. */
  function JoinByKeys(insts: seq<ActiveSymbol>, keys: seq<string>): (r: seq<(ActiveSymbol, seq<Asset>)>)
    ensures forall p :: p in r ==> p.0 in insts && Joined(p, keys)
    ensures forall x :: x in insts && HasListedAsset(x, keys) ==> (x, KeepAssets(x, keys)) in r
    ensures keys == [] ==> r == []
  {
    if insts == [] then []
    else
      var rest := JoinByKeys(insts[1..], keys);
      var kept := KeepAssets(insts[0], keys);
      if kept != [] then [(insts[0], kept)] + rest else rest
  }

  function KeysOf(assets: seq<Asset>): (keys: seq<string>)
    ensures forall k :: k in keys <==> exists a :: a in assets && a.key == k
  {
    var keys := seq(|assets|, i requires 0 <= i < |assets| => assets[i].key);
    assert forall k :: k in keys <==> exists a :: a in assets && a.key == k by {
      forall k ensures k in keys <==> exists a :: a in assets && a.key == k {
        if k in keys {
          var i :| 0 <= i < |keys| && keys[i] == k;
          assert assets[i] in assets;
        }
        if exists a :: a in assets && a.key == k {
          var a :| a in assets && a.key == k;
          var i :| 0 <= i < |assets| && assets[i] == a;
          assert keys[i] == k;
        }
      }
    }
    keys
  }

  /** `ActiveSymbol.filter_symbols_by_type(contract_type, restrict)` */
  function FilterSymbolsByType(assetInsts: seq<Asset>, insts: seq<ActiveSymbol>, contractType: string, restrict: bool)
    : (r: seq<(ActiveSymbol, seq<Asset>)>)
    ensures forall p :: p in r ==> p.0 in insts && p.1 != []
  {
    JoinByKeys(insts, KeysOf(GetByModality(assetInsts, contractType, restrict)))
  }

  /** `ActiveSymbol.get_symbols_by_duration(digit, unit, fit_in_units)` */
  function GetSymbolsByDuration(assetInsts: seq<Asset>, insts: seq<ActiveSymbol>, digit: Option<string>, unit: Option<string>,
                                fitInUnits: bool): (r: Result<seq<(ActiveSymbol, seq<Asset>)>>)
    ensures r.Err? <==> GetInfoDuration(digit, unit).Err?
    ensures digit.None? && unit.None? ==> r == Ok([])
    ensures r.Ok? ==> forall p :: p in r.value ==> p.0 in insts && p.1 != []
  {
    var assets := GetByDuration(assetInsts, digit, unit, fitInUnits);
    if assets.Err? then Err(assets.error) else Ok(JoinByKeys(insts, KeysOf(assets.value)))
  }

  /** Every symbol's assets are registered assets, in a registry without repeated keys. */
  ghost predicate AssetsRegistered(assetInsts: seq<Asset>, insts: seq<ActiveSymbol>)
  {
    UniqueKeys(assetInsts, AssetKey) && forall x, a :: x in insts && a in x.assets ==> a in assetInsts
  }

  /** Joining through keys selects assets themselves: with registered assets, a
      listed key stands for exactly the registered asset that carries it. */
  lemma KeyListedIsSelected(assetInsts: seq<Asset>, selected: seq<Asset>, a: Asset)
    requires UniqueKeys(assetInsts, AssetKey) && a in assetInsts
    requires forall b :: b in selected ==> b in assetInsts
    ensures a.key in KeysOf(selected) <==> a in selected
  {
    if a.key in KeysOf(selected) {
      var b :| b in selected && b.key == a.key;
      var i :| 0 <= i < |assetInsts| && assetInsts[i] == a;
      var j :| 0 <= j < |assetInsts| && assetInsts[j] == b;
      assert i == j;
    }
  }

  /** Joining the symbols with the keys of a selection of registered assets keeps,
      for each symbol, exactly its selected assets, and keeps every symbol that has one. */
  lemma JoinSelects(assetInsts: seq<Asset>, insts: seq<ActiveSymbol>, selected: seq<Asset>, sel: Asset -> bool)
    requires AssetsRegistered(assetInsts, insts)
    requires forall b :: b in selected <==> b in assetInsts && sel(b)
    ensures var r := JoinByKeys(insts, KeysOf(selected));
            && (forall p, a :: p in r ==> (a in p.1 <==> a in p.0.assets && sel(a)))
            && (forall x, a :: x in insts && a in x.assets && sel(a) ==> exists p :: p in r && p.0 == x && a in p.1)
  {
    var keys := KeysOf(selected);
    var r := JoinByKeys(insts, keys);
    forall x, a | x in insts && a in x.assets
      ensures a.key in keys <==> sel(a)
    {
      KeyListedIsSelected(assetInsts, selected, a);
    }
    forall p, a | p in r ensures a in p.1 <==> a in p.0.assets && sel(a) {
      assert Joined(p, keys);
    }
    forall x, a | x in insts && a in x.assets && sel(a)
      ensures exists p :: p in r && p.0 == x && a in p.1
    {
      assert HasListedAsset(x, keys);
      assert (x, KeepAssets(x, keys)) in r;
    }
  }

  /** filter_symbols_by_type keeps exactly the symbols with an asset of that modality,
      each with exactly those assets. */
  lemma FilterSymbolsByTypeSelects(assetInsts: seq<Asset>, insts: seq<ActiveSymbol>, contractType: string, restrict: bool)
    requires AssetsRegistered(assetInsts, insts)
    ensures var r := FilterSymbolsByType(assetInsts, insts, contractType, restrict);
            && (forall p, a :: p in r ==> (a in p.1 <==> a in p.0.assets && ModalityMatches(a, contractType, restrict)))
            && (forall x, a :: x in insts && a in x.assets && ModalityMatches(a, contractType, restrict) ==>
                  exists p :: p in r && p.0 == x && a in p.1)
  {
    var selected := GetByModality(assetInsts, contractType, restrict);
    forall b ensures b in selected <==> b in assetInsts && ModalityMatches(b, contractType, restrict) {
      assert b in selected <==> b in multiset(selected);
      assert b in assetInsts <==> b in multiset(assetInsts);
    }
    JoinSelects(assetInsts, insts, selected, b => ModalityMatches(b, contractType, restrict));
  }

  /** get_symbols_by_duration keeps exactly the symbols with an asset whose range the
      duration fits, each with exactly those assets. */
  lemma GetSymbolsByDurationSelects(assetInsts: seq<Asset>, insts: seq<ActiveSymbol>, digit: string, unit: string, fitInUnits: bool)
    requires AssetsRegistered(assetInsts, insts)
    requires ValidToken(digit, unit)
    ensures var r := GetSymbolsByDuration(assetInsts, insts, Some(digit), Some(unit), fitInUnits);
            var d := MakeInfo(digit, unit);
            && r.Ok?
            && (forall p, a :: p in r.value ==> (a in p.1 <==> a in p.0.assets && Fits(a, d, fitInUnits)))
            && (forall x, a :: x in insts && a in x.assets && Fits(a, d, fitInUnits) ==>
                  exists p :: p in r.value && p.0 == x && a in p.1)
  {
    var d := MakeInfo(digit, unit);
    var selected := GetByDuration(assetInsts, Some(digit), Some(unit), fitInUnits).value;
    forall b ensures b in selected <==> b in assetInsts && Fits(b, d, fitInUnits) {
      assert b in selected <==> b in multiset(selected);
      assert b in assetInsts <==> b in multiset(assetInsts);
    }
    JoinSelects(assetInsts, insts, selected, b => Fits(b, d, fitInUnits));
  }
}
