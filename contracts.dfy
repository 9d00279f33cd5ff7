/** deriv/contract.py: the `Contract` registry of contract types and names, the
    market status aggregation and instrument filter of `fetch_instruments`, and
    `format_contract_details`. */
module Contracts {
  import opened Wrappers
  import opened Values
  import opened Sequences
  import opened Durations

  // ---------------------------------------------------------------------
  // Contract._contracts_info

  /** `_contracts_info`: each contract type's set of names, with the types in
      insertion order. */
  datatype ContractsInfo = ContractsInfo(info: map<string, set<string>>, types: seq<string>)

  /** The registry's invariant: the listed types are the dict's keys, once each, and
      no name belongs to two types. */
  ghost predicate InfoValid(c: ContractsInfo)
  {
    && (forall t :: t in c.info <==> t in c.types)
    && (forall i, j :: 0 <= i < j < |c.types| ==> c.types[i] != c.types[j])
    && (forall t1, t2, n :: t1 in c.info && t2 in c.info && n in c.info[t1] && n in c.info[t2] ==> t1 == t2)
  }

  predicate TakenElsewhere(c: ContractsInfo, contractType: string, contractName: string)
  {
    exists t :: t in c.info && t != contractType && contractName in c.info[t]
  }

  /** `Contract.add_contracts(contract_type, contract_name)` on the registry's value. */
  function AddContractsSpec(c: ContractsInfo, contractType: string, contractName: string): (r: Result<ContractsInfo>)
    ensures r.Err? <==> TakenElsewhere(c, contractType, contractName)
    ensures r.Err? ==> r.error == NameTaken
    ensures r.Ok? ==>
            && contractType in r.value.info && contractName in r.value.info[contractType]
            && (forall t :: t in r.value.info <==> t in c.info || t == contractType)
            && (forall t :: t in c.info && t != contractType ==> r.value.info[t] == c.info[t])
            && (contractType in c.info ==> r.value.info[contractType] == c.info[contractType] + {contractName})
            && (contractType !in c.info ==> r.value.info[contractType] == {contractName})
            && (r.value.types == c.types + if contractType in c.info then [] else [contractType])
    ensures r.Ok? && InfoValid(c) ==> InfoValid(r.value)
  {
    if TakenElsewhere(c, contractType, contractName) then Err(NameTaken)
    else if contractType in c.info then
      Ok(c.(info := c.info[contractType := c.info[contractType] + {contractName}]))
    else
      var r := ContractsInfo(c.info[contractType := {contractName}], c.types + [contractType]);
      assert InfoValid(c) ==> forall t :: t in r.info <==> t in r.types;
      Ok(r)
  }

  /** Adding a pair that is already there changes nothing; adding one twice is
      adding it once. */
  lemma AddContractsIdempotent(c: ContractsInfo, contractType: string, contractName: string)
    requires AddContractsSpec(c, contractType, contractName).Ok?
    ensures var c' := AddContractsSpec(c, contractType, contractName).value;
            AddContractsSpec(c', contractType, contractName) == Ok(c')
  {
    var c' := AddContractsSpec(c, contractType, contractName).value;
    assert !TakenElsewhere(c', contractType, contractName);
    assert c'.info[contractType] + {contractName} == c'.info[contractType];
    assert c'.info[contractType := c'.info[contractType] + {contractName}] == c'.info;
  }

  /** The first listed type holding the name (`get_type_by_name`'s loop). */
  function TypeByName(info: map<string, set<string>>, types: seq<string>, contractName: string): (r: Option<string>)
    ensures r.Some? ==> r.value in types && r.value in info && contractName in info[r.value]
    ensures r.None? <==> forall t :: t in types && t in info ==> contractName !in info[t]
    ensures r.Some? ==> exists i :: 0 <= i < |types| && types[i] == r.value &&
                                    forall j :: 0 <= j < i ==> !(types[j] in info && contractName in info[types[j]])
  {
    if types == [] then None
    else if types[0] in info && contractName in info[types[0]] then Some(types[0])
    else
      var r := TypeByName(info, types[1..], contractName);
      assert forall j :: 1 <= j < |types| ==> types[j] == types[1..][j - 1];
      r
  }

  /** In a valid registry a name has at most one type, and get_type_by_name finds it. */
  lemma TypeByNameIsUnique(c: ContractsInfo, contractName: string, t: string)
    requires InfoValid(c) && t in c.info && contractName in c.info[t]
    ensures TypeByName(c.info, c.types, contractName) == Some(t)
  {
  }

  datatype Contract = Contract(contractType: string, contractName: string)

  predicate Registered(c: ContractsInfo, x: Contract)
  {
    x.contractType in c.info && x.contractName in c.info[x.contractType]
  }

  predicate OfType(x: Contract, contractType: string) { x.contractType == contractType }

  /** The first instance with the name (`get_contract_by_name`'s loop). */
  function FirstNamed(contracts: seq<Contract>, contractName: string): (r: Option<Contract>)
    ensures r.Some? ==> exists i :: 0 <= i < |contracts| && contracts[i] == r.value && r.value.contractName == contractName &&
                                    forall j :: 0 <= j < i ==> contracts[j].contractName != contractName
    ensures r.None? <==> forall x :: x in contracts ==> x.contractName != contractName
  {
    if contracts == [] then None
    else if contracts[0].contractName == contractName then Some(contracts[0])
    else
      var r := FirstNamed(contracts[1..], contractName);
      assert forall j :: 1 <= j < |contracts| ==> contracts[j] == contracts[1..][j - 1];
      assert forall x :: x in contracts <==> x == contracts[0] || x in contracts[1..];
      r
  }

  /** `Contract` and its class-level state. */
  class ContractRegistry {
    var info: map<string, set<string>>
    var types: seq<string>
    var contracts: seq<Contract>

    function Info(): ContractsInfo
      reads this
    {
      ContractsInfo(info, types)
    }

    /** Names are unique across types, and every instance is a registered pair. */
    ghost predicate Valid()
      reads this
    {
      InfoValid(Info()) && forall x :: x in contracts ==> Registered(Info(), x)
    }

    constructor ()
      ensures Valid() && info == map[] && types == [] && contracts == []
    {
      info := map[];
      types := [];
      contracts := [];
    }

    /** `Contract.add_contracts(contract_type, contract_name)` */
    method AddContracts(contractType: string, contractName: string) returns (raised: Option<Error>)
      requires Valid()
      modifies this
      ensures Valid() && contracts == old(contracts)
      ensures var r := AddContractsSpec(old(Info()), contractType, contractName);
              if r.Err? then raised == Some(r.error) && Info() == old(Info())
              else raised == None && Info() == r.value
    {
      var i := 0;
      while i < |types|
        invariant 0 <= i <= |types|
        invariant forall j :: 0 <= j < i ==> !(contractName in info[types[j]] && types[j] != contractType)
      {
        if contractName in info[types[i]] && types[i] != contractType {
          return Some(NameTaken);
        }
        i := i + 1;
      }
      assert !TakenElsewhere(Info(), contractType, contractName) by {
        forall t | t in info && t != contractType ensures contractName !in info[t] {
          var j :| 0 <= j < |types| && types[j] == t;
        }
      }
      ghost var spec := AddContractsSpec(Info(), contractType, contractName).value;
      if contractType !in info {
        info := info[contractType := {}];
        types := types + [contractType];
      }
      assert contractType !in old(info) ==> info[contractType] + {contractName} == {contractName};
      info := info[contractType := info[contractType] + {contractName}];
      raised := None;
      assert info == spec.info && types == spec.types;
      forall x | x in contracts ensures Registered(Info(), x) {
        assert Registered(old(Info()), x);
      }
    }

    /** `Contract(contract_type, contract_name)` */
    method NewContract(contractType: string, contractName: string) returns (r: Result<Contract>)
      requires Valid()
      modifies this
      ensures Valid() && Info() == old(Info())
      ensures r.Err? <==> !Registered(Info(), Contract(contractType, contractName))
      ensures r.Err? ==> r.error == InvalidContract && contracts == old(contracts)
      ensures r.Ok? ==> r.value == Contract(contractType, contractName) && contracts == old(contracts) + [r.value]
    {
      if contractType !in info || contractName !in info[contractType] {
        return Err(InvalidContract);
      }
      var x := Contract(contractType, contractName);
      contracts := contracts + [x];
      return Ok(x);
    }

    /** `Contract.get_types()` */
    function GetTypes(): (r: seq<string>)
      reads this
      ensures Valid() ==> (forall t :: t in r <==> t in info) && forall i, j :: 0 <= i < j < |r| ==> r[i] != r[j]
    {
      types
    }

    /** `Contract.get_names()`, as a set: the order of a set's iteration is not modelled. */
    function GetNames(): (r: set<string>)
      reads this
      ensures forall n :: n in r <==> exists t :: t in info && n in info[t]
    {
      set t, n | t in info && n in info[t] :: n
    }

    /** `Contract.get_type_by_name(contract_name)`; None for False. */
    function GetTypeByName(contractName: string): (r: Option<string>)
      reads this
      ensures Valid() ==> (r.None? <==> forall t :: t in info ==> contractName !in info[t])
      ensures Valid() && r.Some? ==> r.value in info && contractName in info[r.value] &&
                                     forall t :: t in info && contractName in info[t] ==> t == r.value
    {
      TypeByName(info, types, contractName)
    }

    /** `Contract.get_names_by_type(contract_type)`; None for False. */
    function GetNamesByType(contractType: string): (r: Option<set<string>>)
      reads this
      ensures r.None? <==> contractType !in info
      ensures Valid() && r.Some? ==> forall n :: n in r.value ==> GetTypeByName(n) == Some(contractType)
      ensures Valid() && r.Some? ==> forall n :: GetTypeByName(n) == Some(contractType) ==> n in r.value
    {
      if contractType in info then Some(info[contractType]) else None
    }

    /** `Contract.get_contract_by_name(contract_name)`; None for False. */
    function GetContractByName(contractName: string): (r: Option<Contract>)
      reads this
      ensures r.None? <==> forall x :: x in contracts ==> x.contractName != contractName
      ensures r.Some? ==> r.value in contracts && r.value.contractName == contractName
      ensures Valid() && r.Some? ==> GetTypeByName(contractName) == Some(r.value.contractType)
    {
      var r := FirstNamed(contracts, contractName);
      assert r.Some? ==> r.value in contracts;
      r
    }

    /** `Contract.get_contracts_by_type(contract_type)`; None for False. */
    function GetContractsByType(contractType: string): (r: Option<seq<Contract>>)
      reads this
      ensures r.None? <==> contractType !in info
      ensures r.Some? ==> forall x :: multiset(r.value)[x] == if x.contractType == contractType then multiset(contracts)[x] else 0
      ensures r.Some? ==> Subsequence(r.value, contracts)
    {
      if contractType !in info then None
      else
        FilterIsSubsequence(contracts, x => OfType(x, contractType));
        Some(Filter(contracts, x => OfType(x, contractType)))
    }

    /** `Contract.get_contracts_same_type_by_name(contract_name)`; None for False,
        which a falsy ("") type also gives. */
    function GetContractsSameTypeByName(contractName: string): (r: Option<seq<Contract>>)
      reads this
      ensures var t := GetTypeByName(contractName);
              r.None? <==> t.None? || t.value == ""
      ensures r.Some? ==> forall x :: x in r.value ==> x in contracts && GetTypeByName(contractName) == Some(x.contractType)
    {
      var t := GetTypeByName(contractName);
      if t.None? || t.value == "" then None else Some(Filter(contracts, x => OfType(x, t.value)))
    }
  }

  /** In a valid registry the instances sharing a name's type are the instances of
      that type, and each carries a name of that same type. */
  lemma SameTypeByNameIsByType(reg: ContractRegistry, contractName: string)
    requires reg.Valid()
    requires reg.GetContractsSameTypeByName(contractName).Some?
    ensures var t := reg.GetTypeByName(contractName).value;
            && reg.GetContractsSameTypeByName(contractName) == reg.GetContractsByType(t)
            && forall x :: x in reg.GetContractsSameTypeByName(contractName).value ==>
                 reg.GetTypeByName(x.contractName) == Some(t)
  {
    var t := reg.GetTypeByName(contractName).value;
    forall x | x in reg.GetContractsSameTypeByName(contractName).value
      ensures reg.GetTypeByName(x.contractName) == Some(t)
    {
      assert x in reg.contracts && Registered(reg.Info(), x);
    }
  }

  // ---------------------------------------------------------------------
  // Contracts.fetch_instruments, on a given `active_symbols` response

  /** One instrument of the response; an absent field is None. */
  datatype Instrument = Instrument(symbol: Option<string>, market: Option<string>, submarket: Option<string>, open: Option<Value>)

  datatype Status = Open | Close

  /** A value of `available_markets`: its status and its submarkets' statuses. */
  datatype MarketEntry = MarketEntry(status: Status, submarkets: map<string, Status>)

  /** `symbol.get("open", 0) == 1` */
  predicate IsOpen(x: Instrument)
  {
    Eq(if x.open.Some? then x.open.value else Int(0), Int(1))
  }

  /** Both market and submarket are truthy, so the instrument is aggregated. */
  predicate InMarket(x: Instrument, market: string)
  {
    x.market == Some(market) && market != "" && x.submarket.Some? && x.submarket.value != ""
  }

  predicate InSubmarket(x: Instrument, market: string, submarket: string)
  {
    InMarket(x, market) && x.submarket == Some(submarket)
  }

  /** One iteration of the aggregation loop. */
  function AggregateStep(m: map<string, MarketEntry>, x: Instrument): map<string, MarketEntry>
  {
    if x.market.Some? && x.market.value != "" && x.submarket.Some? && x.submarket.value != "" then
      var mk, sub := x.market.value, x.submarket.value;
      var e := if mk in m then m[mk] else MarketEntry(Close, map[]);
      var e' := if sub in e.submarkets then e else e.(submarkets := e.submarkets[sub := Close]);
      var e'' := if IsOpen(x) then MarketEntry(Open, e'.submarkets[sub := Open]) else e';
      m[mk := e'']
    else m
  }

  /** An iteration gives the instrument's market and submarket an entry, starting
      as "close", which turns "open" if the instrument is open; nothing else changes. */
  lemma AggregateStepEffect(m: map<string, MarketEntry>, x: Instrument)
    ensures forall mk :: mk in AggregateStep(m, x) <==> mk in m || InMarket(x, mk)
    ensures forall mk, sub :: mk in AggregateStep(m, x) ==>
              (sub in AggregateStep(m, x)[mk].submarkets <==> (mk in m && sub in m[mk].submarkets) || InSubmarket(x, mk, sub))
    ensures forall mk :: mk in AggregateStep(m, x) ==>
              (AggregateStep(m, x)[mk].status == Open <==> (mk in m && m[mk].status == Open) || (InMarket(x, mk) && IsOpen(x)))
    ensures forall mk, sub :: mk in AggregateStep(m, x) && sub in AggregateStep(m, x)[mk].submarkets ==>
              (AggregateStep(m, x)[mk].submarkets[sub] == Open <==>
                 (mk in m && sub in m[mk].submarkets && m[mk].submarkets[sub] == Open) || (InSubmarket(x, mk, sub) && IsOpen(x)))
  {
  }

  /** `available_markets` after the aggregation loop over `s`. */
  function Aggregate(s: seq<Instrument>): map<string, MarketEntry>
  {
    if s == [] then map[] else AggregateStep(Aggregate(s[..|s| - 1]), s[|s| - 1])
  }

  /** The aggregation makes entries exactly for the markets and submarkets of the
      instruments whose market and submarket are both truthy. */
  lemma {:induction false} AggregateEntries(s: seq<Instrument>)
    ensures forall mk :: mk in Aggregate(s) <==> exists x :: x in s && InMarket(x, mk)
    ensures forall mk, sub :: mk in Aggregate(s) ==>
              (sub in Aggregate(s)[mk].submarkets <==> exists x :: x in s && InSubmarket(x, mk, sub))
  {
    if s != [] {
      var init, last := s[..|s| - 1], s[|s| - 1];
      AggregateEntries(init);
      assert forall x :: x in s <==> x in init || x == last by {
        assert s == init + [last];
      }
      var prev, r := Aggregate(init), Aggregate(s);
      AggregateStepEffect(prev, last);
      forall mk ensures mk in r <==> exists x :: x in s && InMarket(x, mk) {
        if mk in prev { var x :| x in init && InMarket(x, mk); assert x in s; }
        if InMarket(last, mk) { assert last in s; }
      }
      forall mk, sub | mk in r ensures sub in r[mk].submarkets <==> exists x :: x in s && InSubmarket(x, mk, sub) {
        if mk in prev && sub in prev[mk].submarkets { var x :| x in init && InSubmarket(x, mk, sub); assert x in s; }
        if InSubmarket(last, mk, sub) { assert last in s; }
        if exists x :: x in s && InSubmarket(x, mk, sub) {
          var x :| x in s && InSubmarket(x, mk, sub);
          if x in init { assert mk in prev; }
        }
      }
    }
  }

  /** A market or submarket is open exactly when one of its instruments is open. */
  lemma {:induction false} AggregateStatus(s: seq<Instrument>)
    ensures forall mk :: mk in Aggregate(s) ==>
              (Aggregate(s)[mk].status == Open <==> exists x :: x in s && InMarket(x, mk) && IsOpen(x))
    ensures forall mk, sub :: mk in Aggregate(s) && sub in Aggregate(s)[mk].submarkets ==>
              (Aggregate(s)[mk].submarkets[sub] == Open <==> exists x :: x in s && InSubmarket(x, mk, sub) && IsOpen(x))
  {
    if s != [] {
      var init, last := s[..|s| - 1], s[|s| - 1];
      AggregateStatus(init);
      AggregateEntries(init);
      assert forall x :: x in s <==> x in init || x == last by {
        assert s == init + [last];
      }
      AggregateStepEffect(Aggregate(init), last);
    }
  }

  /** Whether an instrument passes the market and submarket filters that were given. */
  predicate Selected(x: Instrument, market: Option<string>, submarket: Option<string>)
  {
    (Falsy(market) || x.market == market) && (Falsy(submarket) || x.submarket == submarket)
  }

  function SelectedBy(market: Option<string>, submarket: Option<string>): Instrument -> bool
  {
    x => Selected(x, market, submarket)
  }

  function SymbolsOf(s: seq<Instrument>): (r: seq<string>)
    requires forall x :: x in s ==> x.symbol.Some?
    ensures |r| == |s| && forall i :: 0 <= i < |s| ==> r[i] == s[i].symbol.value
  {
    if s == [] then [] else [s[0].symbol.value] + SymbolsOf(s[1..])
  }

  /** `r` with `prefix` in front when it holds a list. */
  function Prepend(prefix: seq<string>, r: Result<seq<string>>): Result<seq<string>>
  {
    if r.Err? then r else Ok(prefix + r.value)
  }

  lemma PrependParts(a: seq<string>, b: seq<string>, r: Result<seq<string>>)
    ensures Prepend([], r) == r
    ensures Prepend(a, Prepend(b, r)) == Prepend(a + b, r)
  {
    if r.Ok? {
      assert [] + r.value == r.value;
      assert a + (b + r.value) == (a + b) + r.value;
    }
  }

  /** The filter loop: the symbols of the selected instruments in order, or the
      KeyError of the first selected instrument without a symbol. */
  function FilterSymbols(s: seq<Instrument>, market: Option<string>, submarket: Option<string>): (r: Result<seq<string>>)
    ensures r.Ok? <==> forall x :: x in s && Selected(x, market, submarket) ==> x.symbol.Some?
    ensures r.Err? ==> r.error == MissingSymbolField
  {
    if s == [] then Ok([])
    else
      assert forall x :: x in s <==> x == s[0] || x in s[1..];
      if !Selected(s[0], market, submarket) then FilterSymbols(s[1..], market, submarket)
      else if s[0].symbol.None? then Err(MissingSymbolField)
      else Prepend([s[0].symbol.value], FilterSymbols(s[1..], market, submarket))
  }

  /** What the filter returns is exactly the symbols of the instruments matching the
      filters that were given, in input order. */
  lemma {:induction false} FilterSymbolsSelects(s: seq<Instrument>, market: Option<string>, submarket: Option<string>)
    requires FilterSymbols(s, market, submarket).Ok?
    ensures var kept := Filter(s, SelectedBy(market, submarket));
            (forall x :: x in kept ==> x.symbol.Some?) && FilterSymbols(s, market, submarket).value == SymbolsOf(kept)
  {
    if s != [] {
      assert forall x :: x in s <==> x == s[0] || x in s[1..];
      FilterSymbolsSelects(s[1..], market, submarket);
      var kept := Filter(s, SelectedBy(market, submarket));
      var rest := Filter(s[1..], SelectedBy(market, submarket));
      if Selected(s[0], market, submarket) {
        assert kept == [s[0]] + rest;
        assert kept[1..] == rest;
      }
    }
  }

  /** With neither filter given, every instrument's symbol is returned in order. */
  lemma UnfilteredListsEverySymbol(s: seq<Instrument>)
    requires forall x :: x in s ==> x.symbol.Some?
    ensures FilterSymbols(s, None, None) == Ok(SymbolsOf(s))
  {
    FilterSymbolsSelects(s, None, None);
    FilterAll(s, SelectedBy(None, None));
  }

  lemma {:induction false} FilterAll(s: seq<Instrument>, p: Instrument -> bool)
    requires forall x :: x in s ==> p(x)
    ensures Filter(s, p) == s
  {
    if s != [] {
      assert forall x :: x in s[1..] ==> x in s;
      FilterAll(s[1..], p);
    }
  }

  /** The instance side of `Contracts`: `available_markets`. */
  class Instruments {
    var availableMarkets: map<string, MarketEntry>

    constructor ()
      ensures availableMarkets == map[]
    {
      availableMarkets := map[];
    }

    /** `Contracts.fetch_instruments(market, submarket)` on the response's instruments;
        `alive` stands for the connection's liveness. */
    method FetchInstruments(alive: bool, instruments: seq<Instrument>, market: Option<string>, submarket: Option<string>)
      returns (r: Result<seq<string>>)
      modifies this
      ensures !alive ==> r == Err(ConnectionDown) && availableMarkets == old(availableMarkets)
      ensures alive ==> availableMarkets == Aggregate(instruments) && r == FilterSymbols(instruments, market, submarket)
    {
      if !alive {
        return Err(ConnectionDown);
      }
      AggregateMarkets(instruments);
      r := SelectSymbols(instruments, market, submarket);
    }

    /** The aggregation loop of fetch_instruments, which rebuilds `available_markets`. */
    method AggregateMarkets(instruments: seq<Instrument>)
      modifies this
      ensures availableMarkets == Aggregate(instruments)
    {
      availableMarkets := map[];
      var i := 0;
      while i < |instruments|
        invariant 0 <= i <= |instruments|
        invariant availableMarkets == Aggregate(instruments[..i])
      {
        var x := instruments[i];
        assert instruments[..i + 1][..i] == instruments[..i];
        ghost var before := availableMarkets;
        var mk, sub := x.market, x.submarket;
        if mk.Some? && mk.value != "" && sub.Some? && sub.value != "" {
          if mk.value !in availableMarkets {
            availableMarkets := availableMarkets[mk.value := MarketEntry(Close, map[])];
          }
          if sub.value !in availableMarkets[mk.value].submarkets {
            var e := availableMarkets[mk.value];
            availableMarkets := availableMarkets[mk.value := e.(submarkets := e.submarkets[sub.value := Close])];
          }
          if IsOpen(x) {
            var e := availableMarkets[mk.value];
            availableMarkets := availableMarkets[mk.value := MarketEntry(Open, e.submarkets[sub.value := Open])];
          }
        }
        assert availableMarkets == AggregateStep(before, x);
        i := i + 1;
      }
      assert instruments[..i] == instruments;
    }

    /** The filter loop of fetch_instruments: the symbols of the selected
        instruments, or a KeyError at the first selected one without a symbol. */
    static method SelectSymbols(instruments: seq<Instrument>, market: Option<string>, submarket: Option<string>)
      returns (r: Result<seq<string>>)
      ensures r == FilterSymbols(instruments, market, submarket)
    {
      var filtered: seq<string> := [];
      var j := 0;
      assert instruments[0..] == instruments;
      PrependParts([], [], FilterSymbols(instruments, market, submarket));
      while j < |instruments|
        invariant 0 <= j <= |instruments|
        invariant FilterSymbols(instruments, market, submarket) == Prepend(filtered, FilterSymbols(instruments[j..], market, submarket))
      {
        var x := instruments[j];
        assert instruments[j..][1..] == instruments[j + 1..];
        if !Falsy(market) && x.market != market {
          j := j + 1;
          continue;
        }
        if !Falsy(submarket) && x.submarket != submarket {
          j := j + 1;
          continue;
        }
        if x.symbol.None? {
          return Err(MissingSymbolField);
        }
        ghost var rest := FilterSymbols(instruments[j + 1..], market, submarket);
        PrependParts(filtered, [x.symbol.value], rest);
        filtered := filtered + [x.symbol.value];
        j := j + 1;
      }
      assert instruments[j..] == [] && filtered + [] == filtered;
      return Ok(filtered);
    }
  }

  // ---------------------------------------------------------------------
  // Contracts.format_contract_details

  /** One entry of `contracts_for["available"]`; an absent field is None. */
  datatype Offer = Offer(contractType: Option<Value>, contractDisplay: Option<Value>, defaultStake: Option<Value>,
                         minDuration: Option<Value>, maxDuration: Option<Value>,
                         sentiment: Option<Value>, barriers: Option<Value>)

  /** The argument: a list, or anything else. */
  datatype Payload = ListOf(items: seq<Offer>) | NotAList

  datatype Details = Details(display: Value, stake: Value, duration: string, sentiment: Value, barriers: Value)

  /** `d.get(field, default)` */
  function GetOr(v: Option<Value>, default: Value): Value
  {
    if v.Some? then v.value else default
  }

  function TypeOf(o: Offer): Value { GetOr(o.contractType, Str("unknown")) }

  /** The value stored for one entry, with the defaults "N/A" and 0 and the duration
      text "<min> a <max>". */
  function DetailsOf(o: Offer): (d: Details)
    ensures o.contractDisplay.None? ==> d.display == Str("N/A")
    ensures o.defaultStake.None? ==> d.stake == Int(0)
    ensures o.sentiment.None? ==> d.sentiment == Str("N/A")
    ensures o.barriers.None? ==> d.barriers == Str("N/A")
    ensures o.contractDisplay.Some? ==> d.display == o.contractDisplay.value
    ensures o.defaultStake.Some? ==> d.stake == o.defaultStake.value
    ensures o.sentiment.Some? ==> d.sentiment == o.sentiment.value
    ensures o.barriers.Some? ==> d.barriers == o.barriers.value
    ensures o.minDuration.None? && o.maxDuration.None? ==> d.duration == "N/A a N/A"
    ensures o.minDuration.Some? && o.maxDuration.Some? ==>
            d.duration == Repr(o.minDuration.value) + " a " + Repr(o.maxDuration.value)
    ensures o.minDuration.Some? && o.maxDuration.None? ==> d.duration == Repr(o.minDuration.value) + " a N/A"
    ensures o.minDuration.None? && o.maxDuration.Some? ==> d.duration == "N/A a " + Repr(o.maxDuration.value)
  {
    Details(GetOr(o.contractDisplay, Str("N/A")), GetOr(o.defaultStake, Int(0)),
            Repr(GetOr(o.minDuration, Str("N/A"))) + " a " + Repr(GetOr(o.maxDuration, Str("N/A"))),
            GetOr(o.sentiment, Str("N/A")), GetOr(o.barriers, Str("N/A")))
  }

  /** The last entry of a contract type. */
  function LastOfType(items: seq<Offer>, t: Value): (r: Option<Offer>)
    ensures r.Some? ==> r.value in items && TypeOf(r.value) == t
    ensures r.None? <==> forall o :: o in items ==> TypeOf(o) != t
  {
    if items == [] then None
    else
      var last := items[|items| - 1];
      assert forall o :: o in items <==> o in items[..|items| - 1] || o == last;
      if TypeOf(last) == t then Some(last) else LastOfType(items[..|items| - 1], t)
  }

  /** The dict the loop fills: one key per contract type, holding the details of the
      LAST entry of that type. */
  function Format(items: seq<Offer>): (r: map<Value, Details>)
    ensures forall t :: t in r <==> exists o :: o in items && TypeOf(o) == t
    ensures forall t :: t in r ==> r[t] == DetailsOf(LastOfType(items, t).value)
  {
    if items == [] then map[]
    else
      var last := items[|items| - 1];
      assert forall o :: o in items <==> o in items[..|items| - 1] || o == last;
      Format(items[..|items| - 1])[TypeOf(last) := DetailsOf(last)]
  }

  /** `Contracts.format_contract_details(contracts)`: {} for a non-list. */
  method FormatContractDetails(payload: Payload) returns (formatted: map<Value, Details>)
    ensures payload.NotAList? ==> formatted == map[]
    ensures payload.ListOf? ==> formatted == Format(payload.items)
  {
    formatted := map[];
    if payload.NotAList? {
      return;
    }
    var items := payload.items;
    var i := 0;
    while i < |items|
      invariant 0 <= i <= |items|
      invariant formatted == Format(items[..i])
    {
      assert items[..i + 1][..i] == items[..i];
      formatted := formatted[TypeOf(items[i]) := DetailsOf(items[i])];
      i := i + 1;
    }
    assert items[..i] == items;
  }
}
