/** `populate` (deriv/symbol.py): builds the asset registry and the symbol
    registry from the two catalog payloads in three passes over a
    dictionary keyed by symbol, kept in insertion order. */
module Catalog {
  import opened Wrappers
  import opened Values
  import opened Util
  import opened Sequences
  import opened Durations
  import opened Assets
  import opened ActiveSymbols

  // ---------------------------------------------------------------------
  // Payloads

  /** One contract entry of an asset index: group, modality, and the min and max
      duration tokens such as "1m" (None or "" when there is none). */
  datatype Parameter = Parameter(group: Value, modality: Value, minToken: Option<string>, maxToken: Option<string>)

  /** One entry of `lst_asset_index`: symbol, display name, contract entries. */
  datatype IndexEntry = IndexEntry(symbol: Value, displayName: string, params: seq<Parameter>)

  /** One entry of `lst_active_symbols`; an absent field reads as None. */
  datatype ActiveEntry = ActiveEntry(symbol: Value, exchangeIsOpen: Value, isTradingSuspended: Value,
                                     market: Option<string>, marketDisplayName: Option<string>,
                                     subMarket: Option<string>, submarketDisplayName: Option<string>)

  /** `parameter[k][:-1] if parameter[k] else None` and `parameter[k][-1] if parameter[k] else None` */
  function SplitToken(token: Option<string>): (r: (Option<string>, Option<string>))
    ensures Falsy(token) <==> r == (None, None)
    ensures !Falsy(token) ==> r.0.Some? && r.1.Some? && |r.1.value| == 1 && r.0.value + r.1.value == token.value
  {
    if Falsy(token) then (None, None)
    else
      var t := token.value;
      assert t == t[..|t| - 1] + [t[|t| - 1]];
      (Some(t[..|t| - 1]), Some([t[|t| - 1]]))
  }

  /** The asset a contract entry describes, before it meets the registry. */
  function ParamAsset(p: Parameter): Result<Asset>
  {
    var (digitMin, unitMin) := SplitToken(p.minToken);
    var (digitMax, unitMax) := SplitToken(p.maxToken);
    MakeAsset(p.group, p.modality, digitMin, unitMin, digitMax, unitMax)
  }

  /** `Asset(group=..., ...)` for a contract entry against a registry. */
  function ParamConstruct(insts: seq<Asset>, p: Parameter): (r: Result<(seq<Asset>, Asset)>)
    requires UniqueKeys(insts, AssetKey)
    ensures r.Err? <==> ParamAsset(p).Err?
    ensures r.Err? ==> r.error == ParamAsset(p).error
    ensures r.Ok? ==> && UniqueKeys(r.value.0, AssetKey) && insts <= r.value.0 && r.value.1 in r.value.0
                      && r.value.1.key == ParamAsset(p).value.key
  {
    var (digitMin, unitMin) := SplitToken(p.minToken);
    var (digitMax, unitMax) := SplitToken(p.maxToken);
    Construct(insts, p.group, p.modality, digitMin, unitMin, digitMax, unitMax)
  }

  /** The comprehension `[Asset(...) for parameter in asset_index[2]]`, which
      registers each asset in turn; `acc` holds the assets built so far. The
      registry is returned on the error path too: the assets built before the
      failing one stay registered. */
  function BuildAssets(insts: seq<Asset>, params: seq<Parameter>, acc: seq<Asset>): (r: (seq<Asset>, Result<seq<Asset>>))
    requires UniqueKeys(insts, AssetKey)
    ensures UniqueKeys(r.0, AssetKey) && insts <= r.0
    ensures r.1.Ok? <==> forall p :: p in params ==> ParamAsset(p).Ok?
    ensures r.1.Err? ==> FirstFailure(params, r.1.error)
    ensures r.1.Ok? ==> |r.1.value| == |acc| + |params| && acc <= r.1.value
    ensures r.1.Ok? ==> KeysFollow(r.1.value, |acc|, params, ParamAsset)
    decreases |params|
  {
    if params == [] then (insts, Ok(acc))
    else
      var c := ParamConstruct(insts, params[0]);
      if c.Err? then
        assert params[0] in params;
        (insts, Err(c.error))
      else
        var (s, a) := c.value;
        var r := BuildAssets(s, params[1..], acc + [a]);
        assert r.1.Ok? ==> acc <= acc + [a] <= r.1.value && r.1.value[|acc|] == a && |acc + [a]| == |acc| + 1;
        assert forall p :: p in params <==> p == params[0] || p in params[1..];
        r
  }

  /** The first entry that fails, fails with `e`. */
  ghost predicate FirstFailure(params: seq<Parameter>, e: Error)
    decreases |params|
  {
    && params != []
    && (ParamAsset(params[0]) == Err(e) || (ParamAsset(params[0]).Ok? && FirstFailure(params[1..], e)))
  }

  /** FirstFailure by position: some entry fails with `e`, and every entry before it succeeds. */
  lemma FirstFailureIndex(params: seq<Parameter>, e: Error)
    ensures FirstFailure(params, e) <==>
            exists i :: 0 <= i < |params| && ParamAsset(params[i]) == Err(e) && forall j :: 0 <= j < i ==> ParamAsset(params[j]).Ok?
  {
    if FirstFailure(params, e) {
      var i := FirstFailurePosition(params, e);
    }
    forall i | 0 <= i < |params| && ParamAsset(params[i]) == Err(e) && forall j :: 0 <= j < i ==> ParamAsset(params[j]).Ok?
      ensures FirstFailure(params, e)
    {
      FirstFailureAt(params, e, i);
    }
  }

  /** The error of the first failing entry is the error of some entry. */
  lemma FirstFailureMember(params: seq<Parameter>, e: Error)
    requires FirstFailure(params, e)
    ensures exists p :: p in params && ParamAsset(p) == Err(e)
  {
    var i := FirstFailurePosition(params, e);
    assert params[i] in params;
  }

  lemma {:induction false} FirstFailurePosition(params: seq<Parameter>, e: Error) returns (i: nat)
    requires FirstFailure(params, e)
    ensures i < |params| && ParamAsset(params[i]) == Err(e) && forall j :: 0 <= j < i ==> ParamAsset(params[j]).Ok?
    decreases |params|
  {
    if ParamAsset(params[0]) == Err(e) {
      i := 0;
    } else {
      var tail := params[1..];
      var k := FirstFailurePosition(tail, e);
      i := k + 1;
      forall j | 0 <= j < i ensures ParamAsset(params[j]).Ok? {
        if j > 0 { assert params[j] == tail[j - 1]; }
      }
      assert params[i] == tail[k];
    }
  }

  lemma {:induction false} FirstFailureAt(params: seq<Parameter>, e: Error, i: nat)
    requires i < |params| && ParamAsset(params[i]) == Err(e) && forall j :: 0 <= j < i ==> ParamAsset(params[j]).Ok?
    ensures FirstFailure(params, e)
    decreases i
  {
    if i > 0 {
      var tail := params[1..];
      assert ParamAsset(params[0]).Ok?;
      forall j | 0 <= j < i - 1 ensures ParamAsset(tail[j]).Ok? {
        assert tail[j] == params[j + 1];
      }
      assert tail[i - 1] == params[i];
      FirstFailureAt(tail, e, i - 1);
    }
  }

  /** From position `from` on, `v` holds one asset per entry, with the key that `build`
      gives the entry. */
  ghost predicate KeysFollow(v: seq<Asset>, from: nat, params: seq<Parameter>, build: Parameter -> Result<Asset>)
    decreases |params|
  {
    && from + |params| <= |v|
    && (params != [] ==>
          && build(params[0]).Ok? && v[from].key == build(params[0]).value.key
          && KeysFollow(v, from + 1, params[1..], build))
  }

  /** KeysFollow by position: asset `from + i` carries the key of entry `i`. */
  lemma KeysFollowIndex(v: seq<Asset>, from: nat, params: seq<Parameter>, build: Parameter -> Result<Asset>)
    ensures KeysFollow(v, from, params, build) <==>
            && from + |params| <= |v|
            && forall i :: 0 <= i < |params| ==> build(params[i]).Ok? && v[from + i].key == build(params[i]).value.key
  {
    if KeysFollow(v, from, params, build) {
      forall i | 0 <= i < |params| ensures build(params[i]).Ok? && v[from + i].key == build(params[i]).value.key {
        KeysFollowAt(v, from, params, build, i);
      }
    }
    if && from + |params| <= |v|
       && forall i :: 0 <= i < |params| ==> build(params[i]).Ok? && v[from + i].key == build(params[i]).value.key
    {
      KeysFollowFrom(v, from, params, build);
    }
  }

  lemma {:induction false} KeysFollowAt(v: seq<Asset>, from: nat, params: seq<Parameter>, build: Parameter -> Result<Asset>, i: nat)
    requires KeysFollow(v, from, params, build) && i < |params|
    ensures build(params[i]).Ok? && v[from + i].key == build(params[i]).value.key
    decreases i
  {
    if i > 0 {
      var tail := params[1..];
      KeysFollowAt(v, from + 1, tail, build, i - 1);
      assert tail[i - 1] == params[i];
      assert from + 1 + (i - 1) == from + i;
    }
  }

  lemma {:induction false} KeysFollowFrom(v: seq<Asset>, from: nat, params: seq<Parameter>, build: Parameter -> Result<Asset>)
    requires from + |params| <= |v|
    requires forall i :: 0 <= i < |params| ==> build(params[i]).Ok? && v[from + i].key == build(params[i]).value.key
    ensures KeysFollow(v, from, params, build)
    decreases |params|
  {
    if params != [] {
      var tail := params[1..];
      assert build(params[0]).Ok? && v[from + 0].key == build(params[0]).value.key;
      forall i | 0 <= i < |tail| ensures build(tail[i]).Ok? && v[from + 1 + i].key == build(tail[i]).value.key {
        assert tail[i] == params[i + 1];
        assert from + (i + 1) == from + 1 + i;
      }
      KeysFollowFrom(v, from + 1, tail, build);
    }
  }

  /** Every asset the comprehension builds is a registered asset. */
  lemma {:induction false} BuiltAssetsAreRegistered(insts: seq<Asset>, params: seq<Parameter>, acc: seq<Asset>)
    requires UniqueKeys(insts, AssetKey)
    requires BuildAssets(insts, params, acc).1.Ok?
    ensures RegisteredFrom(BuildAssets(insts, params, acc).1.value, |acc|, BuildAssets(insts, params, acc).0)
    decreases |params|
  {
    if params != [] {
      assert params[0] in params;
      var c := ParamConstruct(insts, params[0]).value;
      BuildAssetsStep(insts, params, acc);
      BuiltAssetsAreRegistered(c.0, params[1..], acc + [c.1]);
      var r := BuildAssets(c.0, params[1..], acc + [c.1]);
      RegisteredCons(r.1.value, acc, c.1, c.0, r.0);
    }
  }

  /** From position `from` on, every asset of `v` is in `reg`. */
  ghost predicate RegisteredFrom(v: seq<Asset>, from: nat, reg: seq<Asset>)
  {
    forall i :: from <= i < |v| ==> v[i] in reg
  }

  lemma RegisteredCons(v: seq<Asset>, acc: seq<Asset>, a: Asset, s: seq<Asset>, reg: seq<Asset>)
    requires acc + [a] <= v && a in s && s <= reg && RegisteredFrom(v, |acc| + 1, reg)
    ensures RegisteredFrom(v, |acc|, reg)
  {
    assert v[|acc|] == (acc + [a])[|acc|] == a;
    PrefixMember(s, reg, a);
  }

  /** One step of the comprehension: a first entry that succeeds is built, then the rest. */
  lemma BuildAssetsStep(insts: seq<Asset>, params: seq<Parameter>, acc: seq<Asset>)
    requires UniqueKeys(insts, AssetKey) && params != [] && ParamConstruct(insts, params[0]).Ok?
    ensures var c := ParamConstruct(insts, params[0]).value;
            BuildAssets(insts, params, acc) == BuildAssets(c.0, params[1..], acc + [c.1])
  {
  }

  /** `assets` is one asset per entry of `params`, sorted by key, each carrying the key
      that `build` gives some entry and each entry's key carried by one of them. */
  ghost predicate AssetsOf(assets: seq<Asset>, params: seq<Parameter>, build: Parameter -> Result<Asset>)
  {
    && |assets| == |params|
    && SortedBy(assets, AssetKey)
    && (forall a :: a in assets ==> exists p :: p in params && build(p).Ok? && a.key == build(p).value.key)
    && (forall p :: p in params ==> build(p).Ok? && exists a :: a in assets && a.key == build(p).value.key)
  }

  /** Sorting a list whose keys follow the entries gives the assets of those entries. */
  lemma SortedAssetsOf(built: seq<Asset>, params: seq<Parameter>, build: Parameter -> Result<Asset>)
    requires |built| == |params| && KeysFollow(built, 0, params, build)
    ensures AssetsOf(SortByKey(built, AssetKey), params, build)
  {
    var sorted := SortByKey(built, AssetKey);
    forall a | a in sorted ensures exists p :: p in params && build(p).Ok? && a.key == build(p).value.key {
      assert a in multiset(sorted);
      var i :| 0 <= i < |built| && built[i] == a;
      KeysFollowAt(built, 0, params, build, i);
      assert params[i] in params;
    }
    forall p | p in params ensures build(p).Ok? && exists a :: a in sorted && a.key == build(p).value.key {
      var i :| 0 <= i < |params| && params[i] == p;
      KeysFollowAt(built, 0, params, build, i);
      assert built[i] in multiset(sorted);
    }
  }

  /** The sorted list the first pass stores is the assets of the entry's parameters. */
  lemma BuiltEntryAssets(insts: seq<Asset>, params: seq<Parameter>)
    requires UniqueKeys(insts, AssetKey)
    requires BuildAssets(insts, params, []).1.Ok?
    ensures AssetsOf(SortByKey(BuildAssets(insts, params, []).1.value, AssetKey), params, ParamAsset)
  {
    SortedAssetsOf(BuildAssets(insts, params, []).1.value, params, ParamAsset);
  }

  // ---------------------------------------------------------------------
  // symbols_dict

  /** A value of symbols_dict: 'display_name' and 'assets_indexes' from the asset
      index, and the six fields of the first active entry once one has been seen. */
  datatype Entry = Entry(displayName: string, assets: seq<Asset>, active: Option<ActiveEntry>)

  /** A dict as its (key, value) items in insertion order. */
  type SymbolsDict = seq<(Value, Entry)>

  ghost predicate DictValid(d: SymbolsDict)
  {
    forall i, j :: 0 <= i < j < |d| ==> d[i].0 != d[j].0
  }

  /** The position of a key. */
  function IndexOf(d: SymbolsDict, k: Value): (r: Option<nat>)
    ensures r.Some? ==> r.value < |d| && d[r.value].0 == k
    ensures r.None? <==> forall i :: 0 <= i < |d| ==> d[i].0 != k
  {
    if d == [] then None
    else if d[0].0 == k then Some(0)
    else
      var r := IndexOf(d[1..], k);
      assert forall i :: 1 <= i < |d| ==> d[i] == d[1..][i - 1];
      if r.None? then None else Some(r.value + 1)
  }

  predicate HasKey(d: SymbolsDict, k: Value) { IndexOf(d, k).Some? }

  /** `symbols_dict.setdefault(k, e)`: an existing key keeps its value. */
  function SetDefault(d: SymbolsDict, k: Value, e: Entry): (r: SymbolsDict)
    requires DictValid(d)
    ensures DictValid(r) && d <= r
    ensures HasKey(d, k) ==> r == d
    ensures !HasKey(d, k) ==> r == d + [(k, e)]
  {
    if HasKey(d, k) then d
    else
      var r := d + [(k, e)];
      assert forall i :: 0 <= i < |d| ==> r[i] == d[i];
      r
  }

  /** The six `value_dict.setdefault(...)` calls of one active entry: they set all six
      fields the first time and none afterwards. */
  function SetActive(d: SymbolsDict, i: nat, a: ActiveEntry): (r: SymbolsDict)
    requires i < |d|
    ensures |r| == |d| && forall j :: 0 <= j < |d| && j != i ==> r[j] == d[j]
    ensures r[i].0 == d[i].0 && r[i].1.displayName == d[i].1.displayName && r[i].1.assets == d[i].1.assets
    ensures r[i].1.active == if d[i].1.active.Some? then d[i].1.active else Some(a)
  {
    if d[i].1.active.Some? then d else d[i := (d[i].0, d[i].1.(active := Some(a)))]
  }

  // ---------------------------------------------------------------------
  // The first pass: the asset index

  /** The first index entry for a symbol. */
  function FirstIndex(index: seq<IndexEntry>, k: Value): (r: Option<IndexEntry>)
    ensures r.Some? ==> r.value in index && r.value.symbol == k
    ensures r.None? <==> forall e :: e in index ==> e.symbol != k
  {
    if index == [] then None
    else if index[0].symbol == k then Some(index[0])
    else FirstIndex(index[1..], k)
  }

  /** Every asset kept in the dict is a registered asset. */
  ghost predicate EntriesRegistered(d: SymbolsDict, insts: seq<Asset>)
  {
    forall i, a :: 0 <= i < |d| && a in d[i].1.assets ==> a in insts
  }

  /** The value the first pass stores for an index entry whose assets were built. */
  function NewEntry(e: IndexEntry, built: seq<Asset>): Entry
  {
    Entry(e.displayName, SortByKey(built, AssetKey), None)
  }

  /** The first loop of populate over `index`: the asset registry, the dict, and the
      error raised, if any. */
  function IndexPass(insts: seq<Asset>, d: SymbolsDict, index: seq<IndexEntry>): (r: (seq<Asset>, SymbolsDict, Option<Error>))
    requires UniqueKeys(insts, AssetKey) && DictValid(d)
    ensures UniqueKeys(r.0, AssetKey) && insts <= r.0 && DictValid(r.1) && d <= r.1
    ensures r.2.None? <==> forall e, p :: e in index && p in e.params ==> ParamAsset(p).Ok?
    ensures r.2.Some? ==> exists e, p :: e in index && p in e.params && ParamAsset(p) == Err(r.2.value)
    decreases |index|
  {
    if index == [] then (insts, d, None)
    else
      var e := index[0];
      var (s, built) := BuildAssets(insts, e.params, []);
      assert forall x :: x in index <==> x == e || x in index[1..];
      if built.Err? then
        FirstFailureMember(e.params, built.error);
        (s, d, Some(built.error))
      else IndexPass(s, SetDefault(d, e.symbol, NewEntry(e, built.value)), index[1..])
  }

  /** After a first pass without error the dict holds exactly the symbols it held
      before and those of the index. */
  lemma {:induction false} IndexPassKeys(insts: seq<Asset>, d: SymbolsDict, index: seq<IndexEntry>)
    requires UniqueKeys(insts, AssetKey) && DictValid(d)
    requires IndexPass(insts, d, index).2.None?
    ensures forall k :: HasKey(IndexPass(insts, d, index).1, k) <==> HasKey(d, k) || FirstIndex(index, k).Some?
    decreases |index|
  {
    if index != [] {
      var e := index[0];
      var c := BuildAssets(insts, e.params, []);
      var d' := SetDefault(d, e.symbol, NewEntry(e, c.1.value));
      assert IndexPass(insts, d, index) == IndexPass(c.0, d', index[1..]);
      IndexPassKeys(c.0, d', index[1..]);
      forall k ensures HasKey(d', k) <==> HasKey(d, k) || k == e.symbol {
        if HasKey(d, k) { assert d'[IndexOf(d, k).value] == d[IndexOf(d, k).value]; }
        if !HasKey(d, k) && k == e.symbol { assert d'[|d|].0 == k; }
      }
    }
  }

  /** The symbols the first pass adds come in order of first appearance, each with
      the display name of its FIRST index entry and no active fields yet. */
  lemma {:induction false} IndexPassNewEntries(insts: seq<Asset>, d: SymbolsDict, index: seq<IndexEntry>)
    requires UniqueKeys(insts, AssetKey) && DictValid(d)
    requires IndexPass(insts, d, index).2.None?
    ensures forall i :: |d| <= i < |IndexPass(insts, d, index).1| ==>
              && !HasKey(d, IndexPass(insts, d, index).1[i].0)
              && FirstIndex(index, IndexPass(insts, d, index).1[i].0).Some?
              && IndexPass(insts, d, index).1[i].1.displayName ==
                 FirstIndex(index, IndexPass(insts, d, index).1[i].0).value.displayName
              && IndexPass(insts, d, index).1[i].1.active.None?
              && AssetsOf(IndexPass(insts, d, index).1[i].1.assets,
                          FirstIndex(index, IndexPass(insts, d, index).1[i].0).value.params, ParamAsset)
    decreases |index|
  {
    if index != [] {
      var e := index[0];
      var c := BuildAssets(insts, e.params, []);
      var d' := SetDefault(d, e.symbol, NewEntry(e, c.1.value));
      assert IndexPass(insts, d, index) == IndexPass(c.0, d', index[1..]);
      IndexPassNewEntries(c.0, d', index[1..]);
      var r := IndexPass(c.0, d', index[1..]).1;
      assert HasKey(d', e.symbol) by {
        if !HasKey(d, e.symbol) { assert d'[|d|].0 == e.symbol; }
      }
      forall i | |d| <= i < |r|
        ensures && !HasKey(d, r[i].0) && FirstIndex(index, r[i].0).Some?
                && r[i].1.displayName == FirstIndex(index, r[i].0).value.displayName
                && r[i].1.active.None?
                && AssetsOf(r[i].1.assets, FirstIndex(index, r[i].0).value.params, ParamAsset)
      {
        if i >= |d'| {
          assert r[i].0 != e.symbol;
        } else {
          assert d' == d + [(e.symbol, NewEntry(e, c.1.value))] && r[i] == d'[i];
          BuiltEntryAssets(insts, e.params);
        }
      }
    }
  }

  /** After the first pass every dict value's assets are registered. */
  lemma {:induction false} IndexPassRegisters(insts: seq<Asset>, d: SymbolsDict, index: seq<IndexEntry>)
    requires UniqueKeys(insts, AssetKey) && DictValid(d) && EntriesRegistered(d, insts)
    ensures var r := IndexPass(insts, d, index); EntriesRegistered(r.1, r.0)
    decreases |index|
  {
    if index != [] {
      var e := index[0];
      var (s, built) := BuildAssets(insts, e.params, []);
      if built.Ok? {
        BuiltAssetsAreRegistered(insts, e.params, []);
        var d' := SetDefault(d, e.symbol, NewEntry(e, built.value));
        forall i, a | 0 <= i < |d'| && a in d'[i].1.assets ensures a in s {
          if i < |d| {
            assert d'[i] == d[i];
            PrefixMember(insts, s, a);
          } else {
            assert a in multiset(SortByKey(built.value, AssetKey));
          }
        }
        IndexPassRegisters(s, d', index[1..]);
      } else {
        forall i, a | 0 <= i < |d| && a in d[i].1.assets ensures a in s {
          PrefixMember(insts, s, a);
        }
      }
    }
  }

  // ---------------------------------------------------------------------
  // The second pass: the active symbols

  /** The first active entry for a symbol. */
  function FirstActive(actives: seq<ActiveEntry>, k: Value): (r: Option<ActiveEntry>)
    ensures r.Some? ==> r.value in actives && r.value.symbol == k
    ensures r.None? <==> forall a :: a in actives ==> a.symbol != k
  {
    if actives == [] then None
    else if actives[0].symbol == k then Some(actives[0])
    else FirstActive(actives[1..], k)
  }

  /** The second loop of populate: a symbol missing from the dict raises; otherwise
      the first active entry of each symbol fills its six fields. */
  function ActivePass(d: SymbolsDict, actives: seq<ActiveEntry>): (r: Result<SymbolsDict>)
    requires DictValid(d)
    ensures r.Err? <==> exists a :: a in actives && !HasKey(d, a.symbol)
    ensures r.Err? ==> r.error == UnknownSymbol
    ensures r.Ok? ==>
            && |r.value| == |d| && DictValid(r.value)
            && forall i :: 0 <= i < |d| ==>
                 && r.value[i].0 == d[i].0
                 && r.value[i].1.displayName == d[i].1.displayName
                 && r.value[i].1.assets == d[i].1.assets
                 && r.value[i].1.active == if d[i].1.active.Some? then d[i].1.active else FirstActive(actives, d[i].0)
    decreases |actives|
  {
    if actives == [] then Ok(d)
    else
      var a := actives[0];
      assert forall x :: x in actives <==> x == a || x in actives[1..];
      var i := IndexOf(d, a.symbol);
      if i.None? then Err(UnknownSymbol)
      else
        var d' := SetActive(d, i.value, a);
        assert forall k :: HasKey(d', k) == HasKey(d, k) by {
          forall k ensures HasKey(d', k) == HasKey(d, k) {
            if HasKey(d, k) { assert d'[IndexOf(d, k).value].0 == k; }
            if HasKey(d', k) { assert d[IndexOf(d', k).value].0 == k; }
          }
        }
        var r := ActivePass(d', actives[1..]);
        assert forall j :: 0 <= j < |d| && j != i.value ==> d[j].0 != a.symbol;
        r
  }

  // ---------------------------------------------------------------------
  // The third pass: one ActiveSymbol per dict item

  /** The arguments the third loop reads with `value_dict.get(...)`: the active
      entry's fields, or None for each. */
  function IsOpen(e: Entry): Value { if e.active.Some? then e.active.value.exchangeIsOpen else Nil }
  function IsSuspended(e: Entry): Value { if e.active.Some? then e.active.value.isTradingSuspended else Nil }
  function Market(e: Entry): Option<string> { if e.active.Some? then e.active.value.market else None }
  function MarketDisplayName(e: Entry): Option<string> { if e.active.Some? then e.active.value.marketDisplayName else None }
  function SubMarket(e: Entry): Option<string> { if e.active.Some? then e.active.value.subMarket else None }
  function SubmarketDisplayName(e: Entry): Option<string> { if e.active.Some? then e.active.value.submarketDisplayName else None }

  /** The key the ActiveSymbol built from a dict item is looked up under. */
  function ItemKey(item: (Value, Entry)): string
    requires item.0.Str?
  {
    MakeKey(item.0.s, IsOpen(item.1), IsSuspended(item.1), Market(item.1), SubMarket(item.1))
  }

  function ItemConstruct(syms: seq<ActiveSymbol>, item: (Value, Entry)): Result<(seq<ActiveSymbol>, Construction)>
  {
    var e := item.1;
    RegisterSymbol(syms, item.0, e.displayName, e.assets, IsOpen(e), IsSuspended(e),
                   Market(e), MarketDisplayName(e), SubMarket(e), SubmarketDisplayName(e))
  }

  /** The third loop of populate: the symbol registry and the error raised, if any;
      the symbols built before a failing one stay registered. */
  function SymbolPass(syms: seq<ActiveSymbol>, items: SymbolsDict): (r: (seq<ActiveSymbol>, Option<Error>))
    requires UniqueKeys(syms, SymbolKey)
    ensures UniqueKeys(r.0, SymbolKey) && syms <= r.0
    ensures r.1.None? <==> forall it :: it in items ==> CheckStr(it.0).Ok?
    ensures r.1.Some? ==> r.1.value == InvalidString
    ensures r.1.None? ==> forall it :: it in items ==> it.0.Str? && exists x :: x in r.0 && x.key == ItemKey(it)
    decreases |items|
  {
    if items == [] then (syms, None)
    else
      var it := items[0];
      assert forall x :: x in items <==> x == it || x in items[1..];
      var c := ItemConstruct(syms, it);
      if c.Err? then (syms, Some(c.error))
      else
        var r := SymbolPass(c.value.0, items[1..]);
        if r.1.None? then
          PrefixKeepsKey(c.value.0, r.0, ItemKey(it));
          r
        else r
  }

  /** A key carried in a registry is still carried once the registry has grown. */
  lemma PrefixKeepsKey(s: seq<ActiveSymbol>, r: seq<ActiveSymbol>, key: string)
    requires s <= r && exists x :: x in s && x.key == key
    ensures exists x :: x in r && x.key == key
  {
    var x :| x in s && x.key == key;
    var j :| 0 <= j < |s| && s[j] == x;
    assert r[j] == x;
  }

  /** The symbols the third pass creates carry only registered assets. */
  lemma {:induction false} SymbolPassRegisters(insts: seq<Asset>, syms: seq<ActiveSymbol>, items: SymbolsDict)
    requires UniqueKeys(syms, SymbolKey) && AssetsRegistered(insts, syms) && EntriesRegistered(items, insts)
    ensures AssetsRegistered(insts, SymbolPass(syms, items).0)
    decreases |items|
  {
    if items == [] { return; }
    var c := ItemConstruct(syms, items[0]);
    if c.Ok? {
      var s := c.value.0;
      forall x, a | x in s && a in x.assets ensures a in insts {
        if x !in syms {
          assert c.value.1.Created? && x == c.value.1.created;
          assert a in multiset(items[0].1.assets);
          assert 0 < |items| && a in items[0].1.assets;
        }
      }
      forall i, a | 0 <= i < |items[1..]| && a in items[1..][i].1.assets ensures a in insts {
        assert items[1..][i] == items[i + 1];
      }
      SymbolPassRegisters(insts, s, items[1..]);
    }
  }

  /** The instance built from a dict item carries the values the third loop passes to
      `ActiveSymbol(...)`, its assets sorted by key. */
  ghost predicate CarriesItem(x: ActiveSymbol, item: (Value, Entry))
  {
    && item.0 == Str(x.symbol)
    && x.displayName == item.1.displayName
    && SortedBy(x.assets, AssetKey) && multiset(x.assets) == multiset(item.1.assets)
    && x.exchangeIsOpen == IsOpen(item.1) && x.isTradingSuspended == IsSuspended(item.1)
    && x.market == Market(item.1) && x.marketDisplayName == MarketDisplayName(item.1)
    && x.subMarket == SubMarket(item.1) && x.submarketDisplayName == SubmarketDisplayName(item.1)
  }

  /** The registry holds an instance under the key, and every instance under that key
      is built from the item. */
  ghost predicate CreatedFrom(r: seq<ActiveSymbol>, key: string, item: (Value, Entry))
  {
    && (exists x :: x in r && x.key == key)
    && forall x :: x in r && x.key == key ==> CarriesItem(x, item)
  }

  /** An item whose key neither the registry nor an earlier item carries is registered
      as a new instance built from that item, the only one under its key. */
  lemma {:induction false} SymbolPassCreates(syms: seq<ActiveSymbol>, items: SymbolsDict, k: nat, key: string)
    requires UniqueKeys(syms, SymbolKey) && forall it :: it in items ==> CheckStr(it.0).Ok?
    requires k < |items| && items[k].0.Str? && key == ItemKey(items[k])
    requires forall y :: y in syms ==> y.key != key
    requires forall j :: 0 <= j < k && items[j].0.Str? ==> ItemKey(items[j]) != key
    ensures CreatedFrom(SymbolPass(syms, items).0, key, items[k])
    decreases k, 1
  {
    var s, x0 := SymbolPassStep(syms, items, key);
    if k == 0 {
      CreatedByLast(SymbolPass(s, items[1..]).0, s, x0, key, items[0]);
      CreatedTransfer(SymbolPass(s, items[1..]).0, SymbolPass(syms, items).0, key, items[0], items[k]);
    } else {
      ShiftDistinct(items, k, key);
      CreatesLater(syms, items, k, key, s);
    }
  }

  /** The inductive step of `SymbolPassCreates`: the item comes after the first. */
  lemma {:induction false} CreatesLater(syms: seq<ActiveSymbol>, items: SymbolsDict, k: nat, key: string, s: seq<ActiveSymbol>)
    requires UniqueKeys(syms, SymbolKey) && UniqueKeys(s, SymbolKey)
    requires 0 < k < |items| && items[k].0.Str? && key == ItemKey(items[k]) && items[1..][k - 1] == items[k]
    requires forall it :: it in items[1..] ==> CheckStr(it.0).Ok?
    requires forall y :: y in s ==> y.key != key
    requires forall j :: 0 <= j < k - 1 && items[1..][j].0.Str? ==> ItemKey(items[1..][j]) != key
    requires SymbolPass(syms, items) == SymbolPass(s, items[1..])
    ensures CreatedFrom(SymbolPass(syms, items).0, key, items[k])
    decreases k, 0
  {
    SymbolPassCreates(s, items[1..], k - 1, key);
    CreatedTransfer(SymbolPass(s, items[1..]).0, SymbolPass(syms, items).0, key, items[1..][k - 1], items[k]);
  }

  /** One step of the third pass: the registry after the first item, from which the
      pass goes on, and the instance that item creates when its key is new. A key
      other than the item's stays absent. */
  lemma SymbolPassStep(syms: seq<ActiveSymbol>, items: SymbolsDict, key: string) returns (s: seq<ActiveSymbol>, x0: ActiveSymbol)
    requires UniqueKeys(syms, SymbolKey) && items != [] && forall it :: it in items ==> CheckStr(it.0).Ok?
    ensures items[0].0.Str? && UniqueKeys(s, SymbolKey) && SymbolPass(syms, items) == SymbolPass(s, items[1..])
    ensures forall it :: it in items[1..] ==> CheckStr(it.0).Ok?
    ensures key == ItemKey(items[0]) && (forall y :: y in syms ==> y.key != key) ==>
            s == syms + [x0] && x0.key == key && CarriesItem(x0, items[0])
    ensures key != ItemKey(items[0]) && (forall y :: y in syms ==> y.key != key) ==> forall y :: y in s ==> y.key != key
  {
    assert items[0] in items;
    var c := ItemConstruct(syms, items[0]).value;
    s := c.0;
    if c.1.Created? {
      x0 := c.1.created;
    } else {
      x0 := c.1.matches[0];
    }
  }

  /** The items after the first, seen from one position further on. */
  lemma ShiftDistinct(items: SymbolsDict, k: nat, key: string)
    requires 0 < k < |items|
    requires forall j :: 0 <= j < k && items[j].0.Str? ==> ItemKey(items[j]) != key
    ensures items[1..][k - 1] == items[k]
    ensures forall j :: 0 <= j < k - 1 && items[1..][j].0.Str? ==> ItemKey(items[1..][j]) != key
  {
    forall j | 0 <= j < k - 1 && items[1..][j].0.Str? ensures ItemKey(items[1..][j]) != key {
      assert items[1..][j] == items[j + 1];
    }
  }

  lemma CreatedTransfer(r: seq<ActiveSymbol>, r': seq<ActiveSymbol>, key: string, item: (Value, Entry), item': (Value, Entry))
    requires r == r' && item == item' && CreatedFrom(r, key, item)
    ensures CreatedFrom(r', key, item')
  {
  }

  /** An instance that ends a prefix of a registry with unique keys is the only one
      under its key. */
  lemma CreatedByLast(r: seq<ActiveSymbol>, s: seq<ActiveSymbol>, x0: ActiveSymbol, key: string, item: (Value, Entry))
    requires UniqueKeys(r, SymbolKey) && s <= r && |s| > 0 && s[|s| - 1] == x0
    requires x0.key == key && CarriesItem(x0, item)
    ensures CreatedFrom(r, key, item)
  {
    assert r[|s| - 1] == x0;
    forall x | x in r && x.key == key ensures x == x0 {
      var i :| 0 <= i < |r| && r[i] == x;
      assert SymbolKey(r[i]) == SymbolKey(r[|s| - 1]);
    }
  }

  // ---------------------------------------------------------------------
  // The whole of populate

  /** `populate(lst_active_symbols=..., lst_asset_index=...)`: the two registries
      afterwards and the error raised, if any. */
  function PopulateSpec(insts: seq<Asset>, syms: seq<ActiveSymbol>, actives: seq<ActiveEntry>, index: seq<IndexEntry>)
    : (r: (seq<Asset>, seq<ActiveSymbol>, Option<Error>))
    requires UniqueKeys(insts, AssetKey) && UniqueKeys(syms, SymbolKey)
    ensures UniqueKeys(r.0, AssetKey) && UniqueKeys(r.1, SymbolKey)
    ensures insts <= r.0 && syms <= r.1
  {
    var (s, d, raised) := IndexPass(insts, [], index);
    if raised.Some? then (s, syms, raised)
    else
      var d' := ActivePass(d, actives);
      if d'.Err? then (s, syms, Some(d'.error))
      else
        var (ss, raised') := SymbolPass(syms, d'.value);
        (s, ss, raised')
  }

  /** An active symbol that no index entry lists makes populate raise, and the
      symbol registry is left as it was. */
  lemma PopulateUnknownSymbol(insts: seq<Asset>, syms: seq<ActiveSymbol>, actives: seq<ActiveEntry>, index: seq<IndexEntry>,
                              a: ActiveEntry)
    requires UniqueKeys(insts, AssetKey) && UniqueKeys(syms, SymbolKey)
    requires forall e, p :: e in index && p in e.params ==> ParamAsset(p).Ok?
    requires a in actives && forall e :: e in index ==> e.symbol != a.symbol
    ensures PopulateSpec(insts, syms, actives, index).2 == Some(UnknownSymbol)
    ensures PopulateSpec(insts, syms, actives, index).1 == syms
  {
    var (s, d, raised) := IndexPass(insts, [], index);
    IndexPassKeys(insts, [], index);
    assert !HasKey(d, a.symbol);
  }

  /** The key populate registers an index entry's symbol under: built from the
      symbol's FIRST active entry, or from no active fields at all. */
  function ExpectedKey(e: IndexEntry, actives: seq<ActiveEntry>): string
    requires e.symbol.Str?
  {
    var item := Entry(e.displayName, [], FirstActive(actives, e.symbol));
    MakeKey(e.symbol.s, IsOpen(item), IsSuspended(item), Market(item), SubMarket(item))
  }

  /** When every contract entry validates, every active symbol is listed and every
      listed symbol is a non-empty str, populate raises nothing and the registry has,
      for each listed symbol, an instance under the key built from the FIRST active
      entry of that symbol. */
  lemma PopulateRegistersEverySymbol(insts: seq<Asset>, syms: seq<ActiveSymbol>, actives: seq<ActiveEntry>,
                                     index: seq<IndexEntry>)
    requires UniqueKeys(insts, AssetKey) && UniqueKeys(syms, SymbolKey)
    requires forall e, p :: e in index && p in e.params ==> ParamAsset(p).Ok?
    requires forall a :: a in actives ==> exists e :: e in index && e.symbol == a.symbol
    requires forall e :: e in index ==> e.symbol.Str? && e.symbol.s != ""
    ensures PopulateSpec(insts, syms, actives, index).2.None?
    ensures forall e :: e in index ==>
              exists x :: x in PopulateSpec(insts, syms, actives, index).1 && x.key == ExpectedKey(e, actives)
  {
    PassesBeforeSymbols(insts, actives, index);
    var pass := IndexPass(insts, [], index);
    var d' := ActivePass(pass.1, actives).value;
    var r := SymbolPass(syms, d');
    assert r.1.None?;
    assert PopulateSpec(insts, syms, actives, index) == (pass.0, r.0, r.1);
    ListedKeysRegistered(r.0, d', index, actives);
  }

  /** Into an empty symbol registry, and when distinct index symbols get distinct keys,
      the instance under each index symbol's key is built from that symbol's FIRST index
      entry: its display name and one asset per contract entry, sorted by key. */
  lemma PopulateCarriesFirstEntry(insts: seq<Asset>, actives: seq<ActiveEntry>, index: seq<IndexEntry>)
    requires UniqueKeys(insts, AssetKey)
    requires forall e, p :: e in index && p in e.params ==> ParamAsset(p).Ok?
    requires forall a :: a in actives ==> exists e :: e in index && e.symbol == a.symbol
    requires forall e :: e in index ==> e.symbol.Str? && e.symbol.s != ""
    requires forall e1, e2 :: e1 in index && e2 in index && e1.symbol != e2.symbol ==>
               ExpectedKey(e1, actives) != ExpectedKey(e2, actives)
    ensures forall e, x :: e in index && x in PopulateSpec(insts, [], actives, index).1 && x.key == ExpectedKey(e, actives) ==>
              && FirstIndex(index, e.symbol).Some?
              && x.displayName == FirstIndex(index, e.symbol).value.displayName
              && AssetsOf(x.assets, FirstIndex(index, e.symbol).value.params, ParamAsset)
  {
    PassesBeforeSymbols(insts, actives, index);
    PassesPrepare(insts, actives, index);
    var pass := IndexPass(insts, [], index);
    var d' := ActivePass(pass.1, actives).value;
    var r := SymbolPass([], d');
    assert PopulateSpec(insts, [], actives, index) == (pass.0, r.0, r.1);
    ThirdPassCarries(d', index, actives);
  }

  /** The third pass over a prepared dict that lists every index symbol. */
  lemma ThirdPassCarries(d: SymbolsDict, index: seq<IndexEntry>, actives: seq<ActiveEntry>)
    requires DictValid(d) && Prepared(d, index, actives) && SymbolPass([], d).1.None?
    requires forall e :: e in index ==> e.symbol.Str? && e.symbol.s != ""
    requires forall e1, e2 :: e1 in index && e2 in index && e1.symbol != e2.symbol ==>
               ExpectedKey(e1, actives) != ExpectedKey(e2, actives)
    requires forall e :: e in index ==> exists i :: 0 <= i < |d| && ListsActive(d[i], e, actives)
    ensures forall e, x :: e in index && x in SymbolPass([], d).0 && x.key == ExpectedKey(e, actives) ==>
              && FirstIndex(index, e.symbol).Some?
              && x.displayName == FirstIndex(index, e.symbol).value.displayName
              && AssetsOf(x.assets, FirstIndex(index, e.symbol).value.params, ParamAsset)
  {
    forall e, x | e in index && x in SymbolPass([], d).0 && x.key == ExpectedKey(e, actives)
      ensures && FirstIndex(index, e.symbol).Some?
              && x.displayName == FirstIndex(index, e.symbol).value.displayName
              && AssetsOf(x.assets, FirstIndex(index, e.symbol).value.params, ParamAsset)
    {
      CarriesFirstEntry(d, index, actives, e, x);
    }
  }

  /** Every item of the dict the first two passes leave stands for its symbol's first
      index entry and first active entry. */
  ghost predicate Prepared(d: SymbolsDict, index: seq<IndexEntry>, actives: seq<ActiveEntry>)
  {
    forall i :: 0 <= i < |d| ==>
      && FirstIndex(index, d[i].0).Some?
      && d[i].1.active == FirstActive(actives, d[i].0)
      && d[i].1.displayName == FirstIndex(index, d[i].0).value.displayName
      && AssetsOf(d[i].1.assets, FirstIndex(index, d[i].0).value.params, ParamAsset)
  }

  lemma PassesPrepare(insts: seq<Asset>, actives: seq<ActiveEntry>, index: seq<IndexEntry>)
    requires UniqueKeys(insts, AssetKey)
    requires IndexPass(insts, [], index).2.None?
    requires ActivePass(IndexPass(insts, [], index).1, actives).Ok?
    ensures Prepared(ActivePass(IndexPass(insts, [], index).1, actives).value, index, actives)
  {
    IndexPassNewEntries(insts, [], index);
  }

  /** In the third pass over a prepared dict, the instance under an index symbol's key
      carries its first index entry's display name and assets. */
  lemma CarriesFirstEntry(d: SymbolsDict, index: seq<IndexEntry>, actives: seq<ActiveEntry>, e: IndexEntry, x: ActiveSymbol)
    requires DictValid(d) && Prepared(d, index, actives) && SymbolPass([], d).1.None?
    requires forall e :: e in index ==> e.symbol.Str?
    requires forall e1, e2 :: e1 in index && e2 in index && e1.symbol != e2.symbol ==>
               ExpectedKey(e1, actives) != ExpectedKey(e2, actives)
    requires e in index && exists i :: 0 <= i < |d| && ListsActive(d[i], e, actives)
    requires x in SymbolPass([], d).0 && x.key == ExpectedKey(e, actives)
    ensures FirstIndex(index, e.symbol).Some?
    ensures x.displayName == FirstIndex(index, e.symbol).value.displayName
    ensures AssetsOf(x.assets, FirstIndex(index, e.symbol).value.params, ParamAsset)
  {
    var k :| 0 <= k < |d| && ListsActive(d[k], e, actives);
    ItemKeyIsExpected(d[k], e, actives);
    forall j | 0 <= j < k && d[j].0.Str? ensures ItemKey(d[j]) != ItemKey(d[k]) {
      EarlierItemKey(d, index, actives, j, k, e);
    }
    SymbolPassCreates([], d, k, ItemKey(d[k]));
    assert CarriesItem(x, d[k]);
    AssetsOfPermuted(d[k].1.assets, x.assets, FirstIndex(index, e.symbol).value.params, ParamAsset);
  }

  /** An earlier dict item stands for another index symbol, so under distinct keys it
      has another key. */
  lemma EarlierItemKey(d: SymbolsDict, index: seq<IndexEntry>, actives: seq<ActiveEntry>, j: nat, k: nat, e: IndexEntry)
    requires DictValid(d) && Prepared(d, index, actives) && j < k < |d| && d[j].0.Str? && e in index
    requires ListsActive(d[k], e, actives)
    requires forall e :: e in index ==> e.symbol.Str?
    requires forall e1, e2 :: e1 in index && e2 in index && e1.symbol != e2.symbol ==>
               ExpectedKey(e1, actives) != ExpectedKey(e2, actives)
    ensures ItemKey(d[j]) != ItemKey(d[k])
  {
    var ej := FirstIndex(index, d[j].0).value;
    assert ListsActive(d[j], ej, actives);
    ItemKeyIsExpected(d[j], ej, actives);
    ItemKeyIsExpected(d[k], e, actives);
    assert ej.symbol != e.symbol;
  }

  /** A sorted permutation of the assets of some entries is the assets of those entries. */
  lemma AssetsOfPermuted(l: seq<Asset>, m: seq<Asset>, params: seq<Parameter>, build: Parameter -> Result<Asset>)
    requires AssetsOf(l, params, build) && SortedBy(m, AssetKey) && multiset(m) == multiset(l)
    ensures AssetsOf(m, params, build)
  {
    PermutationMembers(m, l);
  }

  /** Under the same conditions the first two passes succeed, and the dict they
      leave lists every index symbol with its first active entry. */
  lemma PassesBeforeSymbols(insts: seq<Asset>, actives: seq<ActiveEntry>, index: seq<IndexEntry>)
    requires UniqueKeys(insts, AssetKey)
    requires forall e, p :: e in index && p in e.params ==> ParamAsset(p).Ok?
    requires forall a :: a in actives ==> exists e :: e in index && e.symbol == a.symbol
    requires forall e :: e in index ==> e.symbol.Str? && e.symbol.s != ""
    ensures IndexPass(insts, [], index).2.None?
    ensures ActivePass(IndexPass(insts, [], index).1, actives).Ok?
    ensures forall it :: it in ActivePass(IndexPass(insts, [], index).1, actives).value ==> CheckStr(it.0).Ok?
    ensures forall e :: e in index ==>
              exists i :: 0 <= i < |ActivePass(IndexPass(insts, [], index).1, actives).value| &&
                          ListsActive(ActivePass(IndexPass(insts, [], index).1, actives).value[i], e, actives)
  {
    var (s, d, raised) := IndexPass(insts, [], index);
    IndexPassKeys(insts, [], index);
    IndexPassNewEntries(insts, [], index);
    forall a | a in actives ensures HasKey(d, a.symbol) {
      var e :| e in index && e.symbol == a.symbol;
      assert FirstIndex(index, a.symbol).Some?;
    }
    var d' := ActivePass(d, actives).value;
    forall it | it in d' ensures CheckStr(it.0).Ok? {
      var i :| 0 <= i < |d'| && d'[i] == it;
      assert FirstIndex(index, d[i].0).Some?;
    }
    forall e | e in index ensures exists i :: 0 <= i < |d'| && ListsActive(d'[i], e, actives) {
      assert FirstIndex(index, e.symbol).Some?;
      var i := IndexOf(d, e.symbol).value;
      assert ListsActive(d'[i], e, actives);
    }
  }

  /** The dict item stands for the index entry's symbol with its first active entry. */
  predicate ListsActive(item: (Value, Entry), e: IndexEntry, actives: seq<ActiveEntry>)
  {
    item.0 == e.symbol && e.symbol.Str? && item.1.active == FirstActive(actives, e.symbol)
  }

  lemma ItemKeyIsExpected(item: (Value, Entry), e: IndexEntry, actives: seq<ActiveEntry>)
    requires ListsActive(item, e, actives)
    ensures ItemKey(item) == ExpectedKey(e, actives)
  {
    var other := Entry(e.displayName, [], FirstActive(actives, e.symbol));
    assert IsOpen(item.1) == IsOpen(other) && IsSuspended(item.1) == IsSuspended(other);
    assert Market(item.1) == Market(other) && SubMarket(item.1) == SubMarket(other);
  }

  lemma ListedKeysRegistered(ss: seq<ActiveSymbol>, items: SymbolsDict, index: seq<IndexEntry>, actives: seq<ActiveEntry>)
    requires forall it :: it in items ==> it.0.Str? && exists x :: x in ss && x.key == ItemKey(it)
    requires forall e :: e in index ==> exists i :: 0 <= i < |items| && ListsActive(items[i], e, actives)
    ensures forall e :: e in index ==> e.symbol.Str? && exists x :: x in ss && x.key == ExpectedKey(e, actives)
  {
    forall e | e in index ensures e.symbol.Str? && exists x :: x in ss && x.key == ExpectedKey(e, actives) {
      var i :| 0 <= i < |items| && ListsActive(items[i], e, actives);
      assert items[i] in items;
      ItemKeyIsExpected(items[i], e, actives);
      var x :| x in ss && x.key == ItemKey(items[i]);
    }
  }

  /** populate keeps the registries consistent: every asset of every symbol is a
      registered asset, whether or not it raises. */
  lemma PopulateKeepsAssetsRegistered(insts: seq<Asset>, syms: seq<ActiveSymbol>, actives: seq<ActiveEntry>,
                                      index: seq<IndexEntry>)
    requires UniqueKeys(syms, SymbolKey) && AssetsRegistered(insts, syms)
    ensures var r := PopulateSpec(insts, syms, actives, index); AssetsRegistered(r.0, r.1)
  {
    var (s, d, raised) := IndexPass(insts, [], index);
    IndexPassRegisters(insts, [], index);
    forall x, a | x in syms && a in x.assets ensures a in s {
      PrefixMember(insts, s, a);
    }
    if raised.None? {
      var d' := ActivePass(d, actives);
      if d'.Ok? {
        forall i, a | 0 <= i < |d'.value| && a in d'.value[i].1.assets ensures a in s {
          assert d'.value[i].1.assets == d[i].1.assets;
        }
        SymbolPassRegisters(s, syms, d'.value);
      }
    }
  }

  // ---------------------------------------------------------------------
  // The imperative populate over the two registries

  /** The comprehension of the first loop, registering each asset as it is built. */
  method BuildAssetList(assets: AssetRegistry, params: seq<Parameter>) returns (r: Result<seq<Asset>>)
    requires assets.Valid()
    modifies assets
    ensures assets.Valid()
    ensures (assets.instances, r) == BuildAssets(old(assets.instances), params, [])
  {
    var built: seq<Asset> := [];
    var i := 0;
    while i < |params|
      invariant 0 <= i <= |params| && assets.Valid()
      invariant BuildAssets(assets.instances, params[i..], built) == BuildAssets(old(assets.instances), params, [])
      decreases |params| - i
    {
      var p := params[i];
      var (digitMin, unitMin) := SplitToken(p.minToken);
      var (digitMax, unitMax) := SplitToken(p.maxToken);
      assert params[i..][1..] == params[i + 1..];
      var a := assets.New(p.group, p.modality, digitMin, unitMin, digitMax, unitMax);
      if a.Err? {
        return Err(a.error);
      }
      built := built + [a.value];
      i := i + 1;
    }
    return Ok(built);
  }

  /** The first loop of populate, over the asset index. */
  method IndexLoop(assets: AssetRegistry, index: seq<IndexEntry>) returns (d: SymbolsDict, raised: Option<Error>)
    requires assets.Valid()
    modifies assets
    ensures assets.Valid() && DictValid(d)
    ensures (assets.instances, d, raised) == IndexPass(old(assets.instances), [], index)
  {
    d := [];
    var i := 0;
    while i < |index|
      invariant 0 <= i <= |index| && assets.Valid() && DictValid(d)
      invariant IndexPass(assets.instances, d, index[i..]) == IndexPass(old(assets.instances), [], index)
      decreases |index| - i
    {
      var e := index[i];
      assert index[i..][1..] == index[i + 1..];
      var built := BuildAssetList(assets, e.params);
      if built.Err? {
        return d, Some(built.error);
      }
      d := SetDefault(d, e.symbol, NewEntry(e, built.value));
      i := i + 1;
    }
    assert index[i..] == [];
    return d, None;
  }

  /** The second loop of populate, over the active symbols. */
  method ActiveLoop(d0: SymbolsDict, actives: seq<ActiveEntry>) returns (r: Result<SymbolsDict>)
    requires DictValid(d0)
    ensures r == ActivePass(d0, actives)
  {
    var d := d0;
    var j := 0;
    while j < |actives|
      invariant 0 <= j <= |actives| && DictValid(d)
      invariant ActivePass(d, actives[j..]) == ActivePass(d0, actives)
      decreases |actives| - j
    {
      var a := actives[j];
      assert actives[j..][1..] == actives[j + 1..];
      var k := IndexOf(d, a.symbol);
      if k.None? {
        return Err(UnknownSymbol);
      }
      d := SetActive(d, k.value, a);
      j := j + 1;
    }
    assert actives[j..] == [];
    return Ok(d);
  }

  /** The third loop of populate, building one ActiveSymbol per dict item. */
  method SymbolLoop(symbols: SymbolRegistry, d: SymbolsDict) returns (raised: Option<Error>)
    requires symbols.Valid()
    modifies symbols
    ensures symbols.Valid()
    ensures (symbols.instances, raised) == SymbolPass(old(symbols.instances), d)
  {
    var n := 0;
    while n < |d|
      invariant 0 <= n <= |d| && symbols.Valid()
      invariant SymbolPass(symbols.instances, d[n..]) == SymbolPass(old(symbols.instances), d)
      decreases |d| - n
    {
      var (k, e) := d[n];
      assert d[n..][1..] == d[n + 1..];
      var c := symbols.New(k, e.displayName, e.assets, IsOpen(e), IsSuspended(e),
                           Market(e), MarketDisplayName(e), SubMarket(e), SubmarketDisplayName(e));
      if c.Err? {
        return Some(c.error);
      }
      n := n + 1;
    }
    assert d[n..] == [];
    return None;
  }

  /** `populate`: the asset index pass, the active symbols pass and the construction
      pass, in that order, over the two registries. */
  method Populate(assets: AssetRegistry, symbols: SymbolRegistry, actives: seq<ActiveEntry>, index: seq<IndexEntry>)
    returns (raised: Option<Error>)
    requires assets.Valid() && symbols.Valid()
    modifies assets, symbols
    ensures assets.Valid() && symbols.Valid()
    ensures (assets.instances, symbols.instances, raised) ==
            PopulateSpec(old(assets.instances), old(symbols.instances), actives, index)
  {
    var d, raised1 := IndexLoop(assets, index);
    if raised1.Some? {
      return raised1;
    }
    var d' := ActiveLoop(d, actives);
    if d'.Err? {
      return Some(d'.error);
    }
    raised := SymbolLoop(symbols, d'.value);
  }
}
