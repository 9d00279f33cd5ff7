# Deriv instrument and contract catalog in Dafny

This project models the core of a Deriv trading client: the catalog it builds from the broker's
two reference payloads, and the helpers around it. The model covers:

- **Durations** (`durations.dfy`): the `<digits><unit>` tokens of an asset's minimum and maximum
  contract duration. Each token is checked, ranked by unit (ticks, seconds, minutes, hours, days)
  and given an ordering key.
- **Assets** (`assets.dfy`): `Asset`, one trading parameter (a contract group, a modality and an
  optional duration range). Assets live in a get-or-create registry keyed by a string, which the
  queries by group, modality and duration read.
- **Active symbols** (`active_symbols.dfy`): `ActiveSymbol`, a tradeable symbol with its market
  placement, its open and suspended flags and its sorted assets. It has its own get-or-create
  registry, the keyword search `find`, and the joins from symbols to assets.
- **Catalog** (`populate.dfy`): `populate`, which joins the asset index and the active-symbol list
  into the two registries. It makes three passes over a dictionary keyed by symbol.
- **Util** (`util.dfy`): the validators `check_str` and `check_duration`.
- **Contracts** (`contracts.dfy`):
  - the `Contract` registry of contract types and their names;
  - the market and submarket status aggregation, and the instrument filter, of
    `fetch_instruments`, applied to a given response;
  - `format_contract_details`.
- **Support files**: `values.dfy`, `strings.dfy` and `sequences.dfy`. They hold the parts of Python
  the catalog relies on: truthiness, `==` with `True == 1`, `str()`, string order, `zfill`, `int()`
  of an ASCII string, comprehensions, stable `sorted(key=...)` and `sorted(set(...))`. `wrappers.dfy`
  holds `Option`, `Result` and one `Error` constructor per exception the core raises.

Where the source mutates state, the model does too:
- The class-level `_instances` lists become the classes `AssetRegistry` and `SymbolRegistry`, each
  with a `seq` field.
- `Contract._contracts_info` and `Contract.contracts` become `ContractRegistry`.
- The instance attribute `self.available_markets` (deriv/contract.py:125), which shadows the empty
  class attribute of deriv/contract.py:101, becomes the class `Instruments`, with a `map` field.
- Every loop that updates state is a `while` loop proved against a specification function. The
  read-only search loops of `get_type_by_name` (deriv/contract.py:42-45) and
  `get_contract_by_name` (deriv/contract.py:55-58) are the recursive functions `TypeByName` and
  `FirstNamed`.

The queries are pure functions of a registry's contents. Each comprehension-plus-`sorted` is
specified by "sorted by key, and a permutation of exactly the matching instances".

Three behaviours of the code that a reader might not expect:
- `populate` reads an active symbol's submarket from the field `sub_market`
  (deriv/symbol.py:394), not from `submarket`.
- `ActiveSymbol.find()` with no argument returns every instance, sorted, rather than nothing.
- `find` with a property value `'all'` always raises, because deriv/symbol.py:308 reads
  `count_values_as_all` before assigning it. The model returns `Err(UnboundAllCount)`.

## Model

| member | source | states |
|---|---|---|
| Util.CheckStr | deriv/util.py:1-5 | a value is returned exactly when it is a non-empty str, and is returned unchanged; anything else raises ValueError |
| Util.CheckDuration | deriv/util.py:8-28 | ('', '') exactly when both parts are falsy; raises exactly when one part alone is empty, or when the unit is not `==` to a listed unit; returns (int(digit), unit) for a positive number; returns None (the ValueError is swallowed) for a non-positive or non-numeric digit |
| Util.ParseDigits | deriv/util.py:20 | `int()` of a non-empty decimal digit string is the number it spells |
| Util.CheckDurationOfDigits | deriv/util.py:19-28 | a positive digit string with a listed unit yields (its number, unit) |
| Util.CheckDurationSwallows | deriv/util.py:19-25 | a zero or non-numeric digit string with a listed unit gives None instead of raising |
| Durations.UnitIndex | deriv/symbol.py:186 | the position of the unit in [t, s, m, h, d] |
| Durations.MakeInfo | deriv/symbol.py:186-189 | an accepted token has a positive magnitude and the rank of its unit |
| Durations.GetInfoDuration | deriv/symbol.py:178-189 | no duration exactly when both parts are None; a duration exactly when the digits are `[1-9]+0*` and the unit is one of t/s/m/h/d, with digit = int(digit), the unit's index and duration = digit + unit; ValueError otherwise |
| Durations.ValidTokenMatches | deriv/symbol.py:182-183 | every accepted token matches the duration pattern |
| Durations.ShortTokenHasShortKey | deriv/symbol.py:187 | for at most five digits the key is the rank digit followed by five digits spelling the magnitude |
| Durations.KeyOrderIsRankOrder | deriv/symbol.py:187 | for five-digit keys, str order of keys is exactly (unit rank, magnitude) order |
| Durations.SixDigitKeyInversion | deriv/symbol.py:187 | with six digits the order breaks: 100000 ticks gets a smaller key than 20000 ticks |
| Durations.GetMinMaxInfo | deriv/symbol.py:192-201 | no range exactly when all four parts are falsy; an invalid token raises; exactly one of min/max present raises; min's key above max's raises; otherwise both infos with min key <= max key |
| Durations.AcceptedRangeIsOrdered | deriv/symbol.py:199-201 | an accepted range of short tokens has min <= max in (unit rank, magnitude) |
| Assets.MakeAsset | deriv/symbol.py:25-62 | succeeds exactly when group and modality pass check_str and the range is valid; otherwise it raises that error; the key is group + modality, plus key_min + key_max when there is a duration |
| Assets.FindByKey | deriv/symbol.py:121-128 | None exactly when no instance has the key; otherwise an instance with that key; raises only when two instances share it, which a registry without repeated keys rules out |
| Assets.Register | deriv/symbol.py:64-85 | an existing key returns that instance and leaves the registry unchanged; a new key appends exactly the candidate; keys stay unique |
| Assets.Construct | deriv/symbol.py:25-85 | fails exactly when the fields are invalid; otherwise the returned asset is in the registry, carries the computed key, and the registry is unchanged or grows by that asset alone; when no instance had that key, the new asset itself is appended and returned |
| Assets.ConstructIdempotent | deriv/symbol.py:64-85 | building the same asset again returns the same instance and changes nothing |
| Assets.AssetRegistry.Clear | deriv/symbol.py:117-118 | the registry is empty |
| Assets.AssetRegistry.New | deriv/symbol.py:25-85 | the new registry and the result are those of `Construct`; keys stay unique; a returned asset was either already registered (nothing changes) or appended as the only new instance with no earlier instance sharing its key |
| Assets.GetAll | deriv/symbol.py:139-140 | the instances sorted by key, as a permutation |
| Assets.GetAllKeys | deriv/symbol.py:143-144 | one key per instance, in non-decreasing order, and exactly the registry's keys |
| Assets.GetByGroup | deriv/symbol.py:147-149 | sorted by key; each instance kept as often as it occurs when its group matches (case-insensitive search, or full match when restricted), otherwise dropped |
| Assets.GetByModality | deriv/symbol.py:152-154 | the same for the modality |
| Assets.RestrictedModalityIsNarrower | deriv/symbol.py:152-154 | every asset found with restrict=True is also found without it |
| Assets.GetByDuration | deriv/symbol.py:157-165 | [] when no duration is given; an invalid duration raises; otherwise sorted by key and exactly the assets whose range fits: within one unit (index_min == index_max == index and digit_min <= digit <= digit_max) or across units (key_min <= key <= key_max) |
| Assets.FitsAcrossUnitsIsRankRange | deriv/symbol.py:163 | with five-digit keys, matching across units means min <= duration <= max in (unit rank, magnitude) |
| Assets.FitsInUnitsImpliesAcross | deriv/symbol.py:161-163 | with five-digit keys, every match within a unit is also a match across units |
| Assets.CrossUnitExample | deriv/symbol.py:161-163 | an asset ranging from 1m to 1d matches 2h across units but not within units |
| Assets.GetGroups | deriv/symbol.py:168-169 | strictly increasing, and exactly the groups of the instances |
| Assets.GetModalities | deriv/symbol.py:172-173 | strictly increasing, and exactly the modalities of the instances |
| ActiveSymbols.KeySeparatesFlags | deriv/symbol.py:211 | two symbols whose open or suspended flags differ in truth never share a key |
| ActiveSymbols.SelectByProps | deriv/symbol.py:326-336 | the `reduce` keeps each instance, as often as it occurs, exactly when every property argument matches; sortedness is preserved |
| ActiveSymbols.ApplyFilter | deriv/symbol.py:338-344 | a flag filter on a symbol list keeps, in order, exactly the symbols whose flag is `==` the value, as often as they occur; `assets` pairs every symbol with its own assets, in order; any other name changes nothing; it raises AttributeError exactly for a flag or `assets` filter on a non-empty pair list |
| ActiveSymbols.ApplyFilters | deriv/symbol.py:338-346 | the filter loop in call order keeps only members of its input, keeps a result well formed, and raises only AttributeError |
| ActiveSymbols.ApplyFiltersConcat | deriv/symbol.py:338-344 | running the loop over two runs of filters is running it over the first, then, unless it raised, over the second |
| ActiveSymbols.FlagFiltersSelect | deriv/symbol.py:338-342 | without an `assets` filter the loop keeps, in order, exactly the symbols that every flag filter matches, as often as they occur |
| ActiveSymbols.FiltersOnPairs | deriv/symbol.py:338-344 | once the result is a non-empty pair list, the loop raises exactly when a filter argument is left, and otherwise returns the pairs unchanged |
| ActiveSymbols.KeyRepeats | deriv/symbol.py:321-323 | the key comprehension over the sorted instances keeps two or more exactly when two registered instances carry the key |
| ActiveSymbols.FindKey | deriv/symbol.py:321-324 | exactly the instances with the key, sorted; raises exactly when two instances carry the key; at most one in a registry without repeated keys |
| ActiveSymbols.CheckKwargs | deriv/symbol.py:291-311 | an unknown keyword raises InvalidKeyword exactly when present; the arguments pass exactly when each is a known name with a bool-or-falsy flag or a non-empty str property other than 'all'; UnboundAllCount exactly when every argument passes or is a property equal to 'all', and at least one is such a property |
| ActiveSymbols.KeySearch | deriv/symbol.py:318-324 | raises KeyCombined exactly when another property is given with `key`; otherwise raises exactly when two instances carry the key, and returns exactly the registered instances with that key, sorted |
| ActiveSymbols.PropSearch | deriv/symbol.py:286 | the property search returns registered instances sorted by key |
| ActiveSymbols.FindSpec | deriv/symbol.py:281-346 | no arguments give every instance, sorted by key, as a permutation; an unknown keyword raises InvalidKeyword exactly when present; every result holds only registered instances, with a symbol list sorted by key and every pair holding its symbol's own assets |
| ActiveSymbols.FindOnlyKey | deriv/symbol.py:316-324 | find(key=k) is exactly the key lookup: the instances with that key, or MultipleInstances when it is repeated |
| ActiveSymbols.FindUniqueKey | deriv/symbol.py:321-324 | in a registry without repeated keys, find(key=k) returns at most one instance, exactly the ones whose key is k, and [] exactly when none has it |
| ActiveSymbols.FindIsConjunctive | deriv/symbol.py:326-336 | property arguments combine with AND: find keeps exactly the instances for which every property matches (equality, or case-insensitive search when restrict=True), sorted by key |
| ActiveSymbols.FindByFlag | deriv/symbol.py:338-342 | find(exchange_is_open=v) and find(is_trading_suspended=v), for a bool or falsy v, keep exactly the instances whose flag is `==` v, as often as they occur, sorted by key |
| ActiveSymbols.FindAllRaises | deriv/symbol.py:306-307 | find(p='all') for any property p raises, because `count_values_as_all` is read before it is bound |
| ActiveSymbols.FindKeyWithProperty | deriv/symbol.py:318-319 | find(key=k, p=v) with another property p raises the key-combination ValueError |
| ActiveSymbols.FilterAfterAssetsFails | deriv/symbol.py:338-344 | on a non-empty registry, find(assets=True, exchange_is_open=True) raises AttributeError, because the flag filter reads a (symbol, assets) pair |
| ActiveSymbols.RegisterSymbol | deriv/symbol.py:207-230 | an invalid symbol raises; otherwise a new key appends exactly one instance carrying the key, the checked symbol, the display name, both flags and the four market fields as given, and the assets sorted by key as a permutation; an existing key appends nothing and returns find's one-element list; keys stay unique |
| ActiveSymbols.SymbolRegistry.Clear | deriv/symbol.py:277-278 | the registry is empty |
| ActiveSymbols.SymbolRegistry.Find | deriv/symbol.py:281-346 | the filter loop returns `FindSpec` of the registry |
| ActiveSymbols.SymbolRegistry.New | deriv/symbol.py:207-230 | the result and the new registry are those of `RegisterSymbol`; keys stay unique |
| ActiveSymbols.GetAvailableSymbols | deriv/symbol.py:349-350 | sorted by key, and exactly the instances that are open and not suspended |
| ActiveSymbols.GetAssetsBySymbol | deriv/symbol.py:353-354 | every instance with that symbol, paired with its own assets, and nothing else |
| ActiveSymbols.KeepAssets | deriv/symbol.py:359 | exactly the symbol's assets whose key is listed, in their order; non-empty exactly when one is |
| ActiveSymbols.JoinByKeys | deriv/symbol.py:359 | every symbol with a listed asset, paired with exactly its listed assets, and no symbol without one |
| ActiveSymbols.FilterSymbolsByType | deriv/symbol.py:357-359 | only registered symbols, each with a non-empty asset list |
| ActiveSymbols.GetSymbolsByDuration | deriv/symbol.py:362-364 | raises exactly when the duration is invalid; [] when none is given; only registered symbols, each with a non-empty asset list |
| ActiveSymbols.JoinSelects | deriv/symbol.py:358-359 | against registered assets, joining through keys keeps for each symbol exactly its selected assets, and keeps every symbol that has one |
| ActiveSymbols.FilterSymbolsByTypeSelects | deriv/symbol.py:357-359 | each returned symbol carries exactly its assets of the modality, and every symbol with such an asset is returned |
| ActiveSymbols.GetSymbolsByDurationSelects | deriv/symbol.py:362-364 | each returned symbol carries exactly its assets whose range the duration fits, and every symbol with such an asset is returned |
| Catalog.SplitToken | deriv/symbol.py:375-378 | a falsy token gives (None, None); otherwise digits and a one-character unit that concatenate back to the token |
| Catalog.ParamConstruct | deriv/symbol.py:372-378 | building one contract entry's asset fails exactly as the asset's fields do; the registry only grows and keeps unique keys |
| Catalog.BuildAssets | deriv/symbol.py:372-378 | the comprehension succeeds exactly when every entry is valid, and otherwise raises the error of the first invalid entry; one asset per entry, in order, each carrying its entry's key; the registry only grows, even on error |
| Catalog.FirstFailureIndex | deriv/symbol.py:372-378 | the error `BuildAssets` reports is that of an entry that fails while every entry before it succeeds, and each such entry makes `FirstFailure` hold |
| Catalog.KeysFollowIndex | deriv/symbol.py:372-378 | `KeysFollow` holds exactly when asset `from + i` carries the key built for entry `i`, for every entry |
| Catalog.BuiltAssetsAreRegistered | deriv/symbol.py:372-378 | every asset the comprehension builds is in the registry |
| Catalog.SetDefault | deriv/symbol.py:380 | `setdefault`: an existing key leaves the dict unchanged (first write wins); a new key is appended last |
| Catalog.SetActive | deriv/symbol.py:397-402 | the six `setdefault` calls set the active fields the first time and leave them unchanged afterwards, touching no other item |
| Catalog.IndexPass | deriv/symbol.py:369-382 | the first loop raises exactly when some contract entry is invalid; the registry and the dict only grow, keeping their keys unique |
| Catalog.IndexPassKeys | deriv/symbol.py:369-382 | afterwards the dict holds exactly the symbols it held and those of the index |
| Catalog.BuiltEntryAssets | deriv/symbol.py:372-382 | the sorted list stored for an entry holds one asset per contract entry, sorted by key, its keys being exactly those the contract entries describe |
| Catalog.IndexPassNewEntries | deriv/symbol.py:380-382 | each symbol added has the display name and the sorted assets of its FIRST index entry's contract entries, and no active fields yet |
| Catalog.IndexPassRegisters | deriv/symbol.py:372-382 | every asset kept in the dict is in the asset registry |
| Catalog.ActivePass | deriv/symbol.py:384-402 | raises exactly when some active symbol is missing from the dict; otherwise changes no key, display name or asset list, and gives each symbol the fields of its FIRST active entry |
| Catalog.SymbolPass | deriv/symbol.py:404-414 | the third loop raises exactly when some dict key is not a non-empty str; otherwise every item has an instance under its key; the registry only grows and keeps unique keys |
| Catalog.SymbolPassCreates | deriv/symbol.py:404-414 | an item whose key no earlier instance and no earlier item carries gets an instance under that key, and every instance under that key carries the item's display name, its assets (sorted, as a permutation), its open and suspended flags, and its market and submarket names and display names |
| Catalog.SymbolPassRegisters | deriv/symbol.py:404-414 | the symbols created carry only registered assets |
| Catalog.PopulateSpec | deriv/symbol.py:367-414 | both registries only grow and keep unique keys |
| Catalog.PopulateUnknownSymbol | deriv/symbol.py:386-388 | an active symbol missing from the asset index makes populate raise, leaving the symbol registry unchanged |
| Catalog.PassesBeforeSymbols | deriv/symbol.py:369-402 | with valid entries and every active symbol listed, the first two passes succeed, and the dict lists each index symbol with its first active entry |
| Catalog.PopulateRegistersEverySymbol | deriv/symbol.py:404-414 | under those conditions populate raises nothing, and every index symbol has an instance under the key built from its first active entry, or from None flags when it has none |
| Catalog.PopulateCarriesFirstEntry | deriv/symbol.py:369-414 | on an empty symbol registry, under those conditions and with distinct expected keys, the instance under a symbol's key carries the display name of the symbol's first contract entry, and its assets are sorted by key, as many as that entry's contract items, and carry exactly the keys those items build |
| Catalog.PopulateKeepsAssetsRegistered | deriv/symbol.py:367-414 | whether or not populate raises, every asset of every symbol is a registered asset |
| Catalog.BuildAssetList | deriv/symbol.py:372-378 | the comprehension's loop over the registry computes `BuildAssets` |
| Catalog.IndexLoop | deriv/symbol.py:369-382 | the first loop computes `IndexPass` |
| Catalog.ActiveLoop | deriv/symbol.py:384-402 | the second loop computes `ActivePass` |
| Catalog.SymbolLoop | deriv/symbol.py:404-414 | the third loop computes `SymbolPass` |
| Catalog.Populate | deriv/symbol.py:367-414 | the two registries and the raised error are those of `PopulateSpec`, and both registries keep unique keys |
| Contracts.AddContractsSpec | deriv/contract.py:22-27 | raises exactly when the name is registered under another type; otherwise adds the name to its type's set (creating the type last when new) and changes no other type; keeps names unique across types |
| Contracts.AddContractsIdempotent | deriv/contract.py:27 | adding a pair again changes nothing |
| Contracts.TypeByName | deriv/contract.py:42-45 | the first listed type holding the name (no earlier type holds it), or none exactly when no type holds it |
| Contracts.TypeByNameIsUnique | deriv/contract.py:40-45 | in a valid registry, a type holding the name is the one found |
| Contracts.FirstNamed | deriv/contract.py:55-58 | the first instance with the name, or none when there is none |
| Contracts.ContractRegistry.AddContracts | deriv/contract.py:22-27 | the loop and update give `AddContractsSpec` of the old registry, leaving it unchanged on error; instances unchanged; the invariant is kept |
| Contracts.ContractRegistry.NewContract | deriv/contract.py:13-19 | raises exactly when the pair is not registered; otherwise appends exactly that one instance |
| Contracts.ContractRegistry.GetTypes | deriv/contract.py:30-32 | exactly the registered types, each once |
| Contracts.ContractRegistry.GetNames | deriv/contract.py:35-37 | exactly the names of all types |
| Contracts.ContractRegistry.GetTypeByName | deriv/contract.py:40-45 | False (None) exactly when no type holds the name; otherwise the one type that holds it |
| Contracts.ContractRegistry.GetNamesByType | deriv/contract.py:48-50 | False (None) exactly for an unregistered type; otherwise exactly the names whose type is that type |
| Contracts.ContractRegistry.GetContractByName | deriv/contract.py:53-58 | False (None) exactly when no instance has the name; otherwise an instance with it, whose type is the name's type |
| Contracts.ContractRegistry.GetContractsByType | deriv/contract.py:69-73 | False (None) exactly for an unregistered type; otherwise exactly the instances of that type, as often as they occur, in their order of creation |
| Contracts.ContractRegistry.GetContractsSameTypeByName | deriv/contract.py:61-66 | False (None) exactly when the name has no truthy type; otherwise instances of the name's type only |
| Contracts.SameTypeByNameIsByType | deriv/contract.py:61-73 | the instances sharing a name's type are exactly `get_contracts_by_type` of that type, and each has a name of that type |
| Contracts.AggregateStepEffect | deriv/contract.py:129-150 | one iteration creates entries only for a truthy market and submarket, starting "close"; it turns them "open" for an open instrument; nothing else changes |
| Contracts.AggregateEntries | deriv/contract.py:128-146 | a market or submarket has an entry exactly when some instrument names it with both market and submarket truthy |
| Contracts.AggregateStatus | deriv/contract.py:147-150 | a market or submarket is "open" exactly when some instrument in it has `open == 1` |
| Contracts.FilterSymbols | deriv/contract.py:153-159 | succeeds exactly when every selected instrument has a symbol; otherwise KeyError |
| Contracts.FilterSymbolsSelects | deriv/contract.py:153-159 | the result is exactly the symbols of the instruments matching the filters given, in input order |
| Contracts.UnfilteredListsEverySymbol | deriv/contract.py:153-159 | with no filter, every instrument's symbol in order |
| Contracts.Instruments.FetchInstruments | deriv/contract.py:118-161 | a dead connection raises and changes nothing; otherwise `available_markets` becomes `Aggregate` of the instruments and the result is `FilterSymbols` |
| Contracts.Instruments.AggregateMarkets | deriv/contract.py:125-150 | the aggregation loop rebuilds `available_markets` as `Aggregate` |
| Contracts.Instruments.SelectSymbols | deriv/contract.py:153-161 | the filter loop computes `FilterSymbols` |
| Contracts.DetailsOf | deriv/contract.py:215-221 | a present field is copied and a missing one takes the default "N/A" (0 for the stake); the duration text is str(min) + " a " + str(max), with "N/A" for a missing bound |
| Contracts.LastOfType | deriv/contract.py:213-215 | the last entry of that contract type, or none when none has it |
| Contracts.Format | deriv/contract.py:212-222 | one key exactly per contract type present ("unknown" when missing), holding the details of the LAST entry of that type |
| Contracts.FormatContractDetails | deriv/contract.py:200-222 | {} for a non-list; otherwise the loop computes `Format` |

## Left out

- Network, asyncio, printing and the connection: `fetch_instruments` receives the response's
  instruments and the connection's liveness as parameters. `get_contract_details`,
  `get_asset_index`, `set_connection`, `line`, the `show_*` helpers and `main` are not modelled.
- The `ContractTypes` stub (deriv/contract.py:88-95) does nothing and is not modelled.
- Regular expressions: patterns are taken as literal text. A search is a case-insensitive substring
  test and a full match is case-insensitive equality, both on ASCII letters only.
- `_str_repr` and its width formatting are not modelled, and neither is the `only_key=False` branch
  of `Asset.find` (deriv/symbol.py:129-136), which searches that text. No other code calls that branch.
- ActiveSymbols.FindSpec: the `'all'` branch (deriv/symbol.py:307-313) raises
  UnboundLocalError before it does anything else. The model gives `Err(UnboundAllCount)` and does not
  model the attribute list the branch was meant to return.
- Util.ParseInt: `int()` is modelled on ASCII text. Python also accepts Unicode whitespace around the
  number and the decimal digits of other scripts, which the model rejects. Util.CheckDuration follows it.
- ActiveSymbols.GetAssetsBySymbol, ActiveSymbols.JoinByKeys: membership is stated, not the order of
  the pairs (the registry's order) or that each symbol appears once per instance.
- Values: only None, bool, int and str are modelled. Floats (the `default_stake` of a contract detail),
  lists and dicts as argument values are not.
- Dictionary keys: Python merges `True` with `1` as dict keys. The model compares `symbols_dict`
  keys and `format_contract_details` keys structurally.
- Contracts.ContractRegistry.GetNames: a set, because the source lists the names in the iteration
  order of Python sets, which is not modelled.
- Contracts.Instruments.AggregateMarkets: `available_markets` is a `map`, so the insertion order of
  its keys is not modelled. The same holds for the dict `Contracts.Format` returns.
- Catalog.PopulateRegistersEverySymbol: states that each index symbol has an instance under its
  expected key. It does not state one instance per distinct symbol, because the key is a plain
  concatenation, so two different symbols can collide on it. `PopulateCarriesFirstEntry` states
  the instance's fields only when the expected keys are distinct and the symbol registry starts
  empty; with a collision, or with an earlier instance under the key, the existing instance is
  returned and its fields are those of whoever created it.
- Catalog.SymbolPass: its own contract states keys only. The fields of a newly created instance
  are stated by the lemma `SymbolPassCreates`, for an item whose key is new.
- Contracts.FilterSymbols: `Instrument.symbol` is an `Option`, so an instrument dict whose
  `"symbol"` key is present with the value None is modelled as absent. The source then appends
  None (deriv/contract.py:159) rather than raising KeyError.
- Catalog.Populate: the registries are not cleared first, as in the source. Their earlier contents
  are an input of the model.
- Assets.AssetRegistry.New, ActiveSymbols.SymbolRegistry.New: both require a registry without
  repeated keys. Every operation of the model keeps that invariant. On a registry that broke it, the
  source's `find` would raise.
