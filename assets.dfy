/** `Asset` of deriv/symbol.py: one trading parameter (a contract group, a
    modality and an optional duration range), kept in a get-or-create registry
    keyed by a string, and the queries over that registry. */
module Assets {
  import opened Wrappers
  import opened Strings
  import opened Values
  import opened Sequences
  import opened Util
  import opened Durations

  datatype Asset = Asset(group: string, modality: string, range: Option<MinMax>, key: string)

  function AssetKey(a: Asset): string { a.key }

  predicate HasDuration(a: Asset) { a.range.Some? }

  /** The fields `Asset.__new__` computes before it looks the key up. */
  function MakeAsset(group: Value, modality: Value, digitMin: Option<string>, unitMin: Option<string>,
                     digitMax: Option<string>, unitMax: Option<string>): (r: Result<Asset>)
    ensures r.Ok? <==> CheckStr(group).Ok? && CheckStr(modality).Ok? &&
                       GetMinMaxInfo(digitMin, unitMin, digitMax, unitMax).Ok?
    ensures CheckStr(group).Err? || CheckStr(modality).Err? ==> r == Err(InvalidString)
    ensures CheckStr(group).Ok? && CheckStr(modality).Ok? && GetMinMaxInfo(digitMin, unitMin, digitMax, unitMax).Err? ==>
            r == Err(GetMinMaxInfo(digitMin, unitMin, digitMax, unitMax).error)
    ensures r.Ok? ==>
            && Str(r.value.group) == group && Str(r.value.modality) == modality
            && r.value.range == GetMinMaxInfo(digitMin, unitMin, digitMax, unitMax).value
            && r.value.key == r.value.group + r.value.modality +
                              (if HasDuration(r.value) then r.value.range.value.min.key + r.value.range.value.max.key else "")
  {
    var g := CheckStr(group);
    if g.Err? then Err(g.error)
    else
      var m := CheckStr(modality);
      if m.Err? then Err(m.error)
      else
        var info := GetMinMaxInfo(digitMin, unitMin, digitMax, unitMax);
        if info.Err? then Err(info.error)
        else
          var key := g.value + m.value;
          match info.value
          case None => Ok(Asset(g.value, m.value, None, key))
          case Some(mm) => Ok(Asset(g.value, m.value, Some(mm), key + mm.min.key + mm.max.key))
  }

  // ---------------------------------------------------------------------
  // The registry `Asset._instances`

  predicate KeyIs(a: Asset, value: string) { a.key == value }

  /** `Asset.find(value, only_key=True)`. */
  function FindByKey(insts: seq<Asset>, value: string): (r: Result<Option<Asset>>)
    ensures r == Ok(None) <==> forall a :: a in insts ==> a.key != value
    ensures r.Ok? && r.value.Some? ==> r.value.value in insts && r.value.value.key == value
    ensures r.Err? ==> r.error == MultipleInstances &&
                       exists i, j :: 0 <= i < j < |insts| && insts[i].key == value && insts[j].key == value
    ensures UniqueKeys(insts, AssetKey) ==> r.Ok?
  {
    var matches := Filter(insts, a => KeyIs(a, value));
    if |matches| == 0 then
      assert forall a :: a in insts ==> a.key != value by {
        forall a | a in insts ensures a.key != value {
          assert multiset(matches)[a] == 0;
        }
      }
      Ok(None)
    else if |matches| > 1 then
      FilterTwoMatches(insts, a => KeyIs(a, value));
      Err(MultipleInstances)
    else
      assert matches[0] in matches;
      Ok(Some(matches[0]))
  }

  /** Get-or-create on a registry without repeated keys: an asset with the same key
      is returned and nothing changes; otherwise the candidate is appended. */
  function Register(insts: seq<Asset>, cand: Asset): (r: (seq<Asset>, Asset))
    requires UniqueKeys(insts, AssetKey)
    ensures UniqueKeys(r.0, AssetKey)
    ensures r.1 in r.0 && r.1.key == cand.key
    ensures (exists a :: a in insts && a.key == cand.key) ==> r.0 == insts
    ensures (forall a :: a in insts ==> a.key != cand.key) ==> r.0 == insts + [cand] && r.1 == cand
  {
    var found := FindByKey(insts, cand.key);
    if found.Ok? && found.value.Some? then (insts, found.value.value)
    else
      var s := insts + [cand];
      assert forall i :: 0 <= i < |insts| ==> s[i] == insts[i] && s[i] in insts;
      (s, cand)
  }

  /** `Asset(group=..., ...)` against a registry: the error, or the new registry and
      the asset handed back. */
  function Construct(insts: seq<Asset>, group: Value, modality: Value, digitMin: Option<string>, unitMin: Option<string>,
                     digitMax: Option<string>, unitMax: Option<string>): (r: Result<(seq<Asset>, Asset)>)
    requires UniqueKeys(insts, AssetKey)
    ensures r.Err? <==> MakeAsset(group, modality, digitMin, unitMin, digitMax, unitMax).Err?
    ensures r.Ok? ==> UniqueKeys(r.value.0, AssetKey) && r.value.1 in r.value.0 &&
                      (r.value.0 == insts || r.value.0 == insts + [r.value.1])
    ensures r.Ok? ==> r.value.1.key == MakeAsset(group, modality, digitMin, unitMin, digitMax, unitMax).value.key
    ensures r.Ok? && (forall a :: a in insts ==> a.key != r.value.1.key) ==>
            var made := MakeAsset(group, modality, digitMin, unitMin, digitMax, unitMax).value;
            r.value == (insts + [made], made)
  {
    var cand := MakeAsset(group, modality, digitMin, unitMin, digitMax, unitMax);
    if cand.Err? then Err(cand.error) else Ok(Register(insts, cand.value))
  }

  /** Building an asset a second time with the same arguments changes nothing and
      returns the same asset. */
  lemma ConstructIdempotent(insts: seq<Asset>, group: Value, modality: Value, digitMin: Option<string>, unitMin: Option<string>,
                            digitMax: Option<string>, unitMax: Option<string>)
    requires UniqueKeys(insts, AssetKey)
    requires Construct(insts, group, modality, digitMin, unitMin, digitMax, unitMax).Ok?
    ensures var (s, a) := Construct(insts, group, modality, digitMin, unitMin, digitMax, unitMax).value;
            Construct(s, group, modality, digitMin, unitMin, digitMax, unitMax) == Ok((s, a))
  {
    var (s, a) := Construct(insts, group, modality, digitMin, unitMin, digitMax, unitMax).value;
    var cand := MakeAsset(group, modality, digitMin, unitMin, digitMax, unitMax).value;
    var found := FindByKey(s, cand.key);
    assert found.Ok? && found.value.Some?;
  }

  class AssetRegistry {
    var instances: seq<Asset>

    ghost predicate Valid()
      reads this
    {
      UniqueKeys(instances, AssetKey)
    }

    constructor ()
      ensures Valid() && instances == []
    {
      instances := [];
    }

    /** `Asset.clear()` */
    method Clear()
      modifies this
      ensures Valid() && instances == []
    {
      instances := [];
    }

    /** `Asset.__new__` */
    method New(group: Value, modality: Value, digitMin: Option<string>, unitMin: Option<string>,
               digitMax: Option<string>, unitMax: Option<string>) returns (r: Result<Asset>)
      requires Valid()
      modifies this
      ensures Valid()
      ensures var c := Construct(old(instances), group, modality, digitMin, unitMin, digitMax, unitMax);
              if c.Err? then r == Err(c.error) && instances == old(instances)
              else r == Ok(c.value.1) && instances == c.value.0
      ensures r.Ok? ==> r.value in instances &&
                        ((r.value in old(instances) && instances == old(instances)) ||
                         (instances == old(instances) + [r.value] && forall a :: a in old(instances) ==> a.key != r.value.key))
    {
      var cand := MakeAsset(group, modality, digitMin, unitMin, digitMax, unitMax);
      if cand.Err? {
        r := Err(cand.error);
        return;
      }
      var found := FindByKey(instances, cand.value.key);
      if found.Ok? && found.value.Some? {
        r := Ok(found.value.value);
      } else {
        instances := instances + [cand.value];
        r := Ok(cand.value);
      }
    }
  }

  // ---------------------------------------------------------------------
  // Queries

  /** `Asset.get_all()` */
  function GetAll(insts: seq<Asset>): (r: seq<Asset>)
    ensures SortedBy(r, AssetKey) && multiset(r) == multiset(insts)
  {
    SortByKey(insts, AssetKey)
  }

  /** `Asset.get_all_keys()` */
  function GetAllKeys(insts: seq<Asset>): (r: seq<string>)
    ensures |r| == |insts|
    ensures forall i, j :: 0 <= i < j < |r| ==> LexLe(r[i], r[j])
    ensures forall k :: k in r <==> exists a :: a in insts && a.key == k
  {
    var all := GetAll(insts);
    var r := seq(|all|, i requires 0 <= i < |all| => all[i].key);
    assert forall i :: 0 <= i < |all| ==> r[i] == AssetKey(all[i]);
    KeysOfPermutation(insts, all, r);
    r
  }

  /** The keys listed for a permutation of the registry are the registry's keys. */
  lemma KeysOfPermutation(insts: seq<Asset>, all: seq<Asset>, r: seq<string>)
    requires multiset(all) == multiset(insts) && |r| == |all|
    requires forall i :: 0 <= i < |all| ==> r[i] == all[i].key
    ensures forall k :: k in r <==> exists a :: a in insts && a.key == k
  {
    forall k ensures k in r <==> exists a :: a in insts && a.key == k {
      if k in r {
        var i :| 0 <= i < |r| && r[i] == k;
        assert all[i] in multiset(all);
      }
      if exists a :: a in insts && a.key == k {
        var a :| a in insts && a.key == k;
        assert a in multiset(all);
        var i :| 0 <= i < |all| && all[i] == a;
        assert r[i] == k;
      }
    }
  }

  /** `re.search(pattern, text, re.I)`, or `re.fullmatch` when restricted, for a literal pattern. */
  predicate TextMatches(text: string, pattern: string, restrict: bool)
  {
    if restrict then EqualsIgnoreCase(text, pattern) else ContainsIgnoreCase(text, pattern)
  }

  predicate GroupMatches(a: Asset, group: string, restrict: bool) { TextMatches(a.group, group, restrict) }

  predicate ModalityMatches(a: Asset, modality: string, restrict: bool) { TextMatches(a.modality, modality, restrict) }

  /** `Asset.get_by_group(group, restrict=...)` */
  function GetByGroup(insts: seq<Asset>, group: string, restrict: bool): (r: seq<Asset>)
    ensures SortedBy(r, AssetKey)
    ensures forall a :: multiset(r)[a] == if GroupMatches(a, group, restrict) then multiset(insts)[a] else 0
  {
    SortByKey(Filter(insts, a => GroupMatches(a, group, restrict)), AssetKey)
  }

  /** `Asset.get_by_modality(modality, restrict=...)` */
  function GetByModality(insts: seq<Asset>, modality: string, restrict: bool): (r: seq<Asset>)
    ensures SortedBy(r, AssetKey)
    ensures forall a :: multiset(r)[a] == if ModalityMatches(a, modality, restrict) then multiset(insts)[a] else 0
  {
    SortByKey(Filter(insts, a => ModalityMatches(a, modality, restrict)), AssetKey)
  }

  /** A full match is also a match by search. */
  lemma RestrictedModalityIsNarrower(insts: seq<Asset>, modality: string)
    ensures forall a :: a in GetByModality(insts, modality, true) ==> a in GetByModality(insts, modality, false)
  {
    forall a | a in GetByModality(insts, modality, true)
      ensures a in GetByModality(insts, modality, false)
    {
      assert a in multiset(GetByModality(insts, modality, true));
      EqualsIgnoreCaseImpliesContains(a.modality, modality);
      assert a in multiset(GetByModality(insts, modality, false));
    }
  }

  /** The duration's unit is the asset's one unit and its magnitude lies in the range. */
  predicate FitsInUnits(a: Asset, d: DurationInfo)
  {
    && a.range.Some?
    && a.range.value.min.index == a.range.value.max.index == d.index
    && a.range.value.min.digit <= d.digit <= a.range.value.max.digit
  }

  /** The duration's key lies between the range's keys. */
  predicate FitsAcrossUnits(a: Asset, d: DurationInfo)
  {
    a.range.Some? && LexLe(a.range.value.min.key, d.key) && LexLe(d.key, a.range.value.max.key)
  }

  predicate Fits(a: Asset, d: DurationInfo, fitInUnits: bool)
  {
    if fitInUnits then FitsInUnits(a, d) else FitsAcrossUnits(a, d)
  }

  /** `Asset.get_by_duration(digit=..., unit=..., fit_in_units=...)` */
  function GetByDuration(insts: seq<Asset>, digit: Option<string>, unit: Option<string>, fitInUnits: bool): (r: Result<seq<Asset>>)
    ensures r.Err? <==> GetInfoDuration(digit, unit).Err?
    ensures r.Err? ==> r.error == InvalidDuration
    ensures digit.None? && unit.None? ==> r == Ok([])
    ensures r.Ok? && GetInfoDuration(digit, unit).value.Some? ==>
            var d := GetInfoDuration(digit, unit).value.value;
            && SortedBy(r.value, AssetKey)
            && forall a :: multiset(r.value)[a] == if Fits(a, d, fitInUnits) then multiset(insts)[a] else 0
  {
    var info := GetInfoDuration(digit, unit);
    if info.Err? then Err(info.error)
    else
      match info.value
      case None => Ok([])
      case Some(d) => Ok(SortByKey(Filter(insts, a => Fits(a, d, fitInUnits)), AssetKey))
  }

  /** Both bounds of a range and the queried duration have five-digit keys. */
  predicate ShortRange(a: Asset)
  {
    a.range.Some? && ShortKey(a.range.value.min) && ShortKey(a.range.value.max)
  }

  /** With short keys, matching across units is matching by (unit rank, magnitude). */
  lemma FitsAcrossUnitsIsRankRange(a: Asset, d: DurationInfo)
    requires ShortRange(a) && ShortKey(d)
    ensures FitsAcrossUnits(a, d) <==> RankLe(a.range.value.min, d) && RankLe(d, a.range.value.max)
  {
    KeyOrderIsRankOrder(a.range.value.min, d);
    KeyOrderIsRankOrder(d, a.range.value.max);
  }

  /** With short keys, an asset matched within units is also matched across units. */
  lemma FitsInUnitsImpliesAcross(a: Asset, d: DurationInfo)
    requires ShortRange(a) && ShortKey(d) && FitsInUnits(a, d)
    ensures FitsAcrossUnits(a, d)
  {
    FitsAcrossUnitsIsRankRange(a, d);
  }

  /** An asset from one-minute to one-day contracts takes two hours across units, but
      not within units. */
  lemma CrossUnitExample()
    ensures MakeAsset(Str("callput"), Str("rise_fall"), Some("1"), Some("m"), Some("1"), Some("d")).Ok?
    ensures GetInfoDuration(Some("2"), Some("h")).Ok? && GetInfoDuration(Some("2"), Some("h")).value.Some?
    ensures FitsAcrossUnits(MakeAsset(Str("callput"), Str("rise_fall"), Some("1"), Some("m"), Some("1"), Some("d")).value,
                            GetInfoDuration(Some("2"), Some("h")).value.value)
    ensures !FitsInUnits(MakeAsset(Str("callput"), Str("rise_fall"), Some("1"), Some("m"), Some("1"), Some("d")).value,
                         GetInfoDuration(Some("2"), Some("h")).value.value)
  {
    ExampleKeys();
    var lo, hi, d := MakeInfo("1", "m"), MakeInfo("1", "d"), MakeInfo("2", "h");
    assert GetMinMaxInfo(Some("1"), Some("m"), Some("1"), Some("d")) == Ok(Some(MinMax(lo, hi)));
  }

  lemma ExampleKeys()
    ensures ValidToken("1", "m") && ValidToken("1", "d") && ValidToken("2", "h")
    ensures LexLe(MakeInfo("1", "m").key, MakeInfo("1", "d").key)
    ensures LexLe(MakeInfo("1", "m").key, MakeInfo("2", "h").key)
    ensures LexLe(MakeInfo("2", "h").key, MakeInfo("1", "d").key)
    ensures MakeInfo("1", "m").index == 2 && MakeInfo("2", "h").index == 3
  {
    assert ValidToken("1", "m") && ValidToken("1", "d") && ValidToken("2", "h");
    var lo, hi, d := MakeInfo("1", "m"), MakeInfo("1", "d"), MakeInfo("2", "h");
    assert lo.key == "200001" && hi.key == "400001" && d.key == "300002";
  }

  /** `Asset.get_groups()` */
  function GetGroups(insts: seq<Asset>): (r: seq<string>)
    ensures StrictlySorted(r)
    ensures forall g :: g in r <==> exists a :: a in insts && a.group == g
  {
    var groups := seq(|insts|, i requires 0 <= i < |insts| => insts[i].group);
    assert forall g :: g in groups <==> exists a :: a in insts && a.group == g by {
      forall g ensures g in groups <==> exists a :: a in insts && a.group == g {
        if g in groups {
          var i :| 0 <= i < |groups| && groups[i] == g;
          assert insts[i] in insts;
        }
        if exists a :: a in insts && a.group == g {
          var a :| a in insts && a.group == g;
          var i :| 0 <= i < |insts| && insts[i] == a;
          assert groups[i] == g;
        }
      }
    }
    SortedDistinct(groups)
  }

  /** `Asset.get_modalities()` */
  function GetModalities(insts: seq<Asset>): (r: seq<string>)
    ensures StrictlySorted(r)
    ensures forall m :: m in r <==> exists a :: a in insts && a.modality == m
  {
    var modalities := seq(|insts|, i requires 0 <= i < |insts| => insts[i].modality);
    assert forall m :: m in modalities <==> exists a :: a in insts && a.modality == m by {
      forall m ensures m in modalities <==> exists a :: a in insts && a.modality == m {
        if m in modalities {
          var i :| 0 <= i < |modalities| && modalities[i] == m;
          assert insts[i] in insts;
        }
        if exists a :: a in insts && a.modality == m {
          var a :| a in insts && a.modality == m;
          var i :| 0 <= i < |insts| && insts[i] == a;
          assert modalities[i] == m;
        }
      }
    }
    SortedDistinct(modalities)
  }
}
