/** The duration helpers of `Asset` (deriv/symbol.py, get_info_duration and
    get_min_max_info): a `<digits><unit>` token is validated, ranked by its unit
    and given a string key whose str order is the order of durations. */
module Durations {
  import opened Wrappers
  import opened Strings

  /** Units in rank order: ticks, seconds, minutes, hours, days. */
  const Units: seq<string> := ["t", "s", "m", "h", "d"]

  /** f'{x}' for a str or None. */
  function Show(x: Option<string>): string
  {
    match x
    case None => "None"
    case Some(s) => s
  }

  /** `[123456789]+0*`: non-zero digits followed by zeros. */
  predicate NonZeroThenZeros(s: string)
  {
    && s != [] && '1' <= s[0] <= '9' && AllDigits(s)
    && forall i, j :: 0 <= i < j < |s| && s[i] == '0' ==> s[j] == '0'
  }

  predicate IsUnitLetter(c: char)
  {
    c in "tsmhdTSMHD"
  }

  /** re.fullmatch(r'^[123456789]+0*[tsmhd]{1}$', s, re.I) */
  predicate MatchesDurationPattern(s: string)
  {
    |s| >= 2 && IsUnitLetter(s[|s| - 1]) && NonZeroThenZeros(s[..|s| - 1])
  }

  /** A digit string and a unit that get_info_duration accepts. */
  predicate ValidToken(digit: string, unit: string)
  {
    NonZeroThenZeros(digit) && unit in Units
  }

  datatype DurationInfo = DurationInfo(digit: nat, unit: string, duration: string, index: nat, key: string)

  /** ['t', 's', 'm', 'h', 'd'].index(unit) */
  function UnitIndex(unit: string): (i: nat)
    requires unit in Units
    ensures i < |Units| && Units[i] == unit
  {
    if unit == "t" then 0 else if unit == "s" then 1 else if unit == "m" then 2
    else if unit == "h" then 3 else 4
  }

  lemma {:induction false} LeadingNonZeroIsPositive(s: string)
    requires s != [] && AllDigits(s) && s[0] != '0'
    ensures DigitsValue(s) > 0
  {
    if |s| > 1 { LeadingNonZeroIsPositive(s[..|s| - 1]); }
  }

  function MakeInfo(digit: string, unit: string): (info: DurationInfo)
    requires ValidToken(digit, unit)
    ensures info.digit > 0 && info.index < |Units| && Units[info.index] == unit
  {
    LeadingNonZeroIsPositive(digit);
    var index := UnitIndex(unit);
    DurationInfo(DigitsValue(digit), unit, digit + unit, index, [DigitChar(index)] + ZFill(digit, 5))
  }

  /** get_info_duration: no duration when both parts are None, otherwise the token's
      value, unit, rank and key, or ValueError. */
  function GetInfoDuration(digit: Option<string>, unit: Option<string>): (r: Result<Option<DurationInfo>>)
    ensures r == Ok(None) <==> digit.None? && unit.None?
    ensures r.Err? ==> r.error == InvalidDuration
    ensures (r.Ok? && r.value.Some?) <==>
            digit.Some? && unit.Some? && ValidToken(digit.value, unit.value)
    ensures r.Ok? && r.value.Some? ==>
            var info := r.value.value;
            && info == MakeInfo(digit.value, unit.value)
            && info.digit == DigitsValue(digit.value) && info.digit > 0
            && Units[info.index] == unit.value
            && info.duration == digit.value + unit.value
  {
    if digit.None? && unit.None? then Ok(None)
    else
      var duration := Show(digit) + Show(unit);
      if !MatchesDurationPattern(duration) then Err(InvalidDuration)
      else
        match (digit, unit)
        case (Some(d), Some(u)) =>
          if u !in Units then Err(InvalidDuration)
          else
            assert duration[..|duration| - 1] == d;
            Ok(Some(MakeInfo(d, u)))
        case _ => Err(InvalidDuration)
  }

  lemma ValidTokenMatches(d: string, u: string)
    requires ValidToken(d, u)
    ensures MatchesDurationPattern(d + u)
  {
    assert (d + u)[..|d + u| - 1] == d;
  }

  // ---------------------------------------------------------------------
  // Ordering of keys

  /** The (unit rank, magnitude) order of two durations. */
  predicate RankLe(a: DurationInfo, b: DurationInfo)
  {
    a.index < b.index || (a.index == b.index && a.digit <= b.digit)
  }

  /** A key made of the rank digit and exactly five digits of magnitude. */
  predicate ShortKey(info: DurationInfo)
  {
    && info.index < |Units|
    && |info.key| == 6 && info.key[0] == DigitChar(info.index)
    && AllDigits(info.key[1..]) && DigitsValue(info.key[1..]) == info.digit
  }

  lemma ShortTokenHasShortKey(d: string, u: string)
    requires ValidToken(d, u) && |d| <= 5
    ensures ShortKey(MakeInfo(d, u))
  {
    var info := MakeInfo(d, u);
    assert info.key[1..] == ZFill(d, 5);
    ZFillValue(d, 5);
  }

  /** For magnitudes of at most five digits, the str order of keys is the
      (unit rank, magnitude) order. */
  lemma KeyOrderIsRankOrder(a: DurationInfo, b: DurationInfo)
    requires ShortKey(a) && ShortKey(b)
    ensures LexLe(a.key, b.key) <==> RankLe(a, b)
  {
    assert a.key[1..] == a.key[1..6] && b.key[1..] == b.key[1..6];
    DigitsOrder(a.key[1..], b.key[1..]);
    if a.index != b.index {
      assert a.key[0] != b.key[0];
    } else {
      assert a.key[0] == b.key[0];
    }
  }

  lemma ExampleValues()
    ensures DigitsValue("100000") == 100000 && DigitsValue("20000") == 20000
  {
    assert "1"[..0] == [] && "2"[..0] == [];
    assert "10"[..1] == "1" && "20"[..1] == "2";
    assert "100"[..2] == "10" && "200"[..2] == "20";
    assert "1000"[..3] == "100" && "2000"[..3] == "200";
    assert "10000"[..4] == "1000" && "20000"[..4] == "2000";
    assert "100000"[..5] == "10000";
  }

  /** Six digits break the order: 100000 ticks gets a smaller key than 20000 ticks. */
  lemma SixDigitKeyInversion()
    ensures GetInfoDuration(Some("100000"), Some("t")).Ok?
    ensures GetInfoDuration(Some("20000"), Some("t")).Ok?
    ensures var a := GetInfoDuration(Some("100000"), Some("t")).value.value;
            var b := GetInfoDuration(Some("20000"), Some("t")).value.value;
            a.digit == 100000 && b.digit == 20000 && LexLt(a.key, b.key)
  {
    assert ValidToken("100000", "t") && ValidToken("20000", "t");
    var a := MakeInfo("100000", "t");
    var b := MakeInfo("20000", "t");
    ExampleValues();
    assert a.key == "0100000";
    assert b.key == "020000";
    assert a.key[1..] == "100000" && b.key[1..] == "20000";
    assert LexLe(a.key[1..], b.key[1..]);
  }

  // ---------------------------------------------------------------------

  datatype MinMax = MinMax(min: DurationInfo, max: DurationInfo)

  predicate Falsy(x: Option<string>) { x.None? || x.value == "" }

  /** get_min_max_info: no range when all four parts are empty; otherwise both
      tokens must be valid, present together, and min's key not above max's. */
  function GetMinMaxInfo(digitMin: Option<string>, unitMin: Option<string>,
                         digitMax: Option<string>, unitMax: Option<string>): (r: Result<Option<MinMax>>)
    ensures r == Ok(None) <==> Falsy(digitMin) && Falsy(unitMin) && Falsy(digitMax) && Falsy(unitMax)
    ensures r.Ok? && r.value.Some? ==>
            && GetInfoDuration(digitMin, unitMin) == Ok(Some(r.value.value.min))
            && GetInfoDuration(digitMax, unitMax) == Ok(Some(r.value.value.max))
            && LexLe(r.value.value.min.key, r.value.value.max.key)
    ensures r.Err? ==> r.error in {InvalidDuration, AsymmetricRange, InvertedRange}
    ensures r == Err(InvalidDuration) <==>
            !(Falsy(digitMin) && Falsy(unitMin) && Falsy(digitMax) && Falsy(unitMax)) &&
            (GetInfoDuration(digitMin, unitMin).Err? || GetInfoDuration(digitMax, unitMax).Err?)
    ensures r == Err(AsymmetricRange) <==>
            var lo, hi := GetInfoDuration(digitMin, unitMin), GetInfoDuration(digitMax, unitMax);
            lo.Ok? && hi.Ok? && lo.value.Some? != hi.value.Some?
    ensures r == Err(InvertedRange) <==>
            var lo, hi := GetInfoDuration(digitMin, unitMin), GetInfoDuration(digitMax, unitMax);
            lo.Ok? && hi.Ok? && lo.value.Some? && hi.value.Some? && LexLt(hi.value.value.key, lo.value.value.key)
  {
    if Falsy(digitMin) && Falsy(unitMin) && Falsy(digitMax) && Falsy(unitMax) then Ok(None)
    else
      var minInfo := GetInfoDuration(digitMin, unitMin);
      if minInfo.Err? then Err(minInfo.error)
      else
        var maxInfo := GetInfoDuration(digitMax, unitMax);
        if maxInfo.Err? then Err(maxInfo.error)
        else if minInfo.value.Some? != maxInfo.value.Some? then Err(AsymmetricRange)
        else
          match (minInfo.value, maxInfo.value)
          case (Some(lo), Some(hi)) =>
            GreaterIsNotLessOrEqual(lo.key, hi.key);
            if LexLt(hi.key, lo.key) then Err(InvertedRange) else Ok(Some(MinMax(lo, hi)))
          case _ => Ok(None)
  }

  /** An accepted range of short tokens is ordered by (unit rank, magnitude). */
  lemma AcceptedRangeIsOrdered(digitMin: string, unitMin: string, digitMax: string, unitMax: string)
    requires |digitMin| <= 5 && |digitMax| <= 5
    requires GetMinMaxInfo(Some(digitMin), Some(unitMin), Some(digitMax), Some(unitMax)).Ok?
    requires GetMinMaxInfo(Some(digitMin), Some(unitMin), Some(digitMax), Some(unitMax)).value.Some?
    ensures var m := GetMinMaxInfo(Some(digitMin), Some(unitMin), Some(digitMax), Some(unitMax)).value.value;
            RankLe(m.min, m.max)
  {
    ShortTokenHasShortKey(digitMin, unitMin);
    ShortTokenHasShortKey(digitMax, unitMax);
    var m := GetMinMaxInfo(Some(digitMin), Some(unitMin), Some(digitMax), Some(unitMax)).value.value;
    KeyOrderIsRankOrder(m.min, m.max);
  }
}
