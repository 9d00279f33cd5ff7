/** deriv/util.py: the two validators. */
module Util {
  import opened Wrappers
  import opened Strings
  import opened Values

  /** check_str: a non-empty str is returned as it is; anything else raises. */
  function CheckStr(v: Value): (r: Result<string>)
    ensures r.Ok? <==> v.Str? && v.s != ""
    ensures r.Ok? ==> Str(r.value) == v && r.value != ""
    ensures r.Err? ==> r.error == InvalidString
  {
    if v.Str? && Truthy(v) then Ok(v.s) else Err(InvalidString)
  }

  // ---------------------------------------------------------------------
  // int(s) for an ASCII str: surrounding whitespace, an optional sign, then
  // decimal digits where single underscores may separate two digits. Python also
  // accepts Unicode whitespace and the digits of other scripts; the model does not.

  /** The characters below 128 that str.isspace() accepts. */
  predicate IsSpace(c: char)
  {
    c == ' ' || '\t' <= c <= '\r' || '\U{1c}' <= c <= '\U{1f}'
  }

  function StripLeft(s: string): (r: string)
    ensures |r| <= |s| && (r == [] || !IsSpace(r[0]))
  {
    if s != [] && IsSpace(s[0]) then StripLeft(s[1..]) else s
  }

  function StripRight(s: string): (r: string)
    ensures |r| <= |s| && (r == [] || !IsSpace(r[|r| - 1]))
  {
    if s != [] && IsSpace(s[|s| - 1]) then StripRight(s[..|s| - 1]) else s
  }

  /** Digits, where an underscore is allowed only between two digits. */
  predicate DigitGroups(b: string)
  {
    && b != [] && IsDigit(b[0]) && IsDigit(b[|b| - 1])
    && (forall i :: 0 <= i < |b| ==> IsDigit(b[i]) || b[i] == '_')
    && (forall i :: 0 <= i < |b| - 1 && b[i] == '_' ==> IsDigit(b[i + 1]))
  }

  function RemoveUnderscores(b: string): (r: string)
    requires forall i :: 0 <= i < |b| ==> IsDigit(b[i]) || b[i] == '_'
    ensures AllDigits(r)
  {
    if b == [] then [] else (if b[0] == '_' then [] else [b[0]]) + RemoveUnderscores(b[1..])
  }

  /** int(s) for ASCII text; None where Python raises ValueError on it. */
  function ParseInt(s: string): Option<int>
  {
    var t := StripRight(StripLeft(s));
    if t == [] then None
    else
      var negative := t[0] == '-';
      var body := if t[0] == '-' || t[0] == '+' then t[1..] else t;
      if !DigitGroups(body) then None
      else
        var n: int := DigitsValue(RemoveUnderscores(body));
        Some(if negative then -n else n)
  }

  lemma {:induction false} RemoveUnderscoresOfDigits(b: string)
    requires AllDigits(b)
    ensures RemoveUnderscores(b) == b
  {
    if b != [] { RemoveUnderscoresOfDigits(b[1..]); }
  }

  /** int() of a plain string of decimal digits is the number it spells. */
  lemma ParseDigits(s: string)
    requires s != [] && AllDigits(s)
    ensures ParseInt(s) == Some(DigitsValue(s))
  {
    assert StripLeft(s) == s;
    assert StripRight(s) == s;
    assert s[0] != '-' && s[0] != '+';
    assert DigitGroups(s);
    RemoveUnderscoresOfDigits(s);
  }

  /** int(v) for the values check_duration can reach it with; int(None) is a TypeError there. */
  function IntOf(v: Value): Option<int>
    requires !v.Nil?
  {
    match v
    case Bool(b) => Some(if b then 1 else 0)
    case Int(i) => Some(i)
    case Str(s) => ParseInt(s)
  }

  // ---------------------------------------------------------------------

  /** What check_duration returns when it does not raise: ('', ''), (int(digit), unit),
      or None after printing a swallowed ValueError. */
  datatype Checked = BothEmpty | Duration(digit: int, unit: Value) | Swallowed

  predicate InUnits(unit: Value, units: seq<Value>)
  {
    exists k :: 0 <= k < |units| && Eq(unit, units[k])
  }

  function CheckDuration(digit: Value, unit: Value, units: seq<Value>): (r: Result<Checked>)
    ensures r == Ok(BothEmpty) <==> !Truthy(digit) && !Truthy(unit)
    ensures r == Err(EmptyDurationTerm) <==> Truthy(digit) != Truthy(unit)
    ensures r == Err(UnitNotInList) <==> Truthy(digit) && Truthy(unit) && !InUnits(unit, units)
    ensures r.Ok? && r.value.Duration? ==>
            && Truthy(digit) && InUnits(unit, units)
            && r.value.digit > 0 && r.value.unit == unit
            && IntOf(digit) == Some(r.value.digit)
    ensures Truthy(digit) && Truthy(unit) && InUnits(unit, units) ==>
            match IntOf(digit)
            case Some(n) => r == if n > 0 then Ok(Duration(n, unit)) else Ok(Swallowed)
            case None => r == Ok(Swallowed)
  {
    if !Truthy(digit) && !Truthy(unit) then Ok(BothEmpty)
    else if (!Truthy(digit) && Truthy(unit)) || (Truthy(digit) && !Truthy(unit)) then Err(EmptyDurationTerm)
    else if !InUnits(unit, units) then Err(UnitNotInList)
    else
      match IntOf(digit)
      case None => Ok(Swallowed)
      case Some(n) => if n <= 0 then Ok(Swallowed) else Ok(Duration(n, unit))
  }

  /** A decimal digit string naming a positive number, with a listed unit, is accepted
      and its number returned. */
  lemma CheckDurationOfDigits(digit: string, unit: Value, units: seq<Value>)
    requires digit != [] && AllDigits(digit) && DigitsValue(digit) > 0
    requires Truthy(unit) && InUnits(unit, units)
    ensures CheckDuration(Str(digit), unit, units) == Ok(Duration(DigitsValue(digit), unit))
  {
    ParseDigits(digit);
  }

  /** A digit string that is zero, or not a number, is swallowed rather than raised. */
  lemma CheckDurationSwallows(digit: string, unit: Value, units: seq<Value>)
    requires digit != [] && Truthy(unit) && InUnits(unit, units)
    requires ParseInt(digit).None? || ParseInt(digit).value <= 0
    ensures CheckDuration(Str(digit), unit, units) == Ok(Swallowed)
  {
  }
}
