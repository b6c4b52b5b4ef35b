/** Which temperature reading a check uses, and C integer division. */
module Readings {
  import opened ThermalTypes

  /** The battery reading the zone classifier uses on a dual-battery
      device (sec_bat_get_high_priority_temp): the hotter of the two
      readings when both are above STANDARD_TEMP, the colder one
      otherwise, and the primary one when no sub-battery check is set. */
  function PriorityTemp(subBatCheck: bool, temperature: int, subBatTemp: int): (r: int)
    ensures !subBatCheck ==> r == temperature
    ensures r == temperature || r == subBatTemp
    ensures subBatCheck && temperature > STANDARD_TEMP && subBatTemp > STANDARD_TEMP ==>
      r >= temperature && r >= subBatTemp
    ensures subBatCheck && !(temperature > STANDARD_TEMP && subBatTemp > STANDARD_TEMP) ==>
      r <= temperature && r <= subBatTemp
  {
    if !subBatCheck then temperature
    else if temperature > STANDARD_TEMP && subBatTemp > STANDARD_TEMP then
      (if temperature < subBatTemp then subBatTemp else temperature)
    else
      (if temperature > subBatTemp then subBatTemp else temperature)
  }

  /** The reading named by a temperature-control source
      (sec_bat_get_temp_by_temp_control_source); NONE, BAT_THM and any
      unknown id fall back to the battery reading. */
  function TempByControlSource(src: TempSource, temperature: int, chgTemp: int, usbTemp: int, wpcTemp: int): (r: int)
    ensures src == SourceChgThm ==> r == chgTemp
    ensures src == SourceUsbThm ==> r == usbTemp
    ensures src == SourceWpcThm ==> r == wpcTemp
    ensures !(src.SourceChgThm? || src.SourceUsbThm? || src.SourceWpcThm?) ==> r == temperature
  {
    match src
    case SourceChgThm => chgTemp
    case SourceUsbThm => usbTemp
    case SourceWpcThm => wpcTemp
    case _ => temperature
  }

  function Abs(x: int): nat { if x < 0 then -x else x }

  /** C's `/` on int: the quotient of the magnitudes, negated when the
      operands have opposite signs (truncation toward zero). It agrees
      with Dafny's `/` when both operands are non-negative. */
  function CDiv(a: int, b: int): (q: int)
    requires b != 0
    ensures (a >= 0) == (b > 0) ==> q == Abs(a) / Abs(b)
    ensures (a >= 0) != (b > 0) ==> -q == Abs(a) / Abs(b)
    ensures a >= 0 && b > 0 ==> q == a / b
  {
    var m := Abs(a) / Abs(b);
    if (a >= 0) == (b > 0) then m else -m
  }

  /** The only multiple of a positive number below it is zero. */
  lemma SmallMultiple(n: int, k: int)
    requires n > 0 && 0 <= n * k < n
    ensures k == 0
  {
  }

  /** A multiple of a positive number divided by it gives the factor. */
  lemma {:induction false} MulDiv(m: nat, n: nat)
    requires n > 0
    ensures (m * n) / n == m
  {
    var q, r := (m * n) / n, (m * n) % n;
    assert m * n == n * q + r && 0 <= r < n;
    assert n * (m - q) == r;
    SmallMultiple(n, m - q);
  }

  /** Multiplying by a nonzero divisor and then dividing by it gives the
      value back, whatever the signs. */
  lemma CDivCancel(x: int, d: int)
    requires d != 0
    ensures CDiv(x * d, d) == x
  {
    var m, n := Abs(x), Abs(d);
    assert Abs(x * d) == m * n by {
      if x < 0 && d < 0 { assert x * d == (-x) * (-d); }
      else if x < 0 { assert -(x * d) == (-x) * d; }
      else if d < 0 { assert -(x * d) == x * (-d); }
    }
    MulDiv(m, n);
    if x > 0 {
      assert (x * d > 0) == (d > 0);
    } else if x < 0 {
      assert (x * d > 0) == (d < 0);
    }
  }
}
