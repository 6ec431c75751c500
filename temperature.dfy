/**
 * EVSE temperatures (controller.go): `Temperature` counts tenths of a degree
 * Celsius; the derate table maps hot temperatures to a reduced current.
 */
module Temperatures {

  /** Go's `type Temperature int64`, in decidegrees Celsius. */
  type Temperature = int

  const DeciCelsius: Temperature := 1
  const Celsius: Temperature := 10 * DeciCelsius

  const MaxInt32: int := 0x7fff_ffff
  const Volts: int := 240

  // ---------------------------------------------------------------------------
  // Temperature.String

  /** Go's `/` truncates toward zero. */
  function GoQuot(a: int, b: int): (q: int)
    requires b > 0
    ensures a >= 0 ==> q == a / b
    ensures a < 0 ==> q <= 0 && a <= q * b < a + b
  {
    if a >= 0 then a / b else -((-a) / b)
  }

  /** Go's `%`: the remainder takes the sign of the dividend. */
  function GoRem(a: int, b: int): (r: int)
    requires b > 0
    ensures a == GoQuot(a, b) * b + r
    ensures a >= 0 ==> 0 <= r < b
    ensures a < 0 ==> -b < r <= 0
  {
    if a >= 0 then a % b else -((-a) % b)
  }

  function DigitChar(d: nat): (c: char)
    requires d < 10
    ensures '0' <= c <= '9' && DigitValue(c) == d
  {
    "0123456789"[d]
  }

  function DigitValue(c: char): int {
    c as int - '0' as int
  }

  /** Decimal digits of a natural number, most significant first, no leading zero. */
  function Digits(n: nat): (s: string)
    ensures |s| >= 1
    ensures forall k :: 0 <= k < |s| ==> '0' <= s[k] <= '9'
    decreases n
  {
    if n < 10 then [DigitChar(n)] else Digits(n / 10) + [DigitChar(n % 10)]
  }

  /** Value of a string of decimal digits. */
  function DecimalValue(s: string): int
    decreases |s|
  {
    if s == [] then 0 else 10 * DecimalValue(s[..|s| - 1]) + DigitValue(s[|s| - 1])
  }

  /** `%d`: an optional minus sign, then the digits of the magnitude. */
  function FormatInt(i: int): (s: string)
    ensures |s| >= 1
    ensures s[0] == '-' <==> i < 0
    ensures i < 0 ==> s[1..] == Digits(-i)
    ensures i >= 0 ==> s == Digits(i)
  {
    if i < 0 then "-" + Digits(-i) else Digits(i)
  }

  /** `Temperature.String`: `fmt.Sprintf("%d.%d C", t/10, t%10)` with Go's division. */
  function ToString(t: Temperature): (s: string)
    ensures t >= 0 ==> s == Digits(t / 10) + ['.', DigitChar(t % 10), ' ', 'C']
    ensures -10 < t < 0 ==> s == ['0', '.', '-', DigitChar(-t), ' ', 'C']
    ensures t <= -10 ==> |s| > 0 && s[0] == '-'
  {
    var q, r := GoQuot(t, 10), GoRem(t, 10);
    var whole, tenth := FormatInt(q), FormatInt(r);
    assert t >= 0 ==> q == t / 10 && tenth == [DigitChar(t % 10)];
    assert -10 < t < 0 ==> q == 0 && r == t && whole == ['0'] && tenth == ['-', DigitChar(-t)];
    assert t <= -10 ==> q < 0;
    whole + "." + tenth + " C"
  }

  /** Reads the printed form back: integer part, one tenth digit, then " C". */
  function ParseNonNegative(s: string): int
    requires |s| >= 4
  {
    10 * DecimalValue(s[..|s| - 4]) + DigitValue(s[|s| - 3])
  }

  lemma {:induction false} DigitsRoundTrip(n: nat)
    ensures DecimalValue(Digits(n)) == n
    decreases n
  {
    if n >= 10 {
      var s := Digits(n);
      assert s[..|s| - 1] == Digits(n / 10);
      DigitsRoundTrip(n / 10);
    }
  }

  /**
   * For a non-negative temperature the printed form is the whole degrees, a dot,
   * the tenths digit and " C", and reading it back gives the temperature.
   */
  lemma ToStringRoundTrip(t: Temperature)
    requires t >= 0
    ensures var s := ToString(t);
            |s| >= 5 && s[|s| - 4] == '.' && s[|s| - 2..] == " C" &&
            s[..|s| - 4] == Digits(t / 10) && ParseNonNegative(s) == t
  {
    var s := ToString(t);
    var whole := Digits(t / 10);
    assert s[..|s| - 4] == whole;
    DigitsRoundTrip(t / 10);
  }

  /** Distinct non-negative temperatures print differently. */
  lemma ToStringInjective(t1: Temperature, t2: Temperature)
    requires t1 >= 0 && t2 >= 0 && ToString(t1) == ToString(t2)
    ensures t1 == t2
  {
    ToStringRoundTrip(t1);
    ToStringRoundTrip(t2);
  }

  // ---------------------------------------------------------------------------
  // Temperature derate table

  /** Above `temp` the charger may draw at most `maxAmps`. */
  datatype TempClamp = TempClamp(temp: Temperature, maxAmps: int)

  /** `tempClamps`, hottest threshold first. */
  const TempClamps: seq<TempClamp> := [
    TempClamp(50 * Celsius, 8),
    TempClamp(49 * Celsius, 12),
    TempClamp(48 * Celsius, 16),
    TempClamp(47 * Celsius, 24),
    TempClamp(46 * Celsius, 32)
  ]

  /**
   * The ceiling a table gives: `Volts * maxAmps` of the first entry whose
   * threshold `temp` strictly exceeds, or `MaxInt32` when none is exceeded.
   */
  function FirstClamp(table: seq<TempClamp>, temp: Temperature): (r: int)
    ensures (forall i :: 0 <= i < |table| ==> temp <= table[i].temp) ==> r == MaxInt32
    ensures forall i :: 0 <= i < |table| && temp > table[i].temp &&
                        (forall k :: 0 <= k < i ==> temp <= table[k].temp) ==>
                        r == Volts * table[i].maxAmps
    decreases |table|
  {
    if table == [] then MaxInt32
    else if temp > table[0].temp then Volts * table[0].maxAmps
    else FirstClamp(table[1..], temp)
  }

  /** The ceiling `maxPowerForTemp` returns: a derated power, or unclamped up to 46.0 C. */
  function TempCeiling(temp: Temperature): (r: int)
    ensures 1920 <= r <= MaxInt32
    ensures r == MaxInt32 <==> temp <= 46 * Celsius
  {
    TableCeilingValues(temp);
    FirstClamp(TempClamps, temp)
  }

  /** Hotter thresholds come first and allow no more current than cooler ones. */
  ghost predicate IsDerateTable(table: seq<TempClamp>) {
    (forall i, j :: 0 <= i < j < |table| ==>
       table[i].temp > table[j].temp && table[i].maxAmps <= table[j].maxAmps) &&
    (forall i :: 0 <= i < |table| ==> 0 <= Volts * table[i].maxAmps <= MaxInt32)
  }

  lemma {:induction false} FirstClampAtLeast(table: seq<TempClamp>, temp: Temperature, bound: int)
    requires IsDerateTable(table) && bound <= MaxInt32
    requires forall i :: 0 <= i < |table| ==> bound <= Volts * table[i].maxAmps
    ensures bound <= FirstClamp(table, temp)
    decreases |table|
  {
    if table != [] && temp <= table[0].temp {
      FirstClampAtLeast(table[1..], temp, bound);
    }
  }

  /** Any derate table is non-increasing in temperature: hotter never allows more. */
  lemma {:induction false} FirstClampMonotone(table: seq<TempClamp>, t1: Temperature, t2: Temperature)
    requires IsDerateTable(table) && t1 <= t2
    ensures FirstClamp(table, t2) <= FirstClamp(table, t1)
    decreases |table|
  {
    if table == [] {
    } else if t1 > table[0].temp {
    } else if t2 > table[0].temp {
      FirstClampAtLeast(table[1..], t1, Volts * table[0].maxAmps);
    } else {
      FirstClampMonotone(table[1..], t1, t2);
    }
  }

  lemma TempClampsIsDerateTable()
    ensures IsDerateTable(TempClamps)
  {
  }

  /**
   * The table written out: unclamped up to 46.0 C, then 32, 24, 16, 12 and 8 A at
   * 240 V for each further degree (a threshold itself belongs to the cooler band).
   */
  lemma TableCeilingValues(temp: Temperature)
    ensures var c := FirstClamp(TempClamps, temp);
            (temp <= 460 ==> c == MaxInt32) &&
            (460 < temp <= 470 ==> c == 7680) &&
            (470 < temp <= 480 ==> c == 5760) &&
            (480 < temp <= 490 ==> c == 3840) &&
            (490 < temp <= 500 ==> c == 2880) &&
            (500 < temp ==> c == 1920)
  {
    var t := TempClamps;
    var c4 := if temp > 460 then 7680 else MaxInt32;
    var c3 := if temp > 470 then 5760 else c4;
    var c2 := if temp > 480 then 3840 else c3;
    var c1 := if temp > 490 then 2880 else c2;
    var c0 := if temp > 500 then 1920 else c1;
    assert FirstClamp(t[4..], temp) == c4 by {
      assert t[4..][1..] == [];
    }
    assert FirstClamp(t[3..], temp) == c3 by {
      assert t[3..][1..] == t[4..];
    }
    assert FirstClamp(t[2..], temp) == c2 by {
      assert t[2..][1..] == t[3..];
    }
    assert FirstClamp(t[1..], temp) == c1 by {
      assert t[1..][1..] == t[2..];
    }
    assert FirstClamp(t, temp) == c0;
  }

  /** The derate is non-increasing in temperature. */
  lemma TempCeilingMonotone(t1: Temperature, t2: Temperature)
    requires t1 <= t2
    ensures TempCeiling(t2) <= TempCeiling(t1)
  {
    TempClampsIsDerateTable();
    FirstClampMonotone(TempClamps, t1, t2);
  }

  /** `maxPowerForTemp`: scans the table hottest first and returns at the first exceeded threshold. */
  method MaxPowerForTemp(temp: Temperature) returns (maxPower: int)
    ensures maxPower == TempCeiling(temp)
    ensures 1920 <= maxPower <= MaxInt32
    ensures maxPower == MaxInt32 <==> temp <= 46 * Celsius
  {
    maxPower := MaxInt32;
    var i := 0;
    while i < |TempClamps|
      invariant 0 <= i <= |TempClamps|
      invariant FirstClamp(TempClamps[i..], temp) == TempCeiling(temp)
    {
      var tempClamp := TempClamps[i];
      if temp > tempClamp.temp {
        maxPower := Volts * tempClamp.maxAmps;
        return;
      }
      assert TempClamps[i..][1..] == TempClamps[i + 1..];
      i := i + 1;
    }
  }
}
