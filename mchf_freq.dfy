/*
 * A model of the button-reading core of the mchf-pico-freq keypad demo
 * (mchf-freq.cpp): the rescaling of a raw ADC sample done by read_buttons,
 * and the threshold classifier get_button_name that turns a value into one
 * of six fixed-width LCD labels.
 */
module MchfFreq {

  /** C's `uint16_t`: the type of ADC samples and of the classifier's input. */
  newtype uint16 = x: int | 0 <= x < 0x1_0000

  /** Largest value of the 12-bit ADC. */
  const ADC_MAX: int := 4095

  /** Largest value after rescaling to the 0-1023 range used by the Arduino original. */
  const SCALED_MAX: int := 1023

  /** The LCD is driven as a 16-column, 2-line display. */
  const LCD_COLUMNS: int := 16

  /** The button name is printed starting at column 10 of line 1. */
  const BUTTON_COLUMN: int := 10

  /** Width of every button label: the labels are space-padded to overwrite the field. */
  const LABEL_WIDTH: int := 6

  // ---------------------------------------------------------------------------
  // read_buttons: `adc_value >> 2`
  // ---------------------------------------------------------------------------

  function Pow2(n: nat): nat
  {
    if n == 0 then 1 else 2 * Pow2(n - 1)
  }

  /** Logical right shift of an unsigned value: `x >> n` drops the n low bits. */
  function ShiftRight(x: nat, n: nat): (r: nat)
    ensures r <= x
    ensures n > 0 && x > 0 ==> r < x
  {
    if n == 0 then x else ShiftRight(x / 2, n - 1)
  }

  /** The step of the floor-division induction: halving, then doubling the divisor. */
  lemma HalveStep(x: nat, h: nat, d: nat, r: nat)
    requires 2 * h <= x <= 2 * h + 1
    requires d * r <= h < d * (r + 1)
    ensures (2 * d) * r <= x < (2 * d) * (r + 1)
  {
    assert (2 * d) * r == 2 * (d * r);
    assert (2 * d) * (r + 1) == 2 * (d * (r + 1));
  }

  /**
   * Shifting right by n is floor division by 2^n: the result r is the unique
   * value with 2^n * r <= x < 2^n * (r + 1).
   */
  lemma {:induction false} ShiftRightIsFloorDiv(x: nat, n: nat)
    ensures Pow2(n) * ShiftRight(x, n) <= x < Pow2(n) * (ShiftRight(x, n) + 1)
  {
    if n > 0 {
      ShiftRightIsFloorDiv(x / 2, n - 1);
      HalveStep(x, x / 2, Pow2(n - 1), ShiftRight(x, n));
    }
  }

  /** A right shift preserves the order of its operands. */
  lemma {:induction false} ShiftRightMonotone(x: nat, y: nat, n: nat)
    requires x <= y
    ensures ShiftRight(x, n) <= ShiftRight(y, n)
  {
    if n > 0 {
      ShiftRightMonotone(x / 2, y / 2, n - 1);
    }
  }

  /**
   * The value returned by read_buttons for the sample `adcValue` that
   * adc_read() produced: the sample shifted right by two bits, which is
   * floor division by 4 (12-bit 0-4095 becomes 0-1023).
   */
  function ReadButtons(adcValue: uint16): (r: uint16)
    ensures r as int == adcValue as int / 4
    ensures 4 * (r as int) <= adcValue as int < 4 * (r as int) + 4
    ensures adcValue as int <= ADC_MAX ==> 0 <= r as int <= SCALED_MAX
  {
    ShiftRightIsFloorDiv(adcValue as nat, 2);
    ShiftRight(adcValue as nat, 2) as uint16
  }

  /** A larger raw sample never gives a smaller rescaled value. */
  lemma ReadButtonsMonotone(a: uint16, b: uint16)
    requires a <= b
    ensures ReadButtons(a) <= ReadButtons(b)
  {
  }

  /** Every value of the 0-1023 range is produced by some 12-bit sample. */
  lemma ReadButtonsOnto(v: int)
    requires 0 <= v <= SCALED_MAX
    ensures exists s: uint16 :: s as int <= ADC_MAX && ReadButtons(s) as int == v
  {
    var s := (4 * v) as uint16;
    assert ReadButtons(s) as int == v;
  }

  // ---------------------------------------------------------------------------
  // get_button_name: an ordered if/else-if ladder of `<` tests
  // ---------------------------------------------------------------------------

  datatype Button = Right | Up | Down | Left | Select | None

  /** The space-padded text printed on the LCD for each button. */
  function Label(b: Button): (s: string)
    ensures |s| == LABEL_WIDTH
  {
    match b
    case Right => "Right "
    case Up => "Up    "
    case Down => "Down  "
    case Left => "Left  "
    case Select => "Select"
    case None => "None  "
  }

  /** Distinct buttons are printed differently, so a label names exactly one button. */
  lemma LabelInjective(a: Button, b: Button)
    ensures Label(a) == Label(b) <==> a == b
  {
  }

  /**
   * The classifier exactly as written: the integer test against 60 comes
   * first, then the tests against the double constants 0.5, 1.8, 2.5 and 3.0
   * (the uint16 operand is promoted to double, which is exact here).
   * Because every value that reaches the second test is at least 60, the
   * Up, Down, Left and Select rungs are dead.
   */
  function Classify(adcValue: uint16): (b: Button)
    ensures b == Right <==> adcValue < 60
    ensures b == None <==> adcValue >= 60
  {
    if adcValue < 60 then Right
    else if (adcValue as real) < 0.5 then Up
    else if (adcValue as real) < 1.8 then Down
    else if (adcValue as real) < 2.5 then Left
    else if (adcValue as real) < 3.0 then Select
    else None
  }

  /** The string get_button_name returns: one of the six labels, always six characters. */
  function GetButtonName(adcValue: uint16): (s: string)
    ensures |s| == LABEL_WIDTH
    ensures s == (if adcValue < 60 then "Right " else "None  ")
  {
    Label(Classify(adcValue))
  }

  // A reference semantics for an ordered `if (v < bound) ... else if` ladder,
  // independent of the particular thresholds.

  /**
   * Index of the first rung whose test `v < bound` succeeds, or |ladder| when
   * every test fails and control falls through to the final else.
   */
  function FirstMatch(ladder: seq<(real, Button)>, v: real): (k: nat)
    ensures k <= |ladder|
    ensures k < |ladder| ==> v < ladder[k].0
    ensures forall j :: 0 <= j < k ==> ladder[j].0 <= v
  {
    if |ladder| == 0 then 0
    else if v < ladder[0].0 then 0
    else 1 + FirstMatch(ladder[1..], v)
  }

  /** The result of a ladder: the first matching rung's button, else the fall-through one. */
  function LadderResult(ladder: seq<(real, Button)>, otherwise: Button, v: real): (b: Button)
    ensures b == otherwise || exists k :: 0 <= k < |ladder| && b == ladder[k].1 && v < ladder[k].0
    ensures (forall j :: 0 <= j < |ladder| ==> ladder[j].0 <= v) ==> b == otherwise
    ensures forall k :: 0 <= k < |ladder| && v < ladder[k].0 && (forall j :: 0 <= j < k ==> ladder[j].0 <= v) ==> b == ladder[k].1
  {
    var k := FirstMatch(ladder, v);
    if k < |ladder| then ladder[k].1 else otherwise
  }

  /** The rungs of get_button_name, in source order, with their literal thresholds. */
  const BUTTON_LADDER: seq<(real, Button)> :=
    [(60.0, Right), (0.5, Up), (1.8, Down), (2.5, Left), (3.0, Select)]

  /** Classify is the ladder above read with first-match-wins semantics. */
  lemma ClassifyIsFirstMatch(adcValue: uint16)
    ensures Classify(adcValue) == LadderResult(BUTTON_LADDER, None, adcValue as real)
  {
  }

  /** Only Right and None are ever produced; the other four rungs are unreachable. */
  lemma ReachableButtons(b: Button)
    ensures (exists v: uint16 :: Classify(v) == b) <==> b == Right || b == None
  {
    if b == Right {
      assert Classify(0) == Right;
    } else if b == None {
      assert Classify(60) == None;
    }
  }

  /** Every value at or above 60 fails all four fractional tests. */
  lemma FractionalTestsFail(adcValue: uint16)
    requires adcValue >= 60
    ensures !((adcValue as real) < 0.5) && !((adcValue as real) < 1.8)
    ensures !((adcValue as real) < 2.5) && !((adcValue as real) < 3.0)
  {
  }

  /** Once a value classifies as None, every larger value does too. */
  lemma ClassifyMonotone(v: uint16, w: uint16)
    requires v <= w && Classify(v) == None
    ensures Classify(w) == None
  {
  }

  /** The boundary falls between 59 and 60: the test is a strict `<`. */
  lemma ClassifyBoundary()
    ensures Classify(59) == Right && Classify(60) == None
    ensures Classify(0) == Right && Classify(0xFFFF) == None
  {
  }

  /**
   * Printed at column 10 of a 16-column line, every label ends exactly at the
   * last column (columns counted from 0, as the row index 1 for the second line
   * implies), so it overwrites the whole field and never overflows the row.
   */
  lemma ButtonNameFillsField(adcValue: uint16)
    ensures BUTTON_COLUMN + |GetButtonName(adcValue)| == LCD_COLUMNS
  {
  }
}
