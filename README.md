# mchf-pico-freq button core in Dafny

This project models the two button-handling functions of the mchf-pico-freq keypad demo:
how a raw ADC sample is rescaled, and how a value is classified into one of the
six keypad button labels that are printed on the 16x2 character LCD.
Both are total functions of one small unsigned integer with no state, so the
model is written as functions and lemmas in one module, `MchfFreq`
(`mchf_freq.dfy`).

- `read_buttons` returns `adc_value >> 2`. This rescales a 12-bit reading to
  the 0-1023 range. The shift is modelled bit by bit (`ShiftRight`) and proved
  to be floor division by 2^n. `ReadButtons` is that shift applied to the
  sample, which is passed in as a parameter instead of read from hardware.
  `main` in this file never calls `read_buttons`; it calls `adc_read()`
  directly.
- `get_button_name` is an ordered `if / else if` ladder of strict `<` tests
  against the literal thresholds 60, 0.5, 1.8, 2.5 and 3.0, in that order.
  `Classify` keeps the thresholds and the order exactly as written, and
  `GetButtonName` maps the result to its space-padded six-character label.
  The first test is an integer test and the other four compare the promoted
  value with double constants; the model compares the value, converted to
  `real`, with the same constants. That conversion is exact for every 16-bit
  value.
  In this file `main` passes `get_button_name` the float voltage (0-3.3)
  converted to `uint16_t`, so it only ever sees 0-3 and always shows
  `"Right "`; `Classify` covers that case with every other 16-bit value.

The thresholds are not ascending. Any value that gets past the first test is
at least 60, so the tests against 0.5, 1.8, 2.5 and 3.0 all fail. As written,
the classifier returns `"Right "` below 60 and `"None  "` from 60 upwards, and
the Up, Down, Left and Select rungs are dead code. The model proves this
(`Classify`, `ReachableButtons`, `FractionalTestsFail`). The model keeps the
ladder as written and does not reorder or rescale its thresholds. Under the
code the boundary lies between 59 and 60 (`ClassifyBoundary`).

To state "first matching rung wins" independently of the particular
constants, `FirstMatch` and `LadderResult` give a generic semantics for a
ladder of `v < bound` tests with a fall-through result.
`ClassifyIsFirstMatch` proves that `Classify` is that semantics applied to the
source's rungs in source order.

## Model

| member | source | states |
|---|---|---|
| `MchfFreq.ShiftRight` | mchf-freq.cpp:229 | An unsigned right shift never increases its operand, and a non-zero shift strictly decreases a positive one. |
| `MchfFreq.ShiftRightIsFloorDiv` | mchf-freq.cpp:229 | `x >> n` is floor division by 2^n: the result r satisfies 2^n*r <= x < 2^n*(r+1). |
| `MchfFreq.ShiftRightMonotone` | mchf-freq.cpp:229 | A right shift preserves the order of its operands. |
| `MchfFreq.ReadButtons` | mchf-freq.cpp:224-230 | The result is floor(sample / 4), i.e. the sample with its two low bits dropped. For every 12-bit sample (0-4095) the result lies in 0-1023, as the comments promise. |
| `MchfFreq.ReadButtonsMonotone` | mchf-freq.cpp:229 | The rescaling is monotone non-decreasing in the raw sample. |
| `MchfFreq.ReadButtonsOnto` | mchf-freq.cpp:225-229 | Every value in 0-1023 is produced by some 12-bit sample, so the 12-bit range maps onto the whole 0-1023 range. |
| `MchfFreq.Label` | mchf-freq.cpp:234-249 | Every label has exactly six characters, so printing one overwrites the whole fixed-width field. |
| `MchfFreq.LabelInjective` | mchf-freq.cpp:234-249 | The six labels are pairwise distinct, so each printed label names exactly one button. |
| `MchfFreq.Classify` | mchf-freq.cpp:232-251 | The ladder as written returns Right exactly when the value is below 60 and None exactly when it is 60 or more. |
| `MchfFreq.GetButtonName` | mchf-freq.cpp:232-251 | The returned string always has length six. It is `"Right "` for values below 60 and `"None  "` otherwise. |
| `MchfFreq.FirstMatch` | mchf-freq.cpp:233-250 | Reference semantics of an `if (v < b0) ... else if (v < b1) ...` ladder. The chosen rung's test succeeds, every earlier rung's test fails, and the index equals the rung count exactly when all tests fail. |
| `MchfFreq.LadderResult` | mchf-freq.cpp:233-250 | When every test fails it yields the fall-through result; otherwise it yields the button of the first rung whose test succeeds, every earlier test having failed. |
| `MchfFreq.ClassifyIsFirstMatch` | mchf-freq.cpp:232-251 | For every 16-bit input, the classifier equals the first-match ladder over the rungs (60, Right), (0.5, Up), (1.8, Down), (2.5, Left), (3.0, Select) with fall-through None. It is total and the first matching test wins. |
| `MchfFreq.ReachableButtons` | mchf-freq.cpp:233-250 | A button is returned for some 16-bit input if and only if it is Right or None. Up, Down, Left and Select are unreachable. |
| `MchfFreq.FractionalTestsFail` | mchf-freq.cpp:236-247 | For every value of 60 or more, the tests `< 0.5`, `< 1.8`, `< 2.5` and `< 3.0` all fail. |
| `MchfFreq.ClassifyMonotone` | mchf-freq.cpp:233-250 | Once a value classifies as None, every larger value does too. |
| `MchfFreq.ClassifyBoundary` | mchf-freq.cpp:233-234 | The strict `<` puts 59 in Right and 60 in None. 0 is Right and 65535 is None. |
| `MchfFreq.ButtonNameFillsField` | mchf-freq.cpp:325-326 | A label printed at column 10 of the 16-column line (mchf-freq.cpp:36) ends exactly at the last column (columns counted from 0, as the row index 1 for the second line implies). It fills the field and never overflows the row. |

## Left out

- `adc_read`, `adc_init`, `adc_gpio_init`, `adc_select_input`, `stdio_init_all` and `sleep_ms` are hardware and SDK calls whose source is not available. The ADC sample is a parameter of `ReadButtons` instead.
- The `LCDdisplay` object and its `init`, `clear`, `cursor_on`, `print` and `goto_pos` calls are device I/O from a library that is not part of this model. Only the width of the button field (column 10 of a 16-column line) is used, in `ButtonNameFillsField`.
- The block at mchf-freq.cpp:38-221 is inside a comment and is never compiled. This covers the HD44780 command constants, `init_pins`, `lcd_write_4bits`, `lcd_set_cursor` and `lcd_print`.
- The voltage computation `adc_value * 3.3f / 4096` is single-precision floating point and is not modelled.
- The implicit float-to-`uint16_t` conversion of `adc_voltage` when it is passed to `get_button_name` (mchf-freq.cpp:326, 329) is floating point and is not modelled. The classifier is modelled for every `uint16_t` argument.
- The `printf` debug lines are serial output. The second one passes a float to `%d`, which is undefined behaviour.
- The `str_voltage` buffer printed at mchf-freq.cpp:322 is never initialised, so it has no defined content to model.
- The infinite `while (1)` main loop only sequences I/O and delays and keeps no state of its own.
