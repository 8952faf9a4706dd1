# Berkalkulator: net-salary calculation

A model of the Hungarian gross-to-net salary calculator (`Berkalkulator` in
`src/main.rs`). It takes a monthly gross salary in forints and two flags:
newly married (`frissHazas`) and exempt from personal income tax (`szjaMentes`).
Among finite values, it rejects a gross salary that is at most zero (`TooLow`) or above 100,000,000
(`TooHigh`).
Otherwise it walks a fixed, ordered list of five contributions and computes:

- pension insurance (10%);
- cash health insurance (3%);
- in-kind health insurance (4%);
- personal income tax, SZJA (15%);
- labour-market contribution (1.5%).

While it walks the list, it adds up the applied rates and records one amount
per contribution in a map keyed by the source's own key strings. The
newly-married flag takes a flat 5,000 off SZJA. The exemption flag sets SZJA to
zero and removes its rate from the sum. The net salary is
`gross * (1 - sum)`, less 5,000 when newly married.

Everything lives in one module, `Berkalkulator` (`berkalkulator.dfy`).
`CalculateNettoBer` is a method with the source's `for` loop, accumulator and
map. Its loop invariant says that, after the first `i` contributions:

- the sum equals the sum of their rates, minus the SZJA rate if SZJA has been
  passed and the exemption flag is set;
- the map equals the fold of those contributions' amounts.

The method is proved equal to `Expected`, a closed-form statement of the whole
calculation. The lemmas after it state the calculation's properties on
`Expected`. Money and rates are `real`, so every equality is exact.

Some consequences of the code:

- The five rates add up to 0.10 + 0.03 + 0.04 + 0.15 + 0.015 = 0.335, and to
  0.185 when exempt (`InitRates`).
- So a gross of 1,000,000 gives a net of 665,000 with no flags, 660,000 when
  newly married, 815,000 when exempt, and 810,000 when both flags are set
  (`OneMillionExample`).
- The rejection message for the lower bound says the value is "less than one".
  The test is `<= 0`, so a gross of 0.5 is accepted. The model follows the test.
- The married flag takes 5,000 off SZJA and also off the net salary. So the
  five amounts plus net fall 10,000 short of gross, or 5,000 short when exempt
  (`BreakdownTotal`).
- The married discount is never clamped. For a married, non-exempt gross below
  100,000/3, SZJA is negative; a gross of 1,000 gives SZJA −4,850. A gross of 0.5
  with both flags gives a negative net (`UnclampedMarriedDiscount`).

## Model

| member | source | states |
|---|---|---|
| Berkalkulator.CalculateNettoBer | src/main.rs:27-83 | The validation, the single pass over the contribution list and the net computation give exactly the closed-form breakdown: `TooLow` when gross ≤ 0, `TooHigh` when gross > 100,000,000, and otherwise the five amounts and net. The loop invariant ties the running sum to the rates seen so far, less SZJA's when exempt. It also ties the map to the amounts recorded so far. |
| Berkalkulator.LoopOutcome | src/main.rs:80-103 | After the pass over the fixed list, the map holds exactly the five keys (from `AmountsKeys` over the list's key set), so none of the five lookups in the result construction can fail. With the applied-rate sum and the married adjustment of net, these lookups give the closed-form breakdown. |
| Berkalkulator.InitJarulekokShape | src/main.rs:111-119 | The fixed list of `init_jarulekok` has five entries, one per contribution, with pairwise distinct map keys that together are the five keys the result construction looks up. Every rate is strictly between 0 and 1, and SZJA is the fourth entry at 0.15. |
| Berkalkulator.PrefixStep | src/main.rs:46-79 | Processing one more contribution adds its rate to the rate sum and its rate to the SZJA sum only if it is SZJA. It records its amount under its own key and leaves the other keys alone. |
| Berkalkulator.AmountsKeys | src/main.rs:45-79 | For any contribution list, the map after the loop has exactly one key per contribution kind that occurs in the list. |
| Berkalkulator.InitRates | src/main.rs:111-119 | The fixed list's rates add up to 0.335, of which SZJA is 0.15. So the final applied sum is 0.335, or 0.185 when exempt. |
| Berkalkulator.InitAmounts | src/main.rs:45-79 | Over the fixed list, the map is exactly: pension gross×0.10, cash health gross×0.03, in-kind health gross×0.04, labour market gross×0.015, and SZJA as follows. SZJA is 0 when exempt, gross×0.15 − 5,000 when only married, and gross×0.15 otherwise. |
| Berkalkulator.RejectionBounds | src/main.rs:33-42 | The result is `TooLow` exactly when gross ≤ 0 and `TooHigh` exactly when gross > 100,000,000. A breakdown is returned exactly for gross in (0, 100,000,000], so the bound itself is accepted. |
| Berkalkulator.ContributionsIgnoreFlags | src/main.rs:48-59 | Pension, cash health, in-kind health and labour market are gross × 0.10, 0.03, 0.04 and 0.015. They are the same whatever the two flags are. |
| Berkalkulator.SzjaAdjustments | src/main.rs:60-72 | SZJA is 0 whenever exempt, whatever the married flag. Without flags it is gross × 0.15. Married alone lowers it by exactly 5,000. |
| Berkalkulator.MarriedNetDiscount | src/main.rs:80-83 | The married flag lowers net by exactly 5,000. This holds also when exempt, where SZJA is already 0. |
| Berkalkulator.ExemptNet | src/main.rs:68-71 | Exemption raises net by exactly gross × 0.15, the SZJA rate taken out of the sum. |
| Berkalkulator.BreakdownTotal | src/main.rs:60-83 | The five amounts plus net equal gross without the married flag. With it, they equal gross − 10,000, or gross − 5,000 when exempt. |
| Berkalkulator.UnclampedMarriedDiscount | src/main.rs:63-64 | The 5,000 married discount is subtracted without a floor: SZJA is negative for every married, non-exempt gross in (0, 100,000/3), for example −4,850 at 1,000, and net is negative at gross 0.5 with both flags. |
| Berkalkulator.OneMillionExample | src/main.rs:27-119 | The full breakdown for gross 1,000,000 under each of the four flag settings. |

## Left out

- Error messages: the gettext catalog lookup, the translated message text and the
  `warn!`/`info!` logging are not modelled. The two rejections are the error kinds
  `TooLow` and `TooHigh`.
- Output rendering: the localised labels and the `format!` rendering with two decimals
  are not modelled. The result is the `Breakdown` record of the five amounts and net.
- Floating point: `f64` rounding is not modelled. Amounts and rates are exact reals,
  so, for example, 0.10 + 0.03 is exactly 0.13.
- Floating point: NaN and the infinities are not modelled, since a `real` has no such
  values. In the source, NaN fails both `<= 0` and `> 100,000,000`, so it passes both
  checks and yields a breakdown whose amounts and net are all NaN, except SZJA,
  which is 0 when the exemption flag is set (the input parsing accepts the text "NaN"). Positive infinity is rejected as too high and
  negative infinity as too low.
- The `main` function: the window, the `on_divide_income` callback, the parsing of
  the input text and the catalog file loading are not modelled. These are bindings
  to an external UI toolkit and to file I/O.
- The `catalog` parameter of `calculate_netto_ber`: it is dropped, because it is
  used only for message text.
