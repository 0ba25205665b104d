# Notarial-cost calculator for Mexico City, in Dafny

This project models the calculator in `Calculadora.py` (lines 6–103). The
calculator works out the costs of a real-estate transfer in Mexico City:

- the acquisition tax (ISAI, *impuesto sobre adquisición de inmuebles*);
- the public-registry fee (*derechos de registro*);
- the notary fee (*honorarios*) and its 16% VAT (*IVA*);
- the fixed disbursement (*erogaciones*) of 16,000 MXN;
- the appraisal (*avalúo*), which is 1.95 per thousand plus VAT;
- a partial forgiveness (*condonación*) of tax and registry fee when the
  cadastral value is low enough. The forgiven fraction depends on the
  operation type, "herencia" (inheritance) or "adquisicion" (acquisition).

It also models the report `calcular_total_general` builds: the base value,
the six line items, their total, and the forgiven percentage or "No aplica".

Money is exact `real` arithmetic over the source's decimal constants. Nothing
is rounded, just as nothing is rounded in the source.

Files:

- `brackets.dfy` (module `Brackets`) holds the bracket mechanics the three
  lookups share:
  - a row holds a lower bound, an upper bound that may be absent
    (`float('inf')`) and the row's terms;
  - the first-match scan (`FirstMatch`), proved to return the first row that
    contains the value, or nothing when no row does;
  - facts about ascending tables: rows are disjoint, so the scan finds the
    one containing row;
  - facts about whole-cent values: with one-cent gaps between rows, every
    whole-cent value from a table's first lower bound up matches a row;
  - monotonicity of fixed-plus-marginal rows.
- `calculadora.dfy` (module `Calculadora`) holds the three tables, the
  lookups, the formulas, the forgiveness rule and the report, with the
  properties proved about each.

Behaviour worth knowing, modelled as the code has it and proved:

- Each table leaves a one-cent gap between rows (…81 to …82). A value inside
  a gap, such as 123988.815, matches no row and is charged 0. The same is true
  of the forgiveness ranges. Every whole-cent value from a table's first
  lower bound up matches a row: 0.12 for the tax, 0.01 for the registry and
  notary fees. So whole-cent values from 0.01 to 0.11 pay registry and notary
  fees but no tax, and 0.00 matches no table. Every whole-cent cadastral value
  up to the ceiling of its type (2736839 for inheritance, 2326313 for
  acquisition) gets forgiveness; above it, none.
- The notary table's open top row has addition 0. The fee therefore falls from
  115663.548758 at 14566923.00 to exactly 0 at 14566923.01.
- The calculation base is the cadastral value whenever any forgiveness
  applies. All six items are then computed on it: tax, registry fee, notary
  fee, VAT and appraisal. The appraisal is always charged.

Some descriptions of this calculator mention behaviour that this code does
not have. The model follows the code, which has none of the following:

- an 18% notary-fee markup;
- an 11-row tax table;
- a notary fee always computed on the operation value;
- an appraisal charged only at some forgiveness tiers;
- a second total "without forgiveness" at the 10% tier;
- rounding to cents;
- a binary search.

## Model

| member | source | states |
|---|---|---|
| `Brackets.FirstMatchFrom` | Calculadora.py:18-21 | the scan from row i returns the first row at or after i whose inclusive range contains v; it returns nothing exactly when no such row exists |
| `Brackets.FirstMatch` | Calculadora.py:18-21 | the whole-table scan returns the first containing row, with no earlier row containing v; it returns nothing exactly when no row contains v |
| `Brackets.AscendingSeparates` | Calculadora.py:7-16 | in an ascending table every row lies strictly below every later row |
| `Brackets.AscendingDisjoint` | Calculadora.py:7-16 | in an ascending table no value lies in two rows |
| `Brackets.MatchIsContainingRow` | Calculadora.py:18-21 | in an ascending table the first-match scan returns the one row containing v |
| `Brackets.BelowFirstUnmatched` | Calculadora.py:18-21 | a value below the first lower bound matches no row |
| `Brackets.CentsAreCovered` | Calculadora.py:18-21 | in a table whose rows are one cent apart, every whole-cent value from the first lower bound up matches a row |
| `Brackets.AmountMonotone` | Calculadora.py:20 | with a factor ≥ 0, a row's fixed-plus-marginal amount is at least its fixed part and non-decreasing in v |
| `Brackets.AmountMonotoneAcross` | Calculadora.py:20 | across rows whose top amounts never exceed the next row's fixed part, a larger matched value is never charged less |
| `Calculadora.TaxTableAscending` | Calculadora.py:7-16 | the 8 tax rows are non-empty, ascending and pairwise separated |
| `Calculadora.TaxTableCents` | Calculadora.py:7-16 | every tax bound is whole cents, with a one-cent gap between rows and an open top row |
| `Calculadora.TaxTableTerms` | Calculadora.py:7-16 | every tax factor is ≥ 0 and every fixed cost is > 0 |
| `Calculadora.TaxTableSteps` | Calculadora.py:7-16 | each tax row charges at its upper bound no more than the next row's fixed cost |
| `Calculadora.AcquisitionTax` | Calculadora.py:6-21 | the acquisition tax is never negative |
| `Calculadora.TaxInBracket` | Calculadora.py:7-20 | for v in row i, the tax is costo_fijo_i + (v − lower_i) × factor_i, because no other row can match first |
| `Calculadora.TaxZeroIffUnmatched` | Calculadora.py:18-21 | the tax is 0 if and only if no row contains v |
| `Calculadora.TaxBelowFirstBound` | Calculadora.py:8-21 | below 0.12, and so at 0, the tax is 0 |
| `Calculadora.TaxGapExample` | Calculadora.py:8-21 | 123988.815, in the gap between rows 1 and 2, is taxed 0, while 123988.81 and 123988.82 are taxed |
| `Calculadora.TaxCoversCents` | Calculadora.py:7-21 | every whole-cent value ≥ 0.12 is taxed more than 0 |
| `Calculadora.TaxMonotoneInBracket` | Calculadora.py:20 | inside one row the tax is at least that row's fixed cost and non-decreasing in v |
| `Calculadora.TaxMonotone` | Calculadora.py:7-20 | across the whole table the tax is non-decreasing among matched values |
| `Calculadora.RegistryTableAscending` | Calculadora.py:24-30 | the 5 registry rows are non-empty, ascending and pairwise separated |
| `Calculadora.RegistryTableCents` | Calculadora.py:24-30 | every registry bound is whole cents, with one-cent gaps and an open top row |
| `Calculadora.RegistryTableTotals` | Calculadora.py:24-30 | every registry total is one of 2411, 7233, 12055, 16877, 24154, and they increase row by row |
| `Calculadora.RegistryFee` | Calculadora.py:23-35 | the registry fee is 0 or one of 2411, 7233, 12055, 16877, 24154 |
| `Calculadora.RegistryFlatInBracket` | Calculadora.py:32-34 | the fee for any two values in the same row is that row's flat total, wherever they sit in the row |
| `Calculadora.RegistryZeroIffUnmatched` | Calculadora.py:32-35 | the registry fee is 0 if and only if no row contains v |
| `Calculadora.RegistryBelowFirstBound` | Calculadora.py:25-35 | below 0.01, and so at 0, the registry fee is 0 |
| `Calculadora.RegistryCoversCents` | Calculadora.py:24-35 | every whole-cent value ≥ 0.01 pays one of the five totals |
| `Calculadora.RegistryMonotone` | Calculadora.py:24-34 | a larger matched value never pays a smaller registry fee |
| `Calculadora.RegistryRowsGrow` | Calculadora.py:24-30 | a later registry row's total is at least an earlier row's |
| `Calculadora.NotaryTableAscending` | Calculadora.py:38-47 | the 8 notary rows are non-empty, ascending and pairwise separated, and the top row starts at 14566923.01 |
| `Calculadora.NotaryTableCents` | Calculadora.py:38-47 | every notary bound is whole cents, with one-cent gaps and an open top row |
| `Calculadora.NotaryTableTerms` | Calculadora.py:38-47 | every notary factor is ≥ 0 and only the first is 0; every addition is > 0 except the top row's, which is 0 |
| `Calculadora.NotaryTableSteps` | Calculadora.py:38-46 | below the top row, each notary row charges at its upper bound no more than the next row's addition |
| `Calculadora.NotaryFee` | Calculadora.py:37-52 | the notary fee is never negative |
| `Calculadora.NotaryFeeInBracket` | Calculadora.py:38-51 | for v in row i, the fee is adicion_i + (v − lower_i) × factor_i |
| `Calculadora.NotaryFeeZeroIff` | Calculadora.py:46-52 | the fee is 0 if and only if no row contains v or v is exactly 14566923.01 |
| `Calculadora.NotaryFeeBelowFirstBound` | Calculadora.py:39-52 | below 0.01, and so at 0, the notary fee is 0 |
| `Calculadora.NotaryFeeCoversCents` | Calculadora.py:38-51 | every whole-cent value ≥ 0.01 matches a notary row |
| `Calculadora.NotaryFeeMonotoneInBracket` | Calculadora.py:51 | inside one row the fee is at least that row's addition and non-decreasing in v |
| `Calculadora.NotaryFeeMonotoneBelowTop` | Calculadora.py:38-51 | below 14566923.01 the fee is non-decreasing among matched values |
| `Calculadora.NotaryFeeDropsAtTop` | Calculadora.py:45-51 | the fee is 115663.548758 at 14566923.00 and 0 at 14566923.01: it is not monotone at the top |
| `Calculadora.Appraisal` | Calculadora.py:54-55 | the appraisal is 0.2262% of the value (1.95‰ × 1.16); for v ≥ 0 it lies between 0 and v |
| `Calculadora.Vat` | Calculadora.py:57-58 | fee plus VAT is 116% of the fee; for a fee ≥ 0 the VAT lies between 0 and the fee |
| `Calculadora.Disbursements` | Calculadora.py:60-61 | the disbursement is 16000 on every call |
| `Calculadora.Forgiveness` | Calculadora.py:63-80 | the fraction is one of 0, 0.1, 0.2, 0.3, 0.4, 0.6, 0.8; it is 0 for any other type, for inheritance above 2736839 and for acquisition above 2326313 |
| `Calculadora.ForgivenessGapExample` | Calculadora.py:65-72 | 448061.005 (acquisition) and 2326313.005 (inheritance) fall in gaps and get 0, while 448061.00 gets 0.6 and 448061.01 gets 0.4 |
| `Calculadora.CeilingLookupBounded` | Calculadora.py:63-80 | in a descending ceiling schedule the lookup lies between 0 and the first fraction |
| `Calculadora.CeilingLookupNonIncreasing` | Calculadora.py:63-80 | in a descending ceiling schedule a larger value never gets a larger fraction |
| `Calculadora.SchedulesDescending` | Calculadora.py:64-79 | both ceiling schedules have ascending ceilings and descending non-negative fractions |
| `Calculadora.ForgivenessWithinSchedule` | Calculadora.py:63-80 | whenever the range tests grant a fraction, it is the ceiling schedule's fraction |
| `Calculadora.ForgivenessMatchesSchedule` | Calculadora.py:63-80 | for whole-cent cadastral values the range tests equal the first-ceiling-not-exceeded schedule |
| `Calculadora.ForgivenessNonIncreasing` | Calculadora.py:63-80 | for whole-cent values, a larger cadastral value never gets a larger forgiveness |
| `Calculadora.ForgivenessCoversCents` | Calculadora.py:63-80 | for whole-cent values, forgiveness is positive if and only if the value is ≤ 2736839 (inheritance) or ≤ 2326313 (acquisition) |
| `Calculadora.Unforgiven` | Calculadora.py:86-87 | scaling a non-negative amount by (1 − f), with 0 ≤ f ≤ 1, gives a result between 0 and the amount; with f = 0 the amount is unchanged |
| `Calculadora.TotalGeneral` | Calculadora.py:82-103 | the total is the exact sum of the six items; VAT is 0.16 × the notary fee; the disbursement is 16000; the percentage is reported exactly when forgiveness > 0, and it is 100 × the fraction, one of 10, 20, 30, 40, 60, 80 |
| `Calculadora.OneBase` | Calculadora.py:83-91 | the base is the cadastral value when forgiveness > 0 and the operation value otherwise; all items are computed on it; tax and registry fee are scaled by (1 − f) and lie between 0 and their unscaled lookups |
| `Calculadora.CadastralIgnoredWithoutForgiveness` | Calculadora.py:83-102 | with zero forgiveness the cadastral value changes no output; tax and registry fee are charged in full on the operation value; the report says "No aplica" |
| `Calculadora.ValueIgnoredWithForgiveness` | Calculadora.py:83-93 | with positive forgiveness the operation value changes no output |
| `Calculadora.UnknownTypeCharged` | Calculadora.py:63-88 | an unrecognised type is charged tax, registry fee and notary fee in full on the operation value, with "No aplica" |
| `Calculadora.TotalAtLeastDisbursements` | Calculadora.py:86-93 | for non-negative inputs every item is ≥ 0 and the total is at least 16000 |
| `Calculadora.ZeroValueScenario` | Calculadora.py:82-93 | at value and cadastral value 0, for any type, every item but the disbursement is 0 and the total is 16000 |
| `Calculadora.AcquisitionScenario` | Calculadora.py:82-103 | an acquisition at 100000/100000 gets 60%, tax 682.78733184, registry 964.4, notary 6632, VAT 1061.12, appraisal 226.2, total 25566.50733184 |
| `Calculadora.InheritanceScenario` | Calculadora.py:64-103 | an inheritance at 5000000 gets no forgiveness and is charged on the operation value: tax 268514.088608, registry 24154, notary 62332.8063222, VAT 9973.249011552, disbursement 16000, appraisal 11310, total 392284.143941752 |

## Left out

- The Streamlit interface (lines 105–134) is left out because it is I/O:
  - the title;
  - the `number_input` and `selectbox` widgets;
  - the button;
  - the output loop.

  The widgets' `min_value=0.0` is the only input check. Where a lemma needs
  non-negative inputs, it says so in a precondition.
- The `:,.2f` display formatting and the `%` suffix (line 117) are
  presentation. They round nothing inside the calculation.
- The explanatory markdown text is display only.
- The unused `pandas` import (line 1) is left out.
- IEEE-754 floating point is not modelled. All arithmetic is exact over
  reals, so values such as 0.16 × fee are the decimal results, not their
  binary approximations.
- The operation type is modelled as the string the source compares, so its
  values are not restricted to those the interface's select box offers.
