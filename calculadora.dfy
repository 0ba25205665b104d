/** The Mexico City notarial-cost calculator of Calculadora.py: three bracket
    tables (acquisition tax, public-registry fee, notary fee), the appraisal,
    VAT and disbursement formulas, the forgiveness ("condonación") rule, and
    the report that adds them all up. Money is exact `real` arithmetic. */
module Calculadora {
  import opened Brackets

  // ---------------------------------------------------------------------------
  // Acquisition tax (impuesto sobre adquisición de inmuebles)
  // ---------------------------------------------------------------------------

  /** `calcular_impuesto_adquisicion`: fixed cost plus a factor on the excess
      over the lower bound. */
  const TaxTable: seq<Bracket<Marginal>> := [
    Bracket(0.12, Some(123988.81), Marginal(314.97, 0.01392)),
    Bracket(123988.82, Some(198382.03), Marginal(2040.90, 0.02967)),
    Bracket(198382.04, Some(297572.76), Marginal(4248.16, 0.03876)),
    Bracket(297572.77, Some(595145.67), Marginal(8092.80, 0.04522)),
    Bracket(595145.68, Some(1487864.15), Marginal(21549.06, 0.05023)),
    Bracket(1487864.16, Some(2975728.34), Marginal(66390.32, 0.05487)),
    Bracket(2975728.35, Some(5732476.11), Marginal(148029.44, 0.05952)),
    Bracket(5732476.12, None, Marginal(312111.08, 0.06183))
  ]

  /** The tax table's rows are ascending and disjoint. */
  lemma TaxTableAscending()
    ensures Ascending(TaxTable)
  {
  }

  /** Every bound of the tax table is whole cents, and each gap is one cent. */
  lemma TaxTableCents()
    ensures CentContiguous(TaxTable)
  {
    assert TaxTable[0].lower == 0.12 && IsCent(0.12);
    assert TaxTable[1].lower == 123988.82 && IsCent(123988.82);
    assert TaxTable[2].lower == 198382.04 && IsCent(198382.04);
    assert TaxTable[3].lower == 297572.77 && IsCent(297572.77);
    assert TaxTable[4].lower == 595145.68 && IsCent(595145.68);
    assert TaxTable[5].lower == 1487864.16 && IsCent(1487864.16);
    assert TaxTable[6].lower == 2975728.35 && IsCent(2975728.35);
    assert TaxTable[7].lower == 5732476.12 && IsCent(5732476.12);
  }

  /** The tax table's factors are never negative and its fixed costs are
      positive. */
  lemma TaxTableTerms()
    ensures forall k :: 0 <= k < |TaxTable| ==> TaxTable[k].terms.factor >= 0.0 && TaxTable[k].terms.fixed > 0.0
  {
  }

  /** No tax row charges at its top more than the next row charges at its
      bottom. */
  lemma TaxTableSteps()
    ensures forall k :: 0 <= k < |TaxTable| - 1 ==> StepUp(TaxTable, k)
  {
  }

  /** Acquisition tax on `v`; 0 when no row contains `v`. */
  function AcquisitionTax(v: real): (r: real)
    ensures r >= 0.0
  {
    match FirstMatch(TaxTable, v)
    case None => 0.0
    case Some(i) =>
      TaxTableTerms();
      AmountMonotone(TaxTable[i], v, v);
      Amount(TaxTable[i], v)
  }

  /** The tax is computed from the row whose range contains `v`: rows are
      disjoint, so the first-match scan cannot pick another one. */
  lemma TaxInBracket(v: real, i: nat)
    requires i < |TaxTable| && TaxTable[i].Contains(v)
    ensures AcquisitionTax(v) == Amount(TaxTable[i], v)
  {
    TaxTableAscending();
    MatchIsContainingRow(TaxTable, v, i);
  }

  /** The tax is 0 exactly when no row contains `v`, as in the one-cent gaps
      between rows. */
  lemma TaxZeroIffUnmatched(v: real)
    ensures AcquisitionTax(v) == 0.0 <==> forall k :: 0 <= k < |TaxTable| ==> !TaxTable[k].Contains(v)
  {
    TaxTableTerms();
    match FirstMatch(TaxTable, v)
    case None =>
    case Some(i) => AmountMonotone(TaxTable[i], v, v);
  }

  /** Below the first lower bound, 0.12, no tax is due; in particular none on 0. */
  lemma TaxBelowFirstBound(v: real)
    requires v < 0.12
    ensures AcquisitionTax(v) == 0.0
  {
    TaxTableAscending();
    BelowFirstUnmatched(TaxTable, v);
  }

  /** A value between two rows, 123988.815, is charged no tax, while the cent
      values on either side are. */
  lemma TaxGapExample()
    ensures AcquisitionTax(123988.815) == 0.0
    ensures AcquisitionTax(123988.81) > 0.0 && AcquisitionTax(123988.82) > 0.0
  {
    TaxZeroIffUnmatched(123988.815);
    TaxInBracket(123988.81, 0);
    TaxInBracket(123988.82, 1);
  }

  /** Every whole-cent value from 0.12 up is taxed: the gaps hold only
      fractions of a cent. */
  lemma TaxCoversCents(v: real)
    requires IsCent(v) && v >= 0.12
    ensures AcquisitionTax(v) > 0.0
  {
    TaxTableAscending();
    TaxTableCents();
    CentsAreCovered(TaxTable, v, 0);
    TaxZeroIffUnmatched(v);
  }

  /** Inside one row, the tax never falls below that row's fixed cost and is
      non-decreasing in the value. */
  lemma TaxMonotoneInBracket(i: nat, v: real, w: real)
    requires i < |TaxTable| && TaxTable[i].Contains(v) && TaxTable[i].Contains(w) && v <= w
    ensures TaxTable[i].terms.fixed <= AcquisitionTax(v) <= AcquisitionTax(w)
  {
    TaxTableTerms();
    TaxInBracket(v, i);
    TaxInBracket(w, i);
    AmountMonotone(TaxTable[i], v, w);
  }

  /** Across the whole table the tax is non-decreasing among values that some
      row contains: each row ends at or below the next row's fixed cost. */
  lemma TaxMonotone(v: real, w: real)
    requires FirstMatch(TaxTable, v).Some? && FirstMatch(TaxTable, w).Some? && v <= w
    ensures AcquisitionTax(v) <= AcquisitionTax(w)
  {
    TaxTableAscending(); TaxTableTerms(); TaxTableSteps();
    var i, j := FirstMatch(TaxTable, v).value, FirstMatch(TaxTable, w).value;
    if j < i {
      AscendingSeparates(TaxTable, j, i);
    }
    AmountMonotoneAcross(TaxTable, i, j, v, w);
  }

  // ---------------------------------------------------------------------------
  // Public-registry fee (derechos de registro)
  // ---------------------------------------------------------------------------

  /** `calcular_derechos_registro`: a flat total per row. */
  const RegistryTable: seq<Bracket<real>> := [
    Bracket(0.01, Some(848550.00), 2411.00),
    Bracket(848550.01, Some(1018260.00), 7233.00),
    Bracket(1018260.01, Some(1187970.00), 12055.00),
    Bracket(1187970.01, Some(1357680.00), 16877.00),
    Bracket(1357680.01, None, 24154.00)
  ]

  /** The flat totals of the registry table. */
  const RegistryTotals: set<real> := {2411.00, 7233.00, 12055.00, 16877.00, 24154.00}

  /** The registry table's rows are ascending and disjoint. */
  lemma RegistryTableAscending()
    ensures Ascending(RegistryTable)
  {
  }

  /** Every bound of the registry table is whole cents, and each gap is one cent. */
  lemma RegistryTableCents()
    ensures CentContiguous(RegistryTable)
  {
    assert RegistryTable[0].lower == 0.01 && IsCent(0.01);
    assert RegistryTable[1].lower == 848550.01 && IsCent(848550.01);
    assert RegistryTable[2].lower == 1018260.01 && IsCent(1018260.01);
    assert RegistryTable[3].lower == 1187970.01 && IsCent(1187970.01);
    assert RegistryTable[4].lower == 1357680.01 && IsCent(1357680.01);
  }

  /** The registry table's totals are the listed ones and grow from row to row. */
  lemma RegistryTableTotals()
    ensures forall k :: 0 <= k < |RegistryTable| ==> RegistryTable[k].terms in RegistryTotals
    ensures forall k :: 0 <= k < |RegistryTable| - 1 ==> RegistryTable[k].terms < RegistryTable[k + 1].terms
  {
  }

  /** Registry fee on `v`; 0 when no row contains `v`. */
  function RegistryFee(v: real): (r: real)
    ensures r == 0.0 || r in RegistryTotals
  {
    match FirstMatch(RegistryTable, v)
    case None => 0.0
    case Some(i) =>
      RegistryTableTotals();
      RegistryTable[i].terms
  }

  /** The fee is the flat total of the row that contains `v`, wherever `v`
      sits inside that row. */
  lemma RegistryFlatInBracket(i: nat, v: real, w: real)
    requires i < |RegistryTable| && RegistryTable[i].Contains(v) && RegistryTable[i].Contains(w)
    ensures RegistryFee(v) == RegistryFee(w) == RegistryTable[i].terms
  {
    RegistryTableAscending();
    MatchIsContainingRow(RegistryTable, v, i);
    MatchIsContainingRow(RegistryTable, w, i);
  }

  /** The fee is 0 exactly when no row contains `v`, as in the one-cent gaps
      between rows. */
  lemma RegistryZeroIffUnmatched(v: real)
    ensures RegistryFee(v) == 0.0 <==> forall k :: 0 <= k < |RegistryTable| ==> !RegistryTable[k].Contains(v)
  {
    RegistryTableTotals();
  }

  /** Below the first lower bound, 0.01, no registry fee is due; in particular
      none on 0. */
  lemma RegistryBelowFirstBound(v: real)
    requires v < 0.01
    ensures RegistryFee(v) == 0.0
  {
    RegistryTableAscending();
    BelowFirstUnmatched(RegistryTable, v);
  }

  /** Every whole-cent value from 0.01 up pays a registry fee. */
  lemma RegistryCoversCents(v: real)
    requires IsCent(v) && v >= 0.01
    ensures RegistryFee(v) in RegistryTotals
  {
    RegistryTableAscending(); RegistryTableTotals();
    RegistryTableCents();
    CentsAreCovered(RegistryTable, v, 0);
  }

  /** A larger matched value never pays a smaller registry fee. */
  lemma RegistryMonotone(v: real, w: real)
    requires FirstMatch(RegistryTable, v).Some? && FirstMatch(RegistryTable, w).Some? && v <= w
    ensures RegistryFee(v) <= RegistryFee(w)
  {
    RegistryTableAscending();
    var i, j := FirstMatch(RegistryTable, v).value, FirstMatch(RegistryTable, w).value;
    if j < i {
      AscendingSeparates(RegistryTable, j, i);
    }
    RegistryRowsGrow(i, j);
  }

  /** Later registry rows charge no less than earlier ones. */
  lemma {:induction false} RegistryRowsGrow(i: nat, j: nat)
    requires i <= j < |RegistryTable|
    ensures RegistryTable[i].terms <= RegistryTable[j].terms
    decreases j - i
  {
    if i < j {
      RegistryTableTotals();
      RegistryRowsGrow(i + 1, j);
    }
  }

  // ---------------------------------------------------------------------------
  // Notary fee (honorarios)
  // ---------------------------------------------------------------------------

  /** `calcular_honorarios`: an addition plus a factor on the excess over the
      lower bound. The open top row has addition 0. */
  const NotaryTable: seq<Bracket<Marginal>> := [
    Bracket(0.01, Some(227607.00), Marginal(6632.00, 0.0)),
    Bracket(227607.01, Some(455214.00), Marginal(9193.00, 0.01125)),
    Bracket(455214.01, Some(910432.00), Marginal(13631.00, 0.00975)),
    Bracket(910432.01, Some(1820862.00), Marginal(21142.00, 0.00825)),
    Bracket(1820862.01, Some(3641729.00), Marginal(33433.00, 0.00675)),
    Bracket(3641729.01, Some(7283459.00), Marginal(54482.00, 0.00578)),
    Bracket(7283459.01, Some(14566923.00), Marginal(85073.00, 0.00420)),
    Bracket(14566923.01, None, Marginal(0.0, 0.00327))
  ]

  /** The lower bound of the notary table's open top row. */
  const NotaryTopLower: real := 14566923.01

  /** The notary table's rows are ascending and disjoint, and the last one
      starts at 14566923.01. */
  lemma NotaryTableAscending()
    ensures Ascending(NotaryTable)
    ensures NotaryTable[|NotaryTable| - 1].lower == NotaryTopLower
  {
  }

  /** Every bound of the notary table is whole cents, and each gap is one cent. */
  lemma NotaryTableCents()
    ensures CentContiguous(NotaryTable)
  {
    assert NotaryTable[0].lower == 0.01 && IsCent(0.01);
    assert NotaryTable[1].lower == 227607.01 && IsCent(227607.01);
    assert NotaryTable[2].lower == 455214.01 && IsCent(455214.01);
    assert NotaryTable[3].lower == 910432.01 && IsCent(910432.01);
    assert NotaryTable[4].lower == 1820862.01 && IsCent(1820862.01);
    assert NotaryTable[5].lower == 3641729.01 && IsCent(3641729.01);
    assert NotaryTable[6].lower == 7283459.01 && IsCent(7283459.01);
    assert NotaryTable[7].lower == 14566923.01 && IsCent(14566923.01);
  }

  /** The notary table's factors are positive except the first row's, which is
      0; its additions are positive except the top row's, which is 0. */
  lemma NotaryTableTerms()
    ensures forall k :: 0 <= k < |NotaryTable| ==> NotaryTable[k].terms.factor >= 0.0
    ensures forall k :: 0 <= k < |NotaryTable| ==> NotaryTable[k].terms.factor > 0.0 || k == 0
    ensures forall k :: 0 <= k < |NotaryTable| ==> NotaryTable[k].terms.fixed > 0.0 || k == |NotaryTable| - 1
    ensures NotaryTable[0].terms.factor == 0.0
    ensures NotaryTable[|NotaryTable| - 1].terms.fixed == 0.0
  {
  }

  /** Every step of the notary table below its top row is upward. */
  lemma NotaryTableSteps()
    ensures forall k :: 0 <= k < |NotaryTable| - 2 ==> StepUp(NotaryTable, k)
  {
  }

  /** Notary fee on `v`; 0 when no row contains `v`. */
  function NotaryFee(v: real): (r: real)
    ensures r >= 0.0
  {
    match FirstMatch(NotaryTable, v)
    case None => 0.0
    case Some(i) =>
      NotaryTableTerms();
      AmountMonotone(NotaryTable[i], v, v);
      Amount(NotaryTable[i], v)
  }

  /** The fee is computed from the row whose range contains `v`. */
  lemma NotaryFeeInBracket(v: real, i: nat)
    requires i < |NotaryTable| && NotaryTable[i].Contains(v)
    ensures NotaryFee(v) == Amount(NotaryTable[i], v)
  {
    NotaryTableAscending();
    MatchIsContainingRow(NotaryTable, v, i);
  }

  /** The fee is 0 exactly when no row contains `v` (as in the gaps) or `v` is
      the top row's lower bound, where the addition 0 leaves nothing to charge. */
  lemma NotaryFeeZeroIff(v: real)
    ensures NotaryFee(v) == 0.0 <==>
      (forall k :: 0 <= k < |NotaryTable| ==> !NotaryTable[k].Contains(v)) || v == NotaryTopLower
  {
    match FirstMatch(NotaryTable, v)
    case None =>
    case Some(i) =>
      var top := |NotaryTable| - 1;
      if i < top {
        NotaryTableAscending();
        NotaryTableTerms();
        AmountMonotone(NotaryTable[i], v, v);
        AscendingSeparates(NotaryTable, i, top);
      } else {
        assert NotaryTable[i] == Bracket(NotaryTopLower, None, Marginal(0.0, 0.00327));
      }
  }

  /** Below the first lower bound, 0.01, no notary fee is charged; in
      particular none on 0. */
  lemma NotaryFeeBelowFirstBound(v: real)
    requires v < 0.01
    ensures NotaryFee(v) == 0.0
  {
    NotaryTableAscending();
    BelowFirstUnmatched(NotaryTable, v);
  }

  /** Every whole-cent value from 0.01 up matches a notary-fee row. */
  lemma NotaryFeeCoversCents(v: real)
    requires IsCent(v) && v >= 0.01
    ensures FirstMatch(NotaryTable, v).Some?
  {
    NotaryTableAscending();
    NotaryTableCents();
    CentsAreCovered(NotaryTable, v, 0);
  }

  /** Inside one row, the fee never falls below that row's addition and is
      non-decreasing in the value. */
  lemma NotaryFeeMonotoneInBracket(i: nat, v: real, w: real)
    requires i < |NotaryTable| && NotaryTable[i].Contains(v) && NotaryTable[i].Contains(w) && v <= w
    ensures NotaryTable[i].terms.fixed <= NotaryFee(v) <= NotaryFee(w)
  {
    NotaryTableTerms();
    NotaryFeeInBracket(v, i);
    NotaryFeeInBracket(w, i);
    AmountMonotone(NotaryTable[i], v, w);
  }

  /** Up to 14566923.00 the fee is non-decreasing among matched values. */
  lemma NotaryFeeMonotoneBelowTop(v: real, w: real)
    requires FirstMatch(NotaryTable, v).Some? && FirstMatch(NotaryTable, w).Some?
    requires v <= w < NotaryTopLower
    ensures NotaryFee(v) <= NotaryFee(w)
  {
    NotaryTableAscending(); NotaryTableTerms(); NotaryTableSteps();
    var i, j := FirstMatch(NotaryTable, v).value, FirstMatch(NotaryTable, w).value;
    if j < i {
      AscendingSeparates(NotaryTable, j, i);
    }
    assert j < |NotaryTable| - 1;
    AmountMonotoneAcross(NotaryTable, i, j, v, w);
  }

  /** One cent above 14566923.00 the fee falls from 115663.548758 to 0: the top
      row starts again from an addition of 0. */
  lemma NotaryFeeDropsAtTop()
    ensures NotaryFee(14566923.00) == 115663.548758
    ensures NotaryFee(14566923.01) == 0.0
  {
    NotaryFeeInBracket(14566923.00, 6);
    NotaryFeeInBracket(14566923.01, 7);
  }

  // ---------------------------------------------------------------------------
  // Fixed formulas
  // ---------------------------------------------------------------------------

  /** `calcular_avaluo`: 1.95 per thousand of the value, plus 16% VAT. */
  function Appraisal(v: real): (r: real)
    ensures r == 0.002262 * v
    ensures v >= 0.0 ==> 0.0 <= r <= v
  {
    (v * 1.95 / 1000.0) * 1.16
  }

  /** `calcular_iva`: 16% of the notary fee. */
  function Vat(fee: real): (r: real)
    ensures fee + r == 1.16 * fee
    ensures fee >= 0.0 ==> 0.0 <= r <= fee
  {
    fee * 0.16
  }

  /** The fixed disbursement amount, 16,000 MXN. */
  const DisbursementAmount: real := 16000.0

  /** `calcular_erogaciones`: the fixed disbursement, independent of any input. */
  function Disbursements(): (r: real)
    ensures r == DisbursementAmount
  {
    16000.0
  }

  // ---------------------------------------------------------------------------
  // Forgiveness (condonación)
  // ---------------------------------------------------------------------------

  /** The operation types the forgiveness rule recognises. */
  const Inheritance: string := "herencia"
  const Acquisition: string := "adquisicion"

  /** Every fraction the forgiveness rule can return. */
  const ForgivenessRates: set<real> := {0.0, 0.1, 0.2, 0.3, 0.4, 0.6, 0.8}

  /** `obtener_condonacion`: the forgiven fraction of tax and registry fee for a
      cadastral value and an operation type, from ascending range tests. */
  function Forgiveness(cadastral: real, op: string): (r: real)
    ensures r in ForgivenessRates && 0.0 <= r < 1.0
    ensures op != Inheritance && op != Acquisition ==> r == 0.0
    ensures op == Inheritance && cadastral > 2736839.00 ==> r == 0.0
    ensures op == Acquisition && cadastral > 2326313.00 ==> r == 0.0
  {
    if op == Inheritance then
      if cadastral <= 2326313.00 then 0.80
      else if 2326313.01 <= cadastral <= 2736839.00 then 0.40
      else 0.0
    else if op == Acquisition then
      if cadastral <= 448061.00 then 0.60
      else if 448061.01 <= cadastral <= 896120.00 then 0.40
      else if 896120.01 <= cadastral <= 1344180.00 then 0.30
      else if 1344180.01 <= cadastral <= 1642105.00 then 0.20
      else if 1642105.01 <= cadastral <= 2326313.00 then 0.10
      else 0.0
    else 0.0
  }

  /** The range tests leave one-cent gaps: such a value, just above the 60%
      ceiling, gets no forgiveness while both neighbours in whole cents do. */
  lemma ForgivenessGapExample()
    ensures Forgiveness(448061.005, Acquisition) == 0.0
    ensures Forgiveness(448061.00, Acquisition) == 0.6 && Forgiveness(448061.01, Acquisition) == 0.4
    ensures Forgiveness(2326313.005, Inheritance) == 0.0
  {
  }

  /** One ceiling of a forgiveness schedule: values up to `ceiling` that no
      earlier tier took get `fraction`. */
  datatype Tier = Tier(ceiling: real, fraction: real)

  /** The forgiveness rule read as a schedule of ascending ceilings per type,
      with no gaps between tiers. */
  function ScheduleFor(op: string): seq<Tier> {
    if op == Inheritance then
      [Tier(2326313.00, 0.80), Tier(2736839.00, 0.40)]
    else if op == Acquisition then
      [Tier(448061.00, 0.60), Tier(896120.00, 0.40), Tier(1344180.00, 0.30),
       Tier(1642105.00, 0.20), Tier(2326313.00, 0.10)]
    else []
  }

  /** The fraction of the first tier whose ceiling `cadastral` does not exceed;
      0 above every ceiling. */
  function CeilingLookup(s: seq<Tier>, cadastral: real): real {
    if s == [] then 0.0
    else if cadastral <= s[0].ceiling then s[0].fraction
    else CeilingLookup(s[1..], cadastral)
  }

  /** Ceilings strictly ascending, fractions descending and never negative. */
  ghost predicate Descending(s: seq<Tier>) {
    && (forall k :: 0 <= k < |s| ==> s[k].fraction >= 0.0)
    && (forall k :: 0 <= k < |s| - 1 ==> s[k].ceiling < s[k + 1].ceiling && s[k + 1].fraction <= s[k].fraction)
  }

  /** In a descending schedule the lookup never exceeds the first fraction. */
  lemma {:induction false} CeilingLookupBounded(s: seq<Tier>, cadastral: real)
    requires Descending(s) && s != []
    ensures 0.0 <= CeilingLookup(s, cadastral) <= s[0].fraction
  {
    if cadastral > s[0].ceiling && |s| > 1 {
      assert Descending(s[1..]);
      CeilingLookupBounded(s[1..], cadastral);
    }
  }

  /** In a descending schedule a larger value never gets a larger fraction. */
  lemma {:induction false} CeilingLookupNonIncreasing(s: seq<Tier>, c1: real, c2: real)
    requires Descending(s) && c1 <= c2
    ensures CeilingLookup(s, c2) <= CeilingLookup(s, c1)
  {
    if s != [] {
      if c1 <= s[0].ceiling {
        CeilingLookupBounded(s, c2);
      } else {
        assert Descending(s[1..]);
        CeilingLookupNonIncreasing(s[1..], c1, c2);
      }
    }
  }

  /** Both schedules are descending. */
  lemma SchedulesDescending(op: string)
    ensures Descending(ScheduleFor(op))
  {
  }

  /** The inheritance schedule unrolled: the first ceiling not below the value
      decides. */
  lemma InheritanceScheduleUnrolled(cadastral: real)
    ensures CeilingLookup(ScheduleFor(Inheritance), cadastral) ==
      if cadastral <= 2326313.00 then 0.80
      else if cadastral <= 2736839.00 then 0.40
      else 0.0
  {
    var s := ScheduleFor(Inheritance);
    assert CeilingLookup(s[1..], cadastral) == if cadastral <= 2736839.00 then 0.40 else 0.0 by {
      assert s[1..][1..] == [];
    }
  }

  /** The acquisition schedule unrolled: the first ceiling not below the value
      decides. */
  lemma AcquisitionScheduleUnrolled(cadastral: real)
    ensures CeilingLookup(ScheduleFor(Acquisition), cadastral) ==
      if cadastral <= 448061.00 then 0.60
      else if cadastral <= 896120.00 then 0.40
      else if cadastral <= 1344180.00 then 0.30
      else if cadastral <= 1642105.00 then 0.20
      else if cadastral <= 2326313.00 then 0.10
      else 0.0
  {
    var s := ScheduleFor(Acquisition);
    assert CeilingLookup(s[4..], cadastral) == if cadastral <= 2326313.00 then 0.10 else 0.0 by {
      assert s[4..][1..] == [];
    }
    assert CeilingLookup(s[2..], cadastral) == if cadastral <= 1344180.00 then 0.30 else CeilingLookup(s[3..], cadastral) by {
      assert s[2..][1..] == s[3..];
    }
    assert CeilingLookup(s[3..], cadastral) == if cadastral <= 1642105.00 then 0.20 else CeilingLookup(s[4..], cadastral) by {
      assert s[3..][1..] == s[4..];
    }
    assert CeilingLookup(s[1..], cadastral) == if cadastral <= 896120.00 then 0.40 else CeilingLookup(s[2..], cadastral) by {
      assert s[1..][1..] == s[2..];
    }
  }

  /** Whenever the range tests grant forgiveness, they grant what the schedule
      does; they differ only in the one-cent gaps, where they grant nothing. */
  lemma ForgivenessWithinSchedule(cadastral: real, op: string)
    ensures Forgiveness(cadastral, op) == 0.0 || Forgiveness(cadastral, op) == CeilingLookup(ScheduleFor(op), cadastral)
  {
    InheritanceScheduleUnrolled(cadastral);
    AcquisitionScheduleUnrolled(cadastral);
  }

  /** On whole-cent cadastral values the range tests and the schedule agree. */
  lemma ForgivenessMatchesSchedule(cadastral: real, op: string)
    requires IsCent(cadastral)
    ensures Forgiveness(cadastral, op) == CeilingLookup(ScheduleFor(op), cadastral)
  {
    if op == Inheritance {
      InheritanceScheduleUnrolled(cadastral);
      if cadastral > 2326313.00 {
        assert IsCent(2326313.00);
        CentStep(2326313.00, cadastral);
      }
    } else if op == Acquisition {
      AcquisitionCentTier(cadastral);
      AcquisitionScheduleUnrolled(cadastral);
    }
  }

  /** A whole-cent value above an acquisition ceiling reaches the next tier's
      lower bound. */
  lemma AcquisitionCentTier(cadastral: real)
    requires IsCent(cadastral)
    ensures cadastral > 448061.00 ==> cadastral >= 448061.01
    ensures cadastral > 896120.00 ==> cadastral >= 896120.01
    ensures cadastral > 1344180.00 ==> cadastral >= 1344180.01
    ensures cadastral > 1642105.00 ==> cadastral >= 1642105.01
  {
    assert IsCent(448061.00) && IsCent(896120.00) && IsCent(1344180.00) && IsCent(1642105.00);
    if cadastral > 448061.00 { CentStep(448061.00, cadastral); }
    if cadastral > 896120.00 { CentStep(896120.00, cadastral); }
    if cadastral > 1344180.00 { CentStep(1344180.00, cadastral); }
    if cadastral > 1642105.00 { CentStep(1642105.00, cadastral); }
  }

  /** On whole-cent cadastral values a larger value never gets a larger
      forgiveness. */
  lemma ForgivenessNonIncreasing(c1: real, c2: real, op: string)
    requires IsCent(c1) && IsCent(c2) && c1 <= c2
    ensures Forgiveness(c2, op) <= Forgiveness(c1, op)
  {
    ForgivenessMatchesSchedule(c1, op);
    ForgivenessMatchesSchedule(c2, op);
    SchedulesDescending(op);
    CeilingLookupNonIncreasing(ScheduleFor(op), c1, c2);
  }

  /** Whole-cent cadastral values up to the ceiling of a type always get some
      forgiveness: 2736839.00 for inheritance, 2326313.00 for acquisition. */
  lemma ForgivenessCoversCents(cadastral: real, op: string)
    requires IsCent(cadastral)
    ensures op == Inheritance ==> (Forgiveness(cadastral, op) > 0.0 <==> cadastral <= 2736839.00)
    ensures op == Acquisition ==> (Forgiveness(cadastral, op) > 0.0 <==> cadastral <= 2326313.00)
  {
    ForgivenessMatchesSchedule(cadastral, op);
  }

  // ---------------------------------------------------------------------------
  // The report (calcular_total_general)
  // ---------------------------------------------------------------------------

  /** "Condonación Aplicada": the forgiven percentage, or "No aplica". */
  datatype Applied = Percent(percent: real) | NotApplicable

  /** The dictionary `calcular_total_general` returns, one field per key. */
  datatype Report = Report(
    acquisitionTax: real,  // "Impuesto Adquisición"
    registryFee: real,     // "Derechos Registro"
    notaryFee: real,       // "Honorarios"
    vat: real,             // "IVA"
    disbursements: real,   // "Erogaciones"
    appraisal: real,       // "Avalúo"
    total: real,           // "Total General"
    applied: Applied)      // "Condonación Aplicada"

  /** The value every line item is computed on: the cadastral value when some
      forgiveness applies, the operation value otherwise. */
  function CalculationBase(value: real, cadastral: real, op: string): real {
    if Forgiveness(cadastral, op) > 0.0 then cadastral else value
  }

  /** What remains of `amount` once the fraction `f` is forgiven. Keeping the
      unforgiven part of a non-negative amount neither raises it nor makes it
      negative. */
  function Unforgiven(amount: real, f: real): (r: real)
    ensures amount >= 0.0 && 0.0 <= f <= 1.0 ==> 0.0 <= r <= amount
    ensures f == 0.0 ==> r == amount
  {
    assert amount * f <= amount * 1.0 || amount < 0.0 || f > 1.0;
    amount * (1.0 - f)
  }

  /** `calcular_total_general`: tax and registry fee scaled by the unforgiven
      fraction, notary fee, its VAT, the fixed disbursement and the appraisal,
      all on one base, and their sum. */
  function TotalGeneral(value: real, cadastral: real, op: string): (r: Report)
    ensures r.total == r.acquisitionTax + r.registryFee + r.notaryFee + r.vat + r.disbursements + r.appraisal
    ensures r.vat == 0.16 * r.notaryFee && r.disbursements == DisbursementAmount
    ensures r.applied.Percent? <==> Forgiveness(cadastral, op) > 0.0
    ensures r.applied.Percent? ==> r.applied.percent == 100.0 * Forgiveness(cadastral, op)
                                    && r.applied.percent in {10.0, 20.0, 30.0, 40.0, 60.0, 80.0}
  {
    var f := Forgiveness(cadastral, op);
    var base := CalculationBase(value, cadastral, op);
    var tax := Unforgiven(AcquisitionTax(base), f);
    var registry := Unforgiven(RegistryFee(base), f);
    var fee := NotaryFee(base);
    var vat := Vat(fee);
    var disbursements := Disbursements();
    var appraisal := Appraisal(base);
    Report(tax, registry, fee, vat, disbursements, appraisal,
           tax + registry + fee + vat + disbursements + appraisal,
           if f > 0.0 then Percent(f * 100.0) else NotApplicable)
  }

  /** Every line item comes from the one base: the tax and registry fee are
      their lookups scaled down by the forgiveness, never above the unscaled
      amounts and never negative; notary fee and appraisal are unscaled. */
  lemma OneBase(value: real, cadastral: real, op: string)
    ensures var r, b, f := TotalGeneral(value, cadastral, op), CalculationBase(value, cadastral, op), Forgiveness(cadastral, op);
      && (b == cadastral || b == value)
      && (f > 0.0 ==> b == cadastral) && (f == 0.0 ==> b == value)
      && r.acquisitionTax == Unforgiven(AcquisitionTax(b), f) && 0.0 <= r.acquisitionTax <= AcquisitionTax(b)
      && r.registryFee == Unforgiven(RegistryFee(b), f) && 0.0 <= r.registryFee <= RegistryFee(b)
      && r.notaryFee == NotaryFee(b) && r.appraisal == Appraisal(b)
  {
    var b, f := CalculationBase(value, cadastral, op), Forgiveness(cadastral, op);
    assert 0.0 <= f <= 1.0;
    assert RegistryFee(b) >= 0.0;
  }

  /** Without forgiveness the cadastral value has no effect on any output, and
      tax and registry fee are charged in full on the operation value. */
  lemma CadastralIgnoredWithoutForgiveness(value: real, c1: real, c2: real, op: string)
    requires Forgiveness(c1, op) == 0.0 && Forgiveness(c2, op) == 0.0
    ensures TotalGeneral(value, c1, op) == TotalGeneral(value, c2, op)
    ensures TotalGeneral(value, c1, op).acquisitionTax == AcquisitionTax(value)
    ensures TotalGeneral(value, c1, op).registryFee == RegistryFee(value)
    ensures TotalGeneral(value, c1, op).applied == NotApplicable
  {
    assert CalculationBase(value, c1, op) == value == CalculationBase(value, c2, op);
  }

  /** With forgiveness the operation value has no effect on any output. */
  lemma ValueIgnoredWithForgiveness(v1: real, v2: real, cadastral: real, op: string)
    requires Forgiveness(cadastral, op) > 0.0
    ensures TotalGeneral(v1, cadastral, op) == TotalGeneral(v2, cadastral, op)
  {
    assert CalculationBase(v1, cadastral, op) == CalculationBase(v2, cadastral, op);
  }

  /** An operation type the rule does not recognise is charged in full on the
      operation value. */
  lemma UnknownTypeCharged(value: real, cadastral: real, op: string)
    requires op != Inheritance && op != Acquisition
    ensures TotalGeneral(value, cadastral, op).registryFee == RegistryFee(value)
    ensures TotalGeneral(value, cadastral, op).notaryFee == NotaryFee(value)
    ensures TotalGeneral(value, cadastral, op).acquisitionTax == AcquisitionTax(value)
    ensures TotalGeneral(value, cadastral, op).applied == NotApplicable
  {
    assert CalculationBase(value, cadastral, op) == value;
  }

  /** For non-negative inputs every line item is non-negative, so the total is
      at least the fixed disbursement. */
  lemma TotalAtLeastDisbursements(value: real, cadastral: real, op: string)
    requires value >= 0.0 && cadastral >= 0.0
    ensures var r := TotalGeneral(value, cadastral, op);
      r.acquisitionTax >= 0.0 && r.registryFee >= 0.0 && r.notaryFee >= 0.0
      && r.vat >= 0.0 && r.appraisal >= 0.0 && r.total >= DisbursementAmount
  {
    OneBase(value, cadastral, op);
  }

  /** A property of value 0 is charged only the disbursement, whatever the
      type: with forgiveness the base is the cadastral value 0 as well. */
  lemma ZeroValueScenario(op: string)
    ensures var r := TotalGeneral(0.0, 0.0, op);
      r.acquisitionTax == 0.0 && r.registryFee == 0.0 && r.notaryFee == 0.0
      && r.vat == 0.0 && r.appraisal == 0.0 && r.total == 16000.0
  {
    TaxBelowFirstBound(0.0);
    RegistryBelowFirstBound(0.0);
    NotaryFeeBelowFirstBound(0.0);
    OneBase(0.0, 0.0, op);
  }

  /** An acquisition at 100000 with cadastral value 100000: 60% forgiveness,
      the cadastral value as base, and every item to the last decimal. */
  lemma AcquisitionScenario()
    ensures var r := TotalGeneral(100000.0, 100000.0, Acquisition);
      && r.applied == Percent(60.0)
      && r.acquisitionTax == 682.78733184 && r.registryFee == 964.4
      && r.notaryFee == 6632.0 && r.vat == 1061.12 && r.appraisal == 226.2
      && r.total == 25566.50733184
  {
    TaxInBracket(100000.0, 0);
    RegistryFlatInBracket(0, 100000.0, 100000.0);
    NotaryFeeInBracket(100000.0, 0);
  }

  /** An inheritance at 5000000: above the inheritance ceiling, so no
      forgiveness and everything on the operation value. */
  lemma InheritanceScenario()
    ensures var r := TotalGeneral(5000000.0, 5000000.0, Inheritance);
      && r.applied == NotApplicable
      && r.acquisitionTax == AcquisitionTax(5000000.0) && r.acquisitionTax == 268514.088608
      && r.registryFee == 24154.0 && r.appraisal == 11310.0
      && r.notaryFee == NotaryFee(5000000.0) && r.notaryFee == 62332.8063222
      && r.vat == 9973.249011552 && r.disbursements == 16000.0
      && r.total == 392284.143941752
  {
    TaxInBracket(5000000.0, 6);
    RegistryFlatInBracket(4, 5000000.0, 5000000.0);
    NotaryFeeInBracket(5000000.0, 5);
  }
}
