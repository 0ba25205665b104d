/** Bracket tables as Calculadora.py uses them: an ordered list of value ranges,
    inclusive at both ends, each carrying the terms of its amount, searched from
    the first row down until a range contains the value. */
module Brackets {

  datatype Option<T> = None | Some(value: T)

  /** One row of a table. `upper` is None for the open top row
      (`float('inf')` in the source). */
  datatype Bracket<P> = Bracket(lower: real, upper: Option<real>, terms: P) {
    /** The source's test `limite_inferior <= valor <= limite_superior`. */
    predicate Contains(v: real) {
      lower <= v && (upper.None? || v <= upper.value)
    }
  }

  /** Terms of a fixed-plus-marginal row: a fixed amount plus a factor applied to
      the excess over the row's lower bound. */
  datatype Marginal = Marginal(fixed: real, factor: real)

  /** The amount a fixed-plus-marginal row charges for `v`. */
  function Amount(b: Bracket<Marginal>, v: real): real {
    b.terms.fixed + (v - b.lower) * b.terms.factor
  }

  /** First-match scan of `t` from row `i` on. */
  function FirstMatchFrom<P>(t: seq<Bracket<P>>, v: real, i: nat): (r: Option<nat>)
    requires i <= |t|
    decreases |t| - i
    ensures r.Some? ==> i <= r.value < |t| && t[r.value].Contains(v)
    ensures r.Some? ==> forall j :: i <= j < r.value ==> !t[j].Contains(v)
    ensures r.None? <==> forall j :: i <= j < |t| ==> !t[j].Contains(v)
  {
    if i == |t| then None
    else if t[i].Contains(v) then Some(i)
    else FirstMatchFrom(t, v, i + 1)
  }

  /** The index of the first row of `t` whose range contains `v`, if any. */
  function FirstMatch<P>(t: seq<Bracket<P>>, v: real): (r: Option<nat>)
    ensures r.Some? ==> r.value < |t| && t[r.value].Contains(v)
    ensures r.Some? ==> forall j :: 0 <= j < r.value ==> !t[j].Contains(v)
    ensures r.None? <==> forall j :: 0 <= j < |t| ==> !t[j].Contains(v)
  {
    FirstMatchFrom(t, v, 0)
  }

  /** No row's range is empty, every row but the last has a finite upper bound,
      and each row's upper bound lies strictly below the next row's lower bound. */
  ghost predicate Ascending<P>(t: seq<Bracket<P>>) {
    && (forall i :: 0 <= i < |t| && t[i].upper.Some? ==> t[i].lower <= t[i].upper.value)
    && (forall i :: 0 <= i < |t| - 1 ==> t[i].upper.Some? && t[i].upper.value < t[i + 1].lower)
  }

  /** In an ascending table every row lies strictly below every later row. */
  lemma {:induction false} AscendingSeparates<P>(t: seq<Bracket<P>>, i: nat, j: nat)
    requires Ascending(t) && i < j < |t|
    ensures t[i].upper.Some? && t[i].upper.value < t[j].lower
    decreases j - i
  {
    if i + 1 < j {
      AscendingSeparates(t, i + 1, j);
      assert t[i + 1].upper.Some?;
    }
  }

  /** Rows of an ascending table are pairwise disjoint. */
  lemma AscendingDisjoint<P>(t: seq<Bracket<P>>, i: nat, j: nat, v: real)
    requires Ascending(t) && i < |t| && j < |t| && i != j
    ensures !(t[i].Contains(v) && t[j].Contains(v))
  {
    if i < j { AscendingSeparates(t, i, j); } else { AscendingSeparates(t, j, i); }
  }

  /** In an ascending table the first-match scan finds the one row that contains
      the value, so the order of the scan does not matter. */
  lemma MatchIsContainingRow<P>(t: seq<Bracket<P>>, v: real, i: nat)
    requires Ascending(t) && i < |t| && t[i].Contains(v)
    ensures FirstMatch(t, v) == Some(i)
  {
    var r := FirstMatch(t, v);
    if r.value != i {
      AscendingDisjoint(t, r.value, i, v);
    }
  }

  /** A value below the first row's lower bound matches no row. */
  lemma BelowFirstUnmatched<P>(t: seq<Bracket<P>>, v: real)
    requires Ascending(t) && |t| > 0 && v < t[0].lower
    ensures FirstMatch(t, v).None?
  {
    forall j | 0 < j < |t| ensures !t[j].Contains(v) {
      AscendingSeparates(t, 0, j);
    }
  }

  /** Whole cents: `v` has at most two decimal places. */
  ghost predicate IsCent(v: real) {
    (v * 100.0).Floor as real == v * 100.0
  }

  /** Two distinct whole-cent amounts are at least one cent apart. */
  lemma CentStep(a: real, v: real)
    requires IsCent(a) && IsCent(v) && a < v
    ensures a + 0.01 <= v
  {
    var m, n := (a * 100.0).Floor, (v * 100.0).Floor;
    assert m < n;
  }

  /** One cent below a whole-cent amount is whole cents too. */
  lemma CentBelow(l: real)
    requires IsCent(l)
    ensures IsCent(l - 0.01)
  {
    var m := (l * 100.0).Floor;
    assert (l - 0.01) * 100.0 == (m - 1) as real;
  }

  /** The open top row plus one-cent gaps: every lower bound is whole cents and
      each upper bound is one cent below the next lower bound. */
  ghost predicate CentContiguous<P>(t: seq<Bracket<P>>) {
    && |t| > 0
    && t[|t| - 1].upper.None?
    && (forall i :: 0 <= i < |t| ==> IsCent(t[i].lower))
    && (forall i :: 0 <= i < |t| - 1 ==> t[i].upper == Some(t[i + 1].lower - 0.01))
  }

  /** A cent-contiguous table leaves no whole-cent value from its first lower
      bound up unmatched: the one-cent gaps hold only fractions of a cent. */
  lemma {:induction false} CentsAreCovered<P>(t: seq<Bracket<P>>, v: real, i: nat)
    requires CentContiguous(t) && i < |t| && IsCent(v) && t[i].lower <= v
    ensures FirstMatchFrom(t, v, i).Some?
    decreases |t| - i
  {
    if !t[i].Contains(v) {
      assert i < |t| - 1;
      var u := t[i].upper.value;
      CentBelow(t[i + 1].lower);
      CentStep(u, v);
      CentsAreCovered(t, v, i + 1);
    }
  }

  /** A factor that is never negative makes a row's amount at least its fixed
      part and non-decreasing in the value, inside that row. */
  lemma AmountMonotone(b: Bracket<Marginal>, v: real, w: real)
    requires b.terms.factor >= 0.0 && b.lower <= v <= w
    ensures b.terms.fixed <= Amount(b, v) <= Amount(b, w)
  {
    assert (w - b.lower) * b.terms.factor - (v - b.lower) * b.terms.factor
        == (w - v) * b.terms.factor;
  }

  /** Row `k` charges at its upper bound no more than row `k + 1` charges at its
      lower bound. */
  ghost predicate StepUp(t: seq<Bracket<Marginal>>, k: nat)
    requires k + 1 < |t|
  {
    t[k].upper.Some? && Amount(t[k], t[k].upper.value) <= t[k + 1].terms.fixed
  }

  /** Across rows `i` to `j` whose steps never go down, a larger matched value
      is never charged less. */
  lemma {:induction false} AmountMonotoneAcross(t: seq<Bracket<Marginal>>, i: nat, j: nat, v: real, w: real)
    requires Ascending(t) && i <= j < |t|
    requires forall k :: 0 <= k < |t| ==> t[k].terms.factor >= 0.0
    requires forall k :: i <= k < j ==> StepUp(t, k)
    requires t[i].Contains(v) && t[j].Contains(w) && v <= w
    ensures Amount(t[i], v) <= Amount(t[j], w)
    decreases j - i
  {
    if i == j {
      AmountMonotone(t[i], v, w);
    } else {
      var u := t[i].upper.value;
      AmountMonotone(t[i], v, u);
      assert StepUp(t, i);
      var l := t[i + 1].lower;
      assert t[i + 1].Contains(l) by {
        if i + 1 < j {
          AscendingSeparates(t, i + 1, j);
        } else {
          assert l <= w;
        }
      }
      AmountMonotone(t[i + 1], l, l);
      if i + 1 < j {
        AscendingSeparates(t, i + 1, j);
      }
      AmountMonotoneAcross(t, i + 1, j, l, w);
    }
  }
}
