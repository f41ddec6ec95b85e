/**
 Token and cost totals carried through regrouping (src/aggregation/tokenMeasurement.ts,
 src/aggregation/agentRunAssembler.ts, src/storage/runLedger.ts).  A number may be unreported.
 */
module TokenAccounting {
  import opened Prelude

  /** A token breakdown with its price in nano-USD. */
  datatype Amounts = Amounts(
    input: Option<int>,
    output: Option<int>,
    cacheRead: Option<int>,
    cacheCreation: Option<int>,
    reasoning: Option<int>,
    cached: Option<int>,
    total: Option<int>,
    nanoUsd: Option<int>)

  const NOTHING := Amounts(None, None, None, None, None, None, None, None)

  /** `mergeBreakdown`, and the cost beside it: field by field. */
  function Plus(a: Amounts, b: Amounts): Amounts {
    Amounts(
      AddOptional(a.input, b.input), AddOptional(a.output, b.output),
      AddOptional(a.cacheRead, b.cacheRead), AddOptional(a.cacheCreation, b.cacheCreation),
      AddOptional(a.reasoning, b.reasoning), AddOptional(a.cached, b.cached),
      AddOptional(a.total, b.total), AddOptional(a.nanoUsd, b.nanoUsd))
  }

  /** `finalizeTokenBreakdown`: cached and total tokens follow from the others. */
  function Finalized(a: Amounts): Amounts {
    a.(cached := AddOptional(a.cacheRead, a.cacheCreation), total := AddOptional(a.input, a.output))
  }

  predicate IsFinal(a: Amounts) {
    a == Finalized(a)
  }

  lemma PlusLaws(a: Amounts, b: Amounts, c: Amounts)
    ensures Plus(NOTHING, a) == a && Plus(a, NOTHING) == a
    ensures Plus(a, b) == Plus(b, a)
    ensures Plus(Plus(a, b), c) == Plus(a, Plus(b, c))
  {
  }

  /** Finalizing before or after adding makes no difference. */
  lemma FinalizedAdds(a: Amounts, b: Amounts)
    ensures Plus(Finalized(a), Finalized(b)) == Finalized(Plus(a, b))
  {
  }

  // ---- regrouping by key ----------------------------------------------------------------------------------

  datatype Row<K> = Row(key: K, amounts: Amounts)

  function Sum<K>(rows: seq<Row<K>>): Amounts {
    if rows == [] then NOTHING else Plus(Sum(rows[..|rows| - 1]), rows[|rows| - 1].amounts)
  }

  function RowIndex<K(==)>(rows: seq<Row<K>>, key: K): (i: nat)
    ensures i <= |rows|
    ensures i < |rows| ==> rows[i].key == key
    ensures forall j :: 0 <= j < i ==> rows[j].key != key
  {
    if rows == [] then 0 else if rows[0].key == key then 0 else 1 + RowIndex(rows[1..], key)
  }

  /** `map.set(key, sum(map.get(key) ?? {}, amounts))`. */
  function AddRow<K(==)>(rows: seq<Row<K>>, r: Row<K>): seq<Row<K>> {
    var i := RowIndex(rows, r.key);
    if i < |rows| then rows[i := Row(r.key, Plus(rows[i].amounts, r.amounts))]
    else rows + [Row(r.key, Plus(NOTHING, r.amounts))]
  }

  function Regrouped<K(==)>(rows: seq<Row<K>>): seq<Row<K>> {
    if rows == [] then [] else AddRow(Regrouped(rows[..|rows| - 1]), rows[|rows| - 1])
  }

  lemma {:induction false} SumUpdate<K>(rows: seq<Row<K>>, i: nat, a: Amounts)
    requires i < |rows|
    ensures Sum(rows[i := Row(rows[i].key, Plus(rows[i].amounts, a))]) == Plus(Sum(rows), a)
  {
    var n := |rows| - 1;
    var next := rows[i := Row(rows[i].key, Plus(rows[i].amounts, a))];
    if i == n {
      assert next[..n] == rows[..n];
      PlusLaws(Sum(rows[..n]), rows[n].amounts, a);
    } else {
      SumUpdate(rows[..n], i, a);
      assert next[..n] == rows[..n][i := Row(rows[i].key, Plus(rows[i].amounts, a))];
      PlusLaws(Sum(rows[..n]), rows[n].amounts, a);
      PlusLaws(Sum(rows[..n]), a, rows[n].amounts);
      PlusLaws(rows[n].amounts, a, NOTHING);
    }
  }

  lemma SumAppend<K>(rows: seq<Row<K>>, r: Row<K>)
    ensures Sum(rows + [r]) == Plus(Sum(rows), r.amounts)
  {
    assert (rows + [r])[..|rows|] == rows;
  }

  lemma AddRowAdds<K>(rows: seq<Row<K>>, r: Row<K>)
    ensures Sum(AddRow(rows, r)) == Plus(Sum(rows), r.amounts)
  {
    var i := RowIndex(rows, r.key);
    if i < |rows| {
      SumUpdate(rows, i, r.amounts);
    } else {
      SumAppend(rows, Row(r.key, Plus(NOTHING, r.amounts)));
    }
  }

  /** Regrouping conserves every field, reported or not. */
  lemma {:induction false} RegroupingConserves<K>(rows: seq<Row<K>>)
    ensures Sum(Regrouped(rows)) == Sum(rows)
  {
    if rows != [] {
      RegroupingConserves(rows[..|rows| - 1]);
      AddRowAdds(Regrouped(rows[..|rows| - 1]), rows[|rows| - 1]);
    }
  }

  /** The rows of one key, in order. */
  function OfKey<K(==)>(rows: seq<Row<K>>, key: K): seq<Row<K>> {
    if rows == [] then []
    else
      OfKey(rows[..|rows| - 1], key) + if rows[|rows| - 1].key == key then [rows[|rows| - 1]] else []
  }

  ghost predicate DistinctKeys<K>(rows: seq<Row<K>>) {
    forall i, j :: 0 <= i < j < |rows| ==> rows[i].key != rows[j].key
  }

  /** The group of a key, if there is one, holds exactly the sum of the rows of that key. */
  ghost predicate GroupedAt<K>(groups: seq<Row<K>>, rows: seq<Row<K>>, key: K) {
    var i := RowIndex(groups, key);
    if i < |groups| then groups[i].amounts == Sum(OfKey(rows, key)) && OfKey(rows, key) != []
    else OfKey(rows, key) == []
  }

  lemma FirstIndex<K>(rows: seq<Row<K>>, key: K, i: nat)
    requires i < |rows| && rows[i].key == key && forall j :: 0 <= j < i ==> rows[j].key != key
    ensures RowIndex(rows, key) == i
  {
    var m := RowIndex(rows, key);
    assert m <= i;
  }

  lemma AddRowAt<K>(groups: seq<Row<K>>, rows: seq<Row<K>>, r: Row<K>, key: K)
    requires DistinctKeys(groups) && GroupedAt(groups, rows, key)
    ensures DistinctKeys(AddRow(groups, r)) && GroupedAt(AddRow(groups, r), rows + [r], key)
  {
    var next, i, k := AddRow(groups, r), RowIndex(groups, r.key), RowIndex(groups, key);
    assert (rows + [r])[..|rows|] == rows;
    if r.key == key {
      FirstIndex(next, key, i);
      SumAppend(OfKey(rows, key), r);
    } else {
      assert OfKey(rows + [r], key) == OfKey(rows, key);
      if k < |groups| {
        assert next[k] == groups[k];
        FirstIndex(next, key, k);
      }
    }
  }

  /** Groups have distinct keys and each holds exactly what its rows add up to. */
  lemma {:induction false} RegroupingMeans<K>(rows: seq<Row<K>>, key: K)
    ensures DistinctKeys(Regrouped(rows)) && GroupedAt(Regrouped(rows), rows, key)
  {
    if rows != [] {
      var n := |rows| - 1;
      assert rows == rows[..n] + [rows[n]];
      RegroupingMeans(rows[..n], key);
      AddRowAt(Regrouped(rows[..n]), rows[..n], rows[n], key);
    }
  }

  /** The running sums of the grouping loops. */
  method Regroup<K(==)>(rows: seq<Row<K>>) returns (groups: seq<Row<K>>)
    ensures groups == Regrouped(rows)
    ensures Sum(groups) == Sum(rows)
  {
    groups := [];
    for n := 0 to |rows|
      invariant groups == Regrouped(rows[..n])
    {
      assert rows[..n + 1][..n] == rows[..n];
      var i := RowIndex(groups, rows[n].key);
      if i < |groups| {
        groups := groups[i := Row(rows[n].key, Plus(groups[i].amounts, rows[n].amounts))];
      } else {
        groups := groups + [Row(rows[n].key, Plus(NOTHING, rows[n].amounts))];
      }
    }
    assert rows[..|rows|] == rows;
    RegroupingConserves(rows);
  }

  // ---- units, models and the run's invariants ---------------------------------------------------------------

  /** A usage unit: who used how much, in which span. */
  datatype Unit = Unit(model: Option<Id>, provider: Option<Id>, spanId: Option<Id>, usage: Amounts)

  datatype ModelKey = ModelKey(model: Option<Id>, provider: Option<Id>)

  function KeyOf(u: Unit): ModelKey {
    ModelKey(u.model, u.provider)
  }

  predicate HasTokenData(a: Amounts) {
    a.input.Some? || a.output.Some? || a.cacheRead.Some? || a.cacheCreation.Some? || a.reasoning.Some?
  }

  /** The five fields `sumTokenUsage` adds. */
  function Draft(a: Amounts): Amounts {
    a.(cached := None, total := None, nanoUsd := None)
  }

  function Rows(units: seq<Unit>): (r: seq<Row<ModelKey>>)
    ensures |r| == |units| && forall i :: 0 <= i < |r| ==> r[i] == Row(KeyOf(units[i]), Draft(units[i].usage))
  {
    seq(|units|, i requires 0 <= i < |units| => Row(KeyOf(units[i]), Draft(units[i].usage)))
  }

  function WithTokens(units: seq<Unit>): seq<Unit> {
    if units == [] then []
    else WithTokens(units[..|units| - 1]) + if HasTokenData(units[|units| - 1].usage) then [units[|units| - 1]] else []
  }

  /** The run's totals. */
  function RunTotals(units: seq<Unit>): Amounts {
    Finalized(Sum(Rows(units)))
  }

  predicate AllModelled(units: seq<Unit>) {
    forall i | 0 <= i < |units| :: units[i].model.Some?
  }

  /** One summary for each model and provider, when every unit with tokens names a model. */
  function ModelUsages(units: seq<Unit>): Option<seq<Row<ModelKey>>> {
    var tokenUnits := WithTokens(units);
    if tokenUnits == [] then Some([])
    else if !AllModelled(tokenUnits) then None
    else Some(FinalRows(Regrouped(Rows(tokenUnits))))
  }

  function FinalRows<K>(rows: seq<Row<K>>): (r: seq<Row<K>>)
    ensures |r| == |rows|
  {
    if rows == [] then []
    else FinalRows(rows[..|rows| - 1]) + [rows[|rows| - 1].(amounts := Finalized(rows[|rows| - 1].amounts))]
  }

  function DraftRows<K>(rows: seq<Row<K>>): (r: seq<Row<K>>)
    ensures |r| == |rows|
  {
    if rows == [] then []
    else DraftRows(rows[..|rows| - 1]) + [rows[|rows| - 1].(amounts := Draft(rows[|rows| - 1].amounts))]
  }

  datatype InvariantStatus = Passed | Failed | NotApplicable

  /** `modelInvariant`: do the models' totals match the run's? */
  function ModelInvariant(units: seq<Unit>): InvariantStatus {
    var usages := ModelUsages(units);
    if usages.None? then NotApplicable
    else
      var t, m := RunTotals(units), Finalized(Sum(DraftRows(usages.value)));
      if t.input == m.input && t.output == m.output && t.total == m.total then Passed else Failed
  }

  lemma {:induction false} SilentUnitsAddNothing(units: seq<Unit>)
    ensures Sum(Rows(WithTokens(units))) == Sum(Rows(units))
  {
    if units != [] {
      var n := |units| - 1;
      SilentUnitsAddNothing(units[..n]);
      assert Rows(units)[..n] == Rows(units[..n]);
      var before := WithTokens(units[..n]);
      if HasTokenData(units[n].usage) {
        assert Rows(before + [units[n]]) == Rows(before) + [Row(KeyOf(units[n]), Draft(units[n].usage))];
        SumAppend(Rows(before), Row(KeyOf(units[n]), Draft(units[n].usage)));
      } else {
        assert before + [] == before && Draft(units[n].usage) == NOTHING;
      }
    }
  }

  predicate IsDraft(a: Amounts) {
    a == Draft(a)
  }

  lemma {:induction false} DraftOfFinal<K>(rows: seq<Row<K>>)
    requires forall i :: 0 <= i < |rows| ==> IsDraft(rows[i].amounts)
    ensures Sum(DraftRows(FinalRows(rows))) == Sum(rows)
  {
    if rows != [] {
      var n := |rows| - 1;
      DraftOfFinal(rows[..n]);
      var last := rows[n].(amounts := Finalized(rows[n].amounts));
      assert FinalRows(rows)[..n] == FinalRows(rows[..n]) && FinalRows(rows)[n] == last;
      SumAppend(DraftRows(FinalRows(rows[..n])), last.(amounts := Draft(last.amounts)));
    }
  }

  lemma {:induction false} RegroupedDrafts<K>(rows: seq<Row<K>>)
    requires forall i :: 0 <= i < |rows| ==> IsDraft(rows[i].amounts)
    ensures forall i :: 0 <= i < |Regrouped(rows)| ==> IsDraft(Regrouped(rows)[i].amounts)
  {
    if rows != [] { RegroupedDrafts(rows[..|rows| - 1]); }
  }

  /** The check of the models against the run can never fail: it passes, or does not apply. */
  lemma ModelInvariantNeverFails(units: seq<Unit>)
    ensures ModelInvariant(units) ==
      if WithTokens(units) != [] && !AllModelled(WithTokens(units)) then NotApplicable else Passed
  {
    SilentUnitsAddNothing(units);
    var tokenUnits := WithTokens(units);
    if tokenUnits != [] {
      RegroupingConserves(Rows(tokenUnits));
      RegroupedDrafts(Rows(tokenUnits));
      DraftOfFinal(Regrouped(Rows(tokenUnits)));
    }
  }

  // ---- prices ----------------------------------------------------------------------------------------------------

  /** Pricing leaves a unit without a model unpriced. */
  function Priced(units: seq<Unit>, price: Unit -> Option<int>): (r: seq<Unit>)
    ensures |r| == |units|
    ensures forall i :: 0 <= i < |r| ==>
      r[i] == units[i].(usage := units[i].usage.(nanoUsd := if units[i].model.None? then None else price(units[i])))
  {
    seq(|units|, i requires 0 <= i < |units| =>
      units[i].(usage := units[i].usage.(nanoUsd := if units[i].model.None? then None else price(units[i]))))
  }

  /** A sum of prices, with nothing else. */
  function PriceRows(units: seq<Unit>): (r: seq<Row<ModelKey>>)
    ensures |r| == |units|
    ensures forall i :: 0 <= i < |r| ==> r[i] == Row(KeyOf(units[i]), NOTHING.(nanoUsd := units[i].usage.nanoUsd))
  {
    seq(|units|, i requires 0 <= i < |units| => Row(KeyOf(units[i]), NOTHING.(nanoUsd := units[i].usage.nanoUsd)))
  }

  function Modelled(units: seq<Unit>): seq<Unit> {
    if units == [] then []
    else Modelled(units[..|units| - 1]) + if units[|units| - 1].model.Some? then [units[|units| - 1]] else []
  }

  /** The run's estimate: the sum over its model summaries. */
  function RunEstimate(units: seq<Unit>): Option<int> {
    Sum(Regrouped(PriceRows(Modelled(units)))).nanoUsd
  }

  function PricedInvariant(units: seq<Unit>): InvariantStatus {
    var priced, estimate := Sum(PriceRows(units)).nanoUsd, RunEstimate(units);
    if priced.None? && estimate.None? then NotApplicable else if priced == estimate then Passed else Failed
  }

  lemma {:induction false} UnmodelledAreFree(units: seq<Unit>)
    requires forall i :: 0 <= i < |units| && units[i].model.None? ==> units[i].usage.nanoUsd.None?
    ensures Sum(PriceRows(Modelled(units))) == Sum(PriceRows(units))
  {
    if units != [] {
      var n := |units| - 1;
      UnmodelledAreFree(units[..n]);
      assert PriceRows(units)[..n] == PriceRows(units[..n]);
      var before := Modelled(units[..n]);
      if units[n].model.Some? {
        assert PriceRows(before + [units[n]]) == PriceRows(before) + [PriceRows(units)[n]];
        SumAppend(PriceRows(before), PriceRows(units)[n]);
      } else {
        assert before + [] == before;
      }
    }
  }

  /** The check of unit prices against the run's estimate can never fail either. */
  lemma PricedInvariantNeverFails(units: seq<Unit>, price: Unit -> Option<int>)
    ensures PricedInvariant(Priced(units, price)) ==
      if Sum(PriceRows(Priced(units, price))).nanoUsd.None? then NotApplicable else Passed
  {
    var priced := Priced(units, price);
    UnmodelledAreFree(priced);
    RegroupingConserves(PriceRows(Modelled(priced)));
  }

  // ---- runs, queries, sessions and the range --------------------------------------------------------------------

  datatype Run = Run(queryId: Id, chatSessionId: Option<Id>, totals: Amounts)

  function RunRows(runs: seq<Run>): (r: seq<Row<Id>>)
    ensures |r| == |runs| && forall i :: 0 <= i < |r| ==> r[i] == Row(runs[i].queryId, runs[i].totals)
  {
    seq(|runs|, i requires 0 <= i < |runs| => Row(runs[i].queryId, runs[i].totals))
  }

  /** The first reported session of a query's runs. */
  function SessionOf(runs: seq<Run>, q: Id): Option<Id> {
    if runs == [] then None
    else if runs[0].queryId == q && runs[0].chatSessionId.Some? then runs[0].chatSessionId
    else SessionOf(runs[1..], q)
  }

  function QueryGroups(runs: seq<Run>): seq<Row<Id>> {
    Regrouped(RunRows(runs))
  }

  /** Queries without a session share one group. */
  function SessionRows(groups: seq<Row<Id>>, runs: seq<Run>): (r: seq<Row<Option<Id>>>)
    ensures |r| == |groups|
    ensures forall i :: 0 <= i < |r| ==> r[i] == Row(SessionOf(runs, groups[i].key), groups[i].amounts)
  {
    seq(|groups|, i requires 0 <= i < |groups| => Row(SessionOf(runs, groups[i].key), groups[i].amounts))
  }

  function SessionGroups(runs: seq<Run>): seq<Row<Option<Id>>> {
    Regrouped(SessionRows(QueryGroups(runs), runs))
  }

  lemma {:induction false} SameAmountsSameSum<K, L>(a: seq<Row<K>>, b: seq<Row<L>>)
    requires |a| == |b| && forall i :: 0 <= i < |a| ==> a[i].amounts == b[i].amounts
    ensures Sum(a) == Sum(b)
  {
    if a != [] { SameAmountsSameSum(a[..|a| - 1], b[..|b| - 1]); }
  }

  /** Runs, query groups, chat sessions and the range total agree in every field. */
  lemma LevelsAgree(runs: seq<Run>)
    ensures Sum(QueryGroups(runs)) == Sum(RunRows(runs))
    ensures Sum(SessionGroups(runs)) == Sum(RunRows(runs))
  {
    RegroupingConserves(RunRows(runs));
    RegroupingConserves(SessionRows(QueryGroups(runs), runs));
    SameAmountsSameSum(SessionRows(QueryGroups(runs), runs), QueryGroups(runs));
  }

  /** Each query group holds exactly its runs, and if they are final breakdowns, so is the group. */
  lemma QueryGroupExact(runs: seq<Run>, q: Id)
    ensures GroupedAt(QueryGroups(runs), RunRows(runs), q)
    ensures (forall i :: 0 <= i < |runs| ==> IsFinal(runs[i].totals)) ==>
      IsFinal(Sum(OfKey(RunRows(runs), q))) && IsFinal(Sum(SessionGroups(runs)))
  {
    RegroupingMeans(RunRows(runs), q);
    if forall i :: 0 <= i < |runs| ==> IsFinal(runs[i].totals) {
      SumIsFinal(RunRows(runs));
      OfKeyFinal(RunRows(runs), q);
      SumIsFinal(OfKey(RunRows(runs), q));
      LevelsAgree(runs);
    }
  }

  lemma {:induction false} SumIsFinal<K>(rows: seq<Row<K>>)
    requires forall i :: 0 <= i < |rows| ==> IsFinal(rows[i].amounts)
    ensures IsFinal(Sum(rows))
  {
    if rows != [] {
      SumIsFinal(rows[..|rows| - 1]);
      FinalizedAdds(Sum(rows[..|rows| - 1]), rows[|rows| - 1].amounts);
    }
  }

  lemma {:induction false} OfKeyFinal<K>(rows: seq<Row<K>>, key: K)
    requires forall i :: 0 <= i < |rows| ==> IsFinal(rows[i].amounts)
    ensures forall i :: 0 <= i < |OfKey(rows, key)| ==> IsFinal(OfKey(rows, key)[i].amounts)
  {
    if rows != [] { OfKeyFinal(rows[..|rows| - 1], key); }
  }
}
