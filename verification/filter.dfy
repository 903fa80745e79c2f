/** The filter intermediate operator: a stateless stage turning one
    micropartition into another by keeping the rows its predicate accepts. */
module IntermediateOps {
  import opened Results
  import opened Errors
  import opened Values

  /** A micropartition as its rows, in order. */
  type MicroPartition = seq<Row>

  /** Evaluating a predicate expression on one row: true, false, or a failure
      such as a type mismatch or an unresolved column. */
  type Predicate = Row -> Result<bool, Error>

  datatype FilterOperator = FilterOperator(pred: Predicate)

  /** `FilterOperator::new`. */
  function NewFilterOperator(pred: Predicate): (op: FilterOperator)
    ensures op.pred == pred
  {
    FilterOperator(pred)
  }

  /** `name()`. */
  function Name(op: FilterOperator): (name: string)
    ensures name == "FilterOperator"
  {
    "FilterOperator"
  }

  /** `MicroPartition::filter` with one predicate: the rows the predicate
      accepts, in their original order; the first failing evaluation, in row
      order, fails the whole call. */
  function FilterRows(rows: MicroPartition, pred: Predicate): (r: Result<MicroPartition, Error>)
    ensures r.Ok? ==> |r.value| <= |rows|
    ensures r.Ok? ==> forall k :: 0 <= k < |r.value| ==> r.value[k] in rows && pred(r.value[k]) == Ok(true)
    decreases |rows|
  {
    if |rows| == 0 then Ok([])
    else
      match pred(rows[0])
      case Err(e) => Err(e)
      case Ok(keep) =>
        match FilterRows(rows[1..], pred)
        case Err(e) => Err(e)
        case Ok(rest) => Ok(if keep then [rows[0]] + rest else rest)
  }

  /** `execute`: filters the input with the operator's one predicate and
      returns the outcome, failure included, as it is. */
  function Execute(op: FilterOperator, input: MicroPartition): (r: Result<MicroPartition, Error>)
    ensures r.Ok? ==> |r.value| <= |input|
  {
    FilterRows(input, op.pred)
  }

  /** `kept` lists positions of `rows`, strictly increasing, and `out` is the
      rows at those positions. */
  predicate IsSelection(out: MicroPartition, rows: MicroPartition, kept: seq<nat>) {
    && |kept| == |out|
    && (forall k :: 0 <= k < |kept| ==> kept[k] < |rows| && out[k] == rows[kept[k]])
    && (forall k, l :: 0 <= k < l < |kept| ==> kept[k] < kept[l])
  }

  /** The name is the same constant for every operator, whatever its predicate. */
  lemma NameIsConstant(a: FilterOperator, b: FilterOperator)
    ensures Name(a) == Name(b) == "FilterOperator"
  {
  }

  /** The operator built by `new` filters with exactly the predicate it was given. */
  lemma NewThenExecute(pred: Predicate, input: MicroPartition)
    ensures Execute(NewFilterOperator(pred), input) == FilterRows(input, pred)
  {
  }

  /** Filtering succeeds exactly when the predicate evaluates on every row. */
  lemma {:induction false} FilterOkIff(rows: MicroPartition, pred: Predicate)
    ensures FilterRows(rows, pred).Ok? <==> forall i :: 0 <= i < |rows| ==> pred(rows[i]).Ok?
    decreases |rows|
  {
    if |rows| > 0 {
      FilterOkIff(rows[1..], pred);
      assert forall i :: 1 <= i < |rows| ==> rows[i] == rows[1..][i - 1];
    }
  }

  /** A failing filter reports the failure of the first row whose evaluation fails. */
  lemma {:induction false} FilterFailsAtFirstError(rows: MicroPartition, pred: Predicate) returns (i: nat)
    requires FilterRows(rows, pred).Err?
    ensures i < |rows| && pred(rows[i]) == Err(FilterRows(rows, pred).error)
    ensures forall j :: 0 <= j < i ==> pred(rows[j]).Ok?
    decreases |rows|
  {
    if pred(rows[0]).Err? {
      i := 0;
    } else {
      var i' := FilterFailsAtFirstError(rows[1..], pred);
      i := i' + 1;
      assert forall j :: 1 <= j < i ==> rows[j] == rows[1..][j - 1];
    }
  }

  /** Every position moved one row further down. */
  function Shift(kept: seq<nat>): (r: seq<nat>)
    ensures |r| == |kept| && forall k :: 0 <= k < |kept| ==> r[k] == kept[k] + 1
  {
    seq(|kept|, k requires 0 <= k < |kept| => kept[k] + 1)
  }

  /** A selection from the tail of `rows` is, shifted, a selection from `rows`
      that avoids position 0, and can be extended by row 0 in front. */
  lemma ShiftSelection(out: MicroPartition, rows: MicroPartition, kept: seq<nat>)
    requires |rows| > 0 && IsSelection(out, rows[1..], kept)
    ensures IsSelection(out, rows, Shift(kept))
    ensures IsSelection([rows[0]] + out, rows, [0] + Shift(kept))
    ensures forall i :: 1 <= i < |rows| ==> (i in Shift(kept) <==> i - 1 in kept)
    ensures 0 !in Shift(kept)
  {
    var shifted := Shift(kept);
    forall i | 1 <= i < |rows|
      ensures i in shifted <==> i - 1 in kept
    {
      if i - 1 in kept {
        var k :| 0 <= k < |kept| && kept[k] == i - 1;
        assert shifted[k] == i;
      }
    }
  }

  /** The positions a successful filter keeps, built row by row. */
  lemma {:induction false} SelectionWitness(rows: MicroPartition, pred: Predicate) returns (kept: seq<nat>)
    requires FilterRows(rows, pred).Ok?
    ensures IsSelection(FilterRows(rows, pred).value, rows, kept)
    ensures forall i :: 0 <= i < |rows| ==> (i in kept <==> pred(rows[i]) == Ok(true))
    decreases |rows|
  {
    if |rows| == 0 {
      kept := [];
    } else {
      var rest := SelectionWitness(rows[1..], pred);
      ShiftSelection(FilterRows(rows[1..], pred).value, rows, rest);
      assert forall i :: 1 <= i < |rows| ==> rows[i] == rows[1..][i - 1];
      if pred(rows[0]) == Ok(true) {
        kept := [0] + Shift(rest);
      } else {
        kept := Shift(rest);
      }
    }
  }

  /** A successful filter keeps exactly the rows the predicate accepts, in
      their original order. */
  lemma FilterIsStableSelection(rows: MicroPartition, pred: Predicate)
    requires FilterRows(rows, pred).Ok?
    ensures exists kept :: IsSelection(FilterRows(rows, pred).value, rows, kept)
                           && forall i :: 0 <= i < |rows| ==> (i in kept <==> pred(rows[i]) == Ok(true))
  {
    var kept := SelectionWitness(rows, pred);
  }

  /** `execute` keeps exactly the input rows its predicate accepts, in order. */
  lemma ExecuteIsStableSelection(op: FilterOperator, input: MicroPartition)
    requires Execute(op, input).Ok?
    ensures exists kept :: IsSelection(Execute(op, input).value, input, kept)
                           && forall i :: 0 <= i < |input| ==> (i in kept <==> op.pred(input[i]) == Ok(true))
  {
    var kept := SelectionWitness(input, op.pred);
  }

  /** When the predicate accepts every input row, the output is the input. */
  lemma {:induction false} FilterAllAccepted(rows: MicroPartition, pred: Predicate)
    requires forall i :: 0 <= i < |rows| ==> pred(rows[i]) == Ok(true)
    ensures FilterRows(rows, pred) == Ok(rows)
    decreases |rows|
  {
    if |rows| > 0 {
      assert forall i :: 0 <= i < |rows| - 1 ==> rows[1..][i] == rows[i + 1];
      FilterAllAccepted(rows[1..], pred);
      assert [rows[0]] + rows[1..] == rows;
    }
  }

  /** Filtering an already filtered micropartition again changes nothing. */
  lemma FilterIdempotent(rows: MicroPartition, pred: Predicate)
    requires FilterRows(rows, pred).Ok?
    ensures FilterRows(FilterRows(rows, pred).value, pred) == FilterRows(rows, pred)
  {
    FilterAllAccepted(FilterRows(rows, pred).value, pred);
  }
}
