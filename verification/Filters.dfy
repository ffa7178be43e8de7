/** The row filter: its in-memory evaluator and the SQL condition it is rendered to. */
module Filters {
  import opened Text
  import opened Rows

  datatype Op = Eq | Ne | IsNull | IsNotNull

  /** `value` is Null for the two null tests, where it is ignored. */
  datatype Pred = Pred(column: string, op: Op, value: Value) {
    predicate Comparison() { op.Eq? || op.Ne? }
  }

  type Filter = seq<Pred>

  function ValuesEqual(a: Value, b: Value): bool {
    if a.Null? || b.Null? then a.Null? && b.Null?
    else match a
      case Int(x) => (match b case Int(y) => x == y case _ => Decimal(x) == Render(b))
      case Str(s) => Render(b) == s
  }

  /** Missing columns fail every test except IS NULL. */
  predicate MatchPred(p: Pred, row: Row) {
    match p.op
    case IsNull => p.column !in row || row[p.column].Null?
    case IsNotNull => p.column in row && !row[p.column].Null?
    case Eq => p.column in row && ValuesEqual(row[p.column], p.value)
    case Ne => p.column in row && !ValuesEqual(row[p.column], p.value)
  }

  /** A null equals only a null; values of one kind are equal when they are the same; an integer equals the text that
      prints it. */
  lemma ValuesEqualExact(a: Value, b: Value)
    ensures a.Null? || b.Null? ==> (ValuesEqual(a, b) <==> a == b)
    ensures SameKind(a, b) ==> (ValuesEqual(a, b) <==> a == b)
    ensures a.Int? && b.Str? ==> (ValuesEqual(a, b) <==> b.s == Decimal(a.n))
    ensures ValuesEqual(a, b) <==> ValuesEqual(b, a)
  {
  }

  /** A row without the column satisfies the null test and nothing else. */
  lemma MissingColumn(p: Pred, row: Row)
    requires p.column !in row
    ensures MatchPred(p, row) <==> p.op.IsNull?
  {
  }

  /** On a present column the comparisons are each other's opposite, and so are the null tests. */
  lemma Opposites(c: string, v: Value, row: Row)
    requires c in row
    ensures MatchPred(Pred(c, Ne, v), row) <==> !MatchPred(Pred(c, Eq, v), row)
    ensures MatchPred(Pred(c, IsNotNull, v), row) <==> !MatchPred(Pred(c, IsNull, v), row)
    ensures MatchPred(Pred(c, IsNull, v), row) <==> row[c] == Null
    ensures SameKind(row[c], v) ==> (MatchPred(Pred(c, Eq, v), row) <==> row[c] == v)
  {
    ValuesEqualExact(row[c], v);
  }

  predicate Matches(f: Filter, row: Row)
    ensures Matches(f, row) <==> forall i :: 0 <= i < |f| ==> MatchPred(f[i], row)
  {
    |f| == 0 || (MatchPred(f[0], row) && Matches(f[1..], row))
  }

  /** Match on a possibly absent (nil) image. */
  predicate MatchesImage(f: Filter, image: Option<Row>) {
    image.Some? && Matches(f, image.value)
  }

  // ---- the rendered condition and its SQL meaning

  /** One conjunct of the rendered WHERE clause; `arg` is the number n of its placeholder $n. */
  datatype Cond =
    | Compare(column: string, ne: bool, arg: nat)
    | NullTest(column: string, isNull: bool)

  function CondOf(p: Pred, n: nat): Cond {
    match p.op
    case Eq => Compare(p.column, false, n)
    case Ne => Compare(p.column, true, n)
    case IsNull => NullTest(p.column, true)
    case IsNotNull => NullTest(p.column, false)
  }

  /** The conjuncts of a filter whose first placeholder is $n. */
  function Conds(f: Filter, n: nat): (cs: seq<Cond>)
    ensures |cs| == |f|
  {
    if |f| == 0 then []
    else [CondOf(f[0], n)] + Conds(f[1..], if f[0].Comparison() then n + 1 else n)
  }

  function Args(f: Filter): seq<Value> {
    if |f| == 0 then []
    else (if f[0].Comparison() then [f[0].value] else []) + Args(f[1..])
  }

  /** Truth values of SQL conditions. */
  datatype Truth = Yes | No | Unknown

  function And(a: Truth, b: Truth): Truth {
    if a.No? || b.No? then No else if a.Yes? && b.Yes? then Yes else Unknown
  }

  /** A comparison with a null operand is unknown. A condition on a column the row does not have
      (an error in SQL) selects nothing. */
  function EvalCond(c: Cond, args: seq<Value>, row: Row): Truth {
    if c.column !in row then Unknown
    else match c
      case NullTest(col, isNull) => if row[col].Null? == isNull then Yes else No
      case Compare(col, ne, n) =>
        if !(1 <= n <= |args|) || row[col].Null? || args[n - 1].Null? then Unknown
        else if ValuesEqual(row[col], args[n - 1]) != ne then Yes else No
  }

  function Eval(cs: seq<Cond>, args: seq<Value>, row: Row): Truth {
    if |cs| == 0 then Yes else And(EvalCond(cs[0], args, row), Eval(cs[1..], args, row))
  }

  /** The row is returned by a query whose WHERE clause is the rendered filter. */
  predicate SqlSelects(f: Filter, row: Row) {
    Eval(Conds(f, 1), Args(f), row).Yes?
  }

  /** What a caller has to check so that the two evaluators agree on a row: every column of the
      filter exists, every argument is non-nil, every `!=` column is non-null in the row. */
  predicate Agreeable(f: Filter, row: Row) {
    forall i :: 0 <= i < |f| ==> AgreeablePred(f[i], row)
  }

  predicate AgreeablePred(p: Pred, row: Row) {
    && p.column in row
    && (p.Comparison() ==> !p.value.Null?)
    && (p.op.Ne? ==> !row[p.column].Null?)
  }

  lemma {:induction false} EvalIff(f: Filter, n: nat, args: seq<Value>, row: Row)
    requires 1 <= n && n - 1 + |Args(f)| == |args| && args[n - 1..] == Args(f)
    ensures Eval(Conds(f, n), args, row).Yes? <==> Matches(f, row) && Agreeable(f, row)
  {
    if |f| > 0 {
      var m := if f[0].Comparison() then n + 1 else n;
      if f[0].Comparison() {
        assert args[n - 1] == args[n - 1..][0] == f[0].value;
        assert args[m - 1..] == args[n - 1..][1..];
      }
      EvalIff(f[1..], m, args, row);
      assert Conds(f, n)[1..] == Conds(f[1..], m);
      assert EvalCond(CondOf(f[0], n), args, row).Yes? <==> MatchPred(f[0], row) && AgreeablePred(f[0], row);
      assert Agreeable(f, row) <==> AgreeablePred(f[0], row) && Agreeable(f[1..], row);
    }
  }

  /** Exactly how the snapshot query and the in-memory filter relate: the query returns the rows
      the filter accepts that satisfy the condition above. So the filter never drops a row the
      query returned, and the query misses an accepted row just when the condition fails. */
  lemma SqlSelectsIff(f: Filter, row: Row)
    ensures SqlSelects(f, row) <==> Matches(f, row) && Agreeable(f, row)
  {
    EvalIff(f, 1, Args(f), row);
  }

  /** Outside that condition the filter accepts a row the query does not return. */
  lemma SqlDisagrees()
    ensures var f := [Pred("c", Ne, Int(1))];
            var row: Row := map["c" := Null];
            Matches(f, row) && !SqlSelects(f, row)
  {
    var f := [Pred("c", Ne, Int(1))];
    var row: Row := map["c" := Null];
    SqlSelectsIff(f, row);
    assert !AgreeablePred(f[0], row);
  }
}
