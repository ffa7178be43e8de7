/** Column values, rows and the rendered primary key that identifies a row inside a shape. */
module Rows {
  import opened Text

  datatype Option<+T> = None | Some(value: T)

  datatype Error =
    | Halted
    | SchemaDrift
    | NoPrimaryKey
    | MissingKeyColumn(column: string)
    | UnknownOp
    | BadTuple
    | UnknownRelation
    | BadWhere
    | EmptyFilter
    | Unavailable

  datatype Result<+T> = Ok(value: T) | Err(error: Error)

  /** A column value: SQL NULL (Go nil), an integer, or text. */
  datatype Value = Null | Int(n: int) | Str(s: string)

  /** A row image. A column that is not a key of the map was omitted; that is different from Null. */
  type Row = map<string, Value>

  /** fmt.Sprint of a column value. */
  function Render(v: Value): string {
    match v
    case Null => "<nil>"
    case Int(n) => Decimal(n)
    case Str(s) => s
  }

  function FirstMissing(pk: seq<string>, row: Row): (c: Option<string>)
    ensures c.None? <==> forall i :: 0 <= i < |pk| ==> pk[i] in row
    ensures c.Some? ==> c.value in pk && c.value !in row
  {
    if |pk| == 0 then None
    else if pk[0] !in row then Some(pk[0])
    else FirstMissing(pk[1..], row)
  }

  function KeyParts(pk: seq<string>, row: Row): seq<string>
    requires forall i :: 0 <= i < |pk| ==> pk[i] in row
  {
    seq(|pk|, i requires 0 <= i < |pk| => Render(row[pk[i]]))
  }

  /** The map key under which a row is cached: the rendered key columns joined by '|'. */
  function PkKey(pk: seq<string>, row: Row): Result<string> {
    if |pk| == 0 then Err(NoPrimaryKey)
    else match FirstMissing(pk, row)
      case Some(c) => Err(MissingKeyColumn(c))
      case None => Ok(Join(KeyParts(pk, row), "|"))
  }

  lemma {:induction false} FirstMissingAt(pk: seq<string>, row: Row, i: nat)
    requires i < |pk| && pk[i] !in row && forall j :: 0 <= j < i ==> pk[j] in row
    ensures FirstMissing(pk, row) == Some(pk[i])
  {
    if i > 0 {
      FirstMissingAt(pk[1..], row, i - 1);
    }
  }

  method ComputePkKey(pk: seq<string>, row: Row) returns (r: Result<string>)
    ensures r == PkKey(pk, row)
  {
    if |pk| == 0 {
      return Err(NoPrimaryKey);
    }
    var parts: seq<string> := [];
    for i := 0 to |pk|
      invariant forall j :: 0 <= j < i ==> pk[j] in row
      invariant |parts| == i
      invariant forall j :: 0 <= j < i ==> parts[j] == Render(row[pk[j]])
    {
      if pk[i] !in row {
        FirstMissingAt(pk, row, i);
        return Err(MissingKeyColumn(pk[i]));
      }
      parts := parts + [Render(row[pk[i]])];
    }
    assert parts == KeyParts(pk, row);
    return Ok(Join(parts, "|"));
  }

  /** The key reads nothing but the key columns. */
  lemma PkKeyReadsKeyColumns(pk: seq<string>, r: Row, s: Row)
    requires forall c :: c in pk ==> (c in r <==> c in s) && (c in r ==> r[c] == s[c])
    ensures PkKey(pk, r) == PkKey(pk, s)
  {
    FirstMissingCongruent(pk, r, s);
    if FirstMissing(pk, r).None? {
      assert KeyParts(pk, r) == KeyParts(pk, s);
    }
  }

  lemma {:induction false} FirstMissingCongruent(pk: seq<string>, r: Row, s: Row)
    requires forall c :: c in pk ==> (c in r <==> c in s)
    ensures FirstMissing(pk, r) == FirstMissing(pk, s)
  {
    if |pk| > 0 {
      assert pk[0] in pk;
      FirstMissingCongruent(pk[1..], r, s);
    }
  }

  predicate SameKind(a: Value, b: Value) {
    (a.Null? <==> b.Null?) && (a.Int? <==> b.Int?)
  }

  lemma RenderInjective(a: Value, b: Value)
    requires SameKind(a, b) && Render(a) == Render(b)
    ensures a == b
  {
    if a.Int? {
      DecimalInjective(a.n, b.n);
    }
  }

  /** Exactly when two values render alike: they are the same value, or one is text that prints the other. */
  lemma RenderExact(a: Value, b: Value)
    ensures Render(a) == Render(b) <==> a == b || Prints(a, b) || Prints(b, a)
  {
    if a.Int? && b.Int? && Render(a) == Render(b) {
      DecimalInjective(a.n, b.n);
    }
    if a.Int? {
      SignShows(a.n);
    }
    if b.Int? {
      SignShows(b.n);
    }
  }

  /** The text that Go prints for a nil or an integer. */
  predicate Prints(text: Value, v: Value) {
    text.Str? && ((v.Null? && text.s == "<nil>") || (v.Int? && text.s == Decimal(v.n)))
  }

  /** Exactly when a row has no key, and which column is named: the first one missing. */
  lemma KeyFails(pk: seq<string>, row: Row)
    ensures PkKey(pk, row) == Err(NoPrimaryKey) <==> pk == []
    ensures pk != [] ==> (PkKey(pk, row).Err? <==> exists i :: 0 <= i < |pk| && pk[i] !in row)
    ensures forall i :: 0 <= i < |pk| && pk[i] !in row && (forall j :: 0 <= j < i ==> pk[j] in row) ==>
              PkKey(pk, row) == Err(MissingKeyColumn(pk[i]))
  {
    forall i | 0 <= i < |pk| && pk[i] !in row && (forall j :: 0 <= j < i ==> pk[j] in row)
      ensures PkKey(pk, row) == Err(MissingKeyColumn(pk[i]))
    {
      FirstMissingAt(pk, row, i);
    }
  }

  /** The key of one column is its rendered value; more columns follow after a bar, in order. */
  lemma PkKeyText(c: string, pk: seq<string>, row: Row)
    requires c in row
    ensures PkKey([c], row) == Ok(Render(row[c]))
    ensures PkKey(pk, row).Ok? ==> PkKey([c] + pk, row) == Ok(Render(row[c]) + "|" + PkKey(pk, row).value)
    ensures |pk| > 0 && PkKey(pk, row).Err? ==> PkKey([c] + pk, row) == PkKey(pk, row)
  {
    assert KeyParts([c], row) == [Render(row[c])];
    var all := [c] + pk;
    assert all[1..] == pk;
    if PkKey(pk, row).Ok? {
      assert forall i :: 0 <= i < |all| ==> all[i] in row;
      assert KeyParts(all, row)[1..] == KeyParts(pk, row);
    }
  }

  /** Rows with equal rendered keys agree on every key column, provided each key column keeps
      one kind and, for composite keys, no rendered part of one of them contains the separator. */
  lemma PkKeyInjective(pk: seq<string>, r: Row, s: Row)
    requires PkKey(pk, r).Ok? && PkKey(pk, r) == PkKey(pk, s)
    requires forall c :: c in pk ==> SameKind(r[c], s[c])
    requires |pk| > 1 ==> forall c :: c in pk ==> Free('|', Render(r[c]))
    ensures forall c :: c in pk ==> r[c] == s[c]
  {
    var a, b := KeyParts(pk, r), KeyParts(pk, s);
    if |pk| > 1 {
      forall p | p in a ensures Free('|', p) {
        var i :| 0 <= i < |a| && a[i] == p;
        assert pk[i] in pk;
      }
      JoinOfFreeParts(a, b, '|');
    }
    assert a == b;
    forall c | c in pk ensures r[c] == s[c] {
      var i :| 0 <= i < |pk| && pk[i] == c;
      assert a[i] == Render(r[c]) && b[i] == Render(s[c]);
      RenderInjective(r[c], s[c]);
    }
  }

  predicate Distinct(cols: seq<string>) {
    forall i, j :: 0 <= i < j < |cols| ==> cols[i] != cols[j]
  }

  /** Every key column is present and holds text. */
  predicate TextKey(pk: seq<string>, r: Row) {
    forall i :: 0 <= i < |pk| ==> pk[i] in r && r[pk[i]].Str?
  }

  predicate SameKey(pk: seq<string>, r: Row, s: Row)
    requires TextKey(pk, r) && TextKey(pk, s)
  {
    forall i :: 0 <= i < |pk| ==> r[pk[i]] == s[pk[i]]
  }

  function TextRow(pk: seq<string>, parts: seq<string>): Row
    requires |pk| == |parts|
  {
    map i | 0 <= i < |pk| && pk[i] !in pk[..i] :: pk[i] := Str(parts[i])
  }

  lemma TextRowParts(pk: seq<string>, parts: seq<string>)
    requires |pk| == |parts| && Distinct(pk)
    ensures TextKey(pk, TextRow(pk, parts)) && KeyParts(pk, TextRow(pk, parts)) == parts
  {
    var r := TextRow(pk, parts);
    forall i | 0 <= i < |pk| ensures pk[i] in r && r[pk[i]] == Str(parts[i]) {
      assert pk[i] !in pk[..i];
    }
  }

  /** A separator inside a composite text key always makes another key collide with it. */
  lemma PkKeyCollides(pk: seq<string>, r: Row, i: nat) returns (s: Row)
    requires |pk| > 1 && Distinct(pk) && TextKey(pk, r) && i < |pk| && !Free('|', r[pk[i]].s)
    ensures TextKey(pk, s) && !SameKey(pk, r, s) && PkKey(pk, s) == PkKey(pk, r)
  {
    var a := KeyParts(pk, r);
    assert a[i] == r[pk[i]].s;
    var b := JoinSplitsElsewhere(a, i, '|');
    s := TextRow(pk, b);
    TextRowParts(pk, b);
    DifferentParts(pk, r, s);
  }

  lemma DifferentParts(pk: seq<string>, r: Row, s: Row)
    requires TextKey(pk, r) && TextKey(pk, s) && KeyParts(pk, r) != KeyParts(pk, s)
    ensures !SameKey(pk, r, s)
  {
    var a, b := KeyParts(pk, r), KeyParts(pk, s);
    var j :| 0 <= j < |a| && a[j] != b[j];
    assert r[pk[j]] != s[pk[j]];
  }

  ghost predicate OnlyRowWithItsKey(pk: seq<string>, r: Row)
    requires TextKey(pk, r)
  {
    forall s: Row :: TextKey(pk, s) && PkKey(pk, s) == PkKey(pk, r) ==> SameKey(pk, r, s)
  }

  /** Exactly when a composite text key identifies its row: no value contains the separator. */
  lemma PkKeyExact(pk: seq<string>, r: Row)
    requires |pk| > 1 && Distinct(pk) && TextKey(pk, r)
    ensures OnlyRowWithItsKey(pk, r) <==> forall i :: 0 <= i < |pk| ==> Free('|', r[pk[i]].s)
  {
    if forall i :: 0 <= i < |pk| ==> Free('|', r[pk[i]].s) {
      forall s: Row | TextKey(pk, s) && PkKey(pk, s) == PkKey(pk, r) ensures SameKey(pk, r, s) {
        PkKeyInjective(pk, r, s);
      }
    } else {
      var i: nat :| i < |pk| && !Free('|', r[pk[i]].s);
      var s := PkKeyCollides(pk, r, i);
    }
  }
}
