/** Decoding of logical replication messages: changes, tuples and relation fingerprints. */
module Wal {
  import opened Text
  import opened Rows

  datatype ChangeOp = OpInsert | OpUpdate | OpDelete | OpUnknown

  /** One row change. `lsn` is the end position of the source transaction, 0 when unknown.
      Images omit the columns that were not in the message. */
  datatype Change = Change(
    schema: string, table: string, op: ChangeOp, fingerprint: string, lsn: nat,
    oldRow: Option<Row>, newRow: Option<Row>)

  datatype Column = Column(name: string, dataType: nat, typeModifier: int, flags: nat)

  datatype Relation = Relation(namespace: string, name: string, columns: seq<Column>)

  // ---- fingerprints

  function ColumnParts(c: Column): seq<string> {
    [c.name, Decimal(c.dataType), Decimal(c.typeModifier), Decimal(c.flags)]
  }

  function ColumnsParts(cs: seq<Column>): seq<string> {
    if |cs| == 0 then [] else ColumnParts(cs[0]) + ColumnsParts(cs[1..])
  }

  function FingerprintParts(rel: Relation): seq<string> {
    [rel.namespace, rel.name] + ColumnsParts(rel.columns)
  }

  function Fingerprint(rel: Relation): string {
    Join(FingerprintParts(rel), "|")
  }

  method ComputeFingerprint(rel: Relation) returns (fp: string)
    ensures fp == Fingerprint(rel)
  {
    var parts := [rel.namespace, rel.name];
    assert rel.columns[0..] == rel.columns;
    for i := 0 to |rel.columns|
      invariant FingerprintParts(rel) == parts + ColumnsParts(rel.columns[i..])
    {
      var col := rel.columns[i];
      assert rel.columns[i..][1..] == rel.columns[i + 1..];
      ConcatAssoc(parts, ColumnParts(col), ColumnsParts(rel.columns[i + 1..]));
      parts := parts + [col.name, Decimal(col.dataType), Decimal(col.typeModifier), Decimal(col.flags)];
    }
    assert parts + [] == parts;
    fp := Join(parts, "|");
  }

  predicate BarFree(rel: Relation) {
    Free('|', rel.namespace) && Free('|', rel.name)
    && forall i :: 0 <= i < |rel.columns| ==> Free('|', rel.columns[i].name)
  }

  lemma {:induction false} ColumnsPartsLength(cs: seq<Column>)
    ensures |ColumnsParts(cs)| == 4 * |cs|
  {
    if |cs| > 0 {
      ColumnsPartsLength(cs[1..]);
    }
  }

  lemma {:induction false} ColumnsPartsFree(cs: seq<Column>)
    requires forall i :: 0 <= i < |cs| ==> Free('|', cs[i].name)
    ensures forall p :: p in ColumnsParts(cs) ==> Free('|', p)
  {
    if |cs| > 0 {
      DecimalFree(cs[0].dataType);
      DecimalFree(cs[0].typeModifier);
      DecimalFree(cs[0].flags);
      ColumnsPartsFree(cs[1..]);
    }
  }

  lemma {:induction false} ColumnsPartsInjective(a: seq<Column>, b: seq<Column>)
    requires ColumnsParts(a) == ColumnsParts(b)
    ensures a == b
  {
    if |a| > 0 && |b| > 0 {
      var p, q := ColumnsParts(a), ColumnsParts(b);
      assert p[0] == a[0].name && p[1] == Decimal(a[0].dataType)
             && p[2] == Decimal(a[0].typeModifier) && p[3] == Decimal(a[0].flags);
      assert q[0] == b[0].name && q[1] == Decimal(b[0].dataType)
             && q[2] == Decimal(b[0].typeModifier) && q[3] == Decimal(b[0].flags);
      DecimalInjective(a[0].dataType, b[0].dataType);
      DecimalInjective(a[0].typeModifier, b[0].typeModifier);
      DecimalInjective(a[0].flags, b[0].flags);
      assert p[4..] == ColumnsParts(a[1..]) && q[4..] == ColumnsParts(b[1..]);
      ColumnsPartsInjective(a[1..], b[1..]);
    }
  }

  /** A relation whose names contain no '|' shares its fingerprint with no other such relation, and with no relation
      that has as many columns. */
  lemma FingerprintInjective(a: Relation, b: Relation)
    requires BarFree(a) && (BarFree(b) || |a.columns| == |b.columns|)
    requires Fingerprint(a) == Fingerprint(b)
    ensures a == b
  {
    var p, q := FingerprintParts(a), FingerprintParts(b);
    ColumnsPartsFree(a.columns);
    if BarFree(b) {
      ColumnsPartsFree(b.columns);
      JoinInjective(p, q, '|');
    } else {
      ColumnsPartsLength(a.columns);
      ColumnsPartsLength(b.columns);
      JoinOfFreeParts(p, q, '|');
    }
    assert p[0] == a.namespace && p[1] == a.name && p[2..] == ColumnsParts(a.columns);
    assert q[0] == b.namespace && q[1] == b.name && q[2..] == ColumnsParts(b.columns);
    ColumnsPartsInjective(a.columns, b.columns);
  }

  /** The name condition is needed: a '|' in a namespace can move into the relation name, whatever the columns. */
  lemma FingerprintCollides(x: string, y: string, z: string, columns: seq<Column>)
    ensures Fingerprint(Relation(x + "|" + y, z, columns)) == Fingerprint(Relation(x, y + "|" + z, columns))
  {
    var cs := ColumnsParts(columns);
    assert x + "|" + y + "|" + z == x + "|" + (y + "|" + z);
    JoinRegroup([], x + "|" + y, z, x, y + "|" + z, cs, "|");
    assert [] + [x + "|" + y, z] + cs == [x + "|" + y, z] + cs;
    assert [] + [x, y + "|" + z] + cs == [x, y + "|" + z] + cs;
  }

  ghost predicate OnlyOneWithItsPrint(rel: Relation) {
    forall other: Relation ::
      |other.columns| == |rel.columns| && Fingerprint(other) == Fingerprint(rel) ==> other == rel
  }

  lemma CutAtBar(s: string) returns (u: string, v: string)
    requires !Free('|', s)
    ensures s == u + "|" + v
  {
    var k :| 0 <= k < |s| && s[k] == '|';
    u, v := s[..k], s[k + 1..];
  }

  /** Exactly when the fingerprint identifies a relation among those with as many columns, column names being bar-free:
      neither the namespace nor the name contains a '|'. */
  lemma FingerprintExact(rel: Relation)
    requires forall i :: 0 <= i < |rel.columns| ==> Free('|', rel.columns[i].name)
    ensures OnlyOneWithItsPrint(rel) <==> Free('|', rel.namespace) && Free('|', rel.name)
  {
    if !Free('|', rel.namespace) {
      var x, y := CutAtBar(rel.namespace);
      FingerprintCollides(x, y, rel.name, rel.columns);
      assert Relation(x, y + "|" + rel.name, rel.columns) != rel;
    } else if !Free('|', rel.name) {
      var y, z := CutAtBar(rel.name);
      FingerprintCollides(rel.namespace, y, z, rel.columns);
      assert Relation(rel.namespace + "|" + y, z, rel.columns) != rel;
    } else {
      forall other: Relation | |other.columns| == |rel.columns| && Fingerprint(other) == Fingerprint(rel)
        ensures other == rel
      {
        FingerprintInjective(rel, other);
      }
    }
  }

  // ---- tuples

  /** One column of a tuple message: null ('n'), unchanged out-of-line value ('u'), a value ('t' or 'b'),
      or a kind byte the decoder does not know. */
  datatype Datum = NullDatum | Unchanged | Datum(value: Value) | BadKind

  function DecodePrefix(cols: seq<Column>, tuple: seq<Datum>, k: nat): Result<Row>
    requires k <= |tuple|
  {
    if k == 0 then Ok(map[])
    else match DecodePrefix(cols, tuple, k - 1)
      case Err(e) => Err(e)
      case Ok(m) =>
        if k - 1 >= |cols| then Err(BadTuple)
        else match tuple[k - 1]
          case NullDatum => Ok(m[cols[k - 1].name := Null])
          case Unchanged => Ok(m)
          case Datum(v) => Ok(m[cols[k - 1].name := v])
          case BadKind => Err(BadTuple)
  }

  /** An absent tuple decodes to an absent image. */
  function DecodeTuple(cols: seq<Column>, tuple: Option<seq<Datum>>): Result<Option<Row>> {
    match tuple
    case None => Ok(None)
    case Some(t) =>
      match DecodePrefix(cols, t, |t|)
      case Err(e) => Err(e)
      case Ok(m) => Ok(Some(m))
  }

  lemma {:induction false} DecodeErrSticks(cols: seq<Column>, tuple: seq<Datum>, k: nat, n: nat)
    requires k <= n <= |tuple| && DecodePrefix(cols, tuple, k).Err?
    ensures DecodePrefix(cols, tuple, n) == DecodePrefix(cols, tuple, k)
  {
    if k < n {
      DecodeErrSticks(cols, tuple, k, n - 1);
    }
  }

  method ComputeDecodeTuple(cols: seq<Column>, tuple: Option<seq<Datum>>) returns (r: Result<Option<Row>>)
    ensures r == DecodeTuple(cols, tuple)
  {
    if tuple.None? {
      return Ok(None);
    }
    var t := tuple.value;
    var out: Row := map[];
    for idx := 0 to |t|
      invariant DecodePrefix(cols, t, idx) == Ok(out)
    {
      if idx >= |cols| {
        DecodeErrSticks(cols, t, idx + 1, |t|);
        return Err(BadTuple);
      }
      match t[idx] {
        case NullDatum => out := out[cols[idx].name := Null];
        case Unchanged =>
        case Datum(v) => out := out[cols[idx].name := v];
        case BadKind =>
          DecodeErrSticks(cols, t, idx + 1, |t|);
          return Err(BadTuple);
      }
    }
    return Ok(Some(out));
  }

  /** A tuple the decoder refuses: more columns than the relation has, or a kind byte it does not know. */
  predicate BadTupleOf(cols: seq<Column>, t: seq<Datum>) {
    |t| > |cols| || exists i :: 0 <= i < |t| && t[i].BadKind?
  }

  lemma {:induction false} DecodeFailsExactly(cols: seq<Column>, t: seq<Datum>, k: nat)
    requires k <= |t|
    ensures DecodePrefix(cols, t, k) == Err(BadTuple) <==> BadTupleOf(cols, t[..k])
    ensures DecodePrefix(cols, t, k).Err? ==> DecodePrefix(cols, t, k) == Err(BadTuple)
  {
    if k > 0 {
      DecodeFailsExactly(cols, t, k - 1);
      assert t[..k] == t[..k - 1] + [t[k - 1]];
    }
  }

  /** Exactly when decoding fails. */
  lemma DecodeTupleFails(cols: seq<Column>, t: seq<Datum>)
    ensures DecodeTuple(cols, Some(t)) == Err(BadTuple) <==> BadTupleOf(cols, t)
    ensures DecodeTuple(cols, Some(t)).Err? ==> DecodeTuple(cols, Some(t)) == Err(BadTuple)
    ensures DecodeTuple(cols, None) == Ok(None)
  {
    DecodeFailsExactly(cols, t, |t|);
    assert t[..|t|] == t;
  }

  predicate DistinctNames(cols: seq<Column>) {
    forall i, j :: 0 <= i < j < |cols| ==> cols[i].name != cols[j].name
  }

  function Names(cols: seq<Column>): set<string> {
    set i | 0 <= i < |cols| :: cols[i].name
  }

  /** The tuple the server sends for `row` when the columns in `toast` are unchanged out-of-line values. */
  function EncodeTuple(cols: seq<Column>, row: Row, toast: set<string>): seq<Datum>
    requires Names(cols) <= row.Keys
  {
    seq(|cols|, i requires 0 <= i < |cols| =>
      assert cols[i].name in Names(cols);
      if cols[i].name in toast then Unchanged
      else if row[cols[i].name].Null? then NullDatum
      else Datum(row[cols[i].name]))
  }

  /** The columns of a row that are among `names` and not unchanged. */
  function Kept(row: Row, names: set<string>, toast: set<string>): Row {
    map c | c in row && c in names && c !in toast :: row[c]
  }

  lemma KeptMore(row: Row, names: set<string>, toast: set<string>, name: string)
    requires name in row
    ensures Kept(row, names + {name}, toast) ==
            if name in toast then Kept(row, names, toast) else Kept(row, names, toast)[name := row[name]]
  {
  }

  lemma NamesMore(cols: seq<Column>, k: nat)
    requires 0 < k <= |cols|
    ensures Names(cols[..k]) == Names(cols[..k - 1]) + {cols[k - 1].name}
  {
    assert cols[..k][k - 1] == cols[k - 1];
    assert forall i :: 0 <= i < k - 1 ==> cols[..k][i] == cols[..k - 1][i];
  }

  lemma {:induction false} DecodeEncodePrefix(cols: seq<Column>, row: Row, toast: set<string>, k: nat)
    requires DistinctNames(cols) && Names(cols) <= row.Keys && k <= |cols|
    ensures DecodePrefix(cols, EncodeTuple(cols, row, toast), k) == Ok(Kept(row, Names(cols[..k]), toast))
  {
    if k > 0 {
      DecodeEncodePrefix(cols, row, toast, k - 1);
      assert cols[k - 1].name in Names(cols);
      NamesMore(cols, k);
      KeptMore(row, Names(cols[..k - 1]), toast, cols[k - 1].name);
    }
  }

  /** Decoding keeps null, unchanged and present columns apart, so that laying the decoded image over
      the previous row rebuilds the row the server meant. */
  lemma DecodeRebuildsRow(cols: seq<Column>, previous: Row, row: Row, toast: set<string>)
    requires DistinctNames(cols) && Names(cols) == row.Keys == previous.Keys
    requires forall c :: c in toast && c in row ==> previous[c] == row[c]
    ensures DecodeTuple(cols, Some(EncodeTuple(cols, row, toast))) == Ok(Some(row - toast))
    ensures previous + (row - toast) == row
  {
    DecodeEncodePrefix(cols, row, toast, |cols|);
    assert cols[..|cols|] == cols;
    assert Kept(row, Names(cols), toast) == row - toast;
  }
}
