/** Incremental view maintenance: the row cache of a shape is the filtered source table. */
module Views {
  import Text
  import opened Rows
  import opened Filters
  import opened Wal
  import opened ShapeLog
  import opened Shapes

  type Table = map<string, Row>

  /** A source table as one shape sees it: the shape's definition and filter, the table's columns, and its
      rows when the change history begins. Rows are identified by their rendered primary key. */
  datatype Source = Source(def: Definition, filter: Filter, cols: set<string>, base: Table)

  ghost predicate TableOk(src: Source, t: Table) {
    WellKeyed(src.def.pk, t) && forall k :: k in t ==> t[k].Keys == src.cols
  }

  /** The specification: the rows of the table that satisfy the filter. */
  function View(f: Filter, t: Table): Table {
    map k | k in t && Matches(f, t[k]) :: t[k]
  }

  /** The rows of the table that the snapshot query returns. */
  function SqlView(f: Filter, t: Table): Table {
    map k | k in t && SqlSelects(f, t[k]) :: t[k]
  }

  function KeyOf(pk: seq<string>, image: Option<Row>): string {
    if image.Some? && PkKey(pk, image.value).Ok? then PkKey(pk, image.value).value else ""
  }

  /** The change is about the table, by its qualified name; a change without a schema is about the public one. */
  predicate OfTable(def: Definition, ch: Change) {
    && def.table == ch.table
    && (ch.schema != "" ==> def.schema == ch.schema)
    && (ch.schema == "" ==> def.schema == "public")
  }

  /** The key an update looks up, and the row it leaves behind in the table. */
  function UpdateKey(src: Source, ch: Change): string {
    KeyOf(src.def.pk, FirstImage(ch.oldRow, ch.newRow))
  }

  function UpdatedRow(src: Source, t: Table, ch: Change): Row
    requires UpdateKey(src, ch) in t
  {
    t[UpdateKey(src, ch)] + Columns(ch.newRow)
  }

  /** The columns an update carries. */
  function Seen(ch: Change): Row { Columns(ch.oldRow) + Columns(ch.newRow) }

  /** What a change did to the source table. Columns missing from a new image kept their value; an update can move its
      row to another key. */
  function Evolve(src: Source, t: Table, ch: Change): Table {
    if !OfTable(src.def, ch) then t
    else match ch.op
      case OpInsert => if ch.newRow.Some? then t[KeyOf(src.def.pk, ch.newRow) := ch.newRow.value] else t
      case OpDelete => t - {KeyOf(src.def.pk, ch.oldRow)}
      case OpUpdate =>
        var k := UpdateKey(src, ch);
        if k in t then (t - {k})[KeyOf(src.def.pk, Some(UpdatedRow(src, t, ch))) := UpdatedRow(src, t, ch)] else t
      case OpUnknown => t
  }

  ghost predicate Keyed(pk: seq<string>, image: Option<Row>) {
    image.Some? && PkKey(pk, image.value).Ok?
  }

  /** Changes a source can make: complete inserts of new keys, deletes of present keys whose old image carries the key,
      and updates of present keys that keep the key or move to a free one. */
  ghost predicate PossibleChange(src: Source, t: Table, ch: Change) {
    OfTable(src.def, ch) ==>
      match ch.op
      case OpInsert =>
        && Keyed(src.def.pk, ch.newRow)
        && ch.newRow.value.Keys == src.cols
        && KeyOf(src.def.pk, ch.newRow) !in t
      case OpDelete =>
        && Keyed(src.def.pk, ch.oldRow)
        && KeyOf(src.def.pk, ch.oldRow) in t
      case OpUpdate => PossibleUpdate(src, t, ch)
      case OpUnknown => false
  }

  ghost predicate PossibleUpdate(src: Source, t: Table, ch: Change) {
    && Keyed(src.def.pk, FirstImage(ch.oldRow, ch.newRow))
    && Columns(ch.oldRow).Keys <= src.cols
    && Columns(ch.newRow).Keys <= src.cols
    && UpdateKey(src, ch) in t
    && PkKey(src.def.pk, UpdatedRow(src, t, ch)).Ok?
    && (var k := KeyOf(src.def.pk, Some(UpdatedRow(src, t, ch))); k == UpdateKey(src, ch) || k !in t)
  }

  /** What an update must be like for the shape to follow it: a row that ends up in the view keeps its key; and a row
      that was outside enters with every column known, or stays outside without a false match on the columns seen. */
  predicate Recoverable(src: Source, t: Table, ch: Change)
    requires UpdateKey(src, ch) in t
  {
    var row := UpdatedRow(src, t, ch);
    && (Matches(src.filter, row) ==> PkKey(src.def.pk, row) == Ok(UpdateKey(src, ch)))
    && (|| Matches(src.filter, t[UpdateKey(src, ch)])
        || if Matches(src.filter, row) then Seen(ch) == row else !Matches(src.filter, Seen(ch)))
  }

  ghost predicate FaithfulChange(src: Source, t: Table, ch: Change) {
    OfTable(src.def, ch) && ch.op == OpUpdate && UpdateKey(src, ch) in t ==> Recoverable(src, t, ch)
  }

  ghost predicate ValidChange(src: Source, t: Table, ch: Change) {
    PossibleChange(src, t, ch) && FaithfulChange(src, t, ch)
  }

  /** Every column missing from the new image can be read from the cached row or from the old image. */
  ghost predicate ColumnsKnown(src: Source, t: Table, ch: Change)
    requires UpdateKey(src, ch) in t
  {
    var row := t[UpdateKey(src, ch)];
    || Matches(src.filter, row)
    || forall c :: c in row && c !in Columns(ch.newRow) ==> c in Columns(ch.oldRow) && Columns(ch.oldRow)[c] == row[c]
  }

  /** The instance serves this source and its cache is the view of `t`. */
  ghost predicate Serves(i: Inst, src: Source) {
    i.def == src.def && i.filter == src.filter
  }

  /** The cache after carrying out a decision. */
  function CacheBy(cache: Table, d: Result<Option<Effect>>): Table {
    if d.Ok? && d.value.Some? then CacheAfter(cache, d.value.value) else cache
  }

  /** The event of a decision carries a row whose key is the cache entry it touches. */
  predicate EffectKeyed(pk: seq<string>, d: Result<Option<Effect>>) {
    d.Ok? && d.value.Some? ==> PkKey(pk, d.value.value.row) == Ok(d.value.value.key)
  }

  lemma EvolveKeepsTable(src: Source, t: Table, ch: Change)
    requires TableOk(src, t) && PossibleChange(src, t, ch)
    ensures TableOk(src, Evolve(src, t, ch))
  {
  }

  lemma InsertMaintains(src: Source, i: Inst, t: Table, ch: Change)
    requires Serves(i, src) && TableOk(src, t) && i.cache == View(src.filter, t)
    requires OfTable(src.def, ch) && ch.op == OpInsert && PossibleChange(src, t, ch)
    ensures Decide(i, ch).Ok? && CacheBy(i.cache, Decide(i, ch)) == View(src.filter, Evolve(src, t, ch))
  {
    var k, row := KeyOf(src.def.pk, ch.newRow), ch.newRow.value;
    ViewOfSet(src.filter, t, k, row);
    assert k !in i.cache && i.cache - {k} == i.cache;
    InsertCache(i, k, row);
  }

  lemma InsertCache(i: Inst, k: string, row: Row)
    requires PkKey(i.def.pk, row) == Ok(k)
    ensures var d := DecideInsert(i, Some(row));
            d.Ok? && CacheBy(i.cache, d) == if Matches(i.filter, row) then i.cache[k := row] else i.cache
  {
  }

  lemma DeleteCache(i: Inst, k: string, row: Row)
    requires PkKey(i.def.pk, row) == Ok(k)
    ensures var d := DecideDelete(i, Some(row)); d.Ok? && CacheBy(i.cache, d) == i.cache - {k}
  {
    assert k !in i.cache ==> i.cache - {k} == i.cache;
  }

  lemma DeleteMaintains(src: Source, i: Inst, t: Table, ch: Change)
    requires Serves(i, src) && TableOk(src, t) && i.cache == View(src.filter, t)
    requires OfTable(src.def, ch) && ch.op == OpDelete && PossibleChange(src, t, ch)
    ensures Decide(i, ch).Ok? && CacheBy(i.cache, Decide(i, ch)) == View(src.filter, Evolve(src, t, ch))
  {
    var k := KeyOf(src.def.pk, ch.oldRow);
    ViewOfRemove(src.filter, t, k);
    DeleteCache(i, k, ch.oldRow.value);
  }

  lemma ViewOfRemove(f: Filter, t: Table, k: string)
    ensures View(f, t - {k}) == View(f, t) - {k}
  {
  }

  lemma ViewOfSet(f: Filter, t: Table, k: string, row: Row)
    ensures View(f, t[k := row]) == if Matches(f, row) then View(f, t)[k := row] else View(f, t) - {k}
  {
  }

  /** What an update does to the cache, given the row it looked up and the row it patched together. */
  lemma UpdateCache(i: Inst, ch: Change, k: string, cached: Option<Row>, row: Row)
    requires FirstImage(ch.oldRow, ch.newRow).Some?
    requires Lookup(i, FirstImage(ch.oldRow, ch.newRow)) == Ok((k, cached))
    requires PatchRow(cached, ch.oldRow, ch.newRow) == row
    ensures var d := DecideUpdate(i, ch.oldRow, ch.newRow);
            && d.Ok?
            && (Matches(i.filter, row) ==> d.value.Some? && d.value.value.key == k && d.value.value.row == row)
            && CacheBy(i.cache, d) == if Matches(i.filter, row) then i.cache[k := row] else i.cache - {k}
  {
    if cached.None? {
      assert i.cache - {k} == i.cache;
    }
  }

  /** An image laid under a complete row is invisible. */
  lemma CompleteRowWins(o: Row, row: Row)
    requires o.Keys <= row.Keys
    ensures o + row == row
  {
  }

  /** Columns the new image lacks are read off the old image. */
  lemma OldImageFills(o: Row, row: Row, n: Row)
    requires o.Keys <= row.Keys && n.Keys <= row.Keys
    requires forall c :: c in row && c !in n ==> c in o && o[c] == row[c]
    ensures o + map[] + n == row + n
  {
    assert (o + map[] + n).Keys == (row + n).Keys;
  }

  /** `patchRow` rebuilds the true new row. */
  lemma PatchIsTrueRow(src: Source, i: Inst, t: Table, ch: Change)
    requires Serves(i, src) && TableOk(src, t) && i.cache == View(src.filter, t)
    requires PossibleUpdate(src, t, ch) && ColumnsKnown(src, t, ch)
    ensures var k := UpdateKey(src, ch);
            Lookup(i, FirstImage(ch.oldRow, ch.newRow)) == Ok((k, if k in i.cache then Some(t[k]) else None))
            && PatchRow(if k in i.cache then Some(t[k]) else None, ch.oldRow, ch.newRow) == UpdatedRow(src, t, ch)
  {
    var k := UpdateKey(src, ch);
    if k in i.cache {
      CompleteRowWins(Columns(ch.oldRow), t[k]);
    } else {
      OldImageFills(Columns(ch.oldRow), t[k], Columns(ch.newRow));
    }
  }

  /** An update that keeps the key and whose columns are known can be followed. */
  lemma KnownIsRecoverable(src: Source, t: Table, ch: Change)
    requires TableOk(src, t) && PossibleUpdate(src, t, ch) && ColumnsKnown(src, t, ch)
    requires PkKey(src.def.pk, UpdatedRow(src, t, ch)) == Ok(UpdateKey(src, ch))
    ensures Recoverable(src, t, ch)
  {
    var k := UpdateKey(src, ch);
    if !Matches(src.filter, t[k]) {
      OldImageFills(Columns(ch.oldRow), t[k], Columns(ch.newRow));
      assert Columns(ch.oldRow) + map[] == Columns(ch.oldRow);
    }
  }

  lemma SameAt(m: Table, k: string, a: Row, inA: bool, b: Row, inB: bool)
    ensures (if inA then m[k := a] else m - {k}) == (if inB then m[k := b] else m - {k}) <==>
            inA == inB && (inA ==> a == b)
  {
    if inA == inB && inA {
      assert m[k := a][k] == a && m[k := b][k] == b;
    } else if inA != inB {
      assert k in m[k := if inA then a else b] && k !in m - {k};
    }
  }

  /** Writing a row under a key and moving a row from that key to a free one agree only if nothing moves. */
  lemma SameMove(m: Table, k: string, to: string, a: Row, inA: bool, b: Row, inB: bool)
    requires to == k || to !in m
    ensures (if inA then m[k := a] else m - {k}) == (if inB then (m - {k})[to := b] else m - {k}) <==>
            inA == inB && (inA ==> a == b && to == k)
  {
    SameAt(m, k, a, inA, b, inB);
    if to == k {
      assert (m - {k})[k := b] == m[k := b];
    } else if inB {
      assert to in (m - {k})[to := b] && to !in m[k := a] && to !in m - {k};
    }
  }

  /** The view after a row moved to a free key, or stayed at its own. */
  lemma ViewOfMove(f: Filter, t: Table, k: string, to: string, row: Row)
    requires to == k || to !in t
    ensures View(f, (t - {k})[to := row]) == if Matches(f, row) then (View(f, t) - {k})[to := row] else View(f, t) - {k}
  {
    ViewOfSet(f, t - {k}, to, row);
    ViewOfRemove(f, t, k);
    assert to !in View(f, t) - {k};
    assert View(f, t) - {k} - {to} == View(f, t) - {k};
  }

  /** What an update does to the cache of a shape that is up to date. */
  lemma UpdatePatches(src: Source, i: Inst, t: Table, ch: Change)
    requires Serves(i, src) && TableOk(src, t) && i.cache == View(src.filter, t)
    requires ch.op == OpUpdate && PossibleUpdate(src, t, ch)
    ensures var k := UpdateKey(src, ch);
            var patched := if k in i.cache then UpdatedRow(src, t, ch) else Seen(ch);
            && Decide(i, ch).Ok?
            && CacheBy(i.cache, Decide(i, ch)) ==
               if Matches(src.filter, patched) then i.cache[k := patched] else i.cache - {k}
  {
    var k := UpdateKey(src, ch);
    if k in i.cache {
      PatchIsTrueRow(src, i, t, ch);
      UpdateCache(i, ch, k, Some(t[k]), UpdatedRow(src, t, ch));
    } else {
      UncachedPatch(src, i, ch);
      UpdateCache(i, ch, k, None, Seen(ch));
    }
  }

  /** An update of an uncached row sees its images only. */
  lemma UncachedPatch(src: Source, i: Inst, ch: Change)
    requires Serves(i, src) && Keyed(src.def.pk, FirstImage(ch.oldRow, ch.newRow)) && UpdateKey(src, ch) !in i.cache
    ensures Lookup(i, FirstImage(ch.oldRow, ch.newRow)) == Ok((UpdateKey(src, ch), None))
    ensures PatchRow(None, ch.oldRow, ch.newRow) == Seen(ch)
  {
    assert Columns(ch.oldRow) + map[] == Columns(ch.oldRow);
  }

  /** The cache after an update equals the new view exactly when the update can be followed. */
  lemma UpdateExact(src: Source, i: Inst, t: Table, ch: Change)
    requires Serves(i, src) && TableOk(src, t) && i.cache == View(src.filter, t)
    requires OfTable(src.def, ch) && ch.op == OpUpdate && PossibleUpdate(src, t, ch)
    ensures Decide(i, ch).Ok?
    ensures CacheBy(i.cache, Decide(i, ch)) == View(src.filter, Evolve(src, t, ch)) <==> Recoverable(src, t, ch)
  {
    var k, row := UpdateKey(src, ch), UpdatedRow(src, t, ch);
    var to := KeyOf(src.def.pk, Some(row));
    var patched := if k in i.cache then row else Seen(ch);
    UpdatePatches(src, i, t, ch);
    ViewOfMove(src.filter, t, k, to, row);
    SameMove(i.cache, k, to, patched, Matches(src.filter, patched), row, Matches(src.filter, row));
  }

  /** An update as the decoder delivers it: the new image holds the true new row except the columns sent as
      unchanged, which is what decoding the server's tuple gives, and the old image is absent or carries the old key.
      The table evolves to the true new row, and the shape follows exactly when a row in the view keeps its key and a
      row from outside brings every unchanged column in its old image or, if it stays outside, no false match. */
  lemma DecodedUpdateEvolves(
    src: Source, t: Table, ch: Change, cols: seq<Column>, k: string, row: Row, toast: set<string>)
    requires TableOk(src, t) && OfTable(src.def, ch) && ch.op == OpUpdate && k in t
    requires DistinctNames(cols) && Names(cols) == src.cols == row.Keys
    requires PkKey(src.def.pk, row).Ok? && (KeyOf(src.def.pk, Some(row)) == k || KeyOf(src.def.pk, Some(row)) !in t)
    requires forall c :: c in toast && c in row ==> t[k][c] == row[c]
    requires (forall c :: c in src.def.pk ==> c !in toast) && ch.newRow == Some(row - toast)
    requires if ch.oldRow.None? then PkKey(src.def.pk, row) == Ok(k)
             else ch.oldRow.value.Keys <= src.cols && PkKey(src.def.pk, ch.oldRow.value) == Ok(k)
    ensures DecodeTuple(cols, Some(EncodeTuple(cols, row, toast))) == Ok(ch.newRow)
    ensures PossibleUpdate(src, t, ch)
    ensures Evolve(src, t, ch) == (t - {k})[KeyOf(src.def.pk, Some(row)) := row]
    ensures ValidChange(src, t, ch) <==> Follows(src, t[k], Columns(ch.oldRow), row, toast)
  {
    DecodedNewImage(src, t[k], ch, cols, row, toast);
    assert TrueUpdate(src, t, ch, k, row, toast);
    TrueUpdateEvolves(src, t, ch, k, row, toast);
  }

  lemma DecodedNewImage(src: Source, was: Row, ch: Change, cols: seq<Column>, row: Row, toast: set<string>)
    requires DistinctNames(cols) && Names(cols) == row.Keys == was.Keys
    requires forall c :: c in toast && c in row ==> was[c] == row[c]
    requires (forall c :: c in src.def.pk ==> c !in toast) && ch.newRow == Some(row - toast)
    ensures DecodeTuple(cols, Some(EncodeTuple(cols, row, toast))) == Ok(ch.newRow) && was + (row - toast) == row
    ensures PkKey(src.def.pk, row - toast) == PkKey(src.def.pk, row)
  {
    DecodeRebuildsRow(cols, was, row, toast);
    PkKeyReadsKeyColumns(src.def.pk, row - toast, row);
  }

  lemma RecoverableIsFollows(src: Source, t: Table, ch: Change, k: string, row: Row, toast: set<string>)
    requires TableOk(src, t) && UpdateKey(src, ch) == k && k in t && UpdatedRow(src, t, ch) == row
    requires Columns(ch.oldRow).Keys <= row.Keys && Seen(ch) == Columns(ch.oldRow) + (row - toast)
    ensures Recoverable(src, t, ch) <==> Follows(src, t[k], Columns(ch.oldRow), row, toast)
  {
    ShowsRow(Columns(ch.oldRow), row, toast);
    assert PkKey(src.def.pk, t[k]) == Ok(k);
  }

  /** A row in the view keeps its key; a row from outside brings its unchanged columns in the old image or, if it stays
      outside, no false match. */
  predicate Follows(src: Source, was: Row, o: Row, row: Row, toast: set<string>) {
    var (before, after) := (Matches(src.filter, was), Matches(src.filter, row));
    && (after ==> PkKey(src.def.pk, row) == PkKey(src.def.pk, was))
    && (!before && after ==> forall c :: c in toast && c in row ==> c in o && o[c] == row[c])
    && (!before && !after ==> !Matches(src.filter, o + (row - toast)))
  }

  /** The change is an update of the row under `k` to `row`, told truly except for the columns left out. */
  predicate TrueUpdate(src: Source, t: Table, ch: Change, k: string, row: Row, toast: set<string>) {
    && OfTable(src.def, ch) && ch.op == OpUpdate && k in t && row.Keys == src.cols
    && PkKey(src.def.pk, row).Ok? && (KeyOf(src.def.pk, Some(row)) == k || KeyOf(src.def.pk, Some(row)) !in t)
    && ch.newRow == Some(row - toast) && t[k] + (row - toast) == row
    && PkKey(src.def.pk, row - toast) == PkKey(src.def.pk, row)
    && if ch.oldRow.None? then PkKey(src.def.pk, row) == Ok(k)
       else ch.oldRow.value.Keys <= src.cols && PkKey(src.def.pk, ch.oldRow.value) == Ok(k)
  }

  lemma TrueUpdateEvolves(src: Source, t: Table, ch: Change, k: string, row: Row, toast: set<string>)
    requires TableOk(src, t) && TrueUpdate(src, t, ch, k, row, toast)
    ensures PossibleUpdate(src, t, ch)
    ensures Evolve(src, t, ch) == (t - {k})[KeyOf(src.def.pk, Some(row)) := row]
    ensures ValidChange(src, t, ch) <==> Follows(src, t[k], Columns(ch.oldRow), row, toast)
  {
    TrueImages(src, t, ch, k, row, toast);
    RecoverableIsFollows(src, t, ch, k, row, toast);
  }

  lemma TrueImages(src: Source, t: Table, ch: Change, k: string, row: Row, toast: set<string>)
    requires TrueUpdate(src, t, ch, k, row, toast)
    ensures UpdateKey(src, ch) == k && UpdatedRow(src, t, ch) == row && PossibleUpdate(src, t, ch)
    ensures Seen(ch) == Columns(ch.oldRow) + (row - toast)
    ensures ValidChange(src, t, ch) <==> Recoverable(src, t, ch)
  {
  }

  lemma ShowsRow(o: Row, row: Row, toast: set<string>)
    requires o.Keys <= row.Keys
    ensures o + (row - toast) == row <==> forall c :: c in toast && c in row ==> c in o && o[c] == row[c]
  {
    var shown := o + (row - toast);
    assert forall c :: c in row && c !in toast ==> c in shown && shown[c] == row[c];
    assert forall c :: c in toast ==> (c in shown <==> c in o) && (c in o ==> shown[c] == o[c]);
    if forall c :: c in toast && c in row ==> c in o && o[c] == row[c] {
      assert shown.Keys == row.Keys;
    }
  }

  const SAMPLE := Definition("tasks", "public", "tasks", ["id"])

  lemma SampleKey(row: Row)
    requires "id" in row && row["id"].Int? && 0 <= row["id"].n < 10
    ensures PkKey(SAMPLE.pk, row) == Ok([Text.Digit(row["id"].n)])
    ensures row["id"].n == 1 ==> PkKey(SAMPLE.pk, row) == Ok("1")
  {
    var d := [Text.Digit(row["id"].n)];
    assert Render(row["id"]) == d;
    assert KeyParts(SAMPLE.pk, row) == [d];
    assert Text.Join([d], "|") == d;
  }

  /** The omitted-column condition is needed: a row that enters the view with an unchanged column left out, and no old
      image to read it from, is cached without that column. */
  lemma OmittedColumnIsLost()
    ensures var row: Row := map["id" := Int(1), "org" := Int(2), "note" := Str("x")];
            var src := Source(SAMPLE, [Pred("org", Eq, Int(7))], {"id", "org", "note"}, map["1" := row]);
            var i := NewInst(SAMPLE, src.filter);
            var ch := Change("public", "tasks", OpUpdate, "", 9, None, Some(map["id" := Int(1), "org" := Int(7)]));
            && TableOk(src, src.base) && i.cache == View(src.filter, src.base) && PossibleUpdate(src, src.base, ch)
            && CacheBy(i.cache, Decide(i, ch)) != View(src.filter, Evolve(src, src.base, ch))
  {
    var row: Row := map["id" := Int(1), "org" := Int(2), "note" := Str("x")];
    var image: Row := map["id" := Int(1), "org" := Int(7)];
    var src := Source(SAMPLE, [Pred("org", Eq, Int(7))], {"id", "org", "note"}, map["1" := row]);
    var i := NewInst(SAMPLE, src.filter);
    var ch := Change("public", "tasks", OpUpdate, "", 9, None, Some(image));
    SampleKey(row);
    SampleKey(image);
    SampleKey(row + image);
    assert !MatchPred(src.filter[0], row) && MatchPred(src.filter[0], row + image);
    assert "note" in row + image && "note" !in map[] + image;
    UpdateExact(src, i, src.base, ch);
  }

  /** The key condition is needed: a row that changes its key inside the view stays cached under its old key. */
  lemma MovedRowKeepsOldKey()
    ensures var row: Row := map["id" := Int(1), "org" := Int(7)];
            var moved: Row := map["id" := Int(2), "org" := Int(7)];
            var src := Source(SAMPLE, [Pred("org", Eq, Int(7))], {"id", "org"}, map["1" := row]);
            var i := NewInst(SAMPLE, src.filter).(cache := View(src.filter, src.base));
            var ch := Change("public", "tasks", OpUpdate, "", 9, Some(row), Some(moved));
            && TableOk(src, src.base) && PossibleUpdate(src, src.base, ch)
            && CacheBy(i.cache, Decide(i, ch)) != View(src.filter, Evolve(src, src.base, ch))
  {
    var row: Row := map["id" := Int(1), "org" := Int(7)];
    var moved: Row := map["id" := Int(2), "org" := Int(7)];
    var src := Source(SAMPLE, [Pred("org", Eq, Int(7))], {"id", "org"}, map["1" := row]);
    var i := NewInst(SAMPLE, src.filter).(cache := View(src.filter, src.base));
    var ch := Change("public", "tasks", OpUpdate, "", 9, Some(row), Some(moved));
    SampleKey(row);
    SampleKey(moved);
    assert row + moved == moved && MatchPred(src.filter[0], moved);
    UpdateExact(src, i, src.base, ch);
  }

  /** One applied change: the cache stays the view, unless the shape halts. */
  lemma ApplyMaintains(src: Source, i: Inst, t: Table, ch: Change)
    requires Serves(i, src) && TableOk(src, t) && i.cache == View(src.filter, t)
    requires ValidChange(src, t, ch) && (OfTable(src.def, ch) ==> !Gated(i, ch))
    ensures var j := Apply(i, ch).0;
            j.log.halted.None? ==> j.cache == View(src.filter, Evolve(src, t, ch)) && Apply(i, ch).1.Ok?
  {
    ApplyCarriesOut(i, ch);
    if OfTable(src.def, ch) {
      DecisionMaintains(src, i, t, ch);
    }
  }

  lemma DecisionMaintains(src: Source, i: Inst, t: Table, ch: Change)
    requires Serves(i, src) && TableOk(src, t) && i.cache == View(src.filter, t)
    requires OfTable(src.def, ch) && ValidChange(src, t, ch)
    ensures Decide(i, ch).Ok? && CacheBy(i.cache, Decide(i, ch)) == View(src.filter, Evolve(src, t, ch))
  {
    match ch.op
    case OpInsert => InsertMaintains(src, i, t, ch);
    case OpDelete => DeleteMaintains(src, i, t, ch);
    case OpUpdate => UpdateExact(src, i, t, ch);
  }

  /** Applying a change is carrying out the decision, unless the shape ignores the change or halts. */
  lemma ApplyCarriesOut(i: Inst, ch: Change)
    ensures var (j, r) := Apply(i, ch);
            j.log.halted.None? ==>
              if !OfTable(i.def, ch) || Gated(i, ch) then j == i && r.Ok?
              else j.cache == CacheBy(i.cache, Decide(i, ch)) && (r.Ok? <==> Decide(i, ch).Ok?)
  {
  }

  /** A live shape ignores a change whose schema or table is not its own. */
  lemma OtherTablesIgnored(i: Inst, ch: Change)
    requires i.log.halted.None?
    requires ch.table != i.def.table || (if ch.schema == "" then "public" else ch.schema) != i.def.schema
    ensures Apply(i, ch) == (i, Ok([]))
  {
  }

  /** A live shape carries out an uncovered change of its own table, unless its fingerprint differs. */
  lemma OwnTableApplied(i: Inst, ch: Change)
    requires i.log.halted.None? && !Gated(i, ch) && !Drifted(i, ch)
    requires ch.table == i.def.table
    requires if ch.schema == "" then i.def.schema == "public" else i.def.schema == ch.schema
    ensures var (j, r) := Apply(i, ch);
            && j.cache == CacheBy(i.cache, Decide(i, ch)) && (r.Ok? <==> Decide(i, ch).Ok?)
            && (r.Ok? ==> |r.value| == if Decide(i, ch).value.Some? then 1 else 0)
            && (ch.fingerprint != "" ==> j.fingerprint == ch.fingerprint)
  {
  }

  /** A live shape halts on an uncovered change of its own table with another fingerprint, and names the reason. */
  lemma DriftHalts(i: Inst, ch: Change)
    requires i.log.halted.None? && !Gated(i, ch) && OfTable(i.def, ch)
    requires ch.fingerprint != "" && i.fingerprint != "" && ch.fingerprint != i.fingerprint
    ensures Apply(i, ch) == (i.(log := i.log.(halted := Some(SchemaDrift))), Err(SchemaDrift))
  {
  }

  /** An operation the shape does not know fails, whatever its images. */
  lemma UnknownOpFails(i: Inst, ch: Change)
    requires Apply(i, ch).1 != Err(Halted) && !Gated(i, ch) && OfTable(i.def, ch) && !Drifted(i, ch)
    ensures ch.op == OpUnknown <==> Apply(i, ch).1 == Err(UnknownOp)
  {
  }

  /** A call that fails changes no row and appends nothing. */
  lemma FailedApplyKeepsRows(i: Inst, ch: Change)
    requires Apply(i, ch).1.Err?
    ensures var j := Apply(i, ch).0; j.cache == i.cache && j.log.events == i.log.events && j.log.next == i.log.next
  {
  }

  /** Inserts and deletes without an image do nothing. An update without images is an update of an empty row under the
      empty key, so it is ignored unless the filter accepts the empty row. */
  lemma ImagelessChange(i: Inst)
    ensures DecideInsert(i, None) == Ok(None) && DecideDelete(i, None) == Ok(None)
    ensures DecideUpdate(i, None, None) ==
            Ok(if Matches(i.filter, map[]) then Some(Effect(EventInsert, "", map[])) else None)
  {
    var empty: Row := map[];
    assert empty + empty + empty == empty;
  }

  // ---- histories

  function TableAt(src: Source, h: seq<Change>): Table {
    if |h| == 0 then src.base else Evolve(src, TableAt(src, h[..|h| - 1]), h[|h| - 1])
  }

  ghost predicate PossibleHistory(src: Source, h: seq<Change>) {
    if |h| == 0 then TableOk(src, src.base)
    else PossibleHistory(src, h[..|h| - 1]) && PossibleChange(src, TableAt(src, h[..|h| - 1]), h[|h| - 1])
  }

  /** The changes from `lo` up to `hi` can be followed. */
  ghost predicate FaithfulBetween(src: Source, h: seq<Change>, lo: nat, hi: nat)
    requires hi <= |h|
  {
    forall j :: lo <= j < hi ==> FaithfulChange(src, TableAt(src, h[..j]), h[j])
  }

  /** All that a shape with its snapshot at `cut` asks of the history up to `n`: it is possible, and the changes past
      the snapshot can be followed. */
  ghost predicate Sound(src: Source, h: seq<Change>, cut: nat, n: nat) {
    && cut <= |h| && n <= |h|
    && PossibleHistory(src, h[..Max(cut, n)])
    && FaithfulBetween(src, h, cut, n)
  }

  function ApplyAll(i: Inst, h: seq<Change>): Inst {
    if |h| == 0 then i else Apply(ApplyAll(i, h[..|h| - 1]), h[|h| - 1]).0
  }

  lemma {:induction false} PossiblePrefix(src: Source, h: seq<Change>, n: nat)
    requires PossibleHistory(src, h) && n <= |h|
    ensures PossibleHistory(src, h[..n])
    decreases |h|
  {
    if n < |h| {
      PossiblePrefix(src, h[..|h| - 1], n);
      assert h[..|h| - 1][..n] == h[..n];
    } else {
      assert h[..n] == h;
    }
  }

  lemma {:induction false} TableAtOk(src: Source, h: seq<Change>)
    requires PossibleHistory(src, h)
    ensures TableOk(src, TableAt(src, h))
  {
    if |h| > 0 {
      TableAtOk(src, h[..|h| - 1]);
      EvolveKeepsTable(src, TableAt(src, h[..|h| - 1]), h[|h| - 1]);
    }
  }

  /** What a possible history says about its change number `n`. */
  lemma PossibleAt(src: Source, h: seq<Change>, n: nat)
    requires n < |h| && PossibleHistory(src, h[..n + 1])
    ensures TableOk(src, TableAt(src, h[..n])) && PossibleChange(src, TableAt(src, h[..n]), h[n])
    ensures TableAt(src, h[..n + 1]) == Evolve(src, TableAt(src, h[..n]), h[n])
  {
    assert h[..n + 1][..n] == h[..n];
    TableAtOk(src, h[..n]);
  }

  lemma SoundPrefix(src: Source, h: seq<Change>, cut: nat, n: nat, m: nat)
    requires Sound(src, h, cut, n) && m <= n
    ensures Sound(src, h, cut, m)
  {
    PossiblePrefix(src, h[..Max(cut, n)], Max(cut, m));
    assert h[..Max(cut, n)][..Max(cut, m)] == h[..Max(cut, m)];
  }

  /** Soundness of the past does not depend on what follows. */
  lemma SoundOfLonger(src: Source, h: seq<Change>, longer: seq<Change>, cut: nat, n: nat)
    requires h <= longer && cut <= |h| && n <= |h|
    ensures Sound(src, h, cut, n) <==> Sound(src, longer, cut, n)
  {
    assert longer[..Max(cut, n)] == h[..Max(cut, n)];
    forall j | 0 <= j < n ensures longer[..j] == h[..j] && longer[j] == h[j] {
    }
  }

  function Max(a: nat, b: nat): nat { if a < b then b else a }

  /** The instance ignores the first `cut` changes of `h` and no later one. */
  ghost predicate CutsAt(i: Inst, h: seq<Change>, cut: nat) {
    && cut <= |h|
    && forall j :: 0 <= j < |h| && OfTable(i.def, h[j]) ==> (Gated(i, h[j]) <==> j < cut)
  }

  /** The cache is the view at the later of the snapshot cut and the dispatched position `n`. */
  ghost predicate CaughtUp(src: Source, i: Inst, h: seq<Change>, cut: nat, n: nat) {
    && Serves(i, src)
    && CutsAt(i, h, cut)
    && n <= |h|
    && (i.log.halted.None? ==> i.cache == View(src.filter, TableAt(src, h[..Max(cut, n)])))
  }

  lemma ApplyKeeps(i: Inst, ch: Change)
    ensures var j := Apply(i, ch).0;
            j.def == i.def && j.filter == i.filter && j.snapshotLsn == i.snapshotLsn && j.hasSnapshot == i.hasSnapshot
    ensures i.log.halted.Some? ==> Apply(i, ch).0 == i
  {
  }

  lemma CatchUpStep(src: Source, i: Inst, h: seq<Change>, cut: nat, n: nat)
    requires CaughtUp(src, i, h, cut, n) && n < |h| && Sound(src, h, cut, n + 1)
    ensures CaughtUp(src, Apply(i, h[n]).0, h, cut, n + 1)
  {
    ApplyKeeps(i, h[n]);
    if i.log.halted.None? && n >= cut {
      PossibleAt(src, h, n);
      ApplyMaintains(src, i, TableAt(src, h[..n]), h[n]);
    }
  }

  lemma ApplyAllLast(i: Inst, h: seq<Change>, n: nat)
    requires 0 < n <= |h|
    ensures ApplyAll(i, h[..n]) == Apply(ApplyAll(i, h[..n - 1]), h[n - 1]).0
  {
    assert h[..n][..n - 1] == h[..n - 1];
  }

  lemma {:induction false} CatchUp(src: Source, i: Inst, h: seq<Change>, cut: nat, n: nat)
    requires CaughtUp(src, i, h, cut, 0) && n <= |h| && Sound(src, h, cut, n)
    ensures CaughtUp(src, ApplyAll(i, h[..n]), h, cut, n)
  {
    if n > 0 {
      SoundPrefix(src, h, cut, n, n - 1);
      CatchUp(src, i, h, cut, n - 1);
      ApplyAllLast(i, h, n);
      CatchUpStep(src, ApplyAll(i, h[..n - 1]), h, cut, n - 1);
    } else {
      assert ApplyAll(i, h[..0]) == i;
    }
  }

  lemma {:induction false} LivePrefix(i: Inst, h: seq<Change>, n: nat)
    requires n <= |h| && ApplyAll(i, h).log.halted.None?
    ensures ApplyAll(i, h[..n]).log.halted.None?
    decreases |h|
  {
    if n < |h| {
      var init := h[..|h| - 1];
      ApplyKeeps(ApplyAll(i, init), h[|h| - 1]);
      LivePrefix(i, init, n);
      assert init[..n] == h[..n];
    } else {
      assert h[..n] == h;
    }
  }

  lemma {:induction false} StillCutsAt(src: Source, i: Inst, h: seq<Change>, cut: nat, n: nat)
    requires Serves(i, src) && CutsAt(i, h, cut) && n <= |h|
    ensures Serves(ApplyAll(i, h[..n]), src) && CutsAt(ApplyAll(i, h[..n]), h, cut)
  {
    if n > 0 {
      StillCutsAt(src, i, h, cut, n - 1);
      ApplyAllLast(i, h, n);
      ApplyKeeps(ApplyAll(i, h[..n - 1]), h[n - 1]);
    } else {
      assert ApplyAll(i, h[..0]) == i;
    }
  }

  /** The cache is the view after the first `n` changes. */
  ghost predicate RightAt(src: Source, i: Inst, h: seq<Change>, n: nat)
    requires n <= |h|
  {
    ApplyAll(i, h[..n]).cache == View(src.filter, TableAt(src, h[..n]))
  }

  /** A shape that is right before and after a change followed it. */
  lemma RightIsFaithful(src: Source, i: Inst, h: seq<Change>, cut: nat, n: nat)
    requires Serves(i, src) && CutsAt(i, h, cut) && cut <= n < |h| && PossibleHistory(src, h[..n + 1])
    requires ApplyAll(i, h[..n + 1]).log.halted.None? && RightAt(src, i, h, n) && RightAt(src, i, h, n + 1)
    ensures FaithfulChange(src, TableAt(src, h[..n]), h[n])
  {
    var j, t := ApplyAll(i, h[..n]), TableAt(src, h[..n]);
    StillCutsAt(src, i, h, cut, n);
    ApplyAllLast(i, h, n + 1);
    PossibleAt(src, h, n);
    ApplyCarriesOut(j, h[n]);
    if OfTable(src.def, h[n]) && h[n].op == OpUpdate {
      UpdateExact(src, j, t, h[n]);
    }
  }

  ghost predicate RightFrom(src: Source, i: Inst, h: seq<Change>, cut: nat) {
    forall n :: cut <= n <= |h| ==> RightAt(src, i, h, n)
  }

  lemma FaithfulIsRight(src: Source, i: Inst, h: seq<Change>, cut: nat, n: nat)
    requires PossibleHistory(src, h) && CaughtUp(src, i, h, cut, 0) && ApplyAll(i, h).log.halted.None?
    requires FaithfulBetween(src, h, cut, |h|) && cut <= n <= |h|
    ensures RightAt(src, i, h, n)
  {
    PossiblePrefix(src, h, n);
    CatchUp(src, i, h, cut, n);
    LivePrefix(i, h, n);
  }

  lemma RightWasFaithful(src: Source, i: Inst, h: seq<Change>, cut: nat, n: nat)
    requires PossibleHistory(src, h) && CaughtUp(src, i, h, cut, 0) && ApplyAll(i, h).log.halted.None?
    requires RightFrom(src, i, h, cut) && cut <= n < |h|
    ensures FaithfulChange(src, TableAt(src, h[..n]), h[n])
  {
    PossiblePrefix(src, h, n + 1);
    LivePrefix(i, h, n + 1);
    assert RightAt(src, i, h, n) && RightAt(src, i, h, n + 1);
    RightIsFaithful(src, i, h, cut, n);
  }

  /** The run-level condition is exact: over a possible history a shape that stayed live is right after every prefix
      past its cut if and only if every change past the cut can be followed. */
  lemma RightExactly(src: Source, i: Inst, h: seq<Change>, cut: nat)
    requires PossibleHistory(src, h) && CaughtUp(src, i, h, cut, 0) && ApplyAll(i, h).log.halted.None?
    ensures RightFrom(src, i, h, cut) <==> FaithfulBetween(src, h, cut, |h|)
  {
    if FaithfulBetween(src, h, cut, |h|) {
      forall n | cut <= n <= |h| ensures RightAt(src, i, h, n) {
        FaithfulIsRight(src, i, h, cut, n);
      }
    }
    if RightFrom(src, i, h, cut) {
      forall n | cut <= n < |h| ensures FaithfulChange(src, TableAt(src, h[..n]), h[n]) {
        RightWasFaithful(src, i, h, cut, n);
      }
    }
  }

  /** View maintenance: over any possible history, a shape that started on the initial table and stayed live holds the
      filtered table after every change if and only if every change can be followed. */
  lemma ViewMaintenance(src: Source, h: seq<Change>)
    requires PossibleHistory(src, h)
    ensures var i := NewInst(src.def, src.filter).(cache := View(src.filter, src.base));
            ApplyAll(i, h).log.halted.None? ==>
              (RightFrom(src, i, h, 0) <==> FaithfulBetween(src, h, 0, |h|))
  {
    var i := NewInst(src.def, src.filter).(cache := View(src.filter, src.base));
    assert h[..0] == [];
    if ApplyAll(i, h).log.halted.None? {
      RightExactly(src, i, h, 0);
    }
  }

  // ---- snapshot handoff

  /** Rows laid over a map, each under its key. */
  function Laid(pk: seq<string>, m: Table, rows: seq<Row>): Table
    decreases |rows|
  {
    if |rows| == 0 then m else Laid(pk, m[KeyOf(pk, Some(rows[0])) := rows[0]], rows[1..])
  }

  lemma {:induction false} LaidCovers(pk: seq<string>, acc: Table, rows: seq<Row>, m: Table)
    requires forall k :: k in acc ==> k in m && acc[k] == m[k]
    requires forall i :: 0 <= i < |rows| ==>
               PkKey(pk, rows[i]).Ok? && PkKey(pk, rows[i]).value in m && m[PkKey(pk, rows[i]).value] == rows[i]
    requires WellKeyed(pk, m)
    requires forall k :: k in m ==> k in acc || m[k] in rows
    ensures Laid(pk, acc, rows) == m
    decreases |rows|
  {
    if |rows| > 0 {
      var next := acc[KeyOf(pk, Some(rows[0])) := rows[0]];
      forall k | k in m ensures k in next || m[k] in rows[1..] {
        if k !in acc && m[k] != rows[0] {
          var i :| 0 <= i < |rows| && rows[i] == m[k];
          assert rows[1..][i - 1] == m[k];
        }
      }
      LaidCovers(pk, next, rows[1..], m);
    } else {
      assert acc == m;
    }
  }

  lemma LaidLists(pk: seq<string>, rows: seq<Row>, m: Table)
    requires WellKeyed(pk, m) && Lists(rows, m, pk)
    ensures Laid(pk, map[], rows) == m
  {
    LaidCovers(pk, map[], rows, m);
  }

  lemma {:induction false} LoadRowsLays(i: Inst, rows: seq<Row>)
    requires forall j :: 0 <= j < |rows| ==> Matches(i.filter, rows[j])
    ensures var (l, err) := LoadRows(i, rows);
            && (err.None? <==> forall j :: 0 <= j < |rows| ==> PkKey(i.def.pk, rows[j]).Ok?)
            && (err.None? ==> l.cache == Laid(i.def.pk, i.cache, rows))
            && l.def == i.def && l.filter == i.filter && l.log.halted == i.log.halted
            && l.snapshotLsn == i.snapshotLsn && l.hasSnapshot == i.hasSnapshot && l.fingerprint == i.fingerprint
    decreases |rows|
  {
    if |rows| > 0 && PkKey(i.def.pk, rows[0]).Ok? {
      LoadRowsLays(Perform(i, Effect(EventInsert, PkKey(i.def.pk, rows[0]).value, rows[0])), rows[1..]);
      assert forall j :: 0 < j < |rows| ==> rows[j] == rows[1..][j - 1];
    }
  }

  /** The rows the filter accepts. */
  function Accepted(f: Filter, rows: seq<Row>): seq<Row> {
    if |rows| == 0 then [] else (if Matches(f, rows[0]) then [rows[0]] else []) + Accepted(f, rows[1..])
  }

  /** Loading any rows lays the accepted ones, in order, and fails exactly when one of those has no key. */
  lemma {:induction false} LoadRowsAccepts(i: Inst, rows: seq<Row>)
    ensures var (l, err) := LoadRows(i, rows);
            var kept := Accepted(i.filter, rows);
            && (err.None? <==> forall j :: 0 <= j < |kept| ==> PkKey(i.def.pk, kept[j]).Ok?)
            && (err.None? ==> l.cache == Laid(i.def.pk, i.cache, kept) && |l.log.events| == |i.log.events| + |kept|)
    decreases |rows|
  {
    if |rows| > 0 {
      var kept := Accepted(i.filter, rows);
      if !Matches(i.filter, rows[0]) {
        LoadRowsAccepts(i, rows[1..]);
        assert kept == Accepted(i.filter, rows[1..]);
      } else if PkKey(i.def.pk, rows[0]).Ok? {
        LoadRowsAccepts(Perform(i, Effect(EventInsert, PkKey(i.def.pk, rows[0]).value, rows[0])), rows[1..]);
        assert kept[1..] == Accepted(i.filter, rows[1..]);
        assert forall j :: 0 < j < |kept| ==> kept[j] == kept[1..][j - 1];
      } else {
        assert kept[0] == rows[0];
      }
    }
  }

  /** The query and the filter agree on every row the filter accepts. */
  predicate QueryAgrees(f: Filter, t: Table) {
    forall k :: k in t && Matches(f, t[k]) ==> Agreeable(f, t[k])
  }

  /** The snapshot of a table: the query's rows, when the query and the filter agree on the table. */
  ghost predicate SnapshotOf(src: Source, t: Table, rows: seq<Row>) {
    Lists(rows, SqlView(src.filter, t), src.def.pk) && QueryAgrees(src.filter, t)
  }

  /** Exactly when the query returns the view; it never returns more. */
  lemma SqlViewExact(f: Filter, t: Table)
    ensures SqlView(f, t) == View(f, t) <==> QueryAgrees(f, t)
    ensures forall k :: k in SqlView(f, t) ==> k in View(f, t)
  {
    forall k | k in t ensures SqlSelects(f, t[k]) <==> Matches(f, t[k]) && Agreeable(f, t[k]) {
      SqlSelectsIff(f, t[k]);
    }
    assert forall k :: k in t ==> (k in View(f, t) <==> Matches(f, t[k]));
    assert forall k :: k in t ==> (k in SqlView(f, t) <==> SqlSelects(f, t[k]));
  }

  /** Loading the query's rows gives them back as the cache, so the cache is the view exactly when the query agrees. */
  lemma SnapshotLoads(src: Source, t: Table, lsn: nat, rows: seq<Row>)
    requires TableOk(src, t) && Lists(rows, SqlView(src.filter, t), src.def.pk)
    ensures var (i, err) := LoadSnapshot(NewInst(src.def, src.filter), lsn, rows);
            && err.None? && Serves(i, src) && i.log.halted.None? && i.fingerprint == ""
            && i.hasSnapshot && i.snapshotLsn == lsn
            && i.cache == SqlView(src.filter, t)
            && (i.cache == View(src.filter, t) <==> QueryAgrees(src.filter, t))
  {
    SqlViewExact(src.filter, t);
    var i := NewInst(src.def, src.filter).(snapshotLsn := lsn, hasSnapshot := true);
    forall j | 0 <= j < |rows| ensures Matches(src.filter, rows[j]) {
      assert PkKey(src.def.pk, rows[j]).value in SqlView(src.filter, t);
    }
    LoadRowsLays(i, rows);
    LaidLists(src.def.pk, rows, SqlView(src.filter, t));
  }

  /** The changes at or before `lsn` are the first `cut` ones. */
  ghost predicate CutAt(h: seq<Change>, lsn: nat, cut: nat) {
    && cut <= |h|
    && forall j :: 0 <= j < |h| ==> h[j].lsn > 0 && (h[j].lsn <= lsn <==> j < cut)
  }

  /** The loaded snapshot is the view at its cut. */
  lemma LoadedCatchesUp(src: Source, h: seq<Change>, lsn: nat, cut: nat, rows: seq<Row>)
    requires CutAt(h, lsn, cut) && PossibleHistory(src, h[..cut]) && SnapshotOf(src, TableAt(src, h[..cut]), rows)
    ensures var i := LoadSnapshot(NewInst(src.def, src.filter), lsn, rows).0;
            CaughtUp(src, i, h, cut, 0) && i.log.halted.None? && i.snapshotLsn == lsn && i.fingerprint == ""
            && i.hasSnapshot && i.cache == View(src.filter, TableAt(src, h[..cut]))
  {
    TableAtOk(src, h[..cut]);
    SnapshotLoads(src, TableAt(src, h[..cut]), lsn, rows);
  }

  /** Handoff: after a snapshot and any prefix of the history the cache is the view at the later of the two. Only the
      changes past the snapshot have to be ones the shape can follow. */
  lemma HandoffPosition(src: Source, h: seq<Change>, lsn: nat, cut: nat, rows: seq<Row>, n: nat)
    requires CutAt(h, lsn, cut) && n <= |h| && Sound(src, h, cut, n) && SnapshotOf(src, TableAt(src, h[..cut]), rows)
    ensures var i := LoadSnapshot(NewInst(src.def, src.filter), lsn, rows).0;
            CaughtUp(src, ApplyAll(i, h[..n]), h, cut, n)
  {
    SoundPrefix(src, h, cut, n, 0);
    LoadedCatchesUp(src, h, lsn, cut, rows);
    CatchUp(src, LoadSnapshot(NewInst(src.def, src.filter), lsn, rows).0, h, cut, n);
  }

  /** Exactly when the handoff works at every later position. */
  lemma HandoffExact(src: Source, h: seq<Change>, lsn: nat, cut: nat, rows: seq<Row>)
    requires CutAt(h, lsn, cut) && PossibleHistory(src, h) && SnapshotOf(src, TableAt(src, h[..cut]), rows)
    ensures var i := LoadSnapshot(NewInst(src.def, src.filter), lsn, rows).0;
            ApplyAll(i, h).log.halted.None? ==>
              (RightFrom(src, i, h, cut) <==> FaithfulBetween(src, h, cut, |h|))
  {
    PossiblePrefix(src, h, cut);
    LoadedCatchesUp(src, h, lsn, cut, rows);
    var i := LoadSnapshot(NewInst(src.def, src.filter), lsn, rows).0;
    if ApplyAll(i, h).log.halted.None? {
      RightExactly(src, i, h, cut);
    }
  }

  // ---- late registration

  /** No change in the stretch concerns the shape's table. */
  predicate Quiet(def: Definition, h: seq<Change>, lo: nat, hi: nat)
    requires lo <= hi <= |h|
  {
    forall j :: lo <= j < hi ==> !OfTable(def, h[j])
  }

  lemma {:induction false} QuietTable(src: Source, h: seq<Change>, lo: nat, hi: nat)
    requires lo <= hi <= |h| && Quiet(src.def, h, lo, hi)
    ensures TableAt(src, h[..hi]) == TableAt(src, h[..lo])
    decreases hi
  {
    if lo < hi {
      QuietTable(src, h, lo, hi - 1);
      assert h[..hi][..hi - 1] == h[..hi - 1];
    }
  }

  /** A stream registered when `d` changes were already dispatched, past its snapshot's cut, is caught up exactly when
      the view did not change in between; no change of its table in between is enough. */
  lemma LateRegistrationExact(src: Source, h: seq<Change>, lsn: nat, cut: nat, rows: seq<Row>, d: nat)
    requires CutAt(h, lsn, cut) && cut <= d <= |h|
    requires PossibleHistory(src, h[..cut]) && SnapshotOf(src, TableAt(src, h[..cut]), rows)
    ensures var i := LoadSnapshot(NewInst(src.def, src.filter), lsn, rows).0;
            && (CaughtUp(src, i, h, cut, d) <==>
                View(src.filter, TableAt(src, h[..cut])) == View(src.filter, TableAt(src, h[..d])))
            && (Quiet(src.def, h, cut, d) ==> CaughtUp(src, i, h, cut, d))
  {
    LoadedCatchesUp(src, h, lsn, cut, rows);
    if Quiet(src.def, h, cut, d) {
      QuietTable(src, h, cut, d);
    }
  }

  /** A stream registered before the dispatched position passes its cut, or past it with no change of its table in
      between, is caught up. */
  lemma RegisteredInTime(src: Source, h: seq<Change>, lsn: nat, cut: nat, rows: seq<Row>, d: nat)
    requires CutAt(h, lsn, cut) && d <= |h| && (cut < d ==> Quiet(src.def, h, cut, d))
    requires PossibleHistory(src, h[..cut]) && SnapshotOf(src, TableAt(src, h[..cut]), rows)
    ensures var i := LoadSnapshot(NewInst(src.def, src.filter), lsn, rows).0;
            CaughtUp(src, i, h, cut, d) && i.snapshotLsn == lsn
  {
    LoadedCatchesUp(src, h, lsn, cut, rows);
    if cut < d {
      QuietTable(src, h, cut, d);
    }
  }

  /** The key a shape looks a change up under. */
  function ChangeKey(src: Source, ch: Change): string {
    match ch.op
    case OpInsert => KeyOf(src.def.pk, ch.newRow)
    case OpDelete => KeyOf(src.def.pk, ch.oldRow)
    case OpUpdate => UpdateKey(src, ch)
    case OpUnknown => ""
  }

  /** The change is about the key, or moves a row to it. */
  predicate Touches(src: Source, t: Table, ch: Change, k: string) {
    && OfTable(src.def, ch)
    && (|| ChangeKey(src, ch) == k
        || (ch.op == OpUpdate && UpdateKey(src, ch) in t && KeyOf(src.def.pk, Some(UpdatedRow(src, t, ch))) == k))
  }

  predicate AgreeAt(a: Table, b: Table, k: string) {
    (k in a <==> k in b) && (k in a ==> a[k] == b[k])
  }

  lemma EffectIsOnChangeKey(src: Source, i: Inst, ch: Change)
    requires Serves(i, src)
    ensures var d := Decide(i, ch); d.Ok? && d.value.Some? ==> d.value.value.key == ChangeKey(src, ch)
  {
  }

  /** A change moves nothing but its own key in the cache. */
  lemma OtherCacheKeysStay(src: Source, i: Inst, ch: Change, k: string)
    requires Serves(i, src) && !(OfTable(src.def, ch) && ChangeKey(src, ch) == k)
    ensures AgreeAt(Apply(i, ch).0.cache, i.cache, k)
  {
    EffectIsOnChangeKey(src, i, ch);
    var d := Decide(i, ch);
    assert OfTable(src.def, ch) ==> AgreeAt(CacheBy(i.cache, d), i.cache, k);
  }

  lemma OtherTableKeysStay(src: Source, t: Table, ch: Change, k: string)
    requires !Touches(src, t, ch, k)
    ensures AgreeAt(Evolve(src, t, ch), t, k)
  {
  }

  /** None of the changes `g` that follow `h` touches the key. */
  predicate LeavesAlone(src: Source, h: seq<Change>, g: seq<Change>, k: string) {
    forall j :: 0 <= j < |g| ==> !Touches(src, TableAt(src, h + g[..j]), g[j], k)
  }

  lemma LeavesAloneInit(src: Source, h: seq<Change>, g: seq<Change>, k: string)
    requires |g| > 0 && LeavesAlone(src, h, g, k)
    ensures LeavesAlone(src, h, g[..|g| - 1], k) && !Touches(src, TableAt(src, h + g[..|g| - 1]), g[|g| - 1], k)
  {
    var init := g[..|g| - 1];
    forall j | 0 <= j < |init| ensures !Touches(src, TableAt(src, h + init[..j]), init[j], k) {
      assert init[..j] == g[..j] && init[j] == g[j];
    }
  }

  lemma {:induction false} CachedKeyStays(src: Source, i: Inst, h: seq<Change>, g: seq<Change>, k: string)
    requires Serves(i, src) && LeavesAlone(src, h, g, k)
    ensures Serves(ApplyAll(i, g), src) && AgreeAt(ApplyAll(i, g).cache, i.cache, k)
    decreases |g|
  {
    if |g| > 0 {
      LeavesAloneInit(src, h, g, k);
      CachedKeyStays(src, i, h, g[..|g| - 1], k);
      ApplyKeeps(ApplyAll(i, g[..|g| - 1]), g[|g| - 1]);
      OtherCacheKeysStay(src, ApplyAll(i, g[..|g| - 1]), g[|g| - 1], k);
    }
  }

  lemma {:induction false} TableKeyStays(src: Source, h: seq<Change>, g: seq<Change>, k: string)
    requires LeavesAlone(src, h, g, k)
    ensures AgreeAt(TableAt(src, h + g), TableAt(src, h), k)
    decreases |g|
  {
    if |g| == 0 {
      assert h + g == h;
    } else {
      var init := g[..|g| - 1];
      LeavesAloneInit(src, h, g, k);
      TableKeyStays(src, h, init, k);
      assert (h + g)[..|h + g| - 1] == h + init;
      OtherTableKeysStay(src, TableAt(src, h + init), g[|g| - 1], k);
    }
  }

  /** What a late stream gets wrong, and for how long: until a change touches the key again, the stream is right about a
      key exactly when the view of that key was the same at its snapshot and at its registration. */
  lemma LateRegistrationPerKey(
      src: Source, h: seq<Change>, lsn: nat, cut: nat, rows: seq<Row>, d: nat, n: nat, k: string)
    requires CutAt(h, lsn, cut) && cut <= d <= n <= |h| && LeavesAlone(src, h[..d], h[d..n], k)
    requires PossibleHistory(src, h[..cut]) && SnapshotOf(src, TableAt(src, h[..cut]), rows)
    ensures var i := LoadSnapshot(NewInst(src.def, src.filter), lsn, rows).0;
            AgreeAt(ApplyAll(i, h[d..n]).cache, View(src.filter, TableAt(src, h[..n])), k) <==>
            AgreeAt(View(src.filter, TableAt(src, h[..cut])), View(src.filter, TableAt(src, h[..d])), k)
  {
    var i := LoadSnapshot(NewInst(src.def, src.filter), lsn, rows).0;
    LoadedCatchesUp(src, h, lsn, cut, rows);
    CachedKeyStays(src, i, h[..d], h[d..n], k);
    TableKeyStays(src, h[..d], h[d..n], k);
    assert h[..d] + h[d..n] == h[..n];
    ViewKeyStays(src.filter, TableAt(src, h[..n]), TableAt(src, h[..d]), k);
  }

  lemma ViewKeyStays(f: Filter, a: Table, b: Table, k: string)
    requires AgreeAt(a, b, k)
    ensures AgreeAt(View(f, a), View(f, b), k)
  {
  }

  /** Such streams exist: the snapshot was taken before the insert, the registration came after its dispatch. */
  lemma LateRegistrationMissesChange()
    ensures var src := Source(SAMPLE, [Pred("org", Eq, Int(7))], {"id", "org"}, map[]);
            var h := [Change("public", "tasks", OpInsert, "", 5, None, Some(map["id" := Int(1), "org" := Int(7)]))];
            var i := LoadSnapshot(NewInst(SAMPLE, src.filter), 3, []).0;
            && PossibleHistory(src, h) && CutAt(h, 3, 0) && SnapshotOf(src, TableAt(src, h[..0]), [])
            && !CaughtUp(src, i, h, 0, 1)
  {
    var src := Source(SAMPLE, [Pred("org", Eq, Int(7))], {"id", "org"}, map[]);
    var row: Row := map["id" := Int(1), "org" := Int(7)];
    var h := [Change("public", "tasks", OpInsert, "", 5, None, Some(row))];
    SampleKey(row);
    assert h[..0] == [] && h[..|h| - 1] == [] && h[..1] == h;
    assert TableAt(src, []) == map[] && TableAt(src, h) == map["1" := row];
    assert MatchPred(src.filter[0], row);
    assert "1" in View(src.filter, TableAt(src, h));
    LateRegistrationExact(src, h, 3, 0, [], 1);
  }
}
