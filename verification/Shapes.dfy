/** A live shape: the filter, the row cache and the event log of one subscriber principal. */
module Shapes {
  import opened Rows
  import opened Filters
  import opened Wal
  import opened ShapeLog

  datatype Definition = Definition(name: string, schema: string, table: string, pk: seq<string>)

  /** The value of a shape instance. */
  datatype Inst = Inst(
    def: Definition, filter: Filter, fingerprint: string,
    snapshotLsn: nat, hasSnapshot: bool, cache: map<string, Row>, log: LogState)

  function NewInst(def: Definition, filter: Filter): Inst {
    Inst(def, filter, "", 0, false, map[], EMPTY_LOG)
  }

  /** What a change does to a shape: one event, and the cache entry it sets or removes. */
  datatype Effect = Effect(op: EventOp, key: string, row: Row)

  predicate TableMatch(def: Definition, ch: Change) {
    (if ch.schema == "" then "public" else ch.schema) == def.schema && ch.table == def.table
  }

  /** Already covered by the loaded snapshot. */
  predicate Gated(i: Inst, ch: Change) {
    i.hasSnapshot && ch.lsn != 0 && ch.lsn <= i.snapshotLsn
  }

  predicate Drifted(i: Inst, ch: Change) {
    ch.fingerprint != "" && i.fingerprint != "" && i.fingerprint != ch.fingerprint
  }

  function FirstImage(a: Option<Row>, b: Option<Row>): Option<Row> {
    if a.Some? then a else b
  }

  /** The columns of an image; an absent image has none. */
  function Columns(image: Option<Row>): Row {
    if image.Some? then image.value else map[]
  }

  /** The row after an update: new values win over cached ones, cached values over old ones. */
  function PatchRow(cached: Option<Row>, oldRow: Option<Row>, newRow: Option<Row>): Row {
    Columns(oldRow) + Columns(cached) + Columns(newRow)
  }

  /** The key and cached row of an image; an absent image has the empty key. */
  function Lookup(i: Inst, image: Option<Row>): Result<(string, Option<Row>)> {
    if image.None? then Ok(("", None))
    else match PkKey(i.def.pk, image.value)
      case Err(e) => Err(e)
      case Ok(k) => Ok((k, if k in i.cache then Some(i.cache[k]) else None))
  }

  function DecideInsert(i: Inst, newRow: Option<Row>): Result<Option<Effect>> {
    if !MatchesImage(i.filter, newRow) then Ok(None)
    else match PkKey(i.def.pk, newRow.value)
      case Err(e) => Err(e)
      case Ok(k) => Ok(Some(Effect(EventInsert, k, newRow.value)))
  }

  function DecideDelete(i: Inst, oldRow: Option<Row>): Result<Option<Effect>> {
    match Lookup(i, oldRow)
    case Err(e) => Err(e)
    case Ok((k, cached)) =>
      if cached.Some? then Ok(Some(Effect(EventDelete, k, cached.value)))
      else if MatchesImage(i.filter, oldRow) then Ok(Some(Effect(EventDelete, k, oldRow.value)))
      else Ok(None)
  }

  function DecideUpdate(i: Inst, oldRow: Option<Row>, newRow: Option<Row>): Result<Option<Effect>> {
    match Lookup(i, FirstImage(oldRow, newRow))
    case Err(e) => Err(e)
    case Ok((k, cached)) =>
      var beforeIn := cached.Some? || MatchesImage(i.filter, oldRow);
      var after := PatchRow(cached, oldRow, newRow);
      if Matches(i.filter, after) then
        Ok(Some(Effect(if beforeIn then EventUpdate else EventInsert, k, after)))
      else if beforeIn then
        Ok(Some(Effect(EventDelete, k, if cached.Some? then cached.value else oldRow.value)))
      else Ok(None)
  }

  function Decide(i: Inst, ch: Change): Result<Option<Effect>> {
    match ch.op
    case OpInsert => DecideInsert(i, ch.newRow)
    case OpDelete => DecideDelete(i, ch.oldRow)
    case OpUpdate => DecideUpdate(i, ch.oldRow, ch.newRow)
    case OpUnknown => Err(UnknownOp)
  }

  function CacheAfter(cache: map<string, Row>, e: Effect): map<string, Row> {
    if e.op.EventDelete? then cache - {e.key} else cache[e.key := e.row]
  }

  function Perform(i: Inst, e: Effect): Inst {
    i.(cache := CacheAfter(i.cache, e), log := Append(i.log, e.op, i.def.table, e.row))
  }

  /** The first fingerprint seen is remembered. */
  function NoteFingerprint(i: Inst, fp: string): Inst {
    if fp != "" && i.fingerprint == "" then i.(fingerprint := fp) else i
  }

  /** The new instance and the events appended. */
  function Apply(i: Inst, ch: Change): (Inst, Result<seq<Event>>) {
    if i.log.halted.Some? then (i, Err(Halted))
    else if !TableMatch(i.def, ch) || Gated(i, ch) then (i, Ok([]))
    else if Drifted(i, ch) then (i.(log := Halt(i.log, SchemaDrift)), Err(SchemaDrift))
    else
      var j := NoteFingerprint(i, ch.fingerprint);
      match Decide(i, ch)
      case Err(e) => (j, Err(e))
      case Ok(None) => (j, Ok([]))
      case Ok(Some(e)) => (Perform(j, e), Ok([Event(i.log.next, e.op, i.def.table, e.row)]))
  }

  lemma DecideIgnoresFingerprint(i: Inst, ch: Change)
    ensures Decide(NoteFingerprint(i, ch.fingerprint), ch) == Decide(i, ch)
  {
    var j := NoteFingerprint(i, ch.fingerprint);
    assert Lookup(j, ch.oldRow) == Lookup(i, ch.oldRow);
    assert Lookup(j, FirstImage(ch.oldRow, ch.newRow)) == Lookup(i, FirstImage(ch.oldRow, ch.newRow));
  }

  /** Rows of a snapshot enter one by one; the first row without its key stops the load. */
  function LoadRows(i: Inst, rows: seq<Row>): (Inst, Option<Error>)
    decreases |rows|
  {
    if |rows| == 0 then (i, None)
    else if !Matches(i.filter, rows[0]) then LoadRows(i, rows[1..])
    else match PkKey(i.def.pk, rows[0])
      case Err(e) => (i, Some(e))
      case Ok(k) => LoadRows(Perform(i, Effect(EventInsert, k, rows[0])), rows[1..])
  }

  function LoadSnapshot(i: Inst, lsn: nat, rows: seq<Row>): (Inst, Option<Error>) {
    if i.log.halted.Some? then (i, Some(Halted))
    else LoadRows(i.(snapshotLsn := lsn, hasSnapshot := true), rows)
  }

  /** Every row is stored under its own rendered key. */
  predicate WellKeyed(pk: seq<string>, rows: map<string, Row>) {
    forall k :: k in rows ==> PkKey(pk, rows[k]) == Ok(k)
  }

  /** `rows` lists each cached row once, in some order. */
  predicate Lists(rows: seq<Row>, cache: map<string, Row>, pk: seq<string>) {
    && (forall i :: 0 <= i < |rows| ==>
         PkKey(pk, rows[i]).Ok? && PkKey(pk, rows[i]).value in cache && cache[PkKey(pk, rows[i]).value] == rows[i])
    && (forall i, j :: 0 <= i < j < |rows| ==> PkKey(pk, rows[i]) != PkKey(pk, rows[j]))
    && forall k :: k in cache ==> cache[k] in rows
  }

  /** Adds the columns of `src` that `row` lacks. */
  method FillMissing(row: Row, src: Row) returns (out: Row)
    ensures out == src + row
  {
    out := row;
    var left := src.Keys;
    while left != {}
      invariant left <= src.Keys
      invariant out.Keys == row.Keys + (src.Keys - left)
      invariant forall c :: c in out ==> out[c] == if c in row then row[c] else src[c]
      decreases |left|
    {
      var c :| c in left;
      if c !in out {
        out := out[c := src[c]];
      }
      left := left - {c};
    }
  }

  /** Sets every column of `src`. */
  method Overwrite(row: Row, src: Row) returns (out: Row)
    ensures out == row + src
  {
    out := row;
    var left := src.Keys;
    while left != {}
      invariant left <= src.Keys
      invariant out.Keys == row.Keys + (src.Keys - left)
      invariant forall c :: c in out ==> out[c] == if c in src && c !in left then src[c] else row[c]
      decreases |left|
    {
      var c :| c in left;
      out := out[c := src[c]];
      left := left - {c};
    }
  }

  method ComputePatchRow(cached: Option<Row>, oldRow: Option<Row>, newRow: Option<Row>) returns (out: Row)
    ensures out == PatchRow(cached, oldRow, newRow)
  {
    out := FillMissing(Columns(cached), Columns(oldRow));
    out := Overwrite(out, Columns(newRow));
  }

  class Instance {
    const def: Definition
    const filter: Filter
    const log: Log
    var fingerprint: string
    var snapshotLsn: nat
    var hasSnapshot: bool
    var cache: map<string, Row>

    function State(): Inst
      reads this, log
    {
      Inst(def, filter, fingerprint, snapshotLsn, hasSnapshot, cache, log.State())
    }

    constructor (def: Definition, filter: Filter)
      ensures State() == NewInst(def, filter) && fresh(log)
    {
      this.def, this.filter := def, filter;
      this.log := new Log();
      fingerprint, snapshotLsn, hasSnapshot, cache := "", 0, false, map[];
    }

    method ApplyChange(ch: Change) returns (r: Result<seq<Event>>)
      modifies this, log
      ensures (State(), r) == Apply(old(State()), ch)
    {
      if log.halted.Some? {
        return Err(Halted);
      }
      if !TableMatch(def, ch) {
        return Ok([]);
      }
      if hasSnapshot && ch.lsn != 0 && ch.lsn <= snapshotLsn {
        return Ok([]);
      }
      var same := CheckFingerprint(ch.fingerprint);
      if !same {
        log.HaltWith(SchemaDrift);
        return Err(SchemaDrift);
      }
      r := ApplyOp(ch);
      DecideIgnoresFingerprint(old(State()), ch);
    }

    method ApplyOp(ch: Change) returns (r: Result<seq<Event>>)
      requires log.halted.None?
      modifies this`cache, log
      ensures Decided(old(State()), Decide(old(State()), ch), r)
    {
      match ch.op {
        case OpInsert => r := ApplyInsert(ch.newRow);
        case OpDelete => r := ApplyDelete(ch.oldRow);
        case OpUpdate => r := ApplyUpdate(ch.oldRow, ch.newRow);
        case OpUnknown => r := Err(UnknownOp);
      }
    }

    method CheckFingerprint(fp: string) returns (same: bool)
      modifies this`fingerprint
      ensures same <==> !(fp != "" && old(fingerprint) != "" && old(fingerprint) != fp)
      ensures State() == if same then NoteFingerprint(old(State()), fp) else old(State())
    {
      if fp == "" {
        return true;
      }
      if fingerprint == "" {
        fingerprint := fp;
        return true;
      }
      return fingerprint == fp;
    }

    /** Updates the cache, then appends the event. */
    method Emit(e: Effect) returns (r: Result<seq<Event>>)
      requires log.halted.None?
      modifies this`cache, log
      ensures State() == Perform(old(State()), e)
      ensures r == Ok([Event(old(log.next), e.op, def.table, e.row)])
    {
      if e.op.EventDelete? {
        cache := cache - {e.key};
      } else {
        cache := cache[e.key := e.row];
      }
      var ev := log.AppendEvent(e.op, def.table, e.row);
      return Ok([ev.value]);
    }

    ghost predicate Decided(was: Inst, d: Result<Option<Effect>>, r: Result<seq<Event>>)
      reads this, log
    {
      match d
      case Err(e) => State() == was && r == Err(e)
      case Ok(None) => State() == was && r == Ok([])
      case Ok(Some(e)) =>
        State() == Perform(was, e) && r == Ok([Event(was.log.next, e.op, was.def.table, e.row)])
    }

    method ApplyInsert(newRow: Option<Row>) returns (r: Result<seq<Event>>)
      requires log.halted.None?
      modifies this`cache, log
      ensures Decided(old(State()), DecideInsert(old(State()), newRow), r)
    {
      if !MatchesImage(filter, newRow) {
        return Ok([]);
      }
      var key := ComputePkKey(def.pk, newRow.value);
      if key.Err? {
        return Err(key.error);
      }
      r := Emit(Effect(EventInsert, key.value, newRow.value));
    }

    method LookupRow(image: Option<Row>) returns (r: Result<(string, Option<Row>)>)
      ensures r == Lookup(State(), image)
    {
      if image.None? {
        return Ok(("", None));
      }
      var key := ComputePkKey(def.pk, image.value);
      if key.Err? {
        return Err(key.error);
      }
      if key.value !in cache {
        return Ok((key.value, None));
      }
      return Ok((key.value, Some(cache[key.value])));
    }

    method ApplyDelete(oldRow: Option<Row>) returns (r: Result<seq<Event>>)
      requires log.halted.None?
      modifies this`cache, log
      ensures Decided(old(State()), DecideDelete(old(State()), oldRow), r)
    {
      var found := LookupRow(oldRow);
      if found.Err? {
        return Err(found.error);
      }
      var (key, cached) := found.value;
      if cached.None? {
        if oldRow.None? {
          return Ok([]);
        }
        if !Matches(filter, oldRow.value) {
          return Ok([]);
        }
      }
      r := Emit(Effect(EventDelete, key, if cached.Some? then cached.value else oldRow.value));
    }

    method ApplyUpdate(oldRow: Option<Row>, newRow: Option<Row>) returns (r: Result<seq<Event>>)
      requires log.halted.None?
      modifies this`cache, log
      ensures Decided(old(State()), DecideUpdate(old(State()), oldRow, newRow), r)
    {
      var found := LookupRow(FirstImage(oldRow, newRow));
      if found.Err? {
        return Err(found.error);
      }
      var (key, cached) := found.value;
      var beforeIn, beforeRow := cached.Some?, cached;
      if !beforeIn && oldRow.Some? {
        beforeIn := Matches(filter, oldRow.value);
        beforeRow := oldRow;
      }
      var afterRow := ComputePatchRow(cached, oldRow, newRow);
      var afterIn := Matches(filter, afterRow);
      if beforeIn && afterIn {
        r := Emit(Effect(EventUpdate, key, afterRow));
      } else if beforeIn && !afterIn {
        r := Emit(Effect(EventDelete, key, beforeRow.value));
      } else if !beforeIn && afterIn {
        r := Emit(Effect(EventInsert, key, afterRow));
      } else {
        r := Ok([]);
      }
    }

    method Load(lsn: nat, rows: seq<Row>) returns (err: Option<Error>)
      modifies this, log
      ensures (State(), err) == LoadSnapshot(old(State()), lsn, rows)
    {
      if log.halted.Some? {
        return Some(Halted);
      }
      snapshotLsn, hasSnapshot := lsn, true;
      ghost var start := State();
      assert rows[0..] == rows;
      for i := 0 to |rows|
        invariant log.halted.None?
        invariant LoadRows(start, rows) == LoadRows(State(), rows[i..])
      {
        assert rows[i..][0] == rows[i] && rows[i..][1..] == rows[i + 1..];
        if !Matches(filter, rows[i]) {
          continue;
        }
        var key := ComputePkKey(def.pk, rows[i]);
        if key.Err? {
          return Some(key.error);
        }
        var _ := Emit(Effect(EventInsert, key.value, rows[i]));
      }
      return None;
    }

    method Materialized() returns (rows: seq<Row>)
      ensures |rows| == |cache| && forall k :: k in cache ==> cache[k] in rows
      ensures forall i :: 0 <= i < |rows| ==> exists k :: k in cache && cache[k] == rows[i]
      ensures WellKeyed(def.pk, cache) ==> Lists(rows, cache, def.pk)
    {
      rows := [];
      var left := cache.Keys;
      ghost var keys: seq<string> := [];
      while left != {}
        invariant left <= cache.Keys
        invariant |rows| == |keys| && |rows| + |left| == |cache.Keys|
        invariant forall i :: 0 <= i < |rows| ==> keys[i] in cache && keys[i] !in left && rows[i] == cache[keys[i]]
        invariant forall i, j :: 0 <= i < j < |keys| ==> keys[i] != keys[j]
        invariant forall k :: k in cache && k !in left ==> cache[k] in rows
        decreases |left|
      {
        var k :| k in left;
        rows, keys := rows + [cache[k]], keys + [k];
        left := left - {k};
      }
    }
  }
}
