/** What the replication messages mean: the tuples of a row message become the images of a change, the messages of a
    transaction become the rows of change_log, and status updates go out when they are owed. */
module Messages {
  import opened Text
  import opened Rows
  import opened Wal
  import opened Ingest
  import opened ReplicationConsumer
  import V = Views

  // ---- row messages

  /** What a row message tells: the new row; the old image if the server sends one, the new row and its columns sent as
      unchanged; or the old image. */
  datatype Edit = Inserted(row: Row) | Updated(was: Option<Row>, row: Row, toast: set<string>) | Deleted(gone: Row)

  predicate Complete(rel: Relation, e: Edit) {
    match e
    case Inserted(row) => row.Keys == Names(rel.columns)
    case Updated(was, row, _) =>
      row.Keys == Names(rel.columns) && (was.Some? ==> was.value.Keys == Names(rel.columns))
    case Deleted(was) => was.Keys == Names(rel.columns)
  }

  /** The message the server sends. */
  function MessageOf(id: nat, rel: Relation, e: Edit): Input
    requires Complete(rel, e)
  {
    match e
    case Inserted(row) => RowMsg(OpInsert, id, None, Some(EncodeTuple(rel.columns, row, {})))
    case Updated(was, row, toast) =>
      RowMsg(OpUpdate, id, if was.Some? then Some(EncodeTuple(rel.columns, was.value, {})) else None,
             Some(EncodeTuple(rel.columns, row, toast)))
    case Deleted(was) => RowMsg(OpDelete, id, Some(EncodeTuple(rel.columns, was, {})), None)
  }

  /** The images of the change: the new row of an insert or update without its unchanged columns, the old image of an
      update or delete as sent. */
  predicate Tells(ch: Change, e: Edit) {
    match e
    case Inserted(row) => ch.op == OpInsert && ch.oldRow == None && ch.newRow == Some(row)
    case Updated(was, row, toast) => ch.op == OpUpdate && ch.oldRow == was && ch.newRow == Some(row - toast)
    case Deleted(was) => ch.op == OpDelete && ch.oldRow == Some(was) && ch.newRow == None
  }

  lemma TupleDecodes(cols: seq<Column>, row: Row, toast: set<string>)
    requires DistinctNames(cols) && Names(cols) == row.Keys
    ensures DecodeTuple(cols, Some(EncodeTuple(cols, row, toast))) == Ok(Some(row - toast))
  {
    DecodeRebuildsRow(cols, row, row, toast);
  }

  /** Decoding the message of an edit gives a change that tells the edit, under the relation's name and fingerprint. */
  lemma MessageDecodes(rels: map<nat, Relation>, id: nat, e: Edit)
    requires id in rels && DistinctNames(rels[id].columns) && Complete(rels[id], e)
    ensures var r := DecodeChange(rels, MessageOf(id, rels[id], e));
            && r.Ok? && Tells(r.value, e)
            && r.value.schema == rels[id].namespace && r.value.table == rels[id].name
            && r.value.fingerprint == Fingerprint(rels[id]) && r.value.lsn == 0
  {
    var cols := rels[id].columns;
    match e
    case Inserted(row) =>
      TupleDecodes(cols, row, {});
      assert row - {} == row;
    case Updated(was, row, toast) =>
      TupleDecodes(cols, row, toast);
      if was.Some? {
        TupleDecodes(cols, was.value, {});
        assert was.value - {} == was.value;
      }
    case Deleted(was) =>
      TupleDecodes(cols, was, {});
      assert was - {} == was;
  }

  /** Exactly when a row message is refused, and how: its relation is unknown, or a tuple its operation uses is bad. The
      old tuple of an insert and the new one of a delete are not looked at. */
  lemma MessageRefused(rels: map<nat, Relation>, m: Input)
    requires m.RowMsg?
    ensures var r := DecodeChange(rels, m);
            && (r == Err(UnknownRelation) <==> m.id !in rels)
            && (m.id in rels ==>
                  var bad := (t: Option<seq<Datum>>) => t.Some? && BadTupleOf(rels[m.id].columns, t.value);
                  r == Err(BadTuple) <==>
                    (!m.op.OpInsert? && bad(m.oldTuple)) || (!m.op.OpDelete? && bad(m.newTuple)))
            && (r.Ok? ==>
                  (m.op.OpInsert? ==> r.value.oldRow.None?) && (m.op.OpDelete? ==> r.value.newRow.None?))
            && (r.Err? ==> r == Err(UnknownRelation) || r == Err(BadTuple))
  {
    if m.id in rels {
      var cols := rels[m.id].columns;
      if m.oldTuple.Some? {
        DecodeTupleFails(cols, m.oldTuple.value);
      }
      if m.newTuple.Some? {
        DecodeTupleFails(cols, m.newTuple.value);
      }
    }
  }

  /** The table of the shape is the relation the message names. */
  predicate Concerns(src: V.Source, rel: Relation) {
    rel.namespace != "" && src.def.schema == rel.namespace && src.def.table == rel.name
  }

  /** The change makes the table do what the message says: the row appears, is replaced or disappears. */
  lemma MessageEvolves(src: V.Source, t: V.Table, rel: Relation, e: Edit, ch: Change, k: string)
    requires Concerns(src, rel) && DistinctNames(rel.columns) && Names(rel.columns) == src.cols && Complete(rel, e)
    requires ch.schema == rel.namespace && ch.table == rel.name && Tells(ch, e) && V.TableOk(src, t)
    requires match e
             case Inserted(row) => PkKey(src.def.pk, row) == Ok(k) && k !in t
             case Deleted(was) => PkKey(src.def.pk, was) == Ok(k) && k in t
             case Updated(was, row, toast) =>
               && k in t && PkKey(src.def.pk, if was.Some? then was.value else row) == Ok(k)
               && PkKey(src.def.pk, row).Ok?
               && (V.KeyOf(src.def.pk, Some(row)) == k || V.KeyOf(src.def.pk, Some(row)) !in t)
               && (forall c :: c in toast && c in row ==> t[k][c] == row[c])
               && (forall c :: c in src.def.pk ==> c !in toast)
    ensures V.PossibleChange(src, t, ch)
    ensures V.Evolve(src, t, ch) ==
            match e
            case Inserted(row) => t[k := row]
            case Updated(_, row, _) => (t - {k})[V.KeyOf(src.def.pk, Some(row)) := row]
            case Deleted(_) => t - {k}
  {
    if e.Updated? {
      V.DecodedUpdateEvolves(src, t, ch, rel.columns, k, e.row, e.toast);
    }
  }

  // ---- transactions

  /** The changes a run of row messages decodes to. */
  function Decoded(rels: map<nat, Relation>, ms: seq<Input>): seq<Change>
    requires forall i :: 0 <= i < |ms| ==> ms[i].RowMsg? && DecodeChange(rels, ms[i]).Ok?
  {
    seq(|ms|, i requires 0 <= i < |ms| => DecodeChange(rels, ms[i]).value)
  }

  /** The loop with more changes pending. */
  function WithPending(l: Loop, chs: seq<Change>): Loop {
    l.(consumer := l.consumer.(pending := l.consumer.pending + chs))
  }

  lemma DecodedCons(rels: map<nat, Relation>, ms: seq<Input>)
    requires |ms| > 0 && forall i :: 0 <= i < |ms| ==> ms[i].RowMsg? && DecodeChange(rels, ms[i]).Ok?
    ensures Decoded(rels, ms) == [DecodeChange(rels, ms[0]).value] + Decoded(rels, ms[1..])
  {
  }

  lemma {:induction false} RowsArePending(l: Loop, ms: seq<Input>, rest: seq<Input>)
    requires !l.due && forall i :: 0 <= i < |ms| ==> ms[i].RowMsg? && DecodeChange(l.rels, ms[i]).Ok?
    ensures HandleAll(l, ms + rest) == HandleAll(WithPending(l, Decoded(l.rels, ms)), rest)
    decreases |ms|
  {
    if |ms| == 0 {
      assert ms + rest == rest && Decoded(l.rels, ms) == [];
      assert l.consumer.pending + [] == l.consumer.pending;
    } else {
      var ch := DecodeChange(l.rels, ms[0]).value;
      var next := WithPending(l, [ch]);
      assert Handle(l, ms[0]) == (next, None);
      assert (ms + rest)[0] == ms[0] && (ms + rest)[1..] == ms[1..] + rest;
      RowsArePending(next, ms[1..], rest);
      DecodedCons(l.rels, ms);
      ConcatAssoc(l.consumer.pending, [ch], Decoded(l.rels, ms[1..]));
    }
  }

  /** Begin, rows and commit. */
  function TxnMessages(xid: nat, ms: seq<Input>, endLsn: nat, commitLsn: nat): seq<Input> {
    [BeginMsg(xid)] + (ms + [CommitMsg(endLsn, commitLsn, Completed)])
  }

  lemma CommitPersists(l: Loop, endLsn: nat, commitLsn: nat)
    requires !l.due
    ensures HandleAll(l, [CommitMsg(endLsn, commitLsn, Completed)]) ==
            PersistAndAck(l, CommitPosition(endLsn, commitLsn), Completed)
  {
    var x := CommitMsg(endLsn, commitLsn, Completed);
    var (next, err) := Handle(l, x);
    assert [x][0] == x && [x][1..] == [];
    assert HandleAll(next, []) == (next, None);
  }

  /** What each failure of a commit leaves behind. When the transaction fails, the rows and the checkpoint as they were,
      and the ids of the inserts that were tried are used up. When the hook fails, everything stored and nothing
      acknowledged. When the status fails, the same, with the position ready to be acknowledged. */
  lemma FailedCommit(l: Loop, lsn: nat, outcome: Outcome)
    requires !outcome.Completed?
    ensures var (m, err) := PersistAndAck(l, lsn, outcome);
            && err == Some(Unavailable) && m.sent == l.sent && m.rels == l.rels
            && (outcome.PersistFails? ==>
                  && m.consumer == l.consumer && m.store.rows == l.store.rows
                  && m.store.checkpoint == l.store.checkpoint
                  && m.store.nextId - l.store.nextId ==
                     if outcome.after <= |l.consumer.pending| then outcome.after else |l.consumer.pending|)
            && (!outcome.PersistFails? ==>
                  && m.store == Persist(l.store, lsn, l.consumer.xid, l.consumer.pending)
                  && m.store.checkpoint == Some(lsn))
            && (outcome.HookFails? ==> m.consumer == l.consumer)
            && (outcome.StatusFails? ==> m.consumer == l.consumer.(durable := lsn))
  {
  }

  /** A transaction's messages become its rows: from a store that lacks its position, row i of the transaction holds the
      change decoded from message i, in order, and its end position is stored and acknowledged. Rows left over from a
      transaction that was not committed are dropped. */
  lemma TransactionIsLogged(l: Loop, xid: nat, ms: seq<Input>, endLsn: nat, commitLsn: nat)
    requires !l.due && l.consumer.phase.Receiving? && WellNumbered(l.store)
    requires forall i :: 0 <= i < |ms| ==> ms[i].RowMsg? && DecodeChange(l.rels, ms[i]).Ok?
    requires forall k :: 0 <= k < |l.store.rows| ==> l.store.rows[k].entry.lsn != CommitPosition(endLsn, commitLsn)
    ensures var (m, err) := HandleAll(l, TxnMessages(xid, ms, endLsn, commitLsn));
            var lsn := if endLsn != 0 then endLsn else commitLsn;
            && err == None && m.store.checkpoint == Some(lsn) && m.sent == l.sent + [lsn]
            && m.consumer == Consumer(lsn, [], xid, Receiving)
            && RowsAppended(l.store, m.store, lsn, xid, Decoded(l.rels, ms))
  {
    TransactionHandled(l, xid, ms, endLsn, commitLsn);
    FreshTransaction(l.store, CommitPosition(endLsn, commitLsn), xid, Decoded(l.rels, ms));
  }

  /** The changes follow the rows of the store, in order and numbered from 0. */
  predicate RowsAppended(st: Store, t: Store, lsn: nat, xid: nat, chs: seq<Change>) {
    && |t.rows| == |st.rows| + |chs| && st.rows <= t.rows
    && forall i :: 0 <= i < |chs| ==> t.rows[|st.rows| + i].entry == Entry(lsn, xid, i, chs[i].(lsn := lsn))
  }

  lemma TransactionHandled(l: Loop, xid: nat, ms: seq<Input>, endLsn: nat, commitLsn: nat)
    requires !l.due && l.consumer.phase.Receiving?
    requires forall i :: 0 <= i < |ms| ==> ms[i].RowMsg? && DecodeChange(l.rels, ms[i]).Ok?
    ensures var lsn := CommitPosition(endLsn, commitLsn);
            HandleAll(l, TxnMessages(xid, ms, endLsn, commitLsn)) ==
            (l.(store := Persist(l.store, lsn, xid, Decoded(l.rels, ms)), consumer := Consumer(lsn, [], xid, Receiving),
                sent := l.sent + [lsn]), None)
  {
    var begun := l.(consumer := l.consumer.(pending := [], xid := xid));
    var xs := TxnMessages(xid, ms, endLsn, commitLsn);
    var chs := Decoded(l.rels, ms);
    assert xs[0] == BeginMsg(xid) && xs[1..] == ms + [CommitMsg(endLsn, commitLsn, Completed)];
    assert Handle(l, xs[0]) == (begun, None);
    RowsArePending(begun, ms, [CommitMsg(endLsn, commitLsn, Completed)]);
    assert WithPending(begun, chs).consumer.pending == chs;
    CommitPersists(WithPending(begun, chs), endLsn, commitLsn);
  }

  lemma FreshTransaction(st: Store, lsn: nat, xid: nat, chs: seq<Change>)
    requires WellNumbered(st) && forall k :: 0 <= k < |st.rows| ==> st.rows[k].entry.lsn != lsn
    ensures RowsAppended(st, Persist(st, lsn, xid, chs), lsn, xid, chs)
  {
    var es := EntriesOf(lsn, xid, chs);
    var t := Persist(st, lsn, xid, chs);
    InsertFresh(st, lsn, es);
    assert |Logged(t)| == |t.rows| && Logged(t) == Logged(st) + es;
    forall i | 0 <= i < |chs| ensures t.rows[|st.rows| + i].entry == Entry(lsn, xid, i, chs[i].(lsn := lsn)) {
      assert Logged(t)[|st.rows| + i] == es[i];
    }
  }

  lemma RelationKept(l: Loop, id: nat, rel: Relation)
    requires Handle(l, RelationMsg(id, rel)).1.None?
    ensures Handle(l, RelationMsg(id, rel)).0.rels == l.rels[id := rel]
  {
  }

  /** A relation, once accepted, is what every later row of its id is decoded with. */
  lemma RelationIsUsed(l: Loop, id: nat, rel: Relation, xs: seq<Input>, e: Edit)
    requires BarFree(rel) && DistinctNames(rel.columns) && Complete(rel, e)
    requires forall i :: 0 <= i < |xs| && xs[i].RelationMsg? ==> BarFree(xs[i].rel)
    requires Handle(l, RelationMsg(id, rel)).1.None?
    ensures var m := HandleAll(Handle(l, RelationMsg(id, rel)).0, xs).0;
            id in m.rels && m.rels[id] == rel && DecodeChange(m.rels, MessageOf(id, rel, e)).Ok?
            && Tells(DecodeChange(m.rels, MessageOf(id, rel, e)).value, e)
  {
    var next := Handle(l, RelationMsg(id, rel)).0;
    RelationKept(l, id, rel);
    RelationsNeverChange(next, xs, id);
    MessageDecodes(HandleAll(next, xs).0.rels, id, e);
  }

  /** Exactly when a relation message is refused: its id is known with another fingerprint. */
  lemma RelationRefusedExactly(l: Loop, id: nat, rel: Relation)
    ensures var (m, err) := Handle(l, RelationMsg(id, rel));
            && (err == Some(SchemaDrift) <==> id in l.rels && Fingerprint(l.rels[id]) != Fingerprint(rel))
            && (err.Some? ==> err == Some(SchemaDrift) && m.rels == l.rels)
            && m.consumer == l.consumer && m.store == l.store
  {
  }

  // ---- status updates

  /** The deadline has passed, or the server asks for a reply. */
  predicate Asks(x: Input) { x.StandbyDue? || (x.Keepalive? && x.reply) }

  /** After an input a status is owed exactly when the input asks for one, and an owed status is the first thing the
      next iteration does: it acknowledges the position that was durable then. Besides it only a commit sends
      anything. */
  lemma StatusSentExactly(l: Loop, x: Input, y: Input)
    requires Handle(l, x).1.None?
    ensures var m := Handle(l, x).0;
            var (n, err) := Handle(m, y);
            var owed := if Asks(x) then [m.consumer.durable] else [];
            && (m.due <==> Asks(x))
            && (!y.CommitMsg? ==> n.sent == m.sent + owed)
            && (y.CommitMsg? && err.None? ==> n.sent == m.sent + owed + [CommitPosition(y.endLsn, y.commitLsn)])
            && (y.CommitMsg? && err.Some? ==> n.sent == m.sent + owed)
  {
    var m := Handle(l, x).0;
    assert m.sent + [] == m.sent;
  }
}
