/** Durable ingest: transactions are batched, persisted together with the checkpoint, and only then acknowledged.
    The protocol is a state machine over the source history, the durable store, the volatile consumer and the
    server's stream position; a crash can happen between any two steps. */
module Ingest {
  import opened Rows
  import opened Wal

  // ---- the durable store

  /** A row of change_log without its id. */
  datatype Entry = Entry(lsn: nat, xid: nat, seqNo: nat, change: Change)

  datatype LogRow = LogRow(id: nat, entry: Entry)

  /** change_log in id order, the next id of its sequence, and the checkpoint row. */
  datatype Store = Store(rows: seq<LogRow>, nextId: nat, checkpoint: Option<nat>)

  const EMPTY_STORE := Store([], 1, None)

  function Logged(st: Store): seq<Entry> {
    seq(|st.rows|, i requires 0 <= i < |st.rows| => st.rows[i].entry)
  }

  predicate Has(es: seq<Entry>, lsn: nat, seqNo: nat) {
    exists i :: 0 <= i < |es| && es[i].lsn == lsn && es[i].seqNo == seqNo
  }

  /** INSERT ... ON CONFLICT (lsn, seq) DO NOTHING; a conflict still consumes an id. */
  function InsertEntry(st: Store, e: Entry): Store {
    if Has(Logged(st), e.lsn, e.seqNo) then st.(nextId := st.nextId + 1)
    else st.(rows := st.rows + [LogRow(st.nextId, e)], nextId := st.nextId + 1)
  }

  function InsertEntries(st: Store, es: seq<Entry>): Store {
    if |es| == 0 then st else InsertEntry(InsertEntries(st, es[..|es| - 1]), es[|es| - 1])
  }

  /** The rows of one transaction, numbered from 0, each stamped with the transaction's position. */
  function EntriesOf(lsn: nat, xid: nat, changes: seq<Change>): seq<Entry> {
    seq(|changes|, i requires 0 <= i < |changes| => Entry(lsn, xid, i, changes[i].(lsn := lsn)))
  }

  /** One atomic transaction: the changes and the checkpoint. */
  function Persist(st: Store, lsn: nat, xid: nat, changes: seq<Change>): Store {
    InsertEntries(st, EntriesOf(lsn, xid, changes)).(checkpoint := Some(lsn))
  }

  /** Ids are positive, strictly increasing in log order, and below the next id. */
  predicate WellNumbered(st: Store) {
    && st.nextId > 0
    && (forall i :: 0 <= i < |st.rows| ==> 0 < st.rows[i].id < st.nextId)
    && forall i, j :: 0 <= i < j < |st.rows| ==> st.rows[i].id < st.rows[j].id
  }

  lemma {:induction false} InsertFresh(st: Store, lsn: nat, es: seq<Entry>)
    requires WellNumbered(st)
    requires forall i :: 0 <= i < |es| ==> es[i].lsn == lsn && es[i].seqNo == i
    requires forall e :: e in Logged(st) ==> e.lsn != lsn
    ensures var t := InsertEntries(st, es);
            Logged(t) == Logged(st) + es && WellNumbered(t) && t.checkpoint == st.checkpoint
            && st.rows <= t.rows && t.nextId == st.nextId + |es|
  {
    if |es| > 0 {
      var init, last := es[..|es| - 1], es[|es| - 1];
      InsertFresh(st, lsn, init);
      var t := InsertEntries(st, init);
      forall i | 0 <= i < |Logged(t)| ensures !(Logged(t)[i].lsn == lsn && Logged(t)[i].seqNo == last.seqNo) {
        if i < |Logged(st)| {
          assert Logged(st)[i] in Logged(st);
        } else {
          assert Logged(t)[i] == init[i - |Logged(st)|];
        }
      }
      assert Logged(InsertEntry(t, last)) == Logged(t) + [last];
      assert init + [last] == es;
      assert Logged(st) + init + [last] == Logged(st) + es;
    }
  }

  lemma {:induction false} InsertAgain(st: Store, es: seq<Entry>)
    requires WellNumbered(st)
    requires forall i :: 0 <= i < |es| ==> Has(Logged(st), es[i].lsn, es[i].seqNo)
    ensures var t := InsertEntries(st, es);
            t.rows == st.rows && WellNumbered(t) && t.checkpoint == st.checkpoint && t.nextId == st.nextId + |es|
  {
    if |es| > 0 {
      InsertAgain(st, es[..|es| - 1]);
    }
  }

  // ---- source transactions

  datatype Txn = Txn(xid: nat, endLsn: nat, commitLsn: nat, changes: seq<Change>)

  /** The position of a commit: the transaction end, or the commit record when the end is unknown. */
  function CommitPosition(endLsn: nat, commitLsn: nat): nat {
    if endLsn == 0 then commitLsn else endLsn
  }

  function Lsn(tx: Txn): nat { CommitPosition(tx.endLsn, tx.commitLsn) }

  function TxnEntries(tx: Txn): seq<Entry> { EntriesOf(Lsn(tx), tx.xid, tx.changes) }

  /** The flattening of a commit history: every change of every transaction, once and in order. */
  function Entries(h: seq<Txn>): seq<Entry> {
    if |h| == 0 then [] else Entries(h[..|h| - 1]) + TxnEntries(h[|h| - 1])
  }

  // ---- what change_log holds, read off the transactions

  /** The end of the transaction, or its commit record when the end is unknown (0). */
  predicate EndsAt(tx: Txn, lsn: nat) {
    (tx.endLsn != 0 ==> lsn == tx.endLsn) && (tx.endLsn == 0 ==> lsn == tx.commitLsn)
  }

  /** The row holds change `i` of the transaction, stamped with the transaction's position, its id and its number. */
  predicate Records(e: Entry, tx: Txn, i: nat)
    requires i < |tx.changes|
  {
    && EndsAt(tx, e.lsn) && e.xid == tx.xid && e.seqNo == i
    && e.change == tx.changes[i].(lsn := e.lsn)
  }

  /** How many changes a history has. */
  function Total(h: seq<Txn>): nat {
    if |h| == 0 then 0 else Total(h[..|h| - 1]) + |h[|h| - 1].changes|
  }

  /** Change `i` of transaction `j` stands after all changes of earlier transactions and the first `i` of its own. */
  predicate StoredAt(es: seq<Entry>, h: seq<Txn>, j: nat, i: nat)
    requires j < |h| && i < |h[j].changes|
  {
    var k := Total(h[..j]) + i;
    k < |es| && Records(es[k], h[j], i)
  }

  /** The entries hold the changes of the first `p` transactions, in place, and nothing else. */
  ghost predicate Holds(es: seq<Entry>, h: seq<Txn>, p: nat) {
    && p <= |h| && |es| == Total(h[..p])
    && forall j: nat, i: nat :: j < p && i < |h[j].changes| ==> StoredAt(es, h, j, i)
  }

  lemma RecordsOne(tx: Txn, i: nat)
    requires i < |tx.changes|
    ensures |TxnEntries(tx)| == |tx.changes| && Records(TxnEntries(tx)[i], tx, i)
  {
  }

  lemma {:induction false} EntriesHold(h: seq<Txn>, p: nat)
    requires p <= |h|
    ensures Holds(Entries(h[..p]), h, p)
    decreases p
  {
    if p > 0 {
      assert h[..p][..p - 1] == h[..p - 1];
      EntriesHold(h, p - 1);
      forall j: nat, i: nat | j < p && i < |h[j].changes| ensures StoredAt(Entries(h[..p]), h, j, i) {
        if j == p - 1 {
          RecordsOne(h[j], i);
        } else {
          assert StoredAt(Entries(h[..p - 1]), h, j, i);
        }
      }
    }
  }

  predicate Sorted(h: seq<Txn>) {
    && (forall i :: 0 <= i < |h| ==> Lsn(h[i]) > 0)
    && forall i, j :: 0 <= i < j < |h| ==> Lsn(h[i]) < Lsn(h[j])
  }

  /** How many leading transactions lie at or before a position. */
  function Covered(h: seq<Txn>, lsn: nat): (n: nat)
    ensures n <= |h|
    ensures Sorted(h) ==> forall j :: 0 <= j < |h| ==> (Lsn(h[j]) <= lsn <==> j < n)
  {
    if |h| == 0 then 0
    else if Lsn(h[|h| - 1]) <= lsn then |h|
    else
      assert Sorted(h) ==> Sorted(h[..|h| - 1]);
      assert forall j :: 0 <= j < |h| - 1 ==> h[j] == h[..|h| - 1][j];
      Covered(h[..|h| - 1], lsn)
  }

  lemma {:induction false} EntryComesFrom(h: seq<Txn>, p: nat, e: Entry)
    requires p <= |h| && e in Entries(h[..p])
    ensures exists j :: 0 <= j < p && e.lsn == Lsn(h[j])
    decreases p
  {
    assert h[..p][..p - 1] == h[..p - 1];
    if e in Entries(h[..p - 1]) {
      EntryComesFrom(h, p - 1, e);
    } else {
      assert e.lsn == Lsn(h[p - 1]);
    }
  }

  lemma {:induction false} EntriesContain(h: seq<Txn>, p: nat, j: nat)
    requires j < p <= |h|
    ensures forall e :: e in TxnEntries(h[j]) ==> e in Entries(h[..p])
    decreases p
  {
    assert h[..p][..p - 1] == h[..p - 1];
    if j < p - 1 {
      EntriesContain(h, p - 1, j);
    }
  }

  // ---- the consumer

  datatype Message = Begin(xid: nat) | RowChange(ch: Change) | Commit(endLsn: nat, commitLsn: nat)

  /** Receiving messages; about to persist; persisted but not acknowledged. */
  datatype Phase = Receiving | Committing(lsn: nat) | Persisted(lsn: nat)

  datatype Consumer = Consumer(durable: nat, pending: seq<Change>, xid: nat, phase: Phase)

  function Receive(c: Consumer, m: Message): Consumer {
    match m
    case Begin(xid) => c.(pending := [], xid := xid)
    case RowChange(ch) => c.(pending := c.pending + [ch])
    case Commit(endLsn, commitLsn) => c.(phase := Committing(CommitPosition(endLsn, commitLsn)))
  }

  /** A restart resumes at the checkpoint, or at the slot's own position when there is none. */
  function StartLsn(st: Store): nat {
    if st.checkpoint.Some? then st.checkpoint.value else 0
  }

  function MessageAt(tx: Txn, m: nat): Message {
    if m == 0 then Begin(tx.xid)
    else if m <= |tx.changes| then RowChange(tx.changes[m - 1])
    else Commit(tx.endLsn, tx.commitLsn)
  }

  // ---- the protocol

  /** `wal` is the current write position of the source; `pos` and `msg` locate the next message the server
      streams; `sent` lists every position ever sent in a status update. */
  datatype State = State(
    history: seq<Txn>, wal: nat, store: Store, consumer: Option<Consumer>,
    pos: nat, msg: nat, sent: seq<nat>)

  const INIT := State([], 0, EMPTY_STORE, None, 0, 0, [])

  datatype Action =
    | SourceCommit(tx: Txn, wal: nat)
    | Start(from: nat)
    | Deliver
    | PersistTxn
    | Ack
    | Status
    | Crash(burnt: nat)

  /** An action that is not enabled leaves the state alone. A strict server streams exactly the transactions past
      the requested position; otherwise it may also stream any run of transactions starting before it. */
  function Step(strict: bool, s: State, a: Action): State {
    match a
    case SourceCommit(tx, wal) =>
      if s.wal < Lsn(tx) <= wal then s.(history := s.history + [tx], wal := wal) else s
    case Start(from) =>
      var past := Covered(s.history, StartLsn(s.store));
      if s.consumer.None? && from <= past && (strict ==> from == past)
      then s.(consumer := Some(Consumer(StartLsn(s.store), [], 0, Receiving)), pos := from, msg := 0) else s
    case Deliver =>
      if s.consumer.Some? && s.consumer.value.phase.Receiving? && s.pos < |s.history|
      then s.(consumer := Some(Receive(s.consumer.value, MessageAt(s.history[s.pos], s.msg))), msg := s.msg + 1) else s
    case PersistTxn =>
      if s.consumer.Some? && s.consumer.value.phase.Committing? then
        var c := s.consumer.value;
        s.(store := Persist(s.store, c.phase.lsn, c.xid, c.pending),
           consumer := Some(c.(phase := Persisted(c.phase.lsn))))
      else s
    case Ack =>
      if s.consumer.Some? && s.consumer.value.phase.Persisted? then
        var c := s.consumer.value;
        s.(consumer := Some(Consumer(c.phase.lsn, [], c.xid, Receiving)), sent := s.sent + [c.phase.lsn],
           pos := s.pos + 1, msg := 0)
      else s
    case Status =>
      if s.consumer.Some? && s.consumer.value.phase.Receiving?
      then s.(sent := s.sent + [s.consumer.value.durable]) else s
    case Crash(burnt) =>
      s.(consumer := None, store := s.store.(nextId := s.store.nextId + burnt))
  }

  function Run(strict: bool, actions: seq<Action>): State {
    if |actions| == 0 then INIT
    else Step(strict, Run(strict, actions[..|actions| - 1]), actions[|actions| - 1])
  }

  /** The position of the last of the first p transactions. */
  function High(h: seq<Txn>, p: nat): nat
    requires p <= |h|
  {
    if p == 0 then 0 else Lsn(h[p - 1])
  }

  /** The log is the flattening of the first p transactions. */
  predicate LogIs(st: Store, h: seq<Txn>, p: nat) {
    p <= |h| && Logged(st) == Entries(h[..p]) && WellNumbered(st)
  }

  predicate ConsumerInv(strict: bool, s: State, c: Consumer, p: nat)
    requires p <= |s.history|
  {
    && c.durable <= High(s.history, p)
    && s.pos <= p
    && match c.phase
       case Receiving =>
         && (strict ==> s.pos == p)
         && (s.msg > 0 ==>
              && s.pos < |s.history|
              && s.msg <= |s.history[s.pos].changes| + 1
              && c.pending == s.history[s.pos].changes[..s.msg - 1]
              && c.xid == s.history[s.pos].xid)
       case Committing(lsn) =>
         && (strict ==> s.pos == p)
         && s.pos < |s.history|
         && lsn == Lsn(s.history[s.pos])
         && c.pending == s.history[s.pos].changes
         && c.xid == s.history[s.pos].xid
       case Persisted(lsn) =>
         && s.pos < p && (strict ==> s.pos + 1 == p)
         && lsn == Lsn(s.history[s.pos])
  }

  predicate Inv(strict: bool, s: State, p: nat) {
    && Sorted(s.history)
    && (forall i :: 0 <= i < |s.history| ==> Lsn(s.history[i]) <= s.wal)
    && LogIs(s.store, s.history, p)
    && StartLsn(s.store) <= High(s.history, p)
    && (strict ==> StartLsn(s.store) == High(s.history, p))
    && (forall i :: 0 <= i < |s.sent| ==> s.sent[i] <= High(s.history, p))
    && (s.consumer.Some? ==> ConsumerInv(strict, s, s.consumer.value, p))
  }

  lemma HighMonotone(h: seq<Txn>, p: nat, q: nat)
    requires Sorted(h) && p <= q <= |h|
    ensures High(h, p) <= High(h, q)
  {
  }

  lemma PersistExtends(st: Store, h: seq<Txn>, p: nat, j: nat)
    requires Sorted(h) && LogIs(st, h, p) && j <= p && j < |h|
    ensures var t := Persist(st, Lsn(h[j]), h[j].xid, h[j].changes);
            && LogIs(t, h, if j == p then p + 1 else p) && st.rows <= t.rows
            && t.nextId == st.nextId + |h[j].changes|
  {
    var es := TxnEntries(h[j]);
    if j == p {
      forall e | e in Logged(st) ensures e.lsn != Lsn(h[p]) {
        EntryComesFrom(h, p, e);
      }
      InsertFresh(st, Lsn(h[p]), es);
      assert h[..p + 1][..p] == h[..p];
      assert Logged(Persist(st, Lsn(h[j]), h[j].xid, h[j].changes)) == Logged(InsertEntries(st, es));
    } else {
      EntriesContain(h, p, j);
      forall i | 0 <= i < |es| ensures Has(Logged(st), es[i].lsn, es[i].seqNo) {
        assert es[i] in es;
      }
      InsertAgain(st, es);
      assert Logged(Persist(st, Lsn(h[j]), h[j].xid, h[j].changes)) == Logged(st);
    }
  }

  lemma StartKeepsInv(strict: bool, s: State, from: nat, p: nat)
    requires Inv(strict, s, p)
    ensures Inv(strict, Step(strict, s, Start(from)), p)
  {
    var past := Covered(s.history, StartLsn(s.store));
    var h := s.history;
    assert p < |h| ==> !(Lsn(h[p]) <= StartLsn(s.store));
    assert strict && p > 0 ==> Lsn(h[p - 1]) <= StartLsn(s.store);
    assert past <= p && (strict ==> past == p);
  }

  lemma PersistKeepsInv(strict: bool, s: State, p: nat) returns (q: nat)
    requires Inv(strict, s, p)
    ensures Inv(strict, Step(strict, s, PersistTxn), q) && p <= q
  {
    q := p;
    var t := Step(strict, s, PersistTxn);
    if s.consumer.Some? && s.consumer.value.phase.Committing? {
      PersistExtends(s.store, s.history, p, s.pos);
      q := if s.pos == p then p + 1 else p;
      HighMonotone(s.history, p, q);
      HighMonotone(s.history, s.pos + 1, q);
      assert StartLsn(t.store) == Lsn(s.history[s.pos]) == High(s.history, s.pos + 1);
    }
  }

  lemma AckKeepsInv(strict: bool, s: State, p: nat)
    requires Inv(strict, s, p)
    ensures Inv(strict, Step(strict, s, Ack), p)
  {
    if s.consumer.Some? && s.consumer.value.phase.Persisted? {
      HighMonotone(s.history, s.pos + 1, p);
    }
  }

  /** One step keeps the invariant, and p never shrinks. */
  lemma StepKeepsInv(strict: bool, s: State, a: Action, p: nat) returns (q: nat)
    requires Inv(strict, s, p)
    ensures Inv(strict, Step(strict, s, a), q) && p <= q
  {
    q := p;
    match a
    case SourceCommit(tx, wal) => CommitKeepsInv(strict, s, tx, wal, p);
    case Start(from) => StartKeepsInv(strict, s, from, p);
    case Deliver => DeliverKeepsInv(strict, s, p);
    case PersistTxn => q := PersistKeepsInv(strict, s, p);
    case Ack => AckKeepsInv(strict, s, p);
    case Status =>
    case Crash(burnt) => assert Logged(Step(strict, s, a).store) == Logged(s.store);
  }

  lemma CommitKeepsInv(strict: bool, s: State, tx: Txn, wal: nat, p: nat)
    requires Inv(strict, s, p)
    ensures Inv(strict, Step(strict, s, SourceCommit(tx, wal)), p)
  {
    if s.wal < Lsn(tx) <= wal {
      var h := s.history + [tx];
      SortedGrows(s.history, tx, s.wal);
      assert h[..p] == s.history[..p] && High(h, p) == High(s.history, p);
      assert forall i :: 0 <= i < |s.history| ==> h[i] == s.history[i];
    }
  }

  lemma SortedGrows(h: seq<Txn>, tx: Txn, wal: nat)
    requires Sorted(h) && wal < Lsn(tx) && forall i :: 0 <= i < |h| ==> Lsn(h[i]) <= wal
    ensures Sorted(h + [tx])
  {
  }

  lemma DeliverKeepsInv(strict: bool, s: State, p: nat)
    requires Inv(strict, s, p)
    ensures Inv(strict, Step(strict, s, Deliver), p)
  {
    var t := Step(strict, s, Deliver);
    if t != s {
      var changes := s.history[s.pos].changes;
      if 0 < s.msg <= |changes| {
        assert changes[..s.msg] == changes[..s.msg - 1] + [changes[s.msg - 1]];
      } else if s.msg > 0 {
        assert changes[..s.msg - 1] == changes;
      }
    }
  }

  lemma {:induction false} RunKeepsInv(strict: bool, actions: seq<Action>) returns (p: nat)
    ensures Inv(strict, Run(strict, actions), p)
  {
    if |actions| == 0 {
      p := 0;
    } else {
      p := RunKeepsInv(strict, actions[..|actions| - 1]);
      p := StepKeepsInv(strict, Run(strict, actions[..|actions| - 1]), actions[|actions| - 1], p);
    }
  }

  /** Change `i` of the transaction is in change_log. */
  ghost predicate Recorded(st: Store, tx: Txn, i: nat)
    requires i < |tx.changes|
  {
    exists k :: 0 <= k < |st.rows| && Records(st.rows[k].entry, tx, i)
  }

  /** Every change of the transaction is in change_log. */
  ghost predicate InLog(st: Store, tx: Txn) {
    forall i :: 0 <= i < |tx.changes| ==> Recorded(st, tx, i)
  }

  lemma CoveredInLog(strict: bool, s: State, p: nat, j: nat)
    requires Inv(strict, s, p) && j < |s.history| && Lsn(s.history[j]) <= High(s.history, p)
    ensures InLog(s.store, s.history[j])
  {
    EntriesHold(s.history, p);
    forall i | 0 <= i < |s.history[j].changes| ensures Recorded(s.store, s.history[j], i) {
      var k := Total(s.history[..j]) + i;
      assert StoredAt(Entries(s.history[..p]), s.history, j, i);
      assert Logged(s.store)[k] == s.store.rows[k].entry;
    }
  }

  /** Persist before ack: whatever the server redelivers and wherever the consumer crashes, everything at or before
      a position that was ever acknowledged, and everything at or before the checkpoint, is in change_log. */
  lemma AcknowledgedIsDurable(strict: bool, actions: seq<Action>)
    ensures var s := Run(strict, actions);
            forall a, j :: a in s.sent + [StartLsn(s.store)] && 0 <= j < |s.history| && Lsn(s.history[j]) <= a ==>
              InLog(s.store, s.history[j])
  {
    var s := Run(strict, actions);
    var p := RunKeepsInv(strict, actions);
    forall a, j | a in s.sent + [StartLsn(s.store)] && 0 <= j < |s.history| && Lsn(s.history[j]) <= a
      ensures InLog(s.store, s.history[j])
    {
      CoveredInLog(strict, s, p, j);
    }
  }

  /** With a server that streams only past the requested position, every acknowledged position is 0 or at most the
      stored checkpoint, in every run with crashes at any step. */
  lemma PersistBeforeAck(actions: seq<Action>)
    ensures var s := Run(true, actions);
            forall a :: a in s.sent ==> a == 0 || (s.store.checkpoint.Some? && a <= s.store.checkpoint.value)
  {
    var p := RunKeepsInv(true, actions);
  }

  lemma Then(actions: seq<Action>, a: Action) returns (longer: seq<Action>)
    ensures Run(false, longer) == Step(false, Run(false, actions), a)
  {
    longer := actions + [a];
    assert longer[..|longer| - 1] == actions;
  }

  /** Consumes the transaction at the stream position: receive it, persist it, acknowledge it. */
  lemma Consume(run: seq<Action>, h: seq<Txn>, wal: nat, st: Store, c: Consumer, pos: nat, sent: seq<nat>)
    returns (longer: seq<Action>, persisted: State)
    requires Run(false, run) == State(h, wal, st, Some(c), pos, 0, sent)
    requires c.phase.Receiving? && pos < |h| && h[pos].changes == []
    ensures persisted.store == st.(checkpoint := Some(Lsn(h[pos]))) && persisted.sent == sent
    ensures exists half :: Run(false, half) == persisted
    ensures Run(false, longer) ==
            State(h, wal, st.(checkpoint := Some(Lsn(h[pos]))),
                  Some(Consumer(Lsn(h[pos]), [], h[pos].xid, Receiving)), pos + 1, 0, sent + [Lsn(h[pos])])
  {
    longer := Then(run, Deliver);
    longer := Then(longer, Deliver);
    longer := Then(longer, PersistTxn);
    persisted := Run(false, longer);
    longer := Then(longer, Ack);
  }

  /** A crash and a restart for which the server streams from the beginning. */
  lemma Restart(run: seq<Action>, s: State) returns (longer: seq<Action>)
    requires Run(false, run) == s
    ensures Run(false, longer) ==
            s.(consumer := Some(Consumer(StartLsn(s.store), [], 0, Receiving)), pos := 0, msg := 0)
  {
    longer := Then(run, Crash(0));
    longer := Then(longer, Start(0));
  }

  predicate CheckpointBehindAck(s: State) {
    s.store.checkpoint.Some? && exists i :: 0 <= i < |s.sent| && s.sent[i] > s.store.checkpoint.value
  }

  /** Under redelivery that comparison fails: replaying an old transaction moves the checkpoint back below a
      position already acknowledged. */
  lemma RedeliveryMovesCheckpointBack()
    ensures exists run :: CheckpointBehindAck(Run(false, run))
  {
    var h := [Txn(1, 5, 4, []), Txn(2, 9, 8, [])];
    var run := Then([], SourceCommit(h[0], 5));
    run := Then(run, SourceCommit(h[1], 9));
    run := Then(run, Start(0));
    assert Run(false, run) == State(h, 9, EMPTY_STORE, Some(Consumer(0, [], 0, Receiving)), 0, 0, []);
    var persisted: State;
    run, persisted := Consume(run, h, 9, EMPTY_STORE, Consumer(0, [], 0, Receiving), 0, []);
    run, persisted := Consume(run, h, 9, EMPTY_STORE.(checkpoint := Some(5)), Consumer(5, [], 1, Receiving), 1, [5]);
    run := Restart(run, Run(false, run));
    run, persisted := Consume(run, h, 9, EMPTY_STORE.(checkpoint := Some(9)), Consumer(9, [], 0, Receiving), 0, [5, 9]);
    assert persisted.sent[1] == 9;
    assert CheckpointBehindAck(persisted);
  }

  // ---- exactly when the checkpoint is behind

  function Newest(sent: seq<nat>): (n: nat)
    ensures forall i :: 0 <= i < |sent| ==> sent[i] <= n
    ensures n == 0 || n in sent
  {
    if |sent| == 0 then 0
    else
      var n := Newest(sent[..|sent| - 1]);
      if sent[|sent| - 1] > n then sent[|sent| - 1] else n
  }

  /** How many transactions the acknowledgements cover. */
  function Acknowledged(s: State): nat { Covered(s.history, Newest(s.sent)) }

  predicate Persists(s: State, a: Action) {
    a.PersistTxn? && s.consumer.Some? && s.consumer.value.phase.Committing?
  }

  /** The number, from 1, of the transaction a run persisted last; 0 if none. */
  function LastPersisted(strict: bool, actions: seq<Action>): nat {
    if |actions| == 0 then 0
    else
      var s := Run(strict, actions[..|actions| - 1]);
      if Persists(s, actions[|actions| - 1]) then s.pos + 1 else LastPersisted(strict, actions[..|actions| - 1])
  }

  /** The position is 0 or that of a transaction. */
  predicate Issued(h: seq<Txn>, lsn: nat) {
    lsn == 0 || exists j :: 0 <= j < |h| && Lsn(h[j]) == lsn
  }

  /** The checkpoint is the position of transaction number `last`; a consumer holds it too, and the positions sent are
      those of transactions. */
  predicate CheckpointInv(s: State, last: nat) {
    && last <= |s.history|
    && StartLsn(s.store) == High(s.history, last)
    && (s.store.checkpoint.Some? <==> last > 0)
    && (last == 0 ==> forall i :: 0 <= i < |s.sent| ==> s.sent[i] == 0)
    && (forall i :: 0 <= i < |s.sent| ==> Issued(s.history, s.sent[i]))
    && (s.consumer.Some? ==>
          match s.consumer.value.phase
          case Persisted(lsn) => lsn == StartLsn(s.store) && last == s.pos + 1
          case _ => s.consumer.value.durable == StartLsn(s.store))
  }

  lemma IssuedGrows(h: seq<Txn>, tx: Txn, lsn: nat)
    requires Issued(h, lsn)
    ensures Issued(h + [tx], lsn)
  {
    if lsn != 0 {
      var j :| 0 <= j < |h| && Lsn(h[j]) == lsn;
      assert (h + [tx])[j] == h[j];
    }
  }

  lemma HighIssued(h: seq<Txn>, last: nat)
    requires last <= |h|
    ensures Issued(h, High(h, last))
  {
  }

  lemma StepKeepsCheckpoint(strict: bool, s: State, a: Action, p: nat, last: nat)
    requires Inv(strict, s, p) && CheckpointInv(s, last)
    ensures CheckpointInv(Step(strict, s, a), if Persists(s, a) then s.pos + 1 else last)
  {
    HighIssued(s.history, last);
    if a.SourceCommit? {
      forall i | 0 <= i < |s.sent| ensures Issued(s.history + [a.tx], s.sent[i]) {
        IssuedGrows(s.history, a.tx, s.sent[i]);
      }
    } else if a.PersistTxn? {
      NothingSentBefore(s, last);
    }
  }

  /** Before the first persist only 0 was sent. */
  lemma NothingSentBefore(s: State, last: nat)
    requires CheckpointInv(s, last)
    ensures last == 0 ==> Newest(s.sent) == 0
  {
  }

  lemma {:induction false} RunKeepsCheckpoint(strict: bool, actions: seq<Action>) returns (p: nat)
    ensures Inv(strict, Run(strict, actions), p)
    ensures CheckpointInv(Run(strict, actions), LastPersisted(strict, actions))
  {
    if |actions| == 0 {
      p := 0;
    } else {
      var init := actions[..|actions| - 1];
      p := RunKeepsCheckpoint(strict, init);
      StepKeepsCheckpoint(strict, Run(strict, init), actions[|actions| - 1], p, LastPersisted(strict, init));
      p := StepKeepsInv(strict, Run(strict, init), actions[|actions| - 1], p);
    }
  }

  /** Positions of transactions compare like their numbers. */
  lemma NewerThan(h: seq<Txn>, sent: seq<nat>, n: nat)
    requires Sorted(h) && n <= |h| && forall i :: 0 <= i < |sent| ==> Issued(h, sent[i])
    ensures (exists i :: 0 <= i < |sent| && sent[i] > High(h, n)) <==> n < Covered(h, Newest(sent))
  {
    if n < Covered(h, Newest(sent)) {
      TopIsNewer(h, sent, n);
    }
    forall i | 0 <= i < |sent| && sent[i] > High(h, n) ensures n < Covered(h, Newest(sent)) {
      IssuedIsCovered(h, n, sent[i], Newest(sent));
    }
  }

  lemma TopIsNewer(h: seq<Txn>, sent: seq<nat>, n: nat)
    requires Sorted(h) && n < Covered(h, Newest(sent))
    ensures exists i :: 0 <= i < |sent| && sent[i] > High(h, n)
  {
    assert Newest(sent) >= Lsn(h[n]) > 0;
    var i :| 0 <= i < |sent| && sent[i] == Newest(sent);
    assert sent[i] > High(h, n);
  }

  lemma IssuedIsCovered(h: seq<Txn>, n: nat, lsn: nat, top: nat)
    requires Sorted(h) && n <= |h| && Issued(h, lsn) && High(h, n) < lsn <= top
    ensures n < Covered(h, top)
  {
    var j :| 0 <= j < |h| && Lsn(h[j]) == lsn;
    assert n <= j < Covered(h, top);
  }

  /** Over whole runs: the checkpoint is behind an acknowledged position exactly when the transaction persisted last is
      older than the newest one acknowledged. */
  lemma CheckpointBehindExactly(strict: bool, actions: seq<Action>)
    ensures var s := Run(strict, actions);
            CheckpointBehindAck(s) <==> LastPersisted(strict, actions) < Acknowledged(s)
  {
    var p := RunKeepsCheckpoint(strict, actions);
    var s := Run(strict, actions);
    NewerThan(s.history, s.sent, LastPersisted(strict, actions));
  }

  /** Which redeliveries break the comparison and which restore it: only a persist changes it, and it leaves the
      checkpoint behind exactly when the stream position is before the newest acknowledged transaction. */
  lemma RedeliveryExactly(strict: bool, actions: seq<Action>, a: Action)
    ensures var s := Run(strict, actions);
            CheckpointBehindAck(Step(strict, s, a)) <==>
            if Persists(s, a) then s.pos + 1 < Acknowledged(s) else CheckpointBehindAck(s)
  {
    var longer := actions + [a];
    assert longer[..|longer| - 1] == actions;
    var p := RunKeepsCheckpoint(strict, actions);
    var s, t := Run(strict, actions), Run(strict, longer);
    assert t == Step(strict, s, a);
    if Persists(s, a) {
      CheckpointBehindExactly(strict, longer);
      assert Acknowledged(t) == Acknowledged(s);
    } else {
      OtherStepsKeepCheckpoint(strict, s, a, p, LastPersisted(strict, actions));
    }
  }

  /** Every other step sends nothing newer than the checkpoint and leaves the checkpoint alone. */
  lemma OtherStepsKeepCheckpoint(strict: bool, s: State, a: Action, p: nat, last: nat)
    requires Inv(strict, s, p) && CheckpointInv(s, last) && !Persists(s, a)
    ensures CheckpointBehindAck(Step(strict, s, a)) <==> CheckpointBehindAck(s)
  {
    var t := Step(strict, s, a);
    assert t.store.checkpoint == s.store.checkpoint;
    assert t.sent == s.sent || t.sent == s.sent + [StartLsn(s.store)];
    if i :| s.store.checkpoint.Some? && 0 <= i < |s.sent| && s.sent[i] > s.store.checkpoint.value {
      assert t.sent[i] == s.sent[i];
    }
  }

  /** change_log holds the first `p` transactions and nothing else, no position and number twice, under increasing
      ids. */
  ghost predicate LogHolds(s: State, p: nat) {
    && Holds(Logged(s.store), s.history, p)
    && (forall k, l :: 0 <= k < l < |s.store.rows| ==> s.store.rows[k].id < s.store.rows[l].id)
    && forall k, l :: 0 <= k < l < |s.store.rows| ==> !SamePlace(s.store.rows[k].entry, s.store.rows[l].entry)
  }

  predicate SamePlace(a: Entry, b: Entry) { a.lsn == b.lsn && a.seqNo == b.seqNo }

  /** Entries of a sorted history differ in position or number. */
  lemma {:induction false} EntriesDiffer(h: seq<Txn>, p: nat)
    requires Sorted(h) && p <= |h|
    ensures forall k, l :: 0 <= k < l < |Entries(h[..p])| ==> !SamePlace(Entries(h[..p])[k], Entries(h[..p])[l])
    decreases p
  {
    if p > 0 {
      assert h[..p][..p - 1] == h[..p - 1];
      EntriesDiffer(h, p - 1);
      var es, before := Entries(h[..p]), Entries(h[..p - 1]);
      forall k, l | 0 <= k < l < |es| ensures !SamePlace(es[k], es[l]) {
        if k < |before| <= l {
          EntryComesFrom(h, p - 1, before[k]);
        }
      }
    }
  }

  /** Exactly-once log: even with redelivery, change_log in id order is the flattening of a prefix of the commit
      history: whole transactions only, each change once, in order and unaltered, under strictly increasing ids. */
  lemma ExactlyOnceLog(strict: bool, actions: seq<Action>) returns (p: nat)
    ensures LogHolds(Run(strict, actions), p)
  {
    p := RunKeepsInv(strict, actions);
    var s := Run(strict, actions);
    EntriesHold(s.history, p);
    EntriesDiffer(s.history, p);
    forall k | 0 <= k < |s.store.rows| ensures Logged(s.store)[k] == s.store.rows[k].entry {
    }
  }

  /** Every position sent or stored as the checkpoint is 0 or the end of a committed transaction. */
  lemma PositionsAreEnds(strict: bool, actions: seq<Action>, a: nat) returns (j: nat)
    requires var s := Run(strict, actions); a in s.sent + [StartLsn(s.store)] && a != 0
    ensures var s := Run(strict, actions); j < |s.history| && EndsAt(s.history[j], a)
  {
    var p := RunKeepsCheckpoint(strict, actions);
    var s := Run(strict, actions);
    HighIssued(s.history, LastPersisted(strict, actions));
    assert Issued(s.history, a);
    j :| 0 <= j < |s.history| && Lsn(s.history[j]) == a;
  }
}
