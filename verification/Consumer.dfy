/** The replication consumer itself: the receive loop, decoding, the durable transaction and the status updates,
    updated in place and proved against the steps of the ingest protocol. */
module ReplicationConsumer {
  import opened Text
  import opened Rows
  import opened Wal
  import opened Ingest

  /** What the receive loop meets: the standby deadline, a keepalive, or a logical message. */
  datatype Input =
    | StandbyDue
    | Keepalive(reply: bool)
    | RelationMsg(id: nat, rel: Relation)
    | BeginMsg(xid: nat)
    | RowMsg(op: ChangeOp, id: nat, oldTuple: Option<seq<Datum>>, newTuple: Option<seq<Datum>>)
    | CommitMsg(endLsn: nat, commitLsn: nat, outcome: Outcome)

  /** How handling a commit ends: the durable transaction can fail after some inserts, the hook after it can fail,
      and so can the status update. */
  datatype Outcome = Completed | PersistFails(after: nat) | HookFails | StatusFails

  /** The value of the loop's state; `due` says that a status update is owed. */
  datatype Loop = Loop(
    consumer: Consumer, due: bool, rels: map<nat, Relation>, store: Store, sent: seq<nat>)

  function DecodeChange(rels: map<nat, Relation>, m: Input): Result<Change>
    requires m.RowMsg?
  {
    if m.id !in rels then Err(UnknownRelation)
    else
      var rel := rels[m.id];
      match DecodeTuple(rel.columns, if m.op.OpInsert? then None else m.oldTuple)
      case Err(e) => Err(e)
      case Ok(o) =>
        match DecodeTuple(rel.columns, if m.op.OpDelete? then None else m.newTuple)
        case Err(e) => Err(e)
        case Ok(n) => Ok(Change(rel.namespace, rel.name, m.op, Fingerprint(rel), 0, o, n))
  }

  /** A status update acknowledges the durable position and nothing else. */
  function SendStatus(l: Loop): Loop { l.(sent := l.sent + [l.consumer.durable]) }

  function Least(a: nat, b: nat): nat { if a < b then a else b }

  /** A rolled-back transaction leaves nothing but the ids its inserts consumed. */
  function RolledBack(st: Store, changes: seq<Change>, after: nat): Store {
    st.(nextId := st.nextId + Least(after, |changes|))
  }

  function PersistAndAck(l: Loop, lsn: nat, outcome: Outcome): (Loop, Option<Error>) {
    var c := l.consumer;
    if outcome.PersistFails? then (l.(store := RolledBack(l.store, c.pending, outcome.after)), Some(Unavailable))
    else
      var stored := l.(store := Persist(l.store, lsn, c.xid, c.pending));
      match outcome
      case HookFails => (stored, Some(Unavailable))
      case StatusFails => (stored.(consumer := c.(durable := lsn)), Some(Unavailable))
      case _ => (SendStatus(stored.(consumer := Consumer(lsn, [], c.xid, Receiving))), None)
  }

  /** One iteration: an owed status goes out first. An error ends the loop. */
  function Handle(l: Loop, x: Input): (Loop, Option<Error>) {
    var l := if l.due then SendStatus(l).(due := false) else l;
    match x
    case StandbyDue => (l.(due := true), None)
    case Keepalive(reply) => (l.(due := reply), None)
    case RelationMsg(id, rel) =>
      if id in l.rels && Fingerprint(l.rels[id]) != Fingerprint(rel) then (l, Some(SchemaDrift))
      else (l.(rels := l.rels[id := rel]), None)
    case BeginMsg(xid) => (l.(consumer := Receive(l.consumer, Begin(xid))), None)
    case RowMsg(_, _, _, _) =>
      (match DecodeChange(l.rels, x)
       case Err(e) => (l, Some(e))
       case Ok(ch) => (l.(consumer := Receive(l.consumer, RowChange(ch))), None))
    case CommitMsg(endLsn, commitLsn, outcome) => PersistAndAck(l, CommitPosition(endLsn, commitLsn), outcome)
  }

  function HandleAll(l: Loop, xs: seq<Input>): (Loop, Option<Error>)
    decreases |xs|
  {
    if |xs| == 0 then (l, None)
    else
      var (next, err) := Handle(l, xs[0]);
      if err.Some? then (next, err) else HandleAll(next, xs[1..])
  }

  // ---- the loop takes the protocol's steps

  /** The protocol state seen by a loop that is receiving; `before` is what earlier processes sent. */
  ghost predicate Mirrors(l: Loop, s: State, before: seq<nat>) {
    s.consumer == Some(l.consumer) && s.store == l.store && s.sent == before + l.sent && l.consumer.phase.Receiving?
  }

  /** The protocol state left by a loop that ended with an error. */
  ghost predicate Ended(l: Loop, s: State, before: seq<nat>) {
    s.consumer == None && s.store == l.store && s.sent == before + l.sent
  }

  ghost predicate Follows(l: Loop, err: Option<Error>, s: State, before: seq<nat>) {
    if err.None? then Mirrors(l, s, before) else Ended(l, s, before)
  }

  function Steps(strict: bool, s: State, actions: seq<Action>): State
    decreases |actions|
  {
    if |actions| == 0 then s else Steps(strict, Step(strict, s, actions[0]), actions[1..])
  }

  /** The actions of the protocol that one input stands for; an error is a crash. */
  function OwnActions(l: Loop, x: Input): seq<Action> {
    match x
    case BeginMsg(_) => [Deliver]
    case RowMsg(_, _, _, _) => if DecodeChange(l.rels, x).Ok? then [Deliver] else [Crash(0)]
    case RelationMsg(id, rel) =>
      if id in l.rels && Fingerprint(l.rels[id]) != Fingerprint(rel) then [Crash(0)] else []
    case CommitMsg(_, _, outcome) =>
      (match outcome
       case Completed => [Deliver, PersistTxn, Ack]
       case PersistFails(after) => [Deliver, Crash(Least(after, |l.consumer.pending|))]
       case _ => [Deliver, PersistTxn, Crash(0)])
    case _ => []
  }

  function ActionsFor(l: Loop, x: Input): seq<Action> {
    (if l.due then [Status] else []) + OwnActions(l, x)
  }

  /** The input is what the server streams next, as far as the protocol is concerned. */
  ghost predicate Next(l: Loop, s: State, x: Input) {
    match x
    case BeginMsg(xid) => s.pos < |s.history| && MessageAt(s.history[s.pos], s.msg) == Begin(xid)
    case RowMsg(_, _, _, _) =>
      DecodeChange(l.rels, x).Ok? ==>
        && s.pos < |s.history|
        && MessageAt(s.history[s.pos], s.msg) == RowChange(DecodeChange(l.rels, x).value)
    case CommitMsg(e, c, _) => s.pos < |s.history| && MessageAt(s.history[s.pos], s.msg) == Commit(e, c)
    case _ => true
  }

  lemma {:induction false} StepsConcat(strict: bool, s: State, a: seq<Action>, b: seq<Action>)
    ensures Steps(strict, s, a + b) == Steps(strict, Steps(strict, s, a), b)
    decreases |a|
  {
    if |a| == 0 {
      assert a + b == b;
    } else {
      StepsConcat(strict, Step(strict, s, a[0]), a[1..], b);
      assert (a + b)[1..] == a[1..] + b;
    }
  }

  lemma OneStep(strict: bool, s: State, a: Action)
    ensures Steps(strict, s, [a]) == Step(strict, s, a)
  {
    assert [a][1..] == [];
    assert Steps(strict, Step(strict, s, a), []) == Step(strict, s, a);
  }

  lemma TwoSteps(strict: bool, s: State, a: Action, b: Action)
    ensures Steps(strict, s, [a, b]) == Step(strict, Step(strict, s, a), b)
  {
    assert [a, b][1..] == [b];
    OneStep(strict, Step(strict, s, a), b);
  }

  lemma ThreeSteps(strict: bool, s: State, a: Action, b: Action, c: Action)
    ensures Steps(strict, s, [a, b, c]) == Step(strict, Step(strict, Step(strict, s, a), b), c)
  {
    assert [a, b, c][1..] == [b, c];
    TwoSteps(strict, Step(strict, s, a), b, c);
  }

  lemma CommitRefines(strict: bool, l: Loop, s: State, before: seq<nat>, x: Input)
    requires Mirrors(l, s, before) && Next(l, s, x) && x.CommitMsg?
    ensures var (m, err) := PersistAndAck(l, CommitPosition(x.endLsn, x.commitLsn), x.outcome);
            Follows(m, err, Steps(strict, s, OwnActions(l, x)), before)
  {
    var lsn := CommitPosition(x.endLsn, x.commitLsn);
    var a := Step(strict, s, Deliver);
    assert a == s.(consumer := Some(l.consumer.(phase := Committing(lsn))), msg := s.msg + 1);
    if x.outcome.PersistFails? {
      TwoSteps(strict, s, Deliver, Crash(Least(x.outcome.after, |l.consumer.pending|)));
    } else {
      CommittingRefines(strict, l, a, before, lsn, x.outcome);
      ThreeSteps(strict, s, Deliver, PersistTxn, if x.outcome.Completed? then Ack else Crash(0));
    }
  }

  /** From the commit message on, when the durable transaction succeeds. */
  lemma CommittingRefines(strict: bool, l: Loop, a: State, before: seq<nat>, lsn: nat, outcome: Outcome)
    requires a.consumer == Some(l.consumer.(phase := Committing(lsn))) && a.store == l.store
    requires a.sent == before + l.sent && l.consumer.phase.Receiving? && !outcome.PersistFails?
    ensures var (m, err) := PersistAndAck(l, lsn, outcome);
            var last := if outcome.Completed? then Ack else Crash(0);
            Follows(m, err, Step(strict, Step(strict, a, PersistTxn), last), before)
  {
    ConcatAssoc(before, l.sent, [lsn]);
  }

  lemma StatusRefines(strict: bool, l: Loop, s: State, before: seq<nat>)
    requires Mirrors(l, s, before)
    ensures Mirrors(SendStatus(l), Step(strict, s, Status), before)
  {
    ConcatAssoc(before, l.sent, [l.consumer.durable]);
  }

  /** One iteration with no status owed. */
  lemma QuietIteration(strict: bool, l: Loop, s: State, before: seq<nat>, x: Input)
    requires Mirrors(l, s, before) && Next(l, s, x) && !l.due
    ensures var (m, err) := Handle(l, x); Follows(m, err, Steps(strict, s, OwnActions(l, x)), before)
  {
    match x
    case BeginMsg(_) => OneStep(strict, s, Deliver);
    case RowMsg(_, _, _, _) =>
      OneStep(strict, s, Deliver);
      OneStep(strict, s, Crash(0));
    case RelationMsg(_, _) => OneStep(strict, s, Crash(0));
    case CommitMsg(_, _, _) => CommitRefines(strict, l, s, before, x);
    case _ =>
  }

  /** Every iteration of the loop, failing ones included, is a run of protocol steps from the mirrored state. */
  lemma LoopRefinesProtocol(strict: bool, l: Loop, s: State, before: seq<nat>, x: Input)
    requires Mirrors(l, s, before) && Next(l, s, x)
    ensures var (m, err) := Handle(l, x); Follows(m, err, Steps(strict, s, ActionsFor(l, x)), before)
  {
    if l.due {
      var l1 := SendStatus(l).(due := false);
      StatusRefines(strict, l, s, before);
      QuietIteration(strict, l1, Step(strict, s, Status), before, x);
      StepsConcat(strict, s, [Status], OwnActions(l, x));
      OneStep(strict, s, Status);
      assert Handle(l, x) == Handle(l1, x) && OwnActions(l1, x) == OwnActions(l, x);
    } else {
      QuietIteration(strict, l, s, before, x);
      assert [] + OwnActions(l, x) == OwnActions(l, x);
    }
  }

  // ---- a whole life of the consumer

  /** What happens while a consumer lives: the source commits, and inputs arrive. */
  datatype Event = Committed(tx: Txn, wal: nat) | Arrived(x: Input)

  function Arrivals(es: seq<Event>): seq<Input>
    decreases |es|
  {
    if |es| == 0 then []
    else (if es[0].Arrived? then [es[0].x] else []) + Arrivals(es[1..])
  }

  /** The protocol actions of a life; the first error ends it. */
  function LifeActions(l: Loop, es: seq<Event>): seq<Action>
    decreases |es|
  {
    if |es| == 0 then []
    else match es[0]
      case Committed(tx, wal) => [SourceCommit(tx, wal)] + LifeActions(l, es[1..])
      case Arrived(x) => ActionsFor(l, x) + if Handle(l, x).1.Some? then [] else LifeActions(Handle(l, x).0, es[1..])
  }

  /** Every input is what the server streams at that moment. */
  ghost predicate Streamed(strict: bool, l: Loop, s: State, es: seq<Event>)
    decreases |es|
  {
    |es| == 0 ||
    match es[0]
    case Committed(tx, wal) => Streamed(strict, l, Step(strict, s, SourceCommit(tx, wal)), es[1..])
    case Arrived(x) =>
      && Next(l, s, x)
      && (Handle(l, x).1.None? ==>
            Streamed(strict, Handle(l, x).0, Steps(strict, s, ActionsFor(l, x)), es[1..]))
  }

  lemma {:induction false} LifeRefinesProtocol(strict: bool, l: Loop, s: State, before: seq<nat>, es: seq<Event>)
    requires Mirrors(l, s, before) && Streamed(strict, l, s, es)
    ensures var (m, err) := HandleAll(l, Arrivals(es));
            Follows(m, err, Steps(strict, s, LifeActions(l, es)), before)
    decreases |es|
  {
    if |es| > 0 {
      match es[0]
      case Committed(tx, wal) =>
        var t := Step(strict, s, SourceCommit(tx, wal));
        LifeRefinesProtocol(strict, l, t, before, es[1..]);
        StepsConcat(strict, s, [SourceCommit(tx, wal)], LifeActions(l, es[1..]));
        OneStep(strict, s, SourceCommit(tx, wal));
        assert Arrivals(es) == Arrivals(es[1..]);
      case Arrived(x) =>
        LoopRefinesProtocol(strict, l, s, before, x);
        ArrivalHandled(l, es, x);
        if Handle(l, x).1.None? {
          LifeRefinesProtocol(strict, Handle(l, x).0, Steps(strict, s, ActionsFor(l, x)), before, es[1..]);
          StepsConcat(strict, s, ActionsFor(l, x), LifeActions(Handle(l, x).0, es[1..]));
        } else {
          assert ActionsFor(l, x) + [] == ActionsFor(l, x);
        }
    }
  }

  lemma ArrivalHandled(l: Loop, es: seq<Event>, x: Input)
    requires |es| > 0 && es[0] == Arrived(x)
    ensures HandleAll(l, Arrivals(es)) ==
            if Handle(l, x).1.Some? then Handle(l, x) else HandleAll(Handle(l, x).0, Arrivals(es[1..]))
  {
    assert Arrivals(es)[1..] == Arrivals(es[1..]);
  }

  lemma {:induction false} StepsAreRun(strict: bool, actions: seq<Action>, more: seq<Action>)
    ensures Steps(strict, Run(strict, actions), more) == Run(strict, actions + more)
    decreases |more|
  {
    if |more| == 0 {
      assert actions + more == actions;
    } else {
      var longer := actions + [more[0]];
      assert longer[..|longer| - 1] == actions;
      StepsAreRun(strict, longer, more[1..]);
      assert longer + more[1..] == actions + more;
    }
  }

  /** A loop that has just started on a store. */
  function Fresh(st: Store): Loop {
    Loop(Consumer(StartLsn(st), [], 0, Receiving), false, map[], st, [])
  }

  /** The guarantee of the protocol is a guarantee of the loop: start a consumer in any reachable state without one, let
      the source commit and the server stream, and let anything fail. The loop's store and acknowledgements are those of
      a protocol run, and every change at or before an acknowledged position is in its change_log. */
  lemma ConsumerLifeIsRun(strict: bool, actions: seq<Action>, from: nat, es: seq<Event>)
    requires var s := Run(strict, actions);
             && s.consumer.None? && Step(strict, s, Start(from)).consumer.Some?
             && Streamed(strict, Fresh(s.store), Step(strict, s, Start(from)), es)
    ensures var s := Run(strict, actions);
            var (m, err) := HandleAll(Fresh(s.store), Arrivals(es));
            var t := Run(strict, actions + ([Start(from)] + LifeActions(Fresh(s.store), es)));
            && Follows(m, err, t, s.sent)
            && forall a, j :: a in s.sent + m.sent && 0 <= j < |t.history| && Lsn(t.history[j]) <= a ==>
                 InLog(m.store, t.history[j])
  {
    var s := Run(strict, actions);
    var l, start := Fresh(s.store), Step(strict, s, Start(from));
    var life := LifeActions(l, es);
    assert s.sent + [] == s.sent;
    LifeRefinesProtocol(strict, l, start, s.sent, es);
    StepsConcat(strict, s, [Start(from)], life);
    OneStep(strict, s, Start(from));
    StepsAreRun(strict, actions, [Start(from)] + life);
    AcknowledgedIsDurable(strict, actions + ([Start(from)] + life));
    var (m, err) := HandleAll(l, Arrivals(es));
    var t := Run(strict, actions + ([Start(from)] + life));
    forall a, j | a in s.sent + m.sent && 0 <= j < |t.history| && Lsn(t.history[j]) <= a
      ensures InLog(t.store, t.history[j])
    {
      assert a in t.sent + [StartLsn(t.store)];
    }
  }

  /** During the life of a consumer a relation id never changes its meaning: with '|'-free names, the relation
      recorded first is the relation used to decode every later row. */
  lemma {:induction false} RelationsNeverChange(l: Loop, xs: seq<Input>, id: nat)
    requires id in l.rels && BarFree(l.rels[id])
    requires forall i :: 0 <= i < |xs| && xs[i].RelationMsg? ==> BarFree(xs[i].rel)
    ensures id in HandleAll(l, xs).0.rels && HandleAll(l, xs).0.rels[id] == l.rels[id]
    decreases |xs|
  {
    if |xs| > 0 {
      var (next, err) := Handle(l, xs[0]);
      if xs[0].RelationMsg? && xs[0].id == id && Fingerprint(l.rels[id]) == Fingerprint(xs[0].rel) {
        FingerprintInjective(l.rels[id], xs[0].rel);
      }
      if err.None? {
        RelationsNeverChange(next, xs[1..], id);
      }
    }
  }

  // ---- in-place form

  /** The two durable tables of one consumer. */
  class Database {
    var rows: seq<LogRow>
    var nextId: nat
    var checkpoint: Option<nat>

    function State(): Store
      reads this
    {
      Store(rows, nextId, checkpoint)
    }

    constructor ()
      ensures State() == EMPTY_STORE
    {
      rows, nextId, checkpoint := [], 1, None;
    }
  }

  class WalConsumer {
    const db: Database
    var durable: nat
    var pending: seq<Change>
    var curXid: nat
    var due: bool
    var rels: map<nat, Relation>
    var sent: seq<nat>

    function State(): Loop
      reads this, db
    {
      Loop(Consumer(durable, pending, curXid, Receiving), due, rels, db.State(), sent)
    }

    /** The position to acknowledge is the stored checkpoint: nothing is ever acknowledged ahead of it. */
    ghost predicate Valid()
      reads this, db
    {
      durable == StartLsn(db.State())
    }

    /** A consumer starts at the checkpoint. */
    constructor (db: Database)
      ensures Valid()
      ensures this.db == db && State() == Fresh(db.State())
    {
      this.db := db;
      durable := if db.checkpoint.Some? then db.checkpoint.value else 0;
      pending, curXid, due, rels, sent := [], 0, false, map[], [];
    }

    /** Inserts the rows in a private transaction, then commits rows and checkpoint together. A failing statement
        rolls the transaction back: rows and checkpoint stay, the ids already drawn are lost. */
    method PersistChanges(lsn: nat, xid: nat, changes: seq<Change>, outcome: Outcome) returns (err: Option<Error>)
      modifies db
      ensures outcome.PersistFails? ==>
                err == Some(Unavailable) && db.State() == RolledBack(old(db.State()), changes, outcome.after)
      ensures !outcome.PersistFails? ==> err == None && db.State() == Persist(old(db.State()), lsn, xid, changes)
    {
      var tx := db.State();
      ghost var es := EntriesOf(lsn, xid, changes);
      for i := 0 to |changes|
        invariant tx == InsertEntries(db.State(), es[..i]) && tx.nextId == db.nextId + i
        invariant db.State() == old(db.State())
        invariant outcome.PersistFails? ==> i <= outcome.after
      {
        if outcome.PersistFails? && outcome.after == i {
          db.nextId := tx.nextId;
          return Some(Unavailable);
        }
        assert es[..i + 1][..i] == es[..i] && es[..i + 1][i] == Entry(lsn, xid, i, changes[i].(lsn := lsn));
        if Has(Logged(tx), lsn, i) {
          tx := tx.(nextId := tx.nextId + 1);
        } else {
          tx := tx.(rows := tx.rows + [LogRow(tx.nextId, Entry(lsn, xid, i, changes[i].(lsn := lsn)))],
                    nextId := tx.nextId + 1);
        }
      }
      if outcome.PersistFails? {
        db.nextId := tx.nextId;
        return Some(Unavailable);
      }
      assert es[..|changes|] == es;
      db.rows, db.nextId, db.checkpoint := tx.rows, tx.nextId, Some(lsn);
      return None;
    }

    method PersistThenAck(lsn: nat, outcome: Outcome) returns (err: Option<Error>)
      requires Valid()
      modifies this`durable, this`pending, this`sent, db
      ensures err.None? ==> Valid()
      ensures (State(), err) == PersistAndAck(old(State()), lsn, outcome)
    {
      err := PersistChanges(lsn, curXid, pending, outcome);
      if err.Some? {
        return;
      }
      if outcome.HookFails? {
        return Some(Unavailable);
      }
      durable := lsn;
      if outcome.StatusFails? {
        return Some(Unavailable);
      }
      SendStandbyStatus();
      pending := [];
    }

    method SendStandbyStatus()
      requires Valid()
      modifies this`sent
      ensures Valid()
      ensures State() == SendStatus(old(State()))
    {
      sent := sent + [durable];
    }

    method HandleRelation(id: nat, rel: Relation) returns (err: Option<Error>)
      modifies this`rels
      ensures if old(id in rels && Fingerprint(rels[id]) != Fingerprint(rel))
              then err == Some(SchemaDrift) && rels == old(rels)
              else err == None && rels == old(rels)[id := rel]
    {
      var fp := ComputeFingerprint(rel);
      if id in rels && Fingerprint(rels[id]) != fp {
        return Some(SchemaDrift);
      }
      rels := rels[id := rel];
      return None;
    }

    method Decode(m: Input) returns (r: Result<Change>)
      requires m.RowMsg?
      ensures r == DecodeChange(rels, m)
    {
      if m.id !in rels {
        return Err(UnknownRelation);
      }
      var rel := rels[m.id];
      var o := ComputeDecodeTuple(rel.columns, if m.op.OpInsert? then None else m.oldTuple);
      if o.Err? {
        return Err(o.error);
      }
      var n := ComputeDecodeTuple(rel.columns, if m.op.OpDelete? then None else m.newTuple);
      if n.Err? {
        return Err(n.error);
      }
      var fp := ComputeFingerprint(rel);
      return Ok(Change(rel.namespace, rel.name, m.op, fp, 0, o.value, n.value));
    }

    method HandleInput(x: Input) returns (err: Option<Error>)
      requires Valid()
      modifies this, db
      ensures err.None? ==> Valid()
      ensures (State(), err) == Handle(old(State()), x)
    {
      if due {
        SendStandbyStatus();
        due := false;
      }
      err := None;
      match x {
        case StandbyDue => due := true;
        case Keepalive(reply) =>
          if reply {
            due := true;
          }
        case RelationMsg(id, rel) => err := HandleRelation(id, rel);
        case BeginMsg(xid) => pending, curXid := [], xid;
        case RowMsg(_, _, _, _) =>
          var r := Decode(x);
          if r.Err? {
            return Some(r.error);
          }
          pending := pending + [r.value];
        case CommitMsg(endLsn, commitLsn, outcome) =>
          var lsn := endLsn;
          if lsn == 0 {
            lsn := commitLsn;
          }
          err := PersistThenAck(lsn, outcome);
      }
    }

    /** The receive loop over everything that arrives until the context ends or an error. */
    method Run(xs: seq<Input>) returns (err: Option<Error>)
      requires Valid()
      modifies this, db
      ensures err.None? ==> Valid()
      ensures (State(), err) == HandleAll(old(State()), xs)
    {
      assert xs[0..] == xs;
      for i := 0 to |xs|
        invariant Valid() && HandleAll(old(State()), xs) == HandleAll(State(), xs[i..])
      {
        assert xs[i..][0] == xs[i] && xs[i..][1..] == xs[i + 1..];
        err := HandleInput(xs[i]);
        if err.Some? {
          return err;
        }
      }
      return None;
    }
  }
}
