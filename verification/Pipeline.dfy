/** The whole pipeline: source commits, durable ingest, the polling cursor over change_log, streams and client sessions
    in one state machine, and the claim that a replica is the filtered source table. */
module Pipeline {
  import opened Rows
  import opened Filters
  import opened Wal
  import opened Shapes
  import opened Views
  import opened Replay
  import I = Ingest
  import E = Engine

  datatype Config = Config(strict: bool, shapes: map<string, Source>)

  /** `batch` is what remains of the poll in progress; `dispatched` lists the changes handed to the streams; `cuts` is,
      per stream, how many changes its snapshot covers. */
  datatype State = State(
    ingest: I.State, lastId: nat, batch: Option<seq<I.LogRow>>, dispatched: seq<Change>,
    engine: E.State, cuts: map<string, nat>)

  const INIT := State(I.INIT, 0, None, [], E.EMPTY, map[])

  datatype Action =
    | Ingest(a: I.Action)
    | PollStart
    | DispatchNext(order: seq<string>)
    | PollEnd
    | PollAbort
    | Subscribe(id: nat, shape: string, txns: nat, snap: Option<E.Snapshot>, cached: seq<Row>)
    | Client(e: E.Action)
    | Restart

  /** The changes of a transaction, stamped with its position. */
  function Stamped(tx: I.Txn): seq<Change> {
    seq(|tx.changes|, i requires 0 <= i < |tx.changes| => tx.changes[i].(lsn := I.Lsn(tx)))
  }

  /** Every change of a commit history, in order. */
  function Changes(h: seq<I.Txn>): seq<Change> {
    if |h| == 0 then [] else Changes(h[..|h| - 1]) + Stamped(h[|h| - 1])
  }

  /** SELECT ... WHERE id > lastId ORDER BY id. */
  function RowsAfter(rows: seq<I.LogRow>, lastId: nat): seq<I.LogRow> {
    if |rows| == 0 then []
    else RowsAfter(rows[..|rows| - 1], lastId) + if rows[|rows| - 1].id > lastId then [rows[|rows| - 1]] else []
  }

  /** The position `lsn` separates the first `txns` transactions from all others, present and future. */
  predicate Separates(s: I.State, txns: nat, lsn: nat) {
    && txns <= |s.history| && lsn <= s.wal
    && forall j :: 0 <= j < |s.history| ==> (I.Lsn(s.history[j]) <= lsn <==> j < txns)
  }

  /** The snapshot of a new stream is the filtered table at its position, and no change of that table past the position
      has been dispatched yet. */
  ghost predicate InTime(src: Source, s: State, txns: nat, snap: E.Snapshot) {
    && Separates(s.ingest, txns, snap.lsn)
    && SnapshotOf(src, TableAt(src, Changes(s.ingest.history[..txns])), snap.rows)
    && forall i :: 0 <= i < |s.dispatched| && OfTable(src.def, s.dispatched[i]) ==> s.dispatched[i].lsn <= snap.lsn
  }

  /** The subscription creates a stream. */
  predicate Fresh(s: State, a: Action)
    requires a.Subscribe?
  {
    a.shape !in s.engine.streams && a.snap.Some?
  }

  /** How many changes the snapshot of a new stream covers. */
  function CutOf(s: State, a: Action): nat
    requires a.Subscribe?
  {
    if a.txns <= |s.ingest.history| then |Changes(s.ingest.history[..a.txns])| else 0
  }

  function ToEngine(a: Action): E.Action
    requires a.Subscribe?
  {
    E.Subscribe(a.id, a.shape, a.snap, a.cached)
  }

  /** An action that is not enabled leaves the state alone. `Restart` is a process restart: the streams, the sessions
      and the cursor are gone, the durable store stays. */
  function Step(cfg: Config, s: State, a: Action): State {
    match a
    case Ingest(b) => s.(ingest := I.Step(cfg.strict, s.ingest, b))
    case PollStart =>
      if s.batch.None? then s.(batch := Some(RowsAfter(s.ingest.store.rows, s.lastId))) else s
    case DispatchNext(order) =>
      if s.batch.Some? && |s.batch.value| > 0 && E.Enumerates(order, s.engine.streams.Keys) then
        var row := s.batch.value[0];
        s.(lastId := row.id, batch := Some(s.batch.value[1..]), dispatched := s.dispatched + [row.entry.change],
           engine := E.Dispatch(s.engine, row.entry.change, order))
      else s
    case PollEnd => if s.batch == Some([]) then s.(batch := None) else s
    case PollAbort => s.(batch := None)
    case Subscribe(id, shape, _, _, _) =>
      if shape in cfg.shapes && id in s.engine.sessions then
        s.(engine := E.Join(cfg.shapes[shape], s.engine, ToEngine(a)),
           cuts := if Fresh(s, a) then s.cuts[shape := CutOf(s, a)] else s.cuts)
      else s
    case Client(e) => if E.ClientOnly(e) then s.(engine := E.ClientStep(s.engine, e)) else s
    case Restart =>
      State(I.Step(cfg.strict, s.ingest, I.Crash(0)), 0, None, [], E.EMPTY, map[])
  }

  function Run(cfg: Config, actions: seq<Action>): State {
    if |actions| == 0 then INIT else Step(cfg, Run(cfg, actions[..|actions| - 1]), actions[|actions| - 1])
  }

  /** What one action has to respect for a shape to stay right: its streams are registered in time, with the rows the
      query and the cache hold, and its clients resume where they were. Other shapes may fare as they like. */
  ghost predicate Respects(cfg: Config, s: State, a: Action, n: string)
    requires n in cfg.shapes
  {
    match a
    case Subscribe(_, shape, txns, snap, cached) =>
      shape == n ==>
        && (n in s.engine.streams ==> Lists(cached, s.engine.streams[n].cache, cfg.shapes[n].def.pk))
        && (Fresh(s, a) ==> InTime(cfg.shapes[n], s, txns, snap.value))
    case Client(e) => E.ClientOnly(e) ==> E.Respects(cfg.shapes, s.engine, e, n)
    case _ => true
  }

  /** Every action since the last restart respects the shape. */
  ghost predicate RespectfulRun(cfg: Config, actions: seq<Action>, n: string)
    requires n in cfg.shapes
  {
    || |actions| == 0
    || actions[|actions| - 1].Restart?
    || (var init := actions[..|actions| - 1];
        RespectfulRun(cfg, init, n) && Respects(cfg, Run(cfg, init), actions[|actions| - 1], n))
  }

  /** The source history is one the stream of the shape can follow, from its snapshot to the dispatched position. */
  ghost predicate Followable(cfg: Config, s: State, n: string)
    requires n in cfg.shapes
  {
    n in s.engine.streams && n in s.cuts ==>
      Sound(cfg.shapes[n], Changes(s.ingest.history), s.cuts[n], |s.dispatched|)
  }

  predicate ConfigOk(cfg: Config) { E.ConfigOk(cfg.shapes) }

  // ---- the log and the history

  lemma {:induction false} ChangesPrefix(h: seq<I.Txn>, p: nat)
    requires p <= |h|
    ensures Changes(h[..p]) <= Changes(h)
    decreases |h|
  {
    if p < |h| {
      ChangesPrefix(h[..|h| - 1], p);
      assert h[..|h| - 1][..p] == h[..p];
    } else {
      assert h[..p] == h;
    }
  }

  /** The flattened log entries hold the changes of the history, one for one. */
  lemma {:induction false} ChangesAreEntries(h: seq<I.Txn>)
    ensures |Changes(h)| == |I.Entries(h)| == I.Total(h)
    ensures forall i :: 0 <= i < |Changes(h)| ==> I.Entries(h)[i].change == Changes(h)[i]
  {
    if |h| > 0 {
      ChangesAreEntries(h[..|h| - 1]);
    }
  }

  /** The changes of the first `txns` transactions are the ones at or before a separating position. */
  lemma {:induction false} SeparatedChanges(h: seq<I.Txn>, txns: nat, lsn: nat)
    requires txns <= |h| && forall j :: 0 <= j < |h| ==> I.Lsn(h[j]) > 0 && (I.Lsn(h[j]) <= lsn <==> j < txns)
    ensures CutAt(Changes(h), lsn, |Changes(h[..txns])|)
  {
    ChangesPrefix(h, txns);
    if |h| > 0 {
      var init := h[..|h| - 1];
      assert forall j :: 0 <= j < |init| ==> init[j] == h[j];
      ChangesPrefix(h, |h| - 1);
      if txns < |h| {
        SeparatedChanges(init, txns, lsn);
        assert init[..txns] == h[..txns];
        assert forall i :: |Changes(init)| <= i < |Changes(h)| ==> Changes(h)[i].lsn == I.Lsn(h[|h| - 1]);
      } else {
        SeparatedChanges(init, txns - 1, lsn);
        assert init[..txns - 1] == init && h[..txns] == h;
        assert forall i :: |Changes(init)| <= i < |Changes(h)| ==> Changes(h)[i].lsn == I.Lsn(h[|h| - 1]);
      }
    }
  }

  // ---- the cursor

  /** A number of changes that ends on a transaction boundary. */
  ghost predicate Boundary(h: seq<I.Txn>, n: nat) {
    exists q: nat :: q <= |h| && n == I.Total(h[..q])
  }

  /** The cursor stands after the first |dispatched| rows of the log, and the batch is the run of rows that follows
      them up to a transaction boundary. */
  ghost predicate CursorInv(s: State) {
    var rows, d := s.ingest.store.rows, |s.dispatched|;
    && d <= |rows|
    && (forall i :: 0 <= i < d ==> s.dispatched[i] == rows[i].entry.change)
    && s.lastId == (if d == 0 then 0 else rows[d - 1].id)
    && (s.batch.Some? ==>
          && d + |s.batch.value| <= |rows|
          && s.batch.value == rows[d..d + |s.batch.value|]
          && Boundary(s.ingest.history, d + |s.batch.value|))
  }

  lemma {:induction false} RowsAfterIsSuffix(rows: seq<I.LogRow>, d: nat, lastId: nat)
    requires d <= |rows|
    requires forall i :: 0 <= i < |rows| ==> (rows[i].id > lastId <==> i >= d)
    ensures RowsAfter(rows, lastId) == rows[d..]
  {
    if |rows| > 0 {
      var init := rows[..|rows| - 1];
      if d < |rows| {
        RowsAfterIsSuffix(init, d, lastId);
        assert rows[d..] == init[d..] + [rows[|rows| - 1]];
      } else {
        RowsAfterIsSuffix(init, d - 1, lastId);
      }
    }
  }

  lemma BoundaryGrows(h: seq<I.Txn>, k: seq<I.Txn>, n: nat)
    requires Boundary(h, n) && h <= k
    ensures Boundary(k, n)
  {
    var q: nat :| q <= |h| && n == I.Total(h[..q]);
    assert k[..q] == h[..q];
  }

  /** Ingest steps only append to the history and to the log. */
  lemma IngestGrows(strict: bool, s: I.State, a: I.Action, p: nat)
    requires I.Inv(strict, s, p)
    ensures var t := I.Step(strict, s, a);
            s.history <= t.history && s.store.rows <= t.store.rows && s.wal <= t.wal
  {
    if a.PersistTxn? && s.consumer.Some? && s.consumer.value.phase.Committing? {
      I.PersistExtends(s.store, s.history, p, s.pos);
    }
  }

  lemma IngestKeepsCursor(strict: bool, s: State, a: I.Action, p: nat)
    requires I.Inv(strict, s.ingest, p) && CursorInv(s)
    ensures CursorInv(s.(ingest := I.Step(strict, s.ingest, a)))
  {
    IngestGrows(strict, s.ingest, a, p);
    CursorGrows(s, I.Step(strict, s.ingest, a));
  }

  lemma CursorGrows(s: State, t: I.State)
    requires CursorInv(s) && s.ingest.history <= t.history && s.ingest.store.rows <= t.store.rows
    ensures CursorInv(s.(ingest := t))
  {
    var d := |s.dispatched|;
    assert forall i :: 0 <= i < d ==> t.store.rows[i] == s.ingest.store.rows[i];
    if s.batch.Some? {
      BoundaryGrows(s.ingest.history, t.history, d + |s.batch.value|);
      assert t.store.rows[d..d + |s.batch.value|] == s.ingest.store.rows[d..d + |s.batch.value|];
    }
  }

  lemma PollStartKeepsCursor(strict: bool, s: State, p: nat)
    requires I.Inv(strict, s.ingest, p) && CursorInv(s)
    ensures CursorInv(s.(batch := Some(RowsAfter(s.ingest.store.rows, s.lastId))))
  {
    var rows, d := s.ingest.store.rows, |s.dispatched|;
    RowsAfterIsSuffix(rows, d, s.lastId);
    ChangesAreEntries(s.ingest.history[..p]);
    assert |I.Logged(s.ingest.store)| == |rows|;
    assert Boundary(s.ingest.history, |rows|);
  }

  // ---- ingest, cursor and cuts, in every run

  /** A cut counts changes of the history. */
  predicate CutsInv(s: State) {
    forall n :: n in s.cuts ==> s.cuts[n] <= |Changes(s.ingest.history)|
  }

  ghost predicate Inv(strict: bool, s: State, p: nat) {
    I.Inv(strict, s.ingest, p) && CursorInv(s) && CutsInv(s)
  }

  /** Row i of the log holds change i of the history. */
  lemma LogHoldsHistory(strict: bool, s: I.State, p: nat)
    requires I.Inv(strict, s, p)
    ensures |s.store.rows| <= |Changes(s.history)|
    ensures forall i :: 0 <= i < |s.store.rows| ==> s.store.rows[i].entry.change == Changes(s.history)[i]
  {
    ChangesAreEntries(s.history[..p]);
    ChangesPrefix(s.history, p);
    assert |I.Logged(s.store)| == |s.store.rows|;
    forall i | 0 <= i < |s.store.rows| ensures s.store.rows[i].entry.change == Changes(s.history)[i] {
      assert I.Logged(s.store)[i] == s.store.rows[i].entry;
    }
  }

  lemma {:induction false} NewChangesAreLater(h: seq<I.Txn>, tx: I.Txn)
    ensures var (old', new') := (Changes(h), Changes(h + [tx]));
            old' <= new' && forall j :: |old'| <= j < |new'| ==> new'[j].lsn == I.Lsn(tx)
  {
    assert (h + [tx])[..|h|] == h;
    ChangesPrefix(h + [tx], |h|);
  }

  /** What an ingest step adds to the history lies past the write position. */
  lemma LaterChanges(strict: bool, s: I.State, a: I.Action)
    ensures var (was, now) := (Changes(s.history), Changes(I.Step(strict, s, a).history));
            was <= now && forall j :: |was| <= j < |now| ==> now[j].lsn > s.wal
  {
    if a.SourceCommit? {
      NewChangesAreLater(s.history, a.tx);
    }
  }

  lemma IngestKeepsInv(strict: bool, s: State, a: I.Action, p: nat) returns (q: nat)
    requires Inv(strict, s, p)
    ensures Inv(strict, s.(ingest := I.Step(strict, s.ingest, a)), q)
  {
    q := I.StepKeepsInv(strict, s.ingest, a, p);
    IngestKeepsCursor(strict, s, a, p);
    LaterChanges(strict, s.ingest, a);
  }

  /** The next row to dispatch is the next change of the history. */
  lemma NextRow(strict: bool, s: State, p: nat)
    requires I.Inv(strict, s.ingest, p) && CursorInv(s) && s.batch.Some? && |s.batch.value| > 0
    ensures var d := |s.dispatched|;
            && d < |Changes(s.ingest.history)|
            && s.batch.value[0].entry.change == Changes(s.ingest.history)[d]
  {
    LogHoldsHistory(strict, s.ingest, p);
    assert s.batch.value[0] == s.ingest.store.rows[|s.dispatched|];
  }

  lemma DispatchKeepsCursor(s: State, t: State)
    requires CursorInv(s) && s.batch.Some? && |s.batch.value| > 0
    requires t.ingest == s.ingest && t.lastId == s.batch.value[0].id && t.batch == Some(s.batch.value[1..])
    requires t.dispatched == s.dispatched + [s.batch.value[0].entry.change]
    ensures CursorInv(t)
  {
    var rows, d := s.ingest.store.rows, |s.dispatched|;
    assert s.batch.value[0] == rows[d];
    assert t.batch.value == rows[d + 1..d + 1 + |t.batch.value|];
  }

  lemma CursorFrame(s: State, t: State)
    requires CursorInv(s) && t == s.(engine := t.engine, cuts := t.cuts)
    ensures CursorInv(t)
  {
  }

  lemma RestartKeepsInv(strict: bool, s: State, p: nat) returns (q: nat)
    requires Inv(strict, s, p)
    ensures Inv(strict, State(I.Step(strict, s.ingest, I.Crash(0)), 0, None, [], E.EMPTY, map[]), q)
  {
    q := I.StepKeepsInv(strict, s.ingest, I.Crash(0), p);
  }

  lemma CutIsBounded(s: State, a: Action)
    requires a.Subscribe?
    ensures CutOf(s, a) <= |Changes(s.ingest.history)|
  {
    if a.txns <= |s.ingest.history| {
      ChangesPrefix(s.ingest.history, a.txns);
    }
  }

  lemma DispatchKeepsInv(cfg: Config, s: State, order: seq<string>, p: nat)
    requires Inv(cfg.strict, s, p)
    ensures Inv(cfg.strict, Step(cfg, s, DispatchNext(order)), p)
  {
    if s.batch.Some? && |s.batch.value| > 0 && E.Enumerates(order, s.engine.streams.Keys) {
      DispatchKeepsCursor(s, Step(cfg, s, DispatchNext(order)));
    }
  }

  lemma EngineStepKeepsInv(cfg: Config, s: State, a: Action, p: nat)
    requires Inv(cfg.strict, s, p) && (a.Subscribe? || a.Client?)
    ensures Inv(cfg.strict, Step(cfg, s, a), p)
  {
    var t := Step(cfg, s, a);
    if a.Subscribe? {
      CutIsBounded(s, a);
      assert t == s.(engine := t.engine, cuts := t.cuts);
    }
    CursorFrame(s, t);
  }

  lemma StepKeepsInv(cfg: Config, s: State, a: Action, p: nat) returns (q: nat)
    requires Inv(cfg.strict, s, p)
    ensures Inv(cfg.strict, Step(cfg, s, a), q)
  {
    q := p;
    match a
    case Ingest(b) => q := IngestKeepsInv(cfg.strict, s, b, p);
    case PollStart => PollStartKeepsCursor(cfg.strict, s, p);
    case DispatchNext(order) => DispatchKeepsInv(cfg, s, order, p);
    case Subscribe(_, _, _, _, _) => EngineStepKeepsInv(cfg, s, a, p);
    case Client(_) => EngineStepKeepsInv(cfg, s, a, p);
    case Restart => q := RestartKeepsInv(cfg.strict, s, p);
    case _ =>
  }

  lemma {:induction false} RunKeepsInv(cfg: Config, actions: seq<Action>) returns (p: nat)
    ensures Inv(cfg.strict, Run(cfg, actions), p)
  {
    if |actions| == 0 {
      p := 0;
    } else {
      p := RunKeepsInv(cfg, actions[..|actions| - 1]);
      p := StepKeepsInv(cfg, Run(cfg, actions[..|actions| - 1]), actions[|actions| - 1], p);
    }
  }

  // ---- one shape

  ghost predicate StreamCaughtUp(cfg: Config, s: State, n: string)
    requires n in cfg.shapes
  {
    n in s.engine.streams ==>
      && n in s.cuts
      && s.engine.streams[n].snapshotLsn <= s.ingest.wal
      && CaughtUp(cfg.shapes[n], s.engine.streams[n], Changes(s.ingest.history), s.cuts[n], |s.dispatched|)
  }

  ghost predicate ShapeInv(cfg: Config, s: State, n: string)
    requires n in cfg.shapes
  {
    E.ShapeInv(cfg.shapes, s.engine, n) && StreamCaughtUp(cfg, s, n)
  }

  lemma CaughtUpGrows(src: Source, i: Inst, h: seq<Change>, k: seq<Change>, cut: nat, n: nat)
    requires CaughtUp(src, i, h, cut, n) && h <= k
    requires forall j :: |h| <= j < |k| ==> !Gated(i, k[j])
    ensures CaughtUp(src, i, k, cut, n)
  {
    assert k[..Max(cut, n)] == h[..Max(cut, n)];
    forall j | 0 <= j < |k| && OfTable(i.def, k[j]) ensures Gated(i, k[j]) <==> j < cut {
      if j < |h| {
        assert k[j] == h[j];
      }
    }
  }

  lemma IngestWasFollowable(cfg: Config, s: State, a: I.Action, n: string, p: nat)
    requires n in cfg.shapes && Inv(cfg.strict, s, p)
    requires Followable(cfg, s.(ingest := I.Step(cfg.strict, s.ingest, a)), n)
    ensures Followable(cfg, s, n)
  {
    LaterChanges(cfg.strict, s.ingest, a);
    DispatchedIsPrefix(cfg.strict, s, p);
    if n in s.engine.streams && n in s.cuts {
      var h, k := Changes(s.ingest.history), Changes(I.Step(cfg.strict, s.ingest, a).history);
      SoundOfLonger(cfg.shapes[n], h, k, s.cuts[n], |s.dispatched|);
    }
  }

  lemma IngestKeepsShape(cfg: Config, s: State, a: I.Action, n: string, p: nat)
    requires n in cfg.shapes && Inv(cfg.strict, s, p) && ShapeInv(cfg, s, n)
    ensures ShapeInv(cfg, s.(ingest := I.Step(cfg.strict, s.ingest, a)), n)
  {
    var t := I.Step(cfg.strict, s.ingest, a);
    IngestGrows(cfg.strict, s.ingest, a, p);
    LaterChanges(cfg.strict, s.ingest, a);
    if n in s.engine.streams {
      CaughtUpGrows(cfg.shapes[n], s.engine.streams[n], Changes(s.ingest.history), Changes(t.history),
                    s.cuts[n], |s.dispatched|);
    }
  }

  /** A change that reaches a stream which is caught up with the history before it preserves the key. */
  lemma NextIsKeyPreserving(src: Source, i: Inst, h: seq<Change>, cut: nat, d: nat)
    requires d < |h| && Sound(src, h, cut, d + 1) && CaughtUp(src, i, h, cut, d)
    ensures Reaches(i, h[d]) ==> KeyPreserving(i, h[d])
  {
    if Reaches(i, h[d]) {
      PossibleAt(src, h, d);
      ValidIsKeyPreserving(src, i, TableAt(src, h[..d]), h[d]);
    }
  }

  /** The stream of a shape follows the next change. */
  lemma NextIsFollowed(cfg: Config, s: State, ch: Change, n: string)
    requires n in cfg.shapes && n in s.engine.streams && n in s.cuts && StreamCaughtUp(cfg, s, n)
    requires |s.dispatched| < |Changes(s.ingest.history)| && ch == Changes(s.ingest.history)[|s.dispatched|]
    requires Sound(cfg.shapes[n], Changes(s.ingest.history), s.cuts[n], |s.dispatched| + 1)
    ensures Reaches(s.engine.streams[n], ch) ==> KeyPreserving(s.engine.streams[n], ch)
    ensures var i := Apply(s.engine.streams[n], ch).0;
            && i.snapshotLsn <= s.ingest.wal
            && CaughtUp(cfg.shapes[n], i, Changes(s.ingest.history), s.cuts[n], |s.dispatched| + 1)
  {
    var h, d := Changes(s.ingest.history), |s.dispatched|;
    NextIsKeyPreserving(cfg.shapes[n], s.engine.streams[n], h, s.cuts[n], d);
    CatchUpStep(cfg.shapes[n], s.engine.streams[n], h, s.cuts[n], d);
    ApplyKeeps(s.engine.streams[n], ch);
  }

  /** Under the hypotheses of a dispatch the shape was right before it. */
  lemma FollowableBefore(cfg: Config, s: State, order: seq<string>, n: string, p: nat)
    requires n in cfg.shapes && Inv(cfg.strict, s, p)
    requires s.batch.Some? && |s.batch.value| > 0 && E.Enumerates(order, s.engine.streams.Keys)
    requires Followable(cfg, Step(cfg, s, DispatchNext(order)), n)
    ensures Followable(cfg, s, n)
    ensures n in s.engine.streams && n in s.cuts ==>
              Sound(cfg.shapes[n], Changes(s.ingest.history), s.cuts[n], |s.dispatched| + 1)
  {
    if n in s.engine.streams && n in s.cuts {
      SoundPrefix(cfg.shapes[n], Changes(s.ingest.history), s.cuts[n], |s.dispatched| + 1, |s.dispatched|);
    }
  }

  lemma DispatchKeepsShape(cfg: Config, s: State, order: seq<string>, n: string, p: nat)
    requires n in cfg.shapes && Inv(cfg.strict, s, p)
    requires s.batch.Some? && |s.batch.value| > 0 && E.Enumerates(order, s.engine.streams.Keys)
    requires ShapeInv(cfg, s, n)
    requires n in s.engine.streams && n in s.cuts ==>
               Sound(cfg.shapes[n], Changes(s.ingest.history), s.cuts[n], |s.dispatched| + 1)
    ensures E.Respects(cfg.shapes, s.engine, E.Change(s.batch.value[0].entry.change, order), n)
    ensures ShapeInv(cfg, Step(cfg, s, DispatchNext(order)), n)
  {
    var ch := s.batch.value[0].entry.change;
    NextRow(cfg.strict, s, p);
    if n in s.engine.streams {
      NextIsFollowed(cfg, s, ch, n);
    }
    E.DispatchKeepsShape(cfg.shapes, s.engine, ch, order, n);
  }

  /** A stream that joins in time is caught up. */
  lemma JoinCatchesUp(cfg: Config, s: State, a: Action, p: nat)
    requires Inv(cfg.strict, s, p) && a.Subscribe? && a.shape in cfg.shapes && Fresh(s, a)
    requires InTime(cfg.shapes[a.shape], s, a.txns, a.snap.value)
    requires Sound(cfg.shapes[a.shape], Changes(s.ingest.history), CutOf(s, a), |s.dispatched|)
    ensures var src := cfg.shapes[a.shape];
            var i := LoadSnapshot(NewInst(src.def, src.filter), a.snap.value.lsn, a.snap.value.rows).0;
            CaughtUp(src, i, Changes(s.ingest.history), CutOf(s, a), |s.dispatched|) && i.snapshotLsn <= s.ingest.wal
  {
    var src, h, d := cfg.shapes[a.shape], Changes(s.ingest.history), |s.dispatched|;
    var cut := CutOf(s, a);
    SeparatedChanges(s.ingest.history, a.txns, a.snap.value.lsn);
    ChangesPrefix(s.ingest.history, a.txns);
    assert h[..cut] == Changes(s.ingest.history[..a.txns]);
    DispatchedIsPrefix(cfg.strict, s, p);
    if cut < d {
      NothingMissed(src, s.dispatched, h, a.snap.value.lsn, cut);
    }
    SoundPrefix(src, h, cut, d, 0);
    RegisteredInTime(src, h, a.snap.value.lsn, cut, a.snap.value.rows, d);
  }

  lemma NothingMissed(src: Source, dispatched: seq<Change>, h: seq<Change>, lsn: nat, cut: nat)
    requires dispatched <= h && CutAt(h, lsn, cut) && cut <= |dispatched|
    requires forall i :: 0 <= i < |dispatched| && OfTable(src.def, dispatched[i]) ==> dispatched[i].lsn <= lsn
    ensures Quiet(src.def, h, cut, |dispatched|)
  {
    forall j | cut <= j < |dispatched| ensures !OfTable(src.def, h[j]) {
      assert dispatched[j] == h[j];
    }
  }

  lemma DispatchedIsPrefix(strict: bool, s: State, p: nat)
    requires I.Inv(strict, s.ingest, p) && CursorInv(s)
    ensures s.dispatched <= Changes(s.ingest.history)
  {
    LogHoldsHistory(strict, s.ingest, p);
  }

  lemma RowsAreSelected(src: Source, t: Table, rows: seq<Row>)
    requires SnapshotOf(src, t, rows)
    ensures E.Selected(src.filter, rows)
  {
    forall i | 0 <= i < |rows| ensures SqlSelects(src.filter, rows[i]) {
      var k := PkKey(src.def.pk, rows[i]).value;
      assert k in SqlView(src.filter, t) && SqlView(src.filter, t)[k] == rows[i];
    }
  }

  lemma FreshIsLoaded(src: Source, snap: Option<E.Snapshot>)
    ensures var inst := E.FreshInst(src, snap);
            inst.Some? ==>
              snap.Some? && inst.value == LoadSnapshot(NewInst(src.def, src.filter), snap.value.lsn, snap.value.rows).0
  {
  }

  lemma SubscribeRespectsEngine(cfg: Config, s: State, a: Action, n: string)
    requires n in cfg.shapes && a.Subscribe? && a.shape in cfg.shapes && Respects(cfg, s, a, n)
    ensures E.Respects(cfg.shapes, s.engine, ToEngine(a), n)
  {
    if a.shape == n && Fresh(s, a) {
      RowsAreSelected(cfg.shapes[n], TableAt(cfg.shapes[n], Changes(s.ingest.history[..a.txns])), a.snap.value.rows);
    }
  }

  lemma SubscribeKeepsCaughtUp(cfg: Config, s: State, a: Action, n: string, p: nat)
    requires ConfigOk(cfg) && n in cfg.shapes && Inv(cfg.strict, s, p) && ShapeInv(cfg, s, n)
    requires a.Subscribe? && a.shape in cfg.shapes && a.id in s.engine.sessions && Respects(cfg, s, a, n)
    requires Followable(cfg, Step(cfg, s, a), n)
    ensures StreamCaughtUp(cfg, Step(cfg, s, a), n)
  {
    SubscribeRespectsEngine(cfg, s, a, n);
    E.JoinedStream(cfg.shapes, s.engine, ToEngine(a), n);
    if n == a.shape && Fresh(s, a) && n in Step(cfg, s, a).engine.streams {
      FreshIsLoaded(cfg.shapes[n], a.snap);
      JoinCatchesUp(cfg, s, a, p);
    }
  }

  /** A subscription either leaves the stream of the shape and its cut alone, or creates it. */
  lemma SubscribeWasFollowable(cfg: Config, s: State, a: Action, n: string)
    requires ConfigOk(cfg) && n in cfg.shapes && a.Subscribe? && a.shape in cfg.shapes && a.id in s.engine.sessions
    requires Followable(cfg, Step(cfg, s, a), n)
    ensures Followable(cfg, s, n)
  {
    if n in s.engine.streams {
      if n != a.shape {
        E.SubscribeElsewhere(cfg.shapes[a.shape], s.engine.streams, s.engine.sessions[a.id], a.snap, a.cached,
                             cfg.shapes[n].def.pk, n);
      }
      assert n in Step(cfg, s, a).engine.streams;
    }
  }

  lemma SubscribeKeepsShape(cfg: Config, s: State, a: Action, n: string, p: nat)
    requires ConfigOk(cfg) && n in cfg.shapes && Inv(cfg.strict, s, p) && ShapeInv(cfg, s, n)
    requires a.Subscribe? && a.shape in cfg.shapes && a.id in s.engine.sessions && Respects(cfg, s, a, n)
    requires Followable(cfg, Step(cfg, s, a), n)
    ensures ShapeInv(cfg, Step(cfg, s, a), n)
  {
    SubscribeRespectsEngine(cfg, s, a, n);
    E.JoinKeepsShape(cfg.shapes, s.engine, ToEngine(a), n);
    SubscribeKeepsCaughtUp(cfg, s, a, n, p);
  }

  lemma ClientKeepsShape(cfg: Config, s: State, e: E.Action, n: string)
    requires n in cfg.shapes && ShapeInv(cfg, s, n) && E.ClientOnly(e) && E.Respects(cfg.shapes, s.engine, e, n)
    ensures ShapeInv(cfg, s.(engine := E.ClientStep(s.engine, e)), n)
  {
    E.ClientStepKeepsShape(cfg.shapes, s.engine, e, n);
  }

  /** A poll step that dispatches nothing, and anything that is not enabled. */
  lemma QuietKeepsShape(cfg: Config, s: State, t: State, n: string)
    requires n in cfg.shapes && t == s.(batch := t.batch)
    ensures Followable(cfg, t, n) <==> Followable(cfg, s, n)
    ensures ShapeInv(cfg, s, n) ==> ShapeInv(cfg, t, n)
  {
  }

  /** If the history can be followed after an action, it could be before. */
  lemma StepWasFollowable(cfg: Config, s: State, a: Action, n: string, p: nat)
    requires ConfigOk(cfg) && n in cfg.shapes && Inv(cfg.strict, s, p) && !a.Restart?
    requires Followable(cfg, Step(cfg, s, a), n)
    ensures Followable(cfg, s, n)
  {
    match a
    case Ingest(b) => IngestWasFollowable(cfg, s, b, n, p);
    case DispatchNext(order) =>
      if s.batch.Some? && |s.batch.value| > 0 && E.Enumerates(order, s.engine.streams.Keys) {
        FollowableBefore(cfg, s, order, n, p);
      }
    case Subscribe(_, _, _, _, _) =>
      if a.shape in cfg.shapes && a.id in s.engine.sessions {
        SubscribeWasFollowable(cfg, s, a, n);
      }
    case Client(e) => ClientKeepsFollowable(cfg, s, e, n);
    case _ => QuietKeepsShape(cfg, s, Step(cfg, s, a), n);
  }

  lemma ClientKeepsFollowable(cfg: Config, s: State, e: E.Action, n: string)
    requires n in cfg.shapes
    ensures Followable(cfg, Step(cfg, s, Client(e)), n) <==> Followable(cfg, s, n)
  {
    assert E.ClientOnly(e) ==> E.ClientStep(s.engine, e).streams == s.engine.streams;
  }

  lemma StepKeepsShape(cfg: Config, s: State, a: Action, n: string, p: nat)
    requires ConfigOk(cfg) && n in cfg.shapes && Inv(cfg.strict, s, p) && Respects(cfg, s, a, n) && !a.Restart?
    requires ShapeInv(cfg, s, n) && Followable(cfg, Step(cfg, s, a), n)
    ensures ShapeInv(cfg, Step(cfg, s, a), n)
  {
    match a
    case Ingest(b) => IngestKeepsShape(cfg, s, b, n, p);
    case DispatchNext(order) =>
      if s.batch.Some? && |s.batch.value| > 0 && E.Enumerates(order, s.engine.streams.Keys) {
        FollowableBefore(cfg, s, order, n, p);
        DispatchKeepsShape(cfg, s, order, n, p);
      }
    case Subscribe(_, _, _, _, _) =>
      if a.shape in cfg.shapes && a.id in s.engine.sessions {
        SubscribeKeepsShape(cfg, s, a, n, p);
      }
    case Client(e) => if E.ClientOnly(e) { ClientKeepsShape(cfg, s, e, n); }
    case _ => QuietKeepsShape(cfg, s, Step(cfg, s, a), n);
  }

  lemma {:induction false} RunKeepsShape(cfg: Config, actions: seq<Action>, n: string)
    requires ConfigOk(cfg) && n in cfg.shapes && RespectfulRun(cfg, actions, n)
    requires Followable(cfg, Run(cfg, actions), n)
    ensures ShapeInv(cfg, Run(cfg, actions), n)
  {
    if |actions| > 0 && !actions[|actions| - 1].Restart? {
      var init := actions[..|actions| - 1];
      var p := RunKeepsInv(cfg, init);
      StepWasFollowable(cfg, Run(cfg, init), actions[|actions| - 1], n, p);
      RunKeepsShape(cfg, init, n);
      StepKeepsShape(cfg, Run(cfg, init), actions[|actions| - 1], n, p);
    }
  }

  // ---- results

  /** Fan-out cursor: in every run the dispatched changes are a gap-free, duplicate-free prefix of change_log, which is
      itself a prefix of the committed changes, and a poll that has run to its end stands on a transaction boundary. */
  lemma FanOutCursor(cfg: Config, actions: seq<Action>)
    ensures var s := Run(cfg, actions);
            var d := |s.dispatched|;
            && d <= |s.ingest.store.rows| <= |Changes(s.ingest.history)|
            && (forall i :: 0 <= i < d ==> s.dispatched[i] == s.ingest.store.rows[i].entry.change)
            && s.dispatched <= Changes(s.ingest.history)
            && (s.batch == Some([]) ==> Boundary(s.ingest.history, d))
  {
    var p := RunKeepsInv(cfg, actions);
    var s := Run(cfg, actions);
    LogHoldsHistory(cfg.strict, s.ingest, p);
  }

  /** The source table as of the first n changes, filtered for a shape. */
  function FilteredTable(src: Source, h: seq<I.Txn>, n: nat): Table {
    if n <= |Changes(h)| then View(src.filter, TableAt(src, Changes(h)[..n])) else map[]
  }

  /** End to end: in every interleaving of source commits, persists, acknowledgements, crashes, restarts, polls,
      subscriptions and slow or closed clients, whatever happens to other shapes, the cache of a live stream whose
      history can be followed is the filtered source table at the later of its snapshot cut and the dispatched
      position. */
  lemma StreamIsFilteredTable(cfg: Config, actions: seq<Action>, n: string)
    requires ConfigOk(cfg) && n in cfg.shapes && RespectfulRun(cfg, actions, n)
    ensures var s := Run(cfg, actions);
            n in s.engine.streams && s.engine.streams[n].log.halted.None? && Followable(cfg, s, n) ==>
              && n in s.cuts
              && Max(s.cuts[n], |s.dispatched|) <= |Changes(s.ingest.history)|
              && s.engine.streams[n].cache ==
                 FilteredTable(cfg.shapes[n], s.ingest.history, Max(s.cuts[n], |s.dispatched|))
  {
    if Followable(cfg, Run(cfg, actions), n) {
      RunKeepsShape(cfg, actions, n);
    }
  }

  /** If the session is open and subscribed, its replica of a live stream whose history can be followed is the filtered
      source table at the later of the stream's snapshot cut and the dispatched position. */
  ghost predicate HoldsFilteredTable(cfg: Config, s: State, id: nat, n: string)
    requires n in cfg.shapes
  {
    && id in s.engine.sessions && s.engine.sessions[id].open && n in s.engine.sessions[id].shapes
    && Followable(cfg, s, n) ==>
      && n in s.engine.streams
      && (s.engine.streams[n].log.halted.None? ==>
            && n in s.cuts
            && E.Replica(cfg.shapes[n].def.pk, s.engine.sessions[id], n) ==
               FilteredTable(cfg.shapes[n], s.ingest.history, Max(s.cuts[n], |s.dispatched|)))
  }

  /** The whole claim, for every session and shape of every run that respects the shape. */
  lemma ReplicaIsFilteredTable(cfg: Config, actions: seq<Action>, id: nat, n: string)
    requires ConfigOk(cfg) && n in cfg.shapes && RespectfulRun(cfg, actions, n)
    ensures HoldsFilteredTable(cfg, Run(cfg, actions), id, n)
  {
    var s := Run(cfg, actions);
    StreamIsFilteredTable(cfg, actions, n);
    if id in s.engine.sessions && Followable(cfg, s, n) {
      RunKeepsShape(cfg, actions, n);
      assert E.SessionInv(cfg.shapes, s.engine.streams, s.engine.sessions[id], n);
    }
  }

  lemma RunLast(cfg: Config, actions: seq<Action>, a: Action)
    ensures Run(cfg, actions + [a]) == Step(cfg, Run(cfg, actions), a)
  {
    assert (actions + [a])[..|actions|] == actions;
  }

  lemma RespectfulLast(cfg: Config, actions: seq<Action>, a: Action, n: string)
    requires n in cfg.shapes && RespectfulRun(cfg, actions, n) && Respects(cfg, Run(cfg, actions), a, n)
    ensures RespectfulRun(cfg, actions + [a], n)
  {
    assert (actions + [a])[..|actions|] == actions;
  }

  /** When everything committed has been dispatched, the replica is the filtered current table. */
  lemma QuiescentReplica(cfg: Config, actions: seq<Action>, id: nat, n: string)
    requires ConfigOk(cfg) && n in cfg.shapes && RespectfulRun(cfg, actions, n)
    ensures var s := Run(cfg, actions);
            && id in s.engine.sessions && s.engine.sessions[id].open && n in s.engine.sessions[id].shapes
            && |s.dispatched| == |Changes(s.ingest.history)| && Followable(cfg, s, n)
            && n in s.engine.streams && s.engine.streams[n].log.halted.None? ==>
              E.Replica(cfg.shapes[n].def.pk, s.engine.sessions[id], n) ==
              View(cfg.shapes[n].filter, TableAt(cfg.shapes[n], Changes(s.ingest.history)))
  {
    var s := Run(cfg, actions);
    StreamIsFilteredTable(cfg, actions, n);
    ReplicaIsFilteredTable(cfg, actions, id, n);
    var h := Changes(s.ingest.history);
    assert h[..|h|] == h;
  }

  /** Such states are reached: a client that connects and subscribes before anything else happens holds the filtered
      initial table of the shape. */
  lemma SubscriberHoldsView(cfg: Config, n: string, capacity: nat, rows: seq<Row>)
    requires ConfigOk(cfg) && n in cfg.shapes && capacity > 0 && TableOk(cfg.shapes[n], cfg.shapes[n].base)
    requires SnapshotOf(cfg.shapes[n], cfg.shapes[n].base, rows)
    ensures var actions :=
              [Client(E.Connect(0, capacity, map[], map[])), Subscribe(0, n, 0, Some(E.Snapshot(0, rows)), [])];
            var s := Run(cfg, actions);
            && RespectfulRun(cfg, actions, n) && Followable(cfg, s, n)
            && 0 in s.engine.sessions && s.engine.sessions[0].open && n in s.engine.sessions[0].shapes
            && E.Replica(cfg.shapes[n].def.pk, s.engine.sessions[0], n) ==
               View(cfg.shapes[n].filter, cfg.shapes[n].base)
  {
    var connect, join :=
      Client(E.Connect(0, capacity, map[], map[])), Subscribe(0, n, 0, Some(E.Snapshot(0, rows)), []);
    assert [connect, join][..1] == [connect] && [connect][..0] == [];
    assert Run(cfg, []) == INIT && Run(cfg, [connect]) == Step(cfg, INIT, connect);
    var s1 := Step(cfg, INIT, connect);
    assert RespectfulRun(cfg, [], n) && Respects(cfg, INIT, connect, n);
    assert [connect][..|[connect]| - 1] == [] && RespectfulRun(cfg, [connect], n);
    FirstSubscription(cfg, s1, join);
    assert RespectfulRun(cfg, [connect, join], n);
    RunKeepsShape(cfg, [connect, join], n);
    var s := Run(cfg, [connect, join]);
    assert s == Step(cfg, s1, join);
    assert E.SessionInv(cfg.shapes, s.engine.streams, s.engine.sessions[0], n);
  }

  lemma FirstSubscription(cfg: Config, s: State, a: Action)
    requires ConfigOk(cfg) && a.Subscribe? && a.shape in cfg.shapes
    requires a.txns == 0 && a.snap.Some? && a.snap.value.lsn == 0
    requires s == INIT.(engine := E.State(map[], s.engine.sessions))
    requires a.id in s.engine.sessions && E.Room(s.engine.sessions[a.id])
    requires TableOk(cfg.shapes[a.shape], cfg.shapes[a.shape].base)
    requires SnapshotOf(cfg.shapes[a.shape], cfg.shapes[a.shape].base, a.snap.value.rows)
    ensures Respects(cfg, s, a, a.shape) && Followable(cfg, Step(cfg, s, a), a.shape)
    ensures var t := Step(cfg, s, a);
            && a.shape in t.engine.streams
            && t.engine.streams[a.shape].cache == View(cfg.shapes[a.shape].filter, cfg.shapes[a.shape].base)
            && a.id in t.engine.sessions && t.engine.sessions[a.id].open && a.shape in t.engine.sessions[a.id].shapes
  {
    var src := cfg.shapes[a.shape];
    assert s.ingest.history[..0] == [] && Changes([]) == [] && Changes(s.ingest.history) == [];
    assert TableAt(src, Changes([])) == src.base;
    assert InTime(src, s, 0, a.snap.value);
    SnapshotLoads(src, src.base, 0, a.snap.value.rows);
    assert Step(cfg, s, a).engine == E.Join(src, s.engine, ToEngine(a));
    assert Sound(src, [], 0, 0);
  }
}
