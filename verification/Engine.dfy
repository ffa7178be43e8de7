/** Subscriptions and fan-out to sessions: one stream per shape name, the three ways a client joins, and the replica a
    client builds from what is queued to it. */
module Engine {
  import opened Rows
  import opened Filters
  import opened Wal
  import opened ShapeLog
  import opened Shapes
  import opened Views
  import opened Replay

  datatype Msg =
    | SnapshotMsg(shape: string, offset: int, rows: seq<Row>)
    | ChangeMsg(shape: string, ev: Event)
    | ErrorMsg(shape: string)

  /** `queued` is everything accepted for the client so far and `drained` how much of it the pump has written.
      `base` is the replica the client already held, per shape, when it connected. */
  datatype Session = Session(
    open: bool, capacity: nat, drained: nat, queued: seq<Msg>,
    resume: map<string, int>, shapes: set<string>, base: map<string, Table>)

  datatype State = State(streams: map<string, Inst>, sessions: map<nat, Session>)

  const EMPTY := State(map[], map[])

  // ---- queueing

  predicate Room(s: Session) { s.open && |s.queued| - s.drained < s.capacity }

  function Enqueue(s: Session, m: Msg): Session {
    if Room(s) then s.(queued := s.queued + [m]) else s
  }

  function Disconnect(s: Session): Session { s.(open := false) }

  /** Queues changes in order; a full buffer disconnects the client. */
  function EnqueueChanges(s: Session, shape: string, evs: seq<Event>): Session
    decreases |evs|
  {
    if |evs| == 0 then s
    else if !Room(s) then Disconnect(s)
    else EnqueueChanges(Enqueue(s, ChangeMsg(shape, evs[0])), shape, evs[1..])
  }

  function ResumeAt(s: Session, shape: string): int {
    if shape in s.resume then s.resume[shape] else 0
  }

  // ---- subscribing

  /** A table snapshot and its position. */
  datatype Snapshot = Snapshot(lsn: nat, rows: seq<Row>)

  /** The fresh stream of a shape; taking the snapshot or loading it can fail. */
  function FreshInst(cfg: Source, snap: Option<Snapshot>): Option<Inst> {
    if snap.None? then None
    else
      var (inst, err) := LoadSnapshot(NewInst(cfg.def, cfg.filter), snap.value.lsn, snap.value.rows);
      if err.Some? then None else Some(inst)
  }

  /** Resume by offset, the materialized rows of a live stream, or a fresh stream from a table snapshot.
      The flag says whether the subscription succeeded. */
  function SubscribeShape(cfg: Source, streams: map<string, Inst>, s: Session, snap: Option<Snapshot>, cached: seq<Row>)
    : (map<string, Inst>, Session, bool)
  {
    var name := cfg.def.name;
    var at := ResumeAt(s, name);
    if name in streams && at > 0 && After(streams[name].log, at).Some? then
      var t := EnqueueChanges(s, name, After(streams[name].log, at).value);
      (streams, t, t.open)
    else if name in streams && at == 0 then
      if Room(s) then (streams, Enqueue(s, SnapshotMsg(name, LastOffset(streams[name].log), cached)), true)
      else (streams, Disconnect(s), false)
    else
      var s1 := if name in streams && at > 0 then Enqueue(s, ErrorMsg(name)) else s;
      match FreshInst(cfg, snap)
      case None => (streams, s1, false)
      case Some(inst) =>
        var msg := SnapshotMsg(name, LastOffset(inst.log), snap.value.rows);
        if Room(s1) then (streams[name := inst], Enqueue(s1, msg), true)
        else (streams[name := inst], Disconnect(s1), false)
  }

  // ---- dispatching

  datatype Applied = Applied(shape: string, events: seq<Event>)

  /** The streams are visited in some order; the ones with events are reported in it. */
  function Results(streams: map<string, Inst>, ch: Change, order: seq<string>): seq<Applied> {
    if |order| == 0 then []
    else
      var n := order[|order| - 1];
      Results(streams, ch, order[..|order| - 1])
      + if n in streams && Apply(streams[n], ch).1.Ok? && |Apply(streams[n], ch).1.value| > 0
        then [Applied(n, Apply(streams[n], ch).1.value)] else []
  }

  /** The streams that failed because they drifted or were halted. */
  function Broken(streams: map<string, Inst>, ch: Change, order: seq<string>): seq<string> {
    if |order| == 0 then []
    else
      var n := order[|order| - 1];
      Broken(streams, ch, order[..|order| - 1])
      + if n in streams && Fatal(Apply(streams[n], ch).1) then [n] else []
  }

  predicate Fatal(r: Result<seq<Event>>) {
    r.Err? && (r.error.SchemaDrift? || r.error.Halted?)
  }

  function SendErrors(s: Session, broken: seq<string>): Session {
    if |broken| == 0 then s
    else
      var t := SendErrors(s, broken[..|broken| - 1]);
      var n := broken[|broken| - 1];
      if n in t.shapes then Enqueue(t, ErrorMsg(n)) else t
  }

  function Deliver(s: Session, results: seq<Applied>): Session {
    if |results| == 0 then s
    else
      var t := Deliver(s, results[..|results| - 1]);
      var r := results[|results| - 1];
      if r.shape in t.shapes then EnqueueChanges(t, r.shape, r.events) else t
  }

  function ApplyToAll(streams: map<string, Inst>, ch: Change): map<string, Inst> {
    map n | n in streams :: Apply(streams[n], ch).0
  }

  function Notify(streams: map<string, Inst>, ch: Change, order: seq<string>, s: Session): Session {
    Deliver(SendErrors(s, Broken(streams, ch, order)), Results(streams, ch, order))
  }

  function Dispatch(e: State, ch: Change, order: seq<string>): State {
    State(ApplyToAll(e.streams, ch),
          map id | id in e.sessions :: Notify(e.streams, ch, order, e.sessions[id]))
  }

  /** An iteration order over a set of names. */
  predicate Enumerates(order: seq<string>, names: set<string>) {
    && (forall i :: 0 <= i < |order| ==> order[i] in names)
    && (forall n :: n in names ==> n in order)
    && NoRepeats(order)
  }

  // ---- the client's replica

  /** What a client holds for a shape: a snapshot replaces the replica, a change is folded in, an error is ignored. */
  function FoldMsg(pk: seq<string>, m: Table, msg: Msg, shape: string): Table {
    if msg.shape != shape then m
    else match msg
      case SnapshotMsg(_, _, rows) => Laid(pk, map[], rows)
      case ChangeMsg(_, ev) => FoldEvent(pk, m, ev)
      case ErrorMsg(_) => m
  }

  function FoldMsgs(pk: seq<string>, m: Table, msgs: seq<Msg>, shape: string): Table {
    if |msgs| == 0 then m
    else FoldMsg(pk, FoldMsgs(pk, m, msgs[..|msgs| - 1], shape), msgs[|msgs| - 1], shape)
  }

  function Replica(pk: seq<string>, s: Session, shape: string): Table {
    FoldMsgs(pk, if shape in s.base then s.base[shape] else map[], s.queued, shape)
  }

  /** Everything about a session but what is queued and whether it is open. */
  predicate SameClient(s: Session, t: Session) {
    t == s.(queued := t.queued, open := t.open) && (t.open ==> s.open)
  }

  lemma EnqueueFolds(pk: seq<string>, s: Session, m: Msg, shape: string)
    ensures SameClient(s, Enqueue(s, m))
    ensures Replica(pk, Enqueue(s, m), shape) ==
            if Room(s) then FoldMsg(pk, Replica(pk, s, shape), m, shape) else Replica(pk, s, shape)
  {
    if Room(s) {
      FoldMsgsLast(pk, if shape in s.base then s.base[shape] else map[], s.queued, m, shape);
    }
  }

  lemma FoldMsgsLast(pk: seq<string>, base: Table, msgs: seq<Msg>, m: Msg, shape: string)
    ensures FoldMsgs(pk, base, msgs + [m], shape) == FoldMsg(pk, FoldMsgs(pk, base, msgs, shape), m, shape)
  {
    assert (msgs + [m])[..|msgs|] == msgs;
  }

  lemma {:induction false} EnqueueChangesFolds(
      pk: seq<string>, s: Session, name: string, evs: seq<Event>, shape: string)
    ensures var t := EnqueueChanges(s, name, evs);
            && SameClient(s, t)
            && (t.open ==>
                  Replica(pk, t, shape) ==
                  if shape == name then Fold(pk, Replica(pk, s, shape), evs) else Replica(pk, s, shape))
    decreases |evs|
  {
    if |evs| > 0 && Room(s) {
      var s1 := Enqueue(s, ChangeMsg(name, evs[0]));
      EnqueueFolds(pk, s, ChangeMsg(name, evs[0]), shape);
      EnqueueChangesFolds(pk, s1, name, evs[1..], shape);
      if shape == name {
        FoldConcat(pk, Replica(pk, s, shape), [evs[0]], evs[1..]);
        FoldOne(pk, Replica(pk, s, shape), evs[0]);
        assert [evs[0]] + evs[1..] == evs;
      }
    }
  }

  lemma FoldOne(pk: seq<string>, m: Table, e: Event)
    ensures Fold(pk, m, [e]) == FoldEvent(pk, m, e)
  {
    assert [e][..0] == [];
  }

  lemma {:induction false} SendErrorsFolds(pk: seq<string>, s: Session, broken: seq<string>, shape: string)
    ensures SameClient(s, SendErrors(s, broken)) && SendErrors(s, broken).open == s.open
    ensures Replica(pk, SendErrors(s, broken), shape) == Replica(pk, s, shape)
  {
    if |broken| > 0 {
      SendErrorsFolds(pk, s, broken[..|broken| - 1], shape);
      EnqueueFolds(pk, SendErrors(s, broken[..|broken| - 1]), ErrorMsg(broken[|broken| - 1]), shape);
    }
  }

  /** The events reported for a shape. */
  function EventsFor(results: seq<Applied>, shape: string): seq<Event> {
    if |results| == 0 then []
    else EventsFor(results[..|results| - 1], shape)
         + if results[|results| - 1].shape == shape then results[|results| - 1].events else []
  }

  lemma {:induction false} DeliverFolds(pk: seq<string>, s: Session, results: seq<Applied>, shape: string)
    ensures var t := Deliver(s, results);
            && SameClient(s, t)
            && (t.open ==>
                  Replica(pk, t, shape) ==
                  if shape in s.shapes then Fold(pk, Replica(pk, s, shape), EventsFor(results, shape))
                  else Replica(pk, s, shape))
  {
    if |results| > 0 {
      var init, r := results[..|results| - 1], results[|results| - 1];
      DeliverFolds(pk, s, init, shape);
      var t := Deliver(s, init);
      if r.shape in t.shapes {
        EnqueueChangesFolds(pk, t, r.shape, r.events, shape);
        FoldConcat(pk, Replica(pk, s, shape), EventsFor(init, shape), r.events);
      }
      assert EventsFor(init, shape) + [] == EventsFor(init, shape);
    }
  }

  /** What one stream adds to the reported events. */
  function Reported(streams: map<string, Inst>, ch: Change, n: string): seq<Event> {
    if n in streams && Apply(streams[n], ch).1.Ok? then Apply(streams[n], ch).1.value else []
  }

  lemma EventsForLast(results: seq<Applied>, r: Applied, shape: string)
    ensures EventsFor(results + [r], shape) == EventsFor(results, shape) + if r.shape == shape then r.events else []
  {
    assert (results + [r])[..|results|] == results;
  }

  lemma ResultsLast(streams: map<string, Inst>, ch: Change, order: seq<string>, shape: string)
    requires |order| > 0
    ensures var n := order[|order| - 1];
            EventsFor(Results(streams, ch, order), shape) ==
            EventsFor(Results(streams, ch, order[..|order| - 1]), shape)
            + if n == shape then Reported(streams, ch, n) else []
  {
    var n := order[|order| - 1];
    var before, evs := Results(streams, ch, order[..|order| - 1]), Reported(streams, ch, n);
    if |evs| > 0 {
      EventsForLast(before, Applied(n, evs), shape);
    } else {
      assert before + [] == before && EventsFor(before, shape) + [] == EventsFor(before, shape);
    }
  }

  predicate NoRepeats(order: seq<string>) {
    forall i, j :: 0 <= i < j < |order| ==> order[i] != order[j]
  }

  lemma LastIsNew(order: seq<string>)
    requires |order| > 0 && NoRepeats(order)
    ensures NoRepeats(order[..|order| - 1]) && order[|order| - 1] !in order[..|order| - 1]
    ensures forall n :: n in order <==> n in order[..|order| - 1] || n == order[|order| - 1]
  {
    assert order == order[..|order| - 1] + [order[|order| - 1]];
  }

  lemma {:induction false} EventsForResults(streams: map<string, Inst>, ch: Change, order: seq<string>, shape: string)
    requires NoRepeats(order)
    ensures EventsFor(Results(streams, ch, order), shape) == if shape in order then Reported(streams, ch, shape) else []
  {
    if |order| > 0 {
      LastIsNew(order);
      EventsForResults(streams, ch, order[..|order| - 1], shape);
      ResultsLast(streams, ch, order, shape);
    }
  }

  /** A dispatch changes the replica of a subscribed session by exactly the events appended to the stream. */
  lemma NotifyFolds(
      pk: seq<string>, streams: map<string, Inst>, ch: Change, order: seq<string>, s: Session, shape: string)
    requires Enumerates(order, streams.Keys)
    ensures var t := Notify(streams, ch, order, s);
            && SameClient(s, t)
            && (t.open ==>
                  Replica(pk, t, shape) ==
                  if shape in s.shapes && shape in streams && Apply(streams[shape], ch).1.Ok?
                  then Fold(pk, Replica(pk, s, shape), Apply(streams[shape], ch).1.value)
                  else Replica(pk, s, shape))
  {
    var s1 := SendErrors(s, Broken(streams, ch, order));
    SendErrorsFolds(pk, s, Broken(streams, ch, order), shape);
    DeliverFolds(pk, s1, Results(streams, ch, order), shape);
    EventsForResults(streams, ch, order, shape);
  }

  // ---- runs

  datatype Action =
    | Connect(id: nat, capacity: nat, resume: map<string, int>, base: map<string, Table>)
    | Subscribe(id: nat, shape: string, snap: Option<Snapshot>, cached: seq<Row>)
    | Change(ch: Wal.Change, order: seq<string>)
    | Pump(id: nat)
    | Close(id: nat)

  /** For one shape: the client resumes at 0, or at an offset the current stream issued, holding a replica from which
      the events after that offset lead to the stream's rows. `Reconnect` shows that clients of the current streams
      do. */
  predicate Resumable(
      cfg: map<string, Source>, streams: map<string, Inst>, resume: map<string, int>, base: map<string, Table>,
      n: string)
  {
    n in resume && resume[n] != 0 ==>
      && n in streams && n in cfg && n in base
      && 1 <= resume[n] <= |streams[n].log.events|
      && Converges(cfg[n].def.pk, base[n], streams[n].log.events, resume[n])
  }

  /** The rows of a fresh stream are results of the snapshot query, and the cached rows are what Materialized
      returns. */
  predicate Joinable(cfg: map<string, Source>, streams: map<string, Inst>, a: Action)
    requires a.Subscribe?
  {
    && a.shape in cfg
    && (a.shape !in streams && a.snap.Some? ==> Selected(cfg[a.shape].filter, a.snap.value.rows))
    && (a.shape in streams ==> Lists(a.cached, streams[a.shape].cache, cfg[a.shape].def.pk))
  }

  predicate Selected(f: Filter, rows: seq<Row>) {
    forall i :: 0 <= i < |rows| ==> SqlSelects(f, rows[i])
  }

  /** The session after a subscription; a failed one is reported without naming the shape. */
  function Settled(s: Session, shape: string, ok: bool): Session {
    if ok then s.(shapes := s.shapes + {shape}) else Enqueue(s, ErrorMsg(""))
  }

  function Join(cfg: Source, e: State, a: Action): State
    requires a.Subscribe? && a.id in e.sessions
  {
    var (streams, s, ok) := SubscribeShape(cfg, e.streams, e.sessions[a.id], a.snap, a.cached);
    State(streams, e.sessions[a.id := Settled(s, a.shape, ok)])
  }

  predicate ClientOnly(a: Action) { a.Connect? || a.Pump? || a.Close? }

  /** Connecting, pumping and closing touch one session. */
  function ClientStep(e: State, a: Action): State
    requires ClientOnly(a)
  {
    match a
    case Connect(id, capacity, resume, base) =>
      if id in e.sessions then e
      else e.(sessions := e.sessions[id := Session(true, capacity, 0, [], resume, {}, base)])
    case Pump(id) =>
      if id in e.sessions && e.sessions[id].drained < |e.sessions[id].queued|
      then e.(sessions := e.sessions[id := e.sessions[id].(drained := e.sessions[id].drained + 1)]) else e
    case Close(id) =>
      if id in e.sessions then e.(sessions := e.sessions[id := Disconnect(e.sessions[id])]) else e
  }

  /** An action that is not enabled leaves the state alone. Subscribing and dispatching are atomic. */
  function Step(cfg: map<string, Source>, e: State, a: Action): State {
    match a
    case Subscribe(id, shape, _, _) => if id in e.sessions && shape in cfg then Join(cfg[shape], e, a) else e
    case Change(ch, order) => if Enumerates(order, e.streams.Keys) then Dispatch(e, ch, order) else e
    case _ => ClientStep(e, a)
  }

  function Run(cfg: map<string, Source>, actions: seq<Action>): State {
    if |actions| == 0 then EMPTY
    else Step(cfg, Run(cfg, actions[..|actions| - 1]), actions[|actions| - 1])
  }

  /** What one action has to respect for a shape to stay right; the other shapes may fare as they like. */
  predicate Respects(cfg: map<string, Source>, e: State, a: Action, n: string) {
    match a
    case Connect(id, _, resume, base) => id !in e.sessions ==> Resumable(cfg, e.streams, resume, base, n)
    case Subscribe(_, shape, _, _) => shape == n ==> Joinable(cfg, e.streams, a)
    case Change(ch, _) => n in e.streams && Reaches(e.streams[n], ch) ==> KeyPreserving(e.streams[n], ch)
    case _ => true
  }

  predicate RespectfulRun(cfg: map<string, Source>, actions: seq<Action>, n: string) {
    |actions| == 0 ||
    (var init := actions[..|actions| - 1];
     RespectfulRun(cfg, init, n) && Respects(cfg, Run(cfg, init), actions[|actions| - 1], n))
  }

  /** Shapes are registered under their names. */
  predicate ConfigOk(cfg: map<string, Source>) {
    forall n :: n in cfg ==> cfg[n].def.name == n
  }

  ghost predicate StreamInv(cfg: map<string, Source>, n: string, i: Inst) {
    n in cfg && Serves(i, cfg[n]) && Replays(i)
  }

  /** A subscribed open session holds the cached rows; an unsubscribed one that will resume still converges from its
      resume offset. */
  ghost predicate SessionInv(cfg: map<string, Source>, streams: map<string, Inst>, s: Session, n: string)
    requires n in cfg
  {
    && (ResumeAt(s, n) != 0 ==> n in streams && 1 <= ResumeAt(s, n) <= |streams[n].log.events|)
    && (n in s.shapes ==> n in streams)
    && (s.open && n in s.shapes ==> Replica(cfg[n].def.pk, s, n) == streams[n].cache)
    && (s.open && n !in s.shapes && ResumeAt(s, n) != 0 ==>
          Converges(cfg[n].def.pk, Replica(cfg[n].def.pk, s, n), streams[n].log.events, ResumeAt(s, n)))
  }

  /** The stream of one shape, and every session as far as that shape is concerned. */
  ghost predicate ShapeInv(cfg: map<string, Source>, e: State, n: string)
    requires n in cfg
  {
    && (n in e.streams ==> StreamInv(cfg, n, e.streams[n]))
    && (forall id :: id in e.sessions ==> SessionInv(cfg, e.streams, e.sessions[id], n))
  }

  /** The stream's value is the fold of its log before the events, followed by the events. */
  lemma ApplyFolds(i: Inst, ch: Wal.Change)
    requires Replays(i) && (Reaches(i, ch) ==> KeyPreserving(i, ch))
    ensures var (j, r) := Apply(i, ch);
            && Replays(j) && j.def == i.def && j.filter == i.filter && i.log.events <= j.log.events
            && j.cache == if r.Ok? then Fold(i.def.pk, i.cache, r.value) else i.cache
  {
    var (j, r) := Apply(i, ch);
    ApplyReplays(i, ch);
    ApplyAppends(i, ch);
    ApplyKeeps(i, ch);
    var evs := if r.Ok? then r.value else [];
    FoldConcat(i.def.pk, map[], i.log.events, evs);
  }

  lemma DispatchKeepsShape(cfg: map<string, Source>, e: State, ch: Wal.Change, order: seq<string>, n: string)
    requires n in cfg && ShapeInv(cfg, e, n) && Enumerates(order, e.streams.Keys)
    requires Respects(cfg, e, Action.Change(ch, order), n)
    ensures ShapeInv(cfg, Dispatch(e, ch, order), n)
  {
    var f := Dispatch(e, ch, order);
    if n in f.streams {
      ApplyFolds(e.streams[n], ch);
    }
    forall id | id in f.sessions ensures SessionInv(cfg, f.streams, f.sessions[id], n) {
      NotifyKeepsSession(cfg, e, ch, order, id, n);
    }
  }

  lemma NotifyKeepsSession(cfg: map<string, Source>, e: State, ch: Wal.Change, order: seq<string>, id: nat, n: string)
    requires n in cfg && ShapeInv(cfg, e, n) && Enumerates(order, e.streams.Keys) && id in e.sessions
    requires Respects(cfg, e, Action.Change(ch, order), n)
    ensures SessionInv(cfg, ApplyToAll(e.streams, ch), Notify(e.streams, ch, order, e.sessions[id]), n)
  {
    var s, pk := e.sessions[id], cfg[n].def.pk;
    assert SessionInv(cfg, e.streams, s, n);
    NotifyFolds(pk, e.streams, ch, order, s, n);
    if n in e.streams {
      ApplyFolds(e.streams[n], ch);
      if s.open && n !in s.shapes && ResumeAt(s, n) != 0 {
        StillConverges(pk, Replica(pk, s, n), e.streams[n], ch, ResumeAt(s, n));
      }
    }
  }

  lemma StillConverges(pk: seq<string>, m: Table, i: Inst, ch: Wal.Change, at: int)
    requires Converges(pk, m, i.log.events, at)
    ensures Converges(pk, m, Apply(i, ch).0.log.events, at)
  {
    ApplyAppends(i, ch);
    var r := Apply(i, ch).1;
    ConvergesGrows(pk, m, i.log.events, if r.Ok? then r.value else [], at);
  }

  /** The fresh stream's cache is what the snapshot message carries. */
  lemma FreshStream(src: Source, snap: Option<Snapshot>)
    requires snap.Some? ==> Selected(src.filter, snap.value.rows)
    ensures var inst := FreshInst(src, snap);
            inst.Some? ==>
              && snap.Some? && Serves(inst.value, src) && Replays(inst.value)
              && inst.value.cache == Laid(src.def.pk, map[], snap.value.rows)
  {
    if snap.Some? {
      var rows := snap.value.rows;
      forall i | 0 <= i < |rows| ensures Matches(src.filter, rows[i]) {
        SqlSelectsIff(src.filter, rows[i]);
      }
      var start := NewInst(src.def, src.filter).(snapshotLsn := snap.value.lsn, hasSnapshot := true);
      LoadRowsLays(start, rows);
      LoadReplays(start, rows);
    }
  }

  /** What a subscription does to its own session, its own stream and its own shape. */
  lemma SubscribeJoins(cfg: map<string, Source>, e: State, a: Action)
    requires ConfigOk(cfg) && a.Subscribe? && a.id in e.sessions && Joinable(cfg, e.streams, a)
    requires ShapeInv(cfg, e, a.shape)
    ensures var (streams, t, ok) := SubscribeShape(cfg[a.shape], e.streams, e.sessions[a.id], a.snap, a.cached);
            && SameClient(e.sessions[a.id], t)
            && (a.shape in e.streams ==> streams == e.streams)
            && (a.shape in streams ==> StreamInv(cfg, a.shape, streams[a.shape]))
            && (ok ==> a.shape in streams)
            && (ok && t.open ==> Replica(cfg[a.shape].def.pk, t, a.shape) == streams[a.shape].cache)
            && (!ok && t.open ==> t == e.sessions[a.id])
  {
    var n, s := a.shape, e.sessions[a.id];
    var pk, at := cfg[n].def.pk, ResumeAt(s, n);
    assert SessionInv(cfg, e.streams, s, n);
    if n in e.streams {
      var i := e.streams[n];
      if at > 0 {
        AfterIssuedOffset(i.log, at);
        var evs := i.log.events;
        EnqueueChangesFolds(pk, s, n, evs[at..], n);
        ReplayOverlap(pk, map[], evs, at, |evs|);
        assert evs[..|evs|] == evs;
      } else {
        LaidLists(pk, a.cached, i.cache);
        EnqueueFolds(pk, s, SnapshotMsg(n, LastOffset(i.log), a.cached), n);
      }
    } else {
      FreshStream(cfg[n], a.snap);
      var inst := FreshInst(cfg[n], a.snap);
      if inst.Some? {
        EnqueueFolds(pk, s, SnapshotMsg(n, LastOffset(inst.value.log), a.snap.value.rows), n);
      }
    }
  }

  /** What a subscription, right or wrong, does to any other shape: nothing. */
  lemma SubscribeElsewhere(
      src: Source, streams: map<string, Inst>, s: Session, snap: Option<Snapshot>, cached: seq<Row>,
      pk: seq<string>, n: string)
    requires n != src.def.name
    ensures var (later, t, _) := SubscribeShape(src, streams, s, snap, cached);
            && SameClient(s, t)
            && (n in later <==> n in streams) && (n in streams ==> later[n] == streams[n])
            && (t.open ==> Replica(pk, t, n) == Replica(pk, s, n))
  {
    var name := src.def.name;
    var at := ResumeAt(s, name);
    if name in streams && at > 0 && After(streams[name].log, at).Some? {
      EnqueueChangesFolds(pk, s, name, After(streams[name].log, at).value, n);
    } else if name in streams && at == 0 {
      EnqueueFolds(pk, s, SnapshotMsg(name, LastOffset(streams[name].log), cached), n);
    } else {
      EnqueueFolds(pk, s, ErrorMsg(name), n);
      var s1 := if name in streams && at > 0 then Enqueue(s, ErrorMsg(name)) else s;
      var inst := FreshInst(src, snap);
      if inst.Some? {
        EnqueueFolds(pk, s1, SnapshotMsg(name, LastOffset(inst.value.log), snap.value.rows), n);
      }
    }
  }

  lemma JoinKeepsShape(cfg: map<string, Source>, e: State, a: Action, n: string)
    requires ConfigOk(cfg) && n in cfg && ShapeInv(cfg, e, n)
    requires a.Subscribe? && a.id in e.sessions && a.shape in cfg && Respects(cfg, e, a, n)
    ensures ShapeInv(cfg, Join(cfg[a.shape], e, a), n)
  {
    var f := Join(cfg[a.shape], e, a);
    JoinedStream(cfg, e, a, n);
    forall id | id in f.sessions ensures SessionInv(cfg, f.streams, f.sessions[id], n) {
      assert SessionInv(cfg, e.streams, e.sessions[id], n);
      if id == a.id {
        OwnSessionJoins(cfg, e, a, n);
      }
    }
  }

  /** The stream of a shape after a subscription, to this shape or another. */
  lemma JoinedStream(cfg: map<string, Source>, e: State, a: Action, n: string)
    requires ConfigOk(cfg) && n in cfg && ShapeInv(cfg, e, n)
    requires a.Subscribe? && a.id in e.sessions && a.shape in cfg && Respects(cfg, e, a, n)
    ensures var later := Join(cfg[a.shape], e, a).streams;
            && (n in e.streams ==> n in later && later[n] == e.streams[n])
            && (n in later ==> StreamInv(cfg, n, later[n]))
            && (n != a.shape ==> (n in later <==> n in e.streams))
            && (n == a.shape && n !in e.streams ==>
                  (n in later <==> FreshInst(cfg[n], a.snap).Some?)
                  && (n in later ==> later[n] == FreshInst(cfg[n], a.snap).value))
  {
    if n == a.shape {
      SubscribeJoins(cfg, e, a);
    } else {
      SubscribeElsewhere(cfg[a.shape], e.streams, e.sessions[a.id], a.snap, a.cached, cfg[n].def.pk, n);
    }
  }

  /** Settling a subscription shows no rows to the client. */
  lemma SettledFolds(pk: seq<string>, s: Session, shape: string, ok: bool, n: string)
    ensures var t := Settled(s, shape, ok);
            && Replica(pk, t, n) == Replica(pk, s, n) && t.open == s.open && ResumeAt(t, n) == ResumeAt(s, n)
            && t.shapes == if ok then s.shapes + {shape} else s.shapes
  {
    EnqueueFolds(pk, s, ErrorMsg(""), n);
  }

  lemma OwnSessionJoins(cfg: map<string, Source>, e: State, a: Action, n: string)
    requires ConfigOk(cfg) && n in cfg && ShapeInv(cfg, e, n)
    requires a.Subscribe? && a.id in e.sessions && a.shape in cfg && Respects(cfg, e, a, n)
    ensures var f := Join(cfg[a.shape], e, a);
            SessionInv(cfg, f.streams, f.sessions[a.id], n)
  {
    var s := e.sessions[a.id];
    var (streams, t, ok) := SubscribeShape(cfg[a.shape], e.streams, s, a.snap, a.cached);
    assert SessionInv(cfg, e.streams, s, n);
    if n == a.shape {
      SubscribeJoins(cfg, e, a);
    } else {
      SubscribeElsewhere(cfg[a.shape], e.streams, s, a.snap, a.cached, cfg[n].def.pk, n);
    }
    SettledFolds(cfg[n].def.pk, t, a.shape, ok, n);
    SettledSession(cfg, e.streams, streams, s, t, Settled(t, a.shape, ok), n);
  }

  /** A session keeps its invariant when its replica of the shape is unchanged, or is the stream's rows. */
  lemma SettledSession(
      cfg: map<string, Source>, streams: map<string, Inst>, later: map<string, Inst>,
      s: Session, t: Session, u: Session, n: string)
    requires n in cfg && SessionInv(cfg, streams, s, n) && SameClient(s, t)
    requires n in streams ==> n in later && later[n] == streams[n]
    requires u.open == t.open && ResumeAt(u, n) == ResumeAt(s, n)
    requires Replica(cfg[n].def.pk, u, n) == Replica(cfg[n].def.pk, t, n)
    requires n in u.shapes && n !in s.shapes ==> n in later
    requires t.open ==>
               || (n in later && n in u.shapes && Replica(cfg[n].def.pk, t, n) == later[n].cache)
               || (Replica(cfg[n].def.pk, t, n) == Replica(cfg[n].def.pk, s, n) && (n in u.shapes <==> n in s.shapes))
    ensures SessionInv(cfg, later, u, n)
  {
  }

  lemma ClientStepKeepsShape(cfg: map<string, Source>, e: State, a: Action, n: string)
    requires n in cfg && ShapeInv(cfg, e, n) && ClientOnly(a) && Respects(cfg, e, a, n)
    ensures ShapeInv(cfg, ClientStep(e, a), n) && ClientStep(e, a).streams == e.streams
  {
    var f := ClientStep(e, a);
    forall id | id in f.sessions ensures SessionInv(cfg, f.streams, f.sessions[id], n) {
      if id in e.sessions {
        assert SessionInv(cfg, e.streams, e.sessions[id], n);
        SessionFrame(cfg, e.streams, e.sessions[id], f.sessions[id], n);
      } else {
        NewSession(cfg, e.streams, f.sessions[id], n);
      }
    }
  }

  lemma SessionFrame(cfg: map<string, Source>, streams: map<string, Inst>, s: Session, t: Session, n: string)
    requires n in cfg && SessionInv(cfg, streams, s, n)
    requires t == s.(open := t.open, drained := t.drained) && (t.open ==> s.open)
    ensures SessionInv(cfg, streams, t, n)
  {
    assert Replica(cfg[n].def.pk, t, n) == Replica(cfg[n].def.pk, s, n);
  }

  lemma NewSession(cfg: map<string, Source>, streams: map<string, Inst>, s: Session, n: string)
    requires n in cfg && Resumable(cfg, streams, s.resume, s.base, n) && s.queued == [] && s.shapes == {}
    ensures SessionInv(cfg, streams, s, n)
  {
  }

  lemma StepKeepsShape(cfg: map<string, Source>, e: State, a: Action, n: string)
    requires ConfigOk(cfg) && n in cfg && ShapeInv(cfg, e, n) && Respects(cfg, e, a, n)
    ensures ShapeInv(cfg, Step(cfg, e, a), n)
  {
    match a
    case Subscribe(id, shape, _, _) => if id in e.sessions && shape in cfg { JoinKeepsShape(cfg, e, a, n); }
    case Change(ch, order) => if Enumerates(order, e.streams.Keys) { DispatchKeepsShape(cfg, e, ch, order, n); }
    case _ => ClientStepKeepsShape(cfg, e, a, n);
  }

  lemma {:induction false} RunKeepsShape(cfg: map<string, Source>, actions: seq<Action>, n: string)
    requires ConfigOk(cfg) && n in cfg && RespectfulRun(cfg, actions, n)
    ensures ShapeInv(cfg, Run(cfg, actions), n)
  {
    if |actions| > 0 {
      RunKeepsShape(cfg, actions[..|actions| - 1], n);
      StepKeepsShape(cfg, Run(cfg, actions[..|actions| - 1]), actions[|actions| - 1], n);
    }
  }

  /** Client convergence: in every run that respects the shape, folding everything queued to an open session onto the
      replica it had when it connected gives exactly the rows of the stream, whichever way it joined. */
  lemma ClientConvergence(cfg: map<string, Source>, actions: seq<Action>, id: nat, shape: string)
    requires ConfigOk(cfg) && shape in cfg && RespectfulRun(cfg, actions, shape)
    ensures var e := Run(cfg, actions);
            id in e.sessions && e.sessions[id].open && shape in e.sessions[id].shapes ==>
              shape in e.streams && Replica(cfg[shape].def.pk, e.sessions[id], shape) == e.streams[shape].cache
  {
    RunKeepsShape(cfg, actions, shape);
    var e := Run(cfg, actions);
    if id in e.sessions {
      assert SessionInv(cfg, e.streams, e.sessions[id], shape);
    }
  }

  // ---- a stale resume offset

  /** Exactly when a subscription replaces a stream that is being served: its resume offset is negative, or positive
      while the log is empty. */
  lemma StreamReplacedExactly(
      src: Source, streams: map<string, Inst>, s: Session, snap: Option<Snapshot>, cached: seq<Row>)
    requires src.def.name in streams && Contiguous(streams[src.def.name].log) && FreshInst(src, snap).Some?
    ensures var n := src.def.name;
            SubscribeShape(src, streams, s, snap, cached).0 ==
            if n in s.resume && (s.resume[n] < 0 || (s.resume[n] > 0 && |streams[n].log.events| == 0))
            then streams[n := FreshInst(src, snap).value] else streams
  {
  }

  /** What that does to the others: a client that was right about an empty stream stays connected and subscribed, and is
      wrong about the stream that replaced it. */
  lemma StaleOffsetStrandsClient(cfg: map<string, Source>, e: State, a: Action, id: nat)
    requires ConfigOk(cfg) && a.Subscribe? && a.shape in cfg && a.shape in e.streams && a.id in e.sessions
    requires StreamInv(cfg, a.shape, e.streams[a.shape]) && |e.streams[a.shape].log.events| == 0
    requires id in e.sessions && id != a.id && e.sessions[id].open && a.shape in e.sessions[id].shapes
    requires SessionInv(cfg, e.streams, e.sessions[id], a.shape) && ResumeAt(e.sessions[a.id], a.shape) > 0
    requires FreshInst(cfg[a.shape], a.snap).Some? && Selected(cfg[a.shape].filter, a.snap.value.rows)
    requires a.snap.value.rows != []
    ensures var f := Step(cfg, e, a);
            && f.sessions[id] == e.sessions[id] && a.shape in f.streams
            && Replica(cfg[a.shape].def.pk, f.sessions[id], a.shape) == map[] != f.streams[a.shape].cache
  {
    StreamReplacedExactly(cfg[a.shape], e.streams, e.sessions[a.id], a.snap, a.cached);
    FreshStream(cfg[a.shape], a.snap);
    LaidNonEmpty(cfg[a.shape].def.pk, map[], a.snap.value.rows);
  }

  lemma {:induction false} LaidNonEmpty(pk: seq<string>, m: Table, rows: seq<Row>)
    requires m != map[] || rows != []
    ensures Laid(pk, m, rows) != map[]
    decreases |rows|
  {
    if |rows| > 0 {
      var next := m[KeyOf(pk, Some(rows[0])) := rows[0]];
      assert KeyOf(pk, Some(rows[0])) in next;
      LaidNonEmpty(pk, next, rows[1..]);
    }
  }
}
