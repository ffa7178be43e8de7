/** Reconnecting: wherever a client stops reading, the offset it last saw and the replica it holds there are a resume
    point of the stream, so the resume offsets that `Engine` asks of clients are the ones its own clients hold. */
module Reconnect {
  import opened Rows
  import opened Wal
  import opened ShapeLog
  import opened Shapes
  import opened Views
  import opened Replay
  import opened Engine
  import P = Pipeline

  // ---- what a client remembers

  /** Snapshots and changes are stamped with an offset, errors are not. */
  function Seen(last: int, msg: Msg, shape: string): int {
    if msg.shape != shape then last
    else match msg
      case SnapshotMsg(_, offset, _) => offset
      case ChangeMsg(_, ev) => ev.offset
      case ErrorMsg(_) => last
  }

  function LastSeen(start: int, msgs: seq<Msg>, shape: string): int {
    if |msgs| == 0 then start
    else Seen(LastSeen(start, msgs[..|msgs| - 1], shape), msgs[|msgs| - 1], shape)
  }

  function Base(s: Session, shape: string): Table {
    if shape in s.base then s.base[shape] else map[]
  }

  /** Offset 0 asks for a snapshot; any other one must lead to the full fold. */
  predicate Safe(pk: seq<string>, evs: seq<Event>, m: Table, offset: int) {
    offset != 0 ==> 1 <= offset && Converges(pk, m, evs, offset)
  }

  /** Every prefix of the messages leaves the client at a safe point. */
  predicate Points(pk: seq<string>, evs: seq<Event>, base: Table, start: int, msgs: seq<Msg>, shape: string) {
    && Safe(pk, evs, FoldMsgs(pk, base, msgs, shape), LastSeen(start, msgs, shape))
    && (|msgs| > 0 ==> Points(pk, evs, base, start, msgs[..|msgs| - 1], shape))
  }

  predicate SessionPoints(pk: seq<string>, evs: seq<Event>, s: Session, shape: string) {
    Points(pk, evs, Base(s, shape), ResumeAt(s, shape), s.queued, shape)
  }

  function EventsOf(streams: map<string, Inst>, shape: string): seq<Event> {
    if shape in streams then streams[shape].log.events else []
  }

  ghost predicate PointsInv(cfg: map<string, Source>, e: State, n: string)
    requires n in cfg
  {
    forall id :: id in e.sessions ==> SessionPoints(cfg[n].def.pk, EventsOf(e.streams, n), e.sessions[id], n)
  }

  predicate Numbered(evs: seq<Event>) {
    forall i :: 0 <= i < |evs| ==> evs[i].offset == i + 1
  }

  lemma {:induction false} PointsGrow(
      pk: seq<string>, evs: seq<Event>, more: seq<Event>, base: Table, start: int, msgs: seq<Msg>, shape: string)
    requires Points(pk, evs, base, start, msgs, shape)
    ensures Points(pk, evs + more, base, start, msgs, shape)
  {
    if LastSeen(start, msgs, shape) != 0 {
      ConvergesGrows(pk, FoldMsgs(pk, base, msgs, shape), evs, more, LastSeen(start, msgs, shape));
    }
    if |msgs| > 0 {
      PointsGrow(pk, evs, more, base, start, msgs[..|msgs| - 1], shape);
    }
  }

  lemma SessionPointsGrow(pk: seq<string>, evs: seq<Event>, later: seq<Event>, s: Session, shape: string)
    requires SessionPoints(pk, evs, s, shape) && evs <= later
    ensures SessionPoints(pk, later, s, shape)
  {
    PointsGrow(pk, evs, later[|evs|..], Base(s, shape), ResumeAt(s, shape), s.queued, shape);
    assert evs + later[|evs|..] == later;
  }

  lemma {:induction false} PointsPrefix(
      pk: seq<string>, evs: seq<Event>, base: Table, start: int, msgs: seq<Msg>, shape: string, j: nat)
    requires Points(pk, evs, base, start, msgs, shape) && j <= |msgs|
    ensures Safe(pk, evs, FoldMsgs(pk, base, msgs[..j], shape), LastSeen(start, msgs[..j], shape))
  {
    if j == |msgs| {
      assert msgs[..j] == msgs;
    } else {
      PointsPrefix(pk, evs, base, start, msgs[..|msgs| - 1], shape, j);
      assert msgs[..|msgs| - 1][..j] == msgs[..j];
    }
  }

  // ---- queueing

  lemma EnqueuePoints(pk: seq<string>, evs: seq<Event>, s: Session, m: Msg, shape: string)
    requires SessionPoints(pk, evs, s, shape)
    requires m.shape == shape && !m.ErrorMsg? && Room(s) ==>
               Safe(pk, evs, FoldMsg(pk, Replica(pk, s, shape), m, shape), Seen(0, m, shape))
    ensures SessionPoints(pk, evs, Enqueue(s, m), shape)
  {
    if Room(s) {
      assert (s.queued + [m])[..|s.queued|] == s.queued;
      FoldMsgsLast(pk, Base(s, shape), s.queued, m, shape);
    }
  }

  lemma ConvergesStep(pk: seq<string>, m: Table, evs: seq<Event>, at: nat)
    requires at < |evs| && Converges(pk, m, evs, at)
    ensures Converges(pk, FoldEvent(pk, m, evs[at]), evs, at + 1)
  {
    FoldConcat(pk, m, [evs[at]], evs[at + 1..]);
    FoldOne(pk, m, evs[at]);
    assert [evs[at]] + evs[at + 1..] == evs[at..];
  }

  /** Replaying the stream from a point it converges from passes through safe points only. */
  lemma {:induction false} EnqueueChangesPoints(
      pk: seq<string>, evs: seq<Event>, s: Session, shape: string, at: nat, upto: nat)
    requires Numbered(evs) && at <= upto <= |evs| && SessionPoints(pk, evs, s, shape)
    requires s.open ==> Converges(pk, Replica(pk, s, shape), evs, at)
    ensures var t := EnqueueChanges(s, shape, evs[at..upto]);
            && SessionPoints(pk, evs, t, shape)
            && (t.open ==> Converges(pk, Replica(pk, t, shape), evs, upto))
    decreases upto - at
  {
    if at < upto && Room(s) {
      var m := ChangeMsg(shape, evs[at]);
      ConvergesStep(pk, Replica(pk, s, shape), evs, at);
      EnqueuePoints(pk, evs, s, m, shape);
      EnqueueFolds(pk, s, m, shape);
      EnqueueChangesPoints(pk, evs, Enqueue(s, m), shape, at + 1, upto);
      assert evs[at..upto][1..] == evs[at + 1..upto];
    }
  }

  lemma {:induction false} EnqueueChangesElsewhere(
      pk: seq<string>, evs: seq<Event>, s: Session, name: string, es: seq<Event>, shape: string)
    requires SessionPoints(pk, evs, s, shape) && name != shape
    ensures SessionPoints(pk, evs, EnqueueChanges(s, name, es), shape)
    decreases |es|
  {
    if |es| > 0 && Room(s) {
      EnqueuePoints(pk, evs, s, ChangeMsg(name, es[0]), shape);
      EnqueueChangesElsewhere(pk, evs, Enqueue(s, ChangeMsg(name, es[0])), name, es[1..], shape);
    }
  }

  lemma {:induction false} SendErrorsPoints(
      pk: seq<string>, evs: seq<Event>, s: Session, broken: seq<string>, shape: string)
    requires SessionPoints(pk, evs, s, shape)
    ensures SessionPoints(pk, evs, SendErrors(s, broken), shape)
  {
    if |broken| > 0 {
      var init, n := broken[..|broken| - 1], broken[|broken| - 1];
      SendErrorsPoints(pk, evs, s, init, shape);
      EnqueuePoints(pk, evs, SendErrors(s, init), ErrorMsg(n), shape);
    }
  }

  // ---- dispatching

  lemma CompleteConverges(pk: seq<string>, m: Table, evs: seq<Event>)
    requires m == Fold(pk, map[], evs)
    ensures Converges(pk, m, evs, |evs|)
  {
    assert evs[|evs|..] == [];
  }

  /** One report: the next stretch of the stream for this shape, or another shape's events. */
  lemma ReportPoints(
      pk: seq<string>, evs: seq<Event>, s: Session, r: Applied, at: nat, upto: nat, shape: string)
    requires Numbered(evs) && at <= upto <= |evs| && SessionPoints(pk, evs, s, shape)
    requires evs[at..upto] == if r.shape == shape then r.events else []
    requires s.open && shape in s.shapes ==> Converges(pk, Replica(pk, s, shape), evs, at)
    ensures var t := if r.shape in s.shapes then EnqueueChanges(s, r.shape, r.events) else s;
            && SessionPoints(pk, evs, t, shape)
            && (t.open && shape in s.shapes ==> Converges(pk, Replica(pk, t, shape), evs, upto))
  {
    if r.shape == shape {
      if shape in s.shapes { EnqueueChangesPoints(pk, evs, s, shape, at, upto); }
    } else {
      assert |evs[at..upto]| == 0;
      if r.shape in s.shapes {
        EnqueueChangesElsewhere(pk, evs, s, r.shape, r.events, shape);
        EnqueueChangesFolds(pk, s, r.shape, r.events, shape);
      }
    }
  }

  lemma {:induction false} DeliverPoints(
      pk: seq<string>, evs: seq<Event>, s: Session, results: seq<Applied>, at: nat, upto: nat, shape: string)
    requires Numbered(evs) && at <= upto <= |evs| && SessionPoints(pk, evs, s, shape)
    requires evs[at..upto] == EventsFor(results, shape)
    requires s.open && shape in s.shapes ==> Converges(pk, Replica(pk, s, shape), evs, at)
    ensures var t := Deliver(s, results);
            && SessionPoints(pk, evs, t, shape)
            && (t.open && shape in s.shapes ==> Converges(pk, Replica(pk, t, shape), evs, upto))
    decreases |results|
  {
    if |results| > 0 {
      var init, r := results[..|results| - 1], results[|results| - 1];
      var mid := at + |EventsFor(init, shape)|;
      SplitStretch(evs, at, upto, EventsFor(init, shape), if r.shape == shape then r.events else []);
      DeliverPoints(pk, evs, s, init, at, mid, shape);
      DeliverFolds(pk, s, init, shape);
      ReportPoints(pk, evs, Deliver(s, init), r, mid, upto, shape);
    } else {
      assert |evs[at..upto]| == 0;
    }
  }

  lemma SplitStretch(evs: seq<Event>, at: nat, upto: nat, first: seq<Event>, rest: seq<Event>)
    requires at <= upto <= |evs| && evs[at..upto] == first + rest
    ensures at + |first| <= upto && evs[at..at + |first|] == first && evs[at + |first|..upto] == rest
  {
    assert |evs[at..upto]| == |first + rest|;
    assert evs[at..upto][..|first|] == evs[at..at + |first|];
    assert evs[at..upto][|first|..] == evs[at + |first|..upto];
  }

  lemma NotifiedSessionPoints(
      pk: seq<string>, streams: map<string, Inst>, ch: Wal.Change, order: seq<string>, s: Session,
      before: seq<Event>, after: seq<Event>, n: string)
    requires SessionPoints(pk, before, s, n) && before <= after && Numbered(after)
    requires after[|before|..] == EventsFor(Results(streams, ch, order), n)
    requires s.open && n in s.shapes ==> Converges(pk, Replica(pk, s, n), after, |before|)
    ensures SessionPoints(pk, after, Notify(streams, ch, order, s), n)
  {
    var broken := Broken(streams, ch, order);
    SessionPointsGrow(pk, before, after, s, n);
    SendErrorsPoints(pk, after, s, broken, n);
    SendErrorsFolds(pk, s, broken, n);
    assert after[|before|..|after|] == after[|before|..];
    DeliverPoints(pk, after, SendErrors(s, broken), Results(streams, ch, order), |before|, |after|, n);
  }

  /** The stream grows by the reported events, and its old rows converge from its old end. */
  lemma DispatchGrows(cfg: map<string, Source>, e: State, ch: Wal.Change, order: seq<string>, n: string)
    requires n in cfg && ShapeInv(cfg, e, n) && Enumerates(order, e.streams.Keys)
    requires Respects(cfg, e, Action.Change(ch, order), n)
    ensures var before, after := EventsOf(e.streams, n), EventsOf(ApplyToAll(e.streams, ch), n);
            && before <= after && Numbered(after)
            && after[|before|..] == EventsFor(Results(e.streams, ch, order), n)
            && (n in e.streams ==> Converges(cfg[n].def.pk, e.streams[n].cache, after, |before|))
  {
    EventsForResults(e.streams, ch, order, n);
    if n in e.streams {
      var i := e.streams[n];
      ApplyFolds(i, ch);
      ApplyAppends(i, ch);
      var before, after := i.log.events, Apply(i, ch).0.log.events;
      CompleteConverges(i.def.pk, i.cache, before);
      ConvergesGrows(i.def.pk, i.cache, before, after[|before|..], |before|);
      assert before + after[|before|..] == after;
    }
  }

  lemma NotifyPoints(cfg: map<string, Source>, e: State, ch: Wal.Change, order: seq<string>, id: nat, n: string)
    requires n in cfg && ShapeInv(cfg, e, n) && PointsInv(cfg, e, n) && Enumerates(order, e.streams.Keys)
    requires id in e.sessions && Respects(cfg, e, Action.Change(ch, order), n)
    ensures SessionPoints(cfg[n].def.pk, EventsOf(ApplyToAll(e.streams, ch), n),
                          Notify(e.streams, ch, order, e.sessions[id]), n)
  {
    assert SessionInv(cfg, e.streams, e.sessions[id], n);
    DispatchGrows(cfg, e, ch, order, n);
    NotifiedSessionPoints(cfg[n].def.pk, e.streams, ch, order, e.sessions[id],
                          EventsOf(e.streams, n), EventsOf(ApplyToAll(e.streams, ch), n), n);
  }

  // ---- subscribing

  /** The session that subscribes, for the shape it subscribes to. */
  lemma SubscribedShapePoints(cfg: map<string, Source>, e: State, a: Action)
    requires ConfigOk(cfg) && a.Subscribe? && a.id in e.sessions && Joinable(cfg, e.streams, a)
    requires ShapeInv(cfg, e, a.shape) && PointsInv(cfg, e, a.shape)
    ensures var (streams, t, _) := SubscribeShape(cfg[a.shape], e.streams, e.sessions[a.id], a.snap, a.cached);
            SessionPoints(cfg[a.shape].def.pk, EventsOf(streams, a.shape), t, a.shape)
  {
    var n, s := a.shape, e.sessions[a.id];
    var pk, at, evs := cfg[n].def.pk, ResumeAt(s, n), EventsOf(e.streams, n);
    assert SessionInv(cfg, e.streams, s, n);
    assert SessionPoints(pk, evs, s, n);
    if n in e.streams {
      var i := e.streams[n];
      if at > 0 {
        AfterIssuedOffset(i.log, at);
        ReplayOverlap(pk, map[], evs, at, |evs|);
        assert evs[..|evs|] == evs && evs[at..|evs|] == evs[at..];
        EnqueueChangesPoints(pk, evs, s, n, at, |evs|);
      } else {
        LaidLists(pk, a.cached, i.cache);
        AfterIssuedOffset(i.log, 0);
        CompleteConverges(pk, i.cache, evs);
        EnqueuePoints(pk, evs, s, SnapshotMsg(n, LastOffset(i.log), a.cached), n);
      }
    } else {
      FreshPoints(cfg[n], s, a.snap);
    }
  }

  /** A fresh stream sends its snapshot, or finds no room for it. */
  lemma FreshPoints(src: Source, s: Session, snap: Option<Snapshot>)
    requires SessionPoints(src.def.pk, [], s, src.def.name)
    requires snap.Some? ==> Selected(src.filter, snap.value.rows)
    ensures var inst := FreshInst(src, snap);
            inst.Some? ==>
              var (n, evs) := (src.def.name, inst.value.log.events);
              && SessionPoints(src.def.pk, evs, Disconnect(s), n)
              && SessionPoints(src.def.pk, evs,
                               Enqueue(s, SnapshotMsg(n, LastOffset(inst.value.log), snap.value.rows)), n)
  {
    FreshStream(src, snap);
    var inst := FreshInst(src, snap);
    if inst.Some? {
      var evs := inst.value.log.events;
      SessionPointsGrow(src.def.pk, [], evs, s, src.def.name);
      AfterIssuedOffset(inst.value.log, 0);
      CompleteConverges(src.def.pk, inst.value.cache, evs);
      var msg := SnapshotMsg(src.def.name, LastOffset(inst.value.log), snap.value.rows);
      EnqueuePoints(src.def.pk, evs, s, msg, src.def.name);
    }
  }

  /** Messages about another shape, or none, and a cut connection, keep the points. */
  lemma OtherMessagePoints(pk: seq<string>, evs: seq<Event>, s: Session, m: Msg, n: string)
    requires SessionPoints(pk, evs, s, n) && m.shape != n
    ensures SessionPoints(pk, evs, Enqueue(s, m), n) && SessionPoints(pk, evs, Disconnect(s), n)
  {
    EnqueuePoints(pk, evs, s, m, n);
  }

  /** The session that subscribes, for every other shape. */
  lemma OtherShapePoints(
      src: Source, streams: map<string, Inst>, s: Session, snap: Option<Snapshot>, cached: seq<Row>,
      pk: seq<string>, evs: seq<Event>, n: string)
    requires SessionPoints(pk, evs, s, n) && n != src.def.name
    ensures SessionPoints(pk, evs, SubscribeShape(src, streams, s, snap, cached).1, n)
  {
    var name := src.def.name;
    var at := ResumeAt(s, name);
    if name in streams && at > 0 && After(streams[name].log, at).Some? {
      EnqueueChangesElsewhere(pk, evs, s, name, After(streams[name].log, at).value, n);
    } else if name in streams && at == 0 {
      OtherMessagePoints(pk, evs, s, SnapshotMsg(name, LastOffset(streams[name].log), cached), n);
    } else {
      OtherMessagePoints(pk, evs, s, ErrorMsg(name), n);
      var s1 := if name in streams && at > 0 then Enqueue(s, ErrorMsg(name)) else s;
      var inst := FreshInst(src, snap);
      if inst.Some? {
        OtherMessagePoints(pk, evs, s1, SnapshotMsg(name, LastOffset(inst.value.log), snap.value.rows), n);
      }
    }
  }

  lemma SettledPoints(pk: seq<string>, evs: seq<Event>, s: Session, shape: string, ok: bool, n: string)
    requires SessionPoints(pk, evs, s, n)
    ensures SessionPoints(pk, evs, Settled(s, shape, ok), n)
  {
    EnqueuePoints(pk, evs, s, ErrorMsg(""), n);
  }

  // ---- runs

  /** The session that subscribes. */
  lemma OwnSessionPoints(cfg: map<string, Source>, e: State, a: Action, n: string)
    requires ConfigOk(cfg) && n in cfg && ShapeInv(cfg, e, n) && PointsInv(cfg, e, n)
    requires a.Subscribe? && a.id in e.sessions && a.shape in cfg && Respects(cfg, e, a, n)
    ensures var f := Join(cfg[a.shape], e, a);
            SessionPoints(cfg[n].def.pk, EventsOf(f.streams, n), f.sessions[a.id], n)
  {
    var s, pk := e.sessions[a.id], cfg[n].def.pk;
    var (streams, t, ok) := SubscribeShape(cfg[a.shape], e.streams, s, a.snap, a.cached);
    assert SessionPoints(pk, EventsOf(streams, n), t, n) by {
      if n == a.shape {
        SubscribedShapePoints(cfg, e, a);
      } else {
        SubscribeElsewhere(cfg[a.shape], e.streams, s, a.snap, a.cached, pk, n);
        assert EventsOf(streams, n) == EventsOf(e.streams, n);
        OtherShapePoints(cfg[a.shape], e.streams, s, a.snap, a.cached, pk, EventsOf(e.streams, n), n);
      }
    }
    SettledPoints(pk, EventsOf(streams, n), t, a.shape, ok, n);
  }

  lemma JoinKeepsPoints(cfg: map<string, Source>, e: State, a: Action, n: string)
    requires ConfigOk(cfg) && n in cfg && ShapeInv(cfg, e, n) && PointsInv(cfg, e, n)
    requires a.Subscribe? && a.id in e.sessions && a.shape in cfg && Respects(cfg, e, a, n)
    ensures PointsInv(cfg, Join(cfg[a.shape], e, a), n)
  {
    var f := Join(cfg[a.shape], e, a);
    forall id | id in f.sessions ensures SessionPoints(cfg[n].def.pk, EventsOf(f.streams, n), f.sessions[id], n) {
      if id == a.id {
        OwnSessionPoints(cfg, e, a, n);
      } else {
        JoinedStream(cfg, e, a, n);
        SessionPointsGrow(cfg[n].def.pk, EventsOf(e.streams, n), EventsOf(f.streams, n), e.sessions[id], n);
      }
    }
  }

  lemma ClientStepKeepsPoints(cfg: map<string, Source>, e: State, a: Action, n: string)
    requires n in cfg && PointsInv(cfg, e, n) && ClientOnly(a) && Respects(cfg, e, a, n)
    ensures PointsInv(cfg, ClientStep(e, a), n)
  {
    var f := ClientStep(e, a);
    forall id | id in f.sessions ensures SessionPoints(cfg[n].def.pk, EventsOf(f.streams, n), f.sessions[id], n) {
      if id in e.sessions {
        assert SessionPoints(cfg[n].def.pk, EventsOf(e.streams, n), e.sessions[id], n);
      }
    }
  }

  lemma DispatchKeepsPoints(cfg: map<string, Source>, e: State, ch: Wal.Change, order: seq<string>, n: string)
    requires n in cfg && ShapeInv(cfg, e, n) && PointsInv(cfg, e, n) && Enumerates(order, e.streams.Keys)
    requires Respects(cfg, e, Action.Change(ch, order), n)
    ensures PointsInv(cfg, Dispatch(e, ch, order), n)
  {
    var f := Dispatch(e, ch, order);
    forall id | id in f.sessions ensures SessionPoints(cfg[n].def.pk, EventsOf(f.streams, n), f.sessions[id], n) {
      NotifyPoints(cfg, e, ch, order, id, n);
    }
  }

  lemma StepKeepsPoints(cfg: map<string, Source>, e: State, a: Action, n: string)
    requires ConfigOk(cfg) && n in cfg && ShapeInv(cfg, e, n) && PointsInv(cfg, e, n) && Respects(cfg, e, a, n)
    ensures PointsInv(cfg, Step(cfg, e, a), n)
  {
    match a
    case Subscribe(id, shape, _, _) => if id in e.sessions && shape in cfg { JoinKeepsPoints(cfg, e, a, n); }
    case Change(ch, order) => if Enumerates(order, e.streams.Keys) { DispatchKeepsPoints(cfg, e, ch, order, n); }
    case _ => ClientStepKeepsPoints(cfg, e, a, n);
  }

  lemma {:induction false} RunKeepsPoints(cfg: map<string, Source>, actions: seq<Action>, n: string)
    requires ConfigOk(cfg) && n in cfg && RespectfulRun(cfg, actions, n)
    ensures PointsInv(cfg, Run(cfg, actions), n)
  {
    if |actions| > 0 {
      RunKeepsShape(cfg, actions[..|actions| - 1], n);
      RunKeepsPoints(cfg, actions[..|actions| - 1], n);
      StepKeepsPoints(cfg, Run(cfg, actions[..|actions| - 1]), actions[|actions| - 1], n);
    }
  }

  /** The offsets a client has seen, and the replicas it holds, after reading the first `j` messages. */
  function Offsets(cfg: map<string, Source>, s: Session, j: nat): map<string, int>
    requires j <= |s.queued|
  {
    map n | n in cfg :: LastSeen(ResumeAt(s, n), s.queued[..j], n)
  }

  function Replicas(cfg: map<string, Source>, s: Session, j: nat): map<string, Table>
    requires j <= |s.queued|
  {
    map n | n in cfg :: FoldMsgs(cfg[n].def.pk, Base(s, n), s.queued[..j], n)
  }

  lemma PointsResumable(cfg: map<string, Source>, e: State, id: nat, j: nat, n: string)
    requires n in cfg && PointsInv(cfg, e, n) && id in e.sessions && j <= |e.sessions[id].queued|
    ensures Resumable(cfg, e.streams, Offsets(cfg, e.sessions[id], j), Replicas(cfg, e.sessions[id], j), n)
  {
    var s, pk, evs := e.sessions[id], cfg[n].def.pk, EventsOf(e.streams, n);
    assert SessionPoints(pk, evs, s, n);
    PointsPrefix(pk, evs, Base(s, n), ResumeAt(s, n), s.queued, n, j);
  }

  /** What a client that stopped reading after `j` messages connects with. */
  function Again(cfg: map<string, Source>, e: State, id: nat, j: nat, id': nat, capacity: nat): Action
    requires id in e.sessions && j <= |e.sessions[id].queued|
  {
    Connect(id', capacity, Offsets(cfg, e.sessions[id], j), Replicas(cfg, e.sessions[id], j))
  }

  /** Reconnecting anywhere: take any run, any of its clients, connected or cut off, and any point at which that client
      stopped reading. Connecting again with the offsets and the replicas held there respects every shape the run
      respected, whatever the streams appended in between; `ClientConvergence` then covers the new session. */
  lemma ReconnectAnywhere(
      cfg: map<string, Source>, actions: seq<Action>, id: nat, j: nat, id': nat, capacity: nat, n: string)
    requires ConfigOk(cfg) && n in cfg && RespectfulRun(cfg, actions, n)
    requires var e := Run(cfg, actions); id in e.sessions && j <= |e.sessions[id].queued|
    ensures RespectfulRun(cfg, actions + [Again(cfg, Run(cfg, actions), id, j, id', capacity)], n)
  {
    var e := Run(cfg, actions);
    RunKeepsPoints(cfg, actions, n);
    PointsResumable(cfg, e, id, j, n);
    var next := actions + [Again(cfg, e, id, j, id', capacity)];
    assert next[..|next| - 1] == actions;
  }

  // ---- in the whole pipeline

  lemma PipelineDispatchPoints(cfg: P.Config, s: P.State, order: seq<string>, n: string, p: nat)
    requires n in cfg.shapes && P.Inv(cfg.strict, s, p) && P.ShapeInv(cfg, s, n) && PointsInv(cfg.shapes, s.engine, n)
    requires s.batch.Some? && |s.batch.value| > 0 && Enumerates(order, s.engine.streams.Keys)
    requires P.Followable(cfg, P.Step(cfg, s, P.DispatchNext(order)), n)
    ensures PointsInv(cfg.shapes, P.Step(cfg, s, P.DispatchNext(order)).engine, n)
  {
    P.FollowableBefore(cfg, s, order, n, p);
    P.DispatchKeepsShape(cfg, s, order, n, p);
    DispatchKeepsPoints(cfg.shapes, s.engine, s.batch.value[0].entry.change, order, n);
  }

  lemma PipelineSubscribePoints(cfg: P.Config, s: P.State, a: P.Action, n: string)
    requires P.ConfigOk(cfg) && n in cfg.shapes && P.ShapeInv(cfg, s, n) && PointsInv(cfg.shapes, s.engine, n)
    requires a.Subscribe? && a.shape in cfg.shapes && a.id in s.engine.sessions && P.Respects(cfg, s, a, n)
    ensures PointsInv(cfg.shapes, P.Step(cfg, s, a).engine, n)
  {
    P.SubscribeRespectsEngine(cfg, s, a, n);
    JoinKeepsPoints(cfg.shapes, s.engine, P.ToEngine(a), n);
  }

  /** Everything but dispatching, subscribing and restarting leaves the engine alone or touches one session. */
  lemma OtherStepPoints(cfg: P.Config, s: P.State, a: P.Action, n: string)
    requires n in cfg.shapes && PointsInv(cfg.shapes, s.engine, n) && P.Respects(cfg, s, a, n)
    requires !a.DispatchNext? && !a.Subscribe? && !a.Restart?
    ensures PointsInv(cfg.shapes, P.Step(cfg, s, a).engine, n)
  {
    if a.Client? && ClientOnly(a.e) {
      ClientStepKeepsPoints(cfg.shapes, s.engine, a.e, n);
    }
  }

  lemma PipelineStepKeepsPoints(cfg: P.Config, s: P.State, a: P.Action, n: string, p: nat)
    requires P.ConfigOk(cfg) && n in cfg.shapes && P.Inv(cfg.strict, s, p) && P.Respects(cfg, s, a, n) && !a.Restart?
    requires P.ShapeInv(cfg, s, n) && PointsInv(cfg.shapes, s.engine, n) && P.Followable(cfg, P.Step(cfg, s, a), n)
    ensures PointsInv(cfg.shapes, P.Step(cfg, s, a).engine, n)
  {
    if a.DispatchNext? {
      if s.batch.Some? && |s.batch.value| > 0 && Enumerates(a.order, s.engine.streams.Keys) {
        PipelineDispatchPoints(cfg, s, a.order, n, p);
      }
    } else if a.Subscribe? {
      if a.shape in cfg.shapes && a.id in s.engine.sessions {
        PipelineSubscribePoints(cfg, s, a, n);
      }
    } else {
      OtherStepPoints(cfg, s, a, n);
    }
  }

  lemma {:induction false} PipelineKeepsPoints(cfg: P.Config, actions: seq<P.Action>, n: string)
    requires P.ConfigOk(cfg) && n in cfg.shapes && P.RespectfulRun(cfg, actions, n)
    requires P.Followable(cfg, P.Run(cfg, actions), n)
    ensures PointsInv(cfg.shapes, P.Run(cfg, actions).engine, n)
  {
    if |actions| > 0 && !actions[|actions| - 1].Restart? {
      var init, a := actions[..|actions| - 1], actions[|actions| - 1];
      var p := P.RunKeepsInv(cfg, init);
      P.StepWasFollowable(cfg, P.Run(cfg, init), a, n, p);
      P.RunKeepsShape(cfg, init, n);
      PipelineKeepsPoints(cfg, init, n);
      PipelineStepKeepsPoints(cfg, P.Run(cfg, init), a, n, p);
    }
  }

  /** End to end: a client of any run that stopped reading anywhere connects again with what it holds. That respects
      every shape the run respected, and from then on, whatever happens to other shapes, the client's replica of a
      live stream it is subscribed to is the filtered source table. */
  lemma ReconnectedReplica(
      cfg: P.Config, actions: seq<P.Action>, id: nat, j: nat, id': nat, capacity: nat, more: seq<P.Action>, n: string)
    requires P.ConfigOk(cfg) && n in cfg.shapes && P.RespectfulRun(cfg, actions, n)
    requires P.Followable(cfg, P.Run(cfg, actions), n)
    requires var e := P.Run(cfg, actions).engine; id in e.sessions && j <= |e.sessions[id].queued|
    ensures var again := P.Client(Again(cfg.shapes, P.Run(cfg, actions).engine, id, j, id', capacity));
            && P.RespectfulRun(cfg, actions + [again], n)
            && (P.RespectfulRun(cfg, actions + [again] + more, n) ==>
                  P.HoldsFilteredTable(cfg, P.Run(cfg, actions + [again] + more), id', n))
  {
    var s := P.Run(cfg, actions);
    PipelineKeepsPoints(cfg, actions, n);
    PointsResumable(cfg.shapes, s.engine, id, j, n);
    var again := P.Client(Again(cfg.shapes, s.engine, id, j, id', capacity));
    P.RespectfulLast(cfg, actions, again, n);
    if P.RespectfulRun(cfg, actions + [again] + more, n) {
      P.ReplicaIsFilteredTable(cfg, actions + [again] + more, id', n);
    }
  }
}
