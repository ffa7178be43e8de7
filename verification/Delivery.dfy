/** What lands in a session's buffer, message by message: what a dispatch and a subscription queue, in which order, how
    much of it when the buffer is nearly full, and when the client is disconnected. */
module Delivery {
  import T = Text
  import opened Rows
  import opened Filters
  import opened Wal
  import opened ShapeLog
  import opened Shapes
  import opened Views
  import opened Engine

  // ---- the buffer

  /** How many more messages the buffer of a session takes. */
  function Free(s: Session): nat {
    if s.open && |s.queued| < s.drained + s.capacity then s.drained + s.capacity - |s.queued| else 0
  }

  /** As many of the messages as fit. */
  function Capped(ms: seq<Msg>, n: nat): seq<Msg> { if |ms| <= n then ms else ms[..n] }

  function Less(n: nat, m: nat): nat { if n > m then n - m else 0 }

  /** Messages a full buffer may drop: the session takes those that fit. */
  predicate Offered(s: Session, t: Session, ms: seq<Msg>) {
    t == s.(queued := s.queued + Capped(ms, Free(s)))
  }

  /** Messages a full buffer may not drop: the session takes those that fit and stays open if that is all of them. */
  predicate Pushed(s: Session, t: Session, ms: seq<Msg>) {
    t == s.(queued := s.queued + Capped(ms, Free(s)), open := s.open && |ms| <= Free(s))
  }

  lemma OfferedFree(s: Session, t: Session, ms: seq<Msg>)
    requires Offered(s, t, ms)
    ensures Free(t) == Less(Free(s), |ms|)
  {
  }

  lemma PushedFree(s: Session, t: Session, ms: seq<Msg>)
    requires Pushed(s, t, ms)
    ensures Free(t) == Less(Free(s), |ms|)
  {
  }

  lemma CappedTwice(a: seq<Msg>, b: seq<Msg>, n: nat)
    ensures Capped(a, n) + Capped(b, Less(n, |a|)) == Capped(a + b, n)
  {
  }

  lemma OfferedBoth(s: Session, t: Session, u: Session, a: seq<Msg>, b: seq<Msg>)
    requires Offered(s, t, a) && Offered(t, u, b)
    ensures Offered(s, u, a + b)
  {
    OfferedFree(s, t, a);
    CappedTwice(a, b, Free(s));
    T.ConcatAssoc(s.queued, Capped(a, Free(s)), Capped(b, Free(t)));
  }

  lemma PushedBoth(s: Session, t: Session, u: Session, a: seq<Msg>, b: seq<Msg>)
    requires Pushed(s, t, a) && Pushed(t, u, b)
    ensures Pushed(s, u, a + b)
  {
    PushedFree(s, t, a);
    CappedTwice(a, b, Free(s));
    T.ConcatAssoc(s.queued, Capped(a, Free(s)), Capped(b, Free(t)));
  }

  // ---- dispatching

  function ChangeMsgs(shape: string, evs: seq<Event>): seq<Msg> {
    seq(|evs|, i requires 0 <= i < |evs| => ChangeMsg(shape, evs[i]))
  }

  /** The session wants news of a stream that exists. */
  predicate Wants(streams: map<string, Inst>, shapes: set<string>, n: string) { n in shapes && n in streams }

  /** One error message per subscribed stream that drifts or has been halted, in the order of the visits. */
  function Failures(streams: map<string, Inst>, ch: Change, order: seq<string>, shapes: set<string>): seq<Msg> {
    if |order| == 0 then []
    else
      var n := order[|order| - 1];
      Failures(streams, ch, order[..|order| - 1], shapes)
      + if Wants(streams, shapes, n) && Apply(streams[n], ch).1 in {Err(SchemaDrift), Err(Halted)}
        then [ErrorMsg(n)] else []
  }

  /** One change message per event of a subscribed stream, in the order of the visits. */
  function News(streams: map<string, Inst>, ch: Change, order: seq<string>, shapes: set<string>): seq<Msg> {
    if |order| == 0 then []
    else
      var n := order[|order| - 1];
      News(streams, ch, order[..|order| - 1], shapes)
      + if Wants(streams, shapes, n) && Apply(streams[n], ch).1.Ok?
        then ChangeMsgs(n, Apply(streams[n], ch).1.value) else []
  }

  lemma {:induction false} EnqueueChangesPushes(s: Session, shape: string, evs: seq<Event>)
    ensures Pushed(s, EnqueueChanges(s, shape, evs), ChangeMsgs(shape, evs))
    decreases |evs|
  {
    if |evs| == 0 {
      assert s.queued + [] == s.queued;
    } else if !Room(s) {
      assert s.queued + Capped(ChangeMsgs(shape, evs), 0) == s.queued;
    } else {
      var m := ChangeMsg(shape, evs[0]);
      var t := Enqueue(s, m);
      EnqueueChangesPushes(t, shape, evs[1..]);
      assert Pushed(s, t, [m]);
      PushedBoth(s, t, EnqueueChanges(s, shape, evs), [m], ChangeMsgs(shape, evs[1..]));
      assert ChangeMsgs(shape, evs) == [m] + ChangeMsgs(shape, evs[1..]);
    }
  }

  lemma EnqueueOffers(s: Session, m: Msg)
    ensures Offered(s, Enqueue(s, m), [m])
  {
    assert s.queued + Capped([m], 0) == s.queued;
  }

  lemma SendOneMore(s: Session, broken: seq<string>, n: string)
    ensures var t := SendErrors(s, broken);
            SendErrors(s, broken + [n]) == if n in t.shapes then Enqueue(t, ErrorMsg(n)) else t
  {
    assert (broken + [n])[..|broken|] == broken;
  }

  lemma BrokenLast(streams: map<string, Inst>, ch: Change, order: seq<string>, s: Session)
    requires |order| > 0
    ensures var n, init := order[|order| - 1], order[..|order| - 1];
            var t := SendErrors(s, Broken(streams, ch, init));
            SendErrors(s, Broken(streams, ch, order)) ==
            if n in streams && Apply(streams[n], ch).1 in {Err(SchemaDrift), Err(Halted)} && n in t.shapes
            then Enqueue(t, ErrorMsg(n)) else t
  {
    var n, before := order[|order| - 1], Broken(streams, ch, order[..|order| - 1]);
    SendOneMore(s, before, n);
    assert before + [] == before;
  }

  lemma {:induction false} ErrorsOffered(streams: map<string, Inst>, ch: Change, order: seq<string>, s: Session)
    ensures Offered(s, SendErrors(s, Broken(streams, ch, order)), Failures(streams, ch, order, s.shapes))
  {
    if |order| == 0 {
      assert s.queued + [] == s.queued;
    } else {
      var n, init := order[|order| - 1], order[..|order| - 1];
      var t := SendErrors(s, Broken(streams, ch, init));
      ErrorsOffered(streams, ch, init, s);
      BrokenLast(streams, ch, order, s);
      EnqueueOffers(t, ErrorMsg(n));
      OfferedBoth(s, t, Enqueue(t, ErrorMsg(n)), Failures(streams, ch, init, s.shapes), [ErrorMsg(n)]);
    }
  }

  lemma ResultsDelivered(streams: map<string, Inst>, ch: Change, order: seq<string>, s: Session)
    requires |order| > 0
    ensures var n, init := order[|order| - 1], order[..|order| - 1];
            var t := Deliver(s, Results(streams, ch, init));
            Deliver(s, Results(streams, ch, order)) ==
            if n in streams && Apply(streams[n], ch).1.Ok? && n in t.shapes
            then EnqueueChanges(t, n, Apply(streams[n], ch).1.value) else t
  {
    var n, before := order[|order| - 1], Results(streams, ch, order[..|order| - 1]);
    if n in streams && Apply(streams[n], ch).1.Ok? && |Apply(streams[n], ch).1.value| > 0 {
      var r := Applied(n, Apply(streams[n], ch).1.value);
      assert (before + [r])[..|before|] == before;
    } else {
      assert before + [] == before;
    }
  }

  lemma {:induction false} NewsPushed(streams: map<string, Inst>, ch: Change, order: seq<string>, s: Session)
    ensures Pushed(s, Deliver(s, Results(streams, ch, order)), News(streams, ch, order, s.shapes))
  {
    if |order| == 0 {
      assert s.queued + [] == s.queued;
    } else {
      var n, init := order[|order| - 1], order[..|order| - 1];
      var t := Deliver(s, Results(streams, ch, init));
      NewsPushed(streams, ch, init, s);
      ResultsDelivered(streams, ch, order, s);
      if Wants(streams, s.shapes, n) && Apply(streams[n], ch).1.Ok? {
        var evs := Apply(streams[n], ch).1.value;
        EnqueueChangesPushes(t, n, evs);
        PushedBoth(s, t, EnqueueChanges(t, n, evs), News(streams, ch, init, s.shapes), ChangeMsgs(n, evs));
      }
    }
  }

  /** First the errors of the session's broken shapes, as many as fit, then the events of its other shapes, as many
      as fit after that. Errors that do not fit are lost; the client is disconnected exactly when an event does not
      fit. */
  predicate Told(streams: map<string, Inst>, ch: Change, order: seq<string>, s: Session, t: Session) {
    var errs, news := Failures(streams, ch, order, s.shapes), News(streams, ch, order, s.shapes);
    var free := Less(Free(s), |errs|);
    t == s.(queued := s.queued + Capped(errs, Free(s)) + Capped(news, free), open := s.open && |news| <= free)
  }

  lemma NotifyTells(streams: map<string, Inst>, ch: Change, order: seq<string>, s: Session)
    ensures Told(streams, ch, order, s, Notify(streams, ch, order, s))
  {
    var s1 := SendErrors(s, Broken(streams, ch, order));
    ErrorsOffered(streams, ch, order, s);
    OfferedFree(s, s1, Failures(streams, ch, order, s.shapes));
    NewsPushed(streams, ch, order, s1);
  }

  /** A dispatch applies the change to every stream and tells every session what came of it. */
  lemma DispatchTells(e: State, ch: Change, order: seq<string>)
    ensures var f := Dispatch(e, ch, order);
            && f.streams.Keys == e.streams.Keys && f.sessions.Keys == e.sessions.Keys
            && (forall n :: n in e.streams ==> f.streams[n] == Apply(e.streams[n], ch).0)
            && (forall id :: id in e.sessions ==> Told(e.streams, ch, order, e.sessions[id], f.sessions[id]))
  {
    forall id | id in e.sessions
      ensures Told(e.streams, ch, order, e.sessions[id], Dispatch(e, ch, order).sessions[id])
    {
      NotifyTells(e.streams, ch, order, e.sessions[id]);
    }
  }

  /** A subscribed stream is reported broken exactly when applying the change fails with drift or on a halted log, and
      it is reported once. */
  lemma {:induction false} FailureReported(
      streams: map<string, Inst>, ch: Change, order: seq<string>, shapes: set<string>, n: string)
    requires NoRepeats(order)
    ensures multiset(Failures(streams, ch, order, shapes))[ErrorMsg(n)] ==
            if n in order && Wants(streams, shapes, n) && Apply(streams[n], ch).1 in {Err(SchemaDrift), Err(Halted)}
            then 1 else 0
  {
    if |order| > 0 {
      LastIsNew(order);
      FailureReported(streams, ch, order[..|order| - 1], shapes, n);
    }
  }

  // ---- subscribing

  lemma ChangePushes(s: Session, m: Msg)
    ensures Pushed(s, if Room(s) then Enqueue(s, m) else Disconnect(s), [m])
  {
    assert s.queued + Capped([m], 0) == s.queued;
  }

  lemma OffsetIsLength(l: LogState)
    requires Contiguous(l)
    ensures LastOffset(l) == |l.events|
  {
  }

  lemma WarnThenPush(s: Session, t: Session, u: Session, warnings: seq<Msg>, ms: seq<Msg>)
    requires Offered(s, t, warnings) && Pushed(t, u, ms)
    ensures var free := Less(Free(s), |warnings|);
            u == s.(queued := s.queued + Capped(warnings, Free(s)) + Capped(ms, free), open := s.open && |ms| <= free)
  {
    OfferedFree(s, t, warnings);
  }

  lemma NoWarning(s: Session)
    ensures Offered(s, s, [])
  {
    assert s.queued + [] == s.queued;
  }

  lemma RunningStreamReplies(
      cfg: Source, streams: map<string, Inst>, s: Session, snap: Option<Snapshot>, cached: seq<Row>)
    requires var n := cfg.def.name;
             n in streams && Contiguous(streams[n].log)
             && (ResumeAt(s, n) == 0 || (ResumeAt(s, n) > 0 && |streams[n].log.events| > 0))
    ensures var n := cfg.def.name;
            var (later, t, ok) := SubscribeShape(cfg, streams, s, snap, cached);
            later == streams && Pushed(s, t, Reply(n, streams[n].log, ResumeAt(s, n), cached)) && ok == t.open
  {
    var n := cfg.def.name;
    var log, at := streams[n].log, ResumeAt(s, n);
    AfterExact(log, at);
    OffsetIsLength(log);
    if at > 0 {
      EnqueueChangesPushes(s, n, After(log, at).value);
    } else {
      ChangePushes(s, SnapshotMsg(n, |log.events|, cached));
    }
  }

  lemma FreshLogCounts(cfg: Source, snap: Option<Snapshot>)
    requires FreshInst(cfg, snap).Some?
    ensures Contiguous(FreshInst(cfg, snap).value.log)
  {
    var start := NewInst(cfg.def, cfg.filter).(snapshotLsn := snap.value.lsn, hasSnapshot := true);
    LoadKeepsContiguous(start, snap.value.rows);
  }

  lemma {:induction false} LoadKeepsContiguous(i: Inst, rows: seq<Row>)
    requires Contiguous(i.log)
    ensures Contiguous(LoadRows(i, rows).0.log)
    decreases |rows|
  {
    if |rows| > 0 {
      if !Matches(i.filter, rows[0]) {
        LoadKeepsContiguous(i, rows[1..]);
      } else if PkKey(i.def.pk, rows[0]).Ok? {
        LoadKeepsContiguous(Perform(i, Effect(EventInsert, PkKey(i.def.pk, rows[0]).value, rows[0])), rows[1..]);
      }
    }
  }

  lemma FreshStreamReplies(
      cfg: Source, streams: map<string, Inst>, s: Session, snap: Option<Snapshot>, cached: seq<Row>)
    requires var n := cfg.def.name;
             n in streams ==>
               Contiguous(streams[n].log) && ResumeAt(s, n) != 0
               && (ResumeAt(s, n) > 0 ==> |streams[n].log.events| == 0)
    ensures var n := cfg.def.name;
            var (later, t, ok) := SubscribeShape(cfg, streams, s, snap, cached);
            var s1 := if n in streams && ResumeAt(s, n) > 0 then Enqueue(s, ErrorMsg(n)) else s;
            match FreshInst(cfg, snap)
            case None => (later, t, ok) == (streams, s1, false)
            case Some(inst) =>
              && later == streams[n := inst] && ok == t.open
              && Pushed(s1, t, [SnapshotMsg(n, |inst.log.events|, snap.value.rows)])
  {
    var n := cfg.def.name;
    var s1 := if n in streams && ResumeAt(s, n) > 0 then Enqueue(s, ErrorMsg(n)) else s;
    var inst := FreshInst(cfg, snap);
    if inst.Some? {
      FreshLogCounts(cfg, snap);
      OffsetIsLength(inst.value.log);
      ChangePushes(s1, SnapshotMsg(n, |inst.value.log.events|, snap.value.rows));
    }
  }

  /** What a subscription puts in the session's buffer, way by way. With an offset the log still covers: the events
      after it. Without an offset: the rows of the running stream. Without a running stream: the snapshot the stream
      is built from. With an offset the log does not cover: an error naming the shape, then the snapshot. A
      subscription that fails in another way than a full buffer adds an error that names no shape. */
  lemma SubscriptionQueues(cfg: Source, e: State, a: Action)
    requires a.Subscribe? && a.id in e.sessions && a.shape == cfg.def.name
    requires a.shape in e.streams ==> Contiguous(e.streams[a.shape].log)
    ensures var s, u := e.sessions[a.id], Join(cfg, e, a).sessions[a.id];
            var n, inst := a.shape, FreshInst(cfg, a.snap);
            var at := if n in s.resume then s.resume[n] else 0;
            if n in e.streams && (at == 0 || (at > 0 && |e.streams[n].log.events| > 0)) then
              Settles(s, u, n, [], Some(Reply(n, e.streams[n].log, at, a.cached)))
            else
              Settles(s, u, n, if n in e.streams && at > 0 then [ErrorMsg(n)] else [],
                      if inst.None? then None
                      else Some([SnapshotMsg(n, |inst.value.log.events|, a.snap.value.rows)]))
  {
    var s, n := e.sessions[a.id], a.shape;
    var at, inst := ResumeAt(s, n), FreshInst(cfg, a.snap);
    var (_, t, ok) := SubscribeShape(cfg, e.streams, s, a.snap, a.cached);
    NoWarning(s);
    if n in e.streams && (at == 0 || (at > 0 && |e.streams[n].log.events| > 0)) {
      RunningStreamReplies(cfg, e.streams, s, a.snap, a.cached);
      WarnThenPush(s, s, t, [], Reply(n, e.streams[n].log, at, a.cached));
    } else {
      var warns := n in e.streams && at > 0;
      var s1 := if warns then Enqueue(s, ErrorMsg(n)) else s;
      var warnings := if warns then [ErrorMsg(n)] else [];
      EnqueueOffers(s, ErrorMsg(n));
      FreshStreamReplies(cfg, e.streams, s, a.snap, a.cached);
      if inst.None? {
        EnqueueOffers(s1, ErrorMsg(""));
        OfferedFree(s, s1, warnings);
      } else {
        WarnThenPush(s, s1, t, warnings, [SnapshotMsg(n, |inst.value.log.events|, a.snap.value.rows)]);
      }
    }
  }

  /** What a running stream answers. */
  function Reply(n: string, log: LogState, at: int, cached: seq<Row>): seq<Msg> {
    if at <= 0 then [SnapshotMsg(n, |log.events|, cached)]
    else ChangeMsgs(n, if at <= |log.events| then log.events[at..] else [])
  }

  /** Warnings go out as far as they fit; then either the answer goes out and the session is subscribed if all of it
      fits and disconnected if not, or there is no answer and a nameless error follows. */
  predicate Settles(s: Session, u: Session, n: string, warnings: seq<Msg>, answer: Option<seq<Msg>>) {
    var free := Less(Free(s), |warnings|);
    match answer
    case None =>
      u == s.(queued := s.queued + Capped(warnings, Free(s)) + Capped([ErrorMsg("")], free))
    case Some(ms) =>
      var fits := s.open && |ms| <= free;
      u == s.(queued := s.queued + Capped(warnings, Free(s)) + Capped(ms, free), open := fits,
              shapes := if fits then s.shapes + {n} else s.shapes)
  }

  // ---- connecting, pumping and closing

  function Most(n: nat, limit: nat): nat { if n < limit then n else limit }

  /** A session that has been pumped `n` times more. */
  function Pumped(s: Session, n: nat): Session { s.(drained := Most(s.drained + n, |s.queued|)) }

  function Pumps(id: nat, n: nat): seq<Action> { seq(n, _ => Pump(id)) }

  lemma PumpOnce(cfg: map<string, Source>, e: State, id: nat, s: Session, n: nat)
    requires s.drained <= |s.queued|
    ensures Step(cfg, e.(sessions := e.sessions[id := Pumped(s, n)]), Pump(id)) ==
            e.(sessions := e.sessions[id := Pumped(s, n + 1)])
  {
    assert e.sessions[id := Pumped(s, n)][id := Pumped(s, n + 1)] == e.sessions[id := Pumped(s, n + 1)];
  }

  lemma RunLast(cfg: map<string, Source>, actions: seq<Action>, a: Action)
    ensures Run(cfg, actions + [a]) == Step(cfg, Run(cfg, actions), a)
  {
    assert (actions + [a])[..|actions|] == actions;
  }

  /** The pump writes the queued messages one by one until all are written, and touches nothing else. */
  lemma {:induction false} PumpsWriteAll(cfg: map<string, Source>, actions: seq<Action>, id: nat, n: nat)
    requires ConfigOk(cfg) && id in Run(cfg, actions).sessions
    ensures var e := Run(cfg, actions);
            Run(cfg, actions + Pumps(id, n)) == e.(sessions := e.sessions[id := Pumped(e.sessions[id], n)])
    decreases n
  {
    RunKeepsBuffers(cfg, actions);
    var e := Run(cfg, actions);
    var s := e.sessions[id];
    assert Bounded(s);
    if n == 0 {
      assert actions + Pumps(id, 0) == actions && e.sessions[id := s] == e.sessions;
    } else {
      PumpsWriteAll(cfg, actions, id, n - 1);
      assert actions + Pumps(id, n) == actions + Pumps(id, n - 1) + [Pump(id)];
      RunLast(cfg, actions + Pumps(id, n - 1), Pump(id));
      PumpOnce(cfg, e, id, s, n - 1);
    }
  }

  predicate ShutWith(e: State, id: nat, queued: seq<Msg>) {
    id in e.sessions && !e.sessions[id].open && e.sessions[id].queued == queued
  }

  lemma ShutStays(cfg: map<string, Source>, e: State, a: Action, id: nat, queued: seq<Msg>)
    requires ConfigOk(cfg) && Buffered(e) && ShutWith(e, id, queued)
    ensures ShutWith(Step(cfg, e, a), id, queued)
  {
    match a
    case Subscribe(at, shape, _, _) =>
      if at in e.sessions && shape in cfg {
        SubscriptionQueues(cfg[shape], e, a);
      }
    case Change(ch, order) =>
      if Enumerates(order, e.streams.Keys) {
        NotifyTells(e.streams, ch, order, e.sessions[id]);
      }
    case _ =>
  }

  /** After a close nothing is ever queued for the session again, whatever follows. */
  lemma {:induction false} ClosedForever(cfg: map<string, Source>, actions: seq<Action>, id: nat, more: seq<Action>)
    requires ConfigOk(cfg) && id in Run(cfg, actions).sessions
    ensures ShutWith(Run(cfg, actions + [Close(id)] + more), id, Run(cfg, actions).sessions[id].queued)
    decreases |more|
  {
    var closed, queued := actions + [Close(id)], Run(cfg, actions).sessions[id].queued;
    if |more| == 0 {
      assert closed + more == closed;
      RunLast(cfg, actions, Close(id));
    } else {
      var init, last := more[..|more| - 1], more[|more| - 1];
      assert closed + more == closed + init + [last];
      RunLast(cfg, closed + init, last);
      ClosedForever(cfg, actions, id, init);
      RunKeepsBuffers(cfg, closed + init);
      ShutStays(cfg, Run(cfg, closed + init), last, id, queued);
    }
  }

  // ---- every run

  /** The pump never gets ahead of the buffer and the buffer never holds more than its capacity. */
  predicate Bounded(s: Session) { s.drained <= |s.queued| <= s.drained + s.capacity }

  predicate Buffered(e: State) {
    && (forall n :: n in e.streams ==> Contiguous(e.streams[n].log))
    && (forall id :: id in e.sessions ==> Bounded(e.sessions[id]))
  }

  lemma ApplyKeepsContiguous(i: Inst, ch: Wal.Change)
    requires Contiguous(i.log)
    ensures Contiguous(Apply(i, ch).0.log)
  {
  }

  lemma DispatchKeepsBuffers(e: State, ch: Wal.Change, order: seq<string>)
    requires Buffered(e)
    ensures Buffered(Dispatch(e, ch, order))
  {
    var f := Dispatch(e, ch, order);
    forall n | n in f.streams ensures Contiguous(f.streams[n].log) {
      ApplyKeepsContiguous(e.streams[n], ch);
    }
    forall id | id in f.sessions ensures Bounded(f.sessions[id]) {
      NotifyTells(e.streams, ch, order, e.sessions[id]);
    }
  }

  lemma JoinKeepsBuffers(cfg: Source, e: State, a: Action)
    requires Buffered(e) && a.Subscribe? && a.id in e.sessions && a.shape == cfg.def.name
    ensures Buffered(Join(cfg, e, a))
  {
    var f := Join(cfg, e, a);
    SubscriptionQueues(cfg, e, a);
    if FreshInst(cfg, a.snap).Some? {
      FreshLogCounts(cfg, a.snap);
    }
    assert Bounded(e.sessions[a.id]) && Bounded(f.sessions[a.id]);
  }

  lemma StepKeepsBuffers(cfg: map<string, Source>, e: State, a: Action)
    requires ConfigOk(cfg) && Buffered(e)
    ensures Buffered(Step(cfg, e, a))
  {
    match a
    case Subscribe(id, shape, _, _) => if id in e.sessions && shape in cfg { JoinKeepsBuffers(cfg[shape], e, a); }
    case Change(ch, order) => if Enumerates(order, e.streams.Keys) { DispatchKeepsBuffers(e, ch, order); }
    case _ =>
  }

  /** In every run no buffer exceeds its capacity, nothing is written that was not queued, and every log counts 1..n. */
  lemma {:induction false} RunKeepsBuffers(cfg: map<string, Source>, actions: seq<Action>)
    requires ConfigOk(cfg)
    ensures Buffered(Run(cfg, actions))
  {
    if |actions| > 0 {
      RunKeepsBuffers(cfg, actions[..|actions| - 1]);
      StepKeepsBuffers(cfg, Run(cfg, actions[..|actions| - 1]), actions[|actions| - 1]);
    }
  }
}
