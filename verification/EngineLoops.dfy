/** The engine's loops, in place: dispatching one change to the streams and sessions, polling the change log, and
    subscribing a session. Each is proved against the functions the run theorems are about. */
module EngineLoops {
  import opened Rows
  import opened Wal
  import opened ShapeLog
  import opened Shapes
  import opened Views
  import I = Ingest
  import opened Engine
  import P = Pipeline

  /** Dispatches, one after another, each with its own iteration order. */
  function DispatchAll(e: State, chs: seq<Change>, orders: seq<seq<string>>): State
    requires |chs| == |orders|
  {
    if |chs| == 0 then e
    else Dispatch(DispatchAll(e, chs[..|chs| - 1], orders[..|orders| - 1]), chs[|chs| - 1], orders[|orders| - 1])
  }

  function ChangesOf(rows: seq<I.LogRow>): seq<Change> {
    seq(|rows|, i requires 0 <= i < |rows| => rows[i].entry.change)
  }

  predicate AllEnumerate(orders: seq<seq<string>>, names: set<string>) {
    forall i :: 0 <= i < |orders| ==> Enumerates(orders[i], names)
  }

  lemma ChangesOfNext(rows: seq<I.LogRow>, i: nat)
    requires i < |rows|
    ensures ChangesOf(rows[..i + 1]) == ChangesOf(rows[..i]) + [rows[i].entry.change]
  {
  }

  lemma DispatchAllNext(e: State, chs: seq<Change>, orders: seq<seq<string>>, ch: Change, order: seq<string>)
    requires |chs| == |orders|
    ensures DispatchAll(e, chs + [ch], orders + [order]) == Dispatch(DispatchAll(e, chs, orders), ch, order)
  {
    assert (chs + [ch])[..|chs|] == chs && (orders + [order])[..|orders|] == orders;
  }

  lemma {:induction false} DispatchAllKeys(e: State, chs: seq<Change>, orders: seq<seq<string>>)
    requires |chs| == |orders|
    ensures DispatchAll(e, chs, orders).streams.Keys == e.streams.Keys
  {
    if |chs| > 0 {
      DispatchAllKeys(e, chs[..|chs| - 1], orders[..|orders| - 1]);
    }
  }

  /** The first `i` rows have been dispatched. */
  ghost predicate Polled(
      before: State, rows: seq<I.LogRow>, i: nat, sent: seq<Change>, orders: seq<seq<string>>, now: State)
  {
    && i <= |rows| && sent == ChangesOf(rows[..i]) && |orders| == i
    && AllEnumerate(orders, before.streams.Keys) && now == DispatchAll(before, sent, orders)
  }

  lemma PolledNext(
      before: State, rows: seq<I.LogRow>, i: nat, sent: seq<Change>, orders: seq<seq<string>>, now: State,
      order: seq<string>)
    requires Polled(before, rows, i, sent, orders, now) && i < |rows| && Enumerates(order, now.streams.Keys)
    ensures Polled(before, rows, i + 1, sent + [rows[i].entry.change], orders + [order],
                   Dispatch(now, rows[i].entry.change, order))
  {
    ChangesOfNext(rows, i);
    DispatchAllKeys(before, sent, orders);
    DispatchAllNext(before, sent, orders, rows[i].entry.change, order);
  }

  function TellOne(s: Session, shape: string): Session {
    if shape in s.shapes then Enqueue(s, ErrorMsg(shape)) else s
  }

  function Tell(sessions: map<nat, Session>, shape: string): map<nat, Session> {
    map id | id in sessions :: TellOne(sessions[id], shape)
  }

  function TellAll(sessions: map<nat, Session>, broken: seq<string>): map<nat, Session> {
    map id | id in sessions :: SendErrors(sessions[id], broken)
  }

  function DeliverAll(sessions: map<nat, Session>, results: seq<Applied>): map<nat, Session> {
    map id | id in sessions :: Deliver(sessions[id], results)
  }

  /** The streams outside `left` have seen the change. */
  function ApplyToSome(streams: map<string, Inst>, left: set<string>, ch: Change): map<string, Inst> {
    map n | n in streams :: if n in left then streams[n] else Apply(streams[n], ch).0
  }

  /** How reading the query result can fail: a row cannot be read, or its position cannot be parsed. */
  datatype ReadFailure = NoFailure | ReadFails(at: nat) | BadPosition(at: nat)

  /** How many of `n` rows are dispatched. */
  function Handled(n: nat, failure: ReadFailure): (k: nat)
    ensures k <= n
  {
    if failure.NoFailure? || n <= failure.at then n else failure.at
  }

  /** The cursor after a poll: a row whose position does not parse is passed over. */
  function CursorAfter(lastId: nat, rows: seq<I.LogRow>, failure: ReadFailure): nat {
    var k := Handled(|rows|, failure) + if failure.BadPosition? && failure.at < |rows| then 1 else 0;
    if k == 0 then lastId else rows[k - 1].id
  }

  /** Queues the events one by one; the first that does not fit disconnects the client and ends the loop. */
  method QueueEvents(s: Session, shape: string, evs: seq<Event>) returns (t: Session)
    ensures t == EnqueueChanges(s, shape, evs)
  {
    t := s;
    assert evs[0..] == evs;
    for i := 0 to |evs|
      invariant EnqueueChanges(s, shape, evs) == EnqueueChanges(t, shape, evs[i..])
    {
      assert evs[i..][0] == evs[i] && evs[i..][1..] == evs[i + 1..];
      if !Room(t) {
        return Disconnect(t);
      }
      t := Enqueue(t, ChangeMsg(shape, evs[i]));
    }
  }

  method DeliverResults(s: Session, results: seq<Applied>) returns (t: Session)
    ensures t == Deliver(s, results)
  {
    t := s;
    for i := 0 to |results|
      invariant t == Deliver(s, results[..i])
    {
      assert results[..i + 1][..i] == results[..i];
      if results[i].shape in t.shapes {
        t := QueueEvents(t, results[i].shape, results[i].events);
      }
    }
    assert results[..|results|] == results;
  }

  /** The streams, the sessions and the cursor of a running engine. */
  class LiveEngine {
    var streams: map<string, Inst>
    var sessions: map<nat, Session>
    var lastId: nat

    function State(): Engine.State
      reads this
    {
      Engine.State(streams, sessions)
    }

    constructor ()
      ensures State() == EMPTY && lastId == 0
    {
      streams, sessions, lastId := map[], map[], 0;
    }

    /** Tells every session subscribed to the shape that it failed. */
    method TellSubscribers(shape: string)
      modifies this`sessions
      ensures sessions == Tell(old(sessions), shape)
    {
      var left := sessions.Keys;
      while left != {}
        invariant left <= sessions.Keys == old(sessions).Keys
        invariant forall id :: id in sessions ==>
                    sessions[id] == if id !in left then TellOne(old(sessions)[id], shape) else old(sessions)[id]
        decreases |left|
      {
        var id :| id in left;
        if shape in sessions[id].shapes {
          sessions := sessions[id := Enqueue(sessions[id], ErrorMsg(shape))];
        }
        left := left - {id};
      }
    }

    /** Applies a change to every stream; the order is whatever the iteration over the streams was. */
    method ApplyToStreams(ch: Change) returns (order: seq<string>, results: seq<Applied>)
      modifies this`streams, this`sessions
      ensures Enumerates(order, old(streams).Keys)
      ensures streams == ApplyToAll(old(streams), ch)
      ensures results == Results(old(streams), ch, order)
      ensures sessions == TellAll(old(sessions), Broken(old(streams), ch, order))
    {
      order, results := [], [];
      var left := streams.Keys;
      TellNobody(sessions);
      while left != {}
        invariant left <= old(streams).Keys
        invariant streams == ApplyToSome(old(streams), left, ch)
        invariant Enumerates(order, old(streams).Keys - left)
        invariant results == Results(old(streams), ch, order)
        invariant sessions == TellAll(old(sessions), Broken(old(streams), ch, order))
        decreases |left|
      {
        var n :| n in left;
        var applied := Apply(streams[n], ch);
        var r := applied.1;
        VisitOne(old(streams), ch, order, n);
        ApplyOneMore(old(streams), left, ch, n);
        EnumerateOne(order, old(streams).Keys - left, n);
        assert old(streams).Keys - left + {n} == old(streams).Keys - (left - {n});
        streams := streams[n := applied.0];
        if r.Ok? {
          if |r.value| > 0 {
            results := results + [Applied(n, r.value)];
          }
        } else if Fatal(r) {
          TellOneMore(old(sessions), Broken(old(streams), ch, order), n);
          TellSubscribers(n);
        }
        order := order + [n];
        left := left - {n};
      }
    }

    method DeliverToAll(results: seq<Applied>)
      modifies this`sessions
      ensures sessions == DeliverAll(old(sessions), results)
    {
      var left := sessions.Keys;
      while left != {}
        invariant left <= sessions.Keys == old(sessions).Keys
        invariant forall id :: id in sessions ==>
                    sessions[id] == if id in left then old(sessions)[id] else Deliver(old(sessions)[id], results)
        decreases |left|
      {
        var id :| id in left;
        var t := DeliverResults(sessions[id], results);
        sessions := sessions[id := t];
        left := left - {id};
      }
    }

    method DispatchChange(ch: Change) returns (order: seq<string>)
      modifies this`streams, this`sessions
      ensures Enumerates(order, old(streams).Keys)
      ensures State() == Dispatch(old(State()), ch, order)
    {
      var results: seq<Applied>;
      order, results := ApplyToStreams(ch);
      DeliverToAll(results);
    }

    /** The loop over the rows of a query result. The cursor moves with every row read. */
    method DispatchRows(rows: seq<I.LogRow>, failure: ReadFailure)
      returns (ok: bool, sent: seq<Change>, orders: seq<seq<string>>)
      modifies this
      ensures ok == (failure.NoFailure? || |rows| <= failure.at)
      ensures Polled(old(State()), rows, Handled(|rows|, failure), sent, orders, State())
      ensures lastId == CursorAfter(old(lastId), rows, failure)
    {
      sent, orders := [], [];
      for i := 0 to |rows|
        invariant failure.NoFailure? || i <= failure.at
        invariant Polled(old(State()), rows, i, sent, orders, State())
        invariant lastId == if i == 0 then old(lastId) else rows[i - 1].id
      {
        if failure == ReadFails(i) {
          return false, sent, orders;
        }
        lastId := rows[i].id;
        if failure == BadPosition(i) {
          return false, sent, orders;
        }
        ghost var now := State();
        var order := DispatchChange(rows[i].entry.change);
        PolledNext(old(State()), rows, i, sent, orders, now, order);
        sent, orders := sent + [rows[i].entry.change], orders + [order];
      }
      return true, sent, orders;
    }

    /** One poll over a query result: the rows of `log` past the cursor. */
    method FanOutNewChanges(log: seq<I.LogRow>, failure: ReadFailure)
      returns (ok: bool, sent: seq<Change>, orders: seq<seq<string>>)
      modifies this
      ensures var rows := P.RowsAfter(log, old(lastId));
              var k := Handled(|rows|, failure);
              && ok == (failure.NoFailure? || |rows| <= failure.at)
              && sent == ChangesOf(rows[..k]) && |orders| == k
              && AllEnumerate(orders, old(streams).Keys)
              && lastId == CursorAfter(old(lastId), rows, failure)
              && State() == DispatchAll(old(State()), sent, orders)
    {
      ok, sent, orders := DispatchRows(P.RowsAfter(log, lastId), failure);
    }

    /** Subscribes a session; `snap` is the table snapshot, if it can be taken, and `cached` the materialized rows. */
    method SubscribeSession(cfg: Source, id: nat, snap: Option<Snapshot>, cached: seq<Row>) returns (ok: bool)
      requires id in sessions
      modifies this`streams, this`sessions
      ensures State() == Join(cfg, old(State()), Subscribe(id, cfg.def.name, snap, cached))
      ensures ok == SubscribeShape(cfg, old(streams), old(sessions)[id], snap, cached).2
    {
      var s;
      s, ok := SubscribeOne(cfg, sessions[id], snap, cached);
      if ok {
        s := s.(shapes := s.shapes + {cfg.def.name});
      } else {
        s := Enqueue(s, ErrorMsg(""));
      }
      sessions := sessions[id := s];
    }

    method SubscribeOne(cfg: Source, session: Session, snap: Option<Snapshot>, cached: seq<Row>)
      returns (s: Session, ok: bool)
      modifies this`streams
      ensures (streams, s, ok) == SubscribeShape(cfg, old(streams), session, snap, cached)
    {
      s := session;
      var name := cfg.def.name;
      var at := ResumeAt(s, name);
      if name in streams && at > 0 {
        var events := After(streams[name].log, at);
        if events.Some? {
          s := QueueEvents(s, name, events.value);
          return s, s.open;
        }
        s := Enqueue(s, ErrorMsg(name));
      }
      if name in streams && at == 0 {
        ok := Room(s);
        s := if ok then Enqueue(s, SnapshotMsg(name, LastOffset(streams[name].log), cached)) else Disconnect(s);
        return;
      }
      if snap.None? {
        return s, false;
      }
      var (inst, err) := LoadSnapshot(NewInst(cfg.def, cfg.filter), snap.value.lsn, snap.value.rows);
      if err.Some? {
        return s, false;
      }
      streams := streams[name := inst];
      ok := Room(s);
      s := if ok then Enqueue(s, SnapshotMsg(name, LastOffset(inst.log), snap.value.rows)) else Disconnect(s);
    }
  }

  lemma VisitOne(streams: map<string, Inst>, ch: Change, order: seq<string>, n: string)
    requires n in streams
    ensures var r := Apply(streams[n], ch).1;
            && (r.Ok? && |r.value| > 0 ==>
                  Results(streams, ch, order + [n]) == Results(streams, ch, order) + [Applied(n, r.value)])
            && (!(r.Ok? && |r.value| > 0) ==> Results(streams, ch, order + [n]) == Results(streams, ch, order))
            && (Fatal(r) ==> Broken(streams, ch, order + [n]) == Broken(streams, ch, order) + [n])
            && (!Fatal(r) ==> Broken(streams, ch, order + [n]) == Broken(streams, ch, order))
  {
    assert (order + [n])[..|order|] == order;
  }

  lemma ApplyOneMore(streams: map<string, Inst>, left: set<string>, ch: Change, n: string)
    requires n in left && left <= streams.Keys
    ensures ApplyToSome(streams, left, ch)[n] == streams[n]
    ensures ApplyToSome(streams, left, ch)[n := Apply(streams[n], ch).0] == ApplyToSome(streams, left - {n}, ch)
  {
  }

  lemma EnumerateOne(order: seq<string>, names: set<string>, n: string)
    requires Enumerates(order, names) && n !in names
    ensures Enumerates(order + [n], names + {n})
  {
  }

  lemma TellNobody(sessions: map<nat, Session>)
    ensures TellAll(sessions, []) == sessions
  {
  }

  lemma TellOneMore(sessions: map<nat, Session>, broken: seq<string>, n: string)
    ensures Tell(TellAll(sessions, broken), n) == TellAll(sessions, broken + [n])
  {
    assert (broken + [n])[..|broken|] == broken;
  }

  // ---- the cursor

  predicate Ascending(log: seq<I.LogRow>) { forall i, j :: 0 <= i < j < |log| ==> log[i].id < log[j].id }

  lemma {:induction false} CursorCuts(log: seq<I.LogRow>, lastId: nat) returns (d: nat)
    requires Ascending(log)
    ensures d <= |log| && forall i :: 0 <= i < |log| ==> (log[i].id > lastId <==> i >= d)
  {
    if |log| == 0 || log[|log| - 1].id <= lastId {
      d := |log|;
    } else {
      d := CursorCuts(log[..|log| - 1], lastId);
    }
  }

  /** The cursor after `k` of the rows past it have been read. */
  lemma CursorMoves(log: seq<I.LogRow>, lastId: nat, k: nat)
    requires Ascending(log) && k <= |P.RowsAfter(log, lastId)|
    ensures var rows := P.RowsAfter(log, lastId);
            P.RowsAfter(log, if k == 0 then lastId else rows[k - 1].id) == rows[k..]
  {
    var d := CursorCuts(log, lastId);
    P.RowsAfterIsSuffix(log, d, lastId);
    var rows := log[d..];
    if k > 0 {
      assert rows[k - 1] == log[d + k - 1];
      P.RowsAfterIsSuffix(log, d + k, rows[k - 1].id);
    }
    assert rows[k..] == log[d + k..];
  }

  /** Where the next poll resumes: nowhere after a complete one, at the row that could not be read, or after the row
      whose position could not be parsed. The rows before that were dispatched, and no others. */
  lemma NextPollResumes(log: seq<I.LogRow>, lastId: nat, failure: ReadFailure)
    requires Ascending(log)
    ensures var rows := P.RowsAfter(log, lastId);
            var next := P.RowsAfter(log, CursorAfter(lastId, rows, failure));
            && (failure.NoFailure? || failure.at >= |rows| ==> next == [] && Handled(|rows|, failure) == |rows|)
            && (failure.ReadFails? && failure.at < |rows| ==>
                  next == rows[failure.at..] && Handled(|rows|, failure) == failure.at)
            && (failure.BadPosition? && failure.at < |rows| ==>
                  next == rows[failure.at + 1..] && Handled(|rows|, failure) == failure.at)
  {
    var rows := P.RowsAfter(log, lastId);
    CursorMoves(log, lastId, Handled(|rows|, failure) + if failure.BadPosition? && failure.at < |rows| then 1 else 0);
  }

  // ---- a poll is a run of pipeline actions

  function Dispatches(orders: seq<seq<string>>): seq<P.Action> {
    seq(|orders|, i requires 0 <= i < |orders| => P.DispatchNext(orders[i]))
  }

  /** The pipeline state in the middle of a poll, after some rows. */
  function MidPoll(s: P.State, rows: seq<I.LogRow>, orders: seq<seq<string>>): P.State
    requires |orders| <= |rows|
  {
    var k := |orders|;
    s.(lastId := if k == 0 then s.lastId else rows[k - 1].id, batch := Some(rows[k..]),
       dispatched := s.dispatched + ChangesOf(rows[..k]), engine := DispatchAll(s.engine, ChangesOf(rows[..k]), orders))
  }

  lemma OneDispatch(cfg: P.Config, s: P.State, rows: seq<I.LogRow>, orders: seq<seq<string>>)
    requires 0 < |orders| <= |rows| && Enumerates(orders[|orders| - 1], s.engine.streams.Keys)
    ensures P.Step(cfg, MidPoll(s, rows, orders[..|orders| - 1]), P.DispatchNext(orders[|orders| - 1])) ==
            MidPoll(s, rows, orders)
  {
    var k := |orders| - 1;
    var chs := ChangesOf(rows[..k]);
    DispatchAllKeys(s.engine, chs, orders[..k]);
    assert ChangesOf(rows[..k + 1]) == chs + [rows[k].entry.change];
    assert ChangesOf(rows[..k + 1])[..k] == chs;
    assert rows[k..][1..] == rows[k + 1..] && rows[k..][0] == rows[k];
    assert s.dispatched + chs + [rows[k].entry.change] == s.dispatched + ChangesOf(rows[..k + 1]);
  }

  lemma OneMoreDispatch(
      cfg: P.Config, actions: seq<P.Action>, s: P.State, rows: seq<I.LogRow>, orders: seq<seq<string>>)
    requires 0 < |orders| <= |rows| && Enumerates(orders[|orders| - 1], s.engine.streams.Keys)
    requires P.Run(cfg, actions) == MidPoll(s, rows, orders[..|orders| - 1])
    ensures P.Run(cfg, actions + [P.DispatchNext(orders[|orders| - 1])]) == MidPoll(s, rows, orders)
  {
    P.RunLast(cfg, actions, P.DispatchNext(orders[|orders| - 1]));
    OneDispatch(cfg, s, rows, orders);
  }

  lemma DispatchesGrow(actions: seq<P.Action>, orders: seq<seq<string>>)
    requires |orders| > 0
    ensures actions + Dispatches(orders) ==
            actions + Dispatches(orders[..|orders| - 1]) + [P.DispatchNext(orders[|orders| - 1])]
  {
  }

  lemma {:induction false} DispatchesRun(
      cfg: P.Config, actions: seq<P.Action>, s: P.State, rows: seq<I.LogRow>, orders: seq<seq<string>>)
    requires |orders| <= |rows| && P.Run(cfg, actions) == MidPoll(s, rows, [])
    requires AllEnumerate(orders, s.engine.streams.Keys)
    ensures P.Run(cfg, actions + Dispatches(orders)) == MidPoll(s, rows, orders)
    decreases |orders|
  {
    if |orders| == 0 {
      assert actions + Dispatches(orders) == actions;
    } else {
      var init := orders[..|orders| - 1];
      DispatchesRun(cfg, actions, s, rows, init);
      OneMoreDispatch(cfg, actions + Dispatches(init), s, rows, orders);
      DispatchesGrow(actions, orders);
    }
  }

  /** The actions of a poll that dispatches with these orders and then ends or is cut short. */
  function PollActions(orders: seq<seq<string>>, complete: bool): seq<P.Action> {
    [P.PollStart] + Dispatches(orders) + [LastAction(complete)]
  }

  lemma PollStarts(cfg: P.Config, actions: seq<P.Action>, s: P.State)
    requires P.Run(cfg, actions) == s && s.batch.None?
    ensures P.Run(cfg, actions + [P.PollStart]) == MidPoll(s, P.RowsAfter(s.ingest.store.rows, s.lastId), [])
  {
    P.RunLast(cfg, actions, P.PollStart);
    var rows := P.RowsAfter(s.ingest.store.rows, s.lastId);
    assert rows[0..] == rows && ChangesOf(rows[..0]) == [] && s.dispatched + [] == s.dispatched;
  }

  function LastAction(complete: bool): P.Action { if complete then P.PollEnd else P.PollAbort }

  lemma PollEnds(
      cfg: P.Config, actions: seq<P.Action>, s: P.State, rows: seq<I.LogRow>, orders: seq<seq<string>>,
      failure: ReadFailure)
    requires s.batch.None? && !failure.BadPosition? && |orders| == Handled(|rows|, failure)
    requires P.Run(cfg, actions) == MidPoll(s, rows, orders)
    ensures P.Run(cfg, actions + [LastAction(|orders| == |rows|)]) == AfterPoll(s, rows, orders, failure)
  {
    P.RunLast(cfg, actions, LastAction(|orders| == |rows|));
    assert |orders| == |rows| ==> rows[|orders|..] == [];
  }

  /** The pipeline state after a poll. */
  function AfterPoll(s: P.State, rows: seq<I.LogRow>, orders: seq<seq<string>>, failure: ReadFailure): P.State
    requires |orders| <= |rows|
  {
    s.(lastId := CursorAfter(s.lastId, rows, failure), dispatched := s.dispatched + ChangesOf(rows[..|orders|]),
       engine := DispatchAll(s.engine, ChangesOf(rows[..|orders|]), orders))
  }

  lemma PollRuns(cfg: P.Config, actions: seq<P.Action>, s: P.State, failure: ReadFailure, orders: seq<seq<string>>)
    requires P.Run(cfg, actions) == s && s.batch.None? && !failure.BadPosition?
    requires |orders| == Handled(|P.RowsAfter(s.ingest.store.rows, s.lastId)|, failure)
    requires AllEnumerate(orders, s.engine.streams.Keys)
    ensures var rows := P.RowsAfter(s.ingest.store.rows, s.lastId);
            P.Run(cfg, actions + [P.PollStart] + Dispatches(orders) + [LastAction(|orders| == |rows|)]) ==
            AfterPoll(s, rows, orders, failure)
  {
    var rows := P.RowsAfter(s.ingest.store.rows, s.lastId);
    PollStarts(cfg, actions, s);
    DispatchesRun(cfg, actions + [P.PollStart], s, rows, orders);
    PollEnds(cfg, actions + [P.PollStart] + Dispatches(orders), s, rows, orders, failure);
  }

  lemma PollActionsFollow(actions: seq<P.Action>, orders: seq<seq<string>>, complete: bool)
    ensures actions + PollActions(orders, complete) ==
            actions + [P.PollStart] + Dispatches(orders) + [LastAction(complete)]
  {
  }

  /** The polling loop takes the pipeline's steps: from any reachable state between polls, what `FanOutNewChanges` does
      when no stored position is unreadable is a run of pipeline actions, with the same streams, sessions and cursor. */
  lemma PollIsRun(cfg: P.Config, actions: seq<P.Action>, failure: ReadFailure, orders: seq<seq<string>>)
    requires P.Run(cfg, actions).batch.None? && !failure.BadPosition?
    requires var s := P.Run(cfg, actions);
             && |orders| == Handled(|P.RowsAfter(s.ingest.store.rows, s.lastId)|, failure)
             && AllEnumerate(orders, s.engine.streams.Keys)
    ensures var s := P.Run(cfg, actions);
            var rows := P.RowsAfter(s.ingest.store.rows, s.lastId);
            P.Run(cfg, actions + PollActions(orders, |orders| == |rows|)) == AfterPoll(s, rows, orders, failure)
  {
    var s := P.Run(cfg, actions);
    var rows := P.RowsAfter(s.ingest.store.rows, s.lastId);
    PollRuns(cfg, actions, s, failure, orders);
    PollActionsFollow(actions, orders, |orders| == |rows|);
  }
}
