/** Idempotent mutations: each call records its key and runs the handler in one transaction. Calls from any number of
    workers interleave; a worker is one connection, which handles its mutations one after another. */
module Mutations {

  datatype Verdict = Accept | Refuse | Break

  datatype Outcome = Applied | Duplicate | Rejected | Failed

  /** The transaction has begun; it holds the key uncommitted; the handler has succeeded; it has committed. */
  datatype Stage = Begun | Holding | Handled | Committed

  datatype Call = Call(id: nat, key: string, stage: Stage)

  /** A committed handler effect. */
  datatype Effect = Effect(call: nat, key: string)

  /** A returned result; `after` counts the effects committed when it was returned. */
  datatype Reply = Reply(call: nat, key: string, outcome: Outcome, after: nat)

  datatype State = State(
    keys: set<string>, effects: seq<Effect>, workers: map<nat, Call>, replies: seq<Reply>, nextCall: nat)

  const INIT := State({}, [], map[], [], 0)

  datatype Action =
    | Start(w: nat, key: string)
    | InsertKey(w: nat)
    | InsertFails(w: nat)
    | Handle(w: nat, verdict: Verdict)
    | Commit(w: nat, ok: bool)
    | Return(w: nat)
    | Kill(w: nat)

  predicate Holds(c: Call) { c.stage.Holding? || c.stage.Handled? }

  /** Another transaction has inserted the key and not finished. */
  predicate Blocked(s: State, w: nat, key: string) {
    exists v :: v in s.workers && v != w && Holds(s.workers[v]) && s.workers[v].key == key
  }

  /** The call of worker w ends and returns an outcome. */
  function Finish(s: State, w: nat, outcome: Outcome): State
    requires w in s.workers
  {
    s.(workers := s.workers - {w},
       replies := s.replies + [Reply(s.workers[w].id, s.workers[w].key, outcome, |s.effects|)])
  }

  function Advance(s: State, w: nat, stage: Stage): State
    requires w in s.workers
  {
    s.(workers := s.workers[w := s.workers[w].(stage := stage)])
  }

  predicate At(s: State, w: nat, stage: Stage) {
    w in s.workers && s.workers[w].stage == stage
  }

  /** An action that is not enabled leaves the state alone. */
  function Step(s: State, a: Action): State {
    match a
    case Start(w, key) =>
      if w in s.workers then s
      else if key == "" then
        s.(replies := s.replies + [Reply(s.nextCall, key, Failed, |s.effects|)], nextCall := s.nextCall + 1)
      else s.(workers := s.workers[w := Call(s.nextCall, key, Begun)], nextCall := s.nextCall + 1)
    case InsertKey(w) =>
      if !At(s, w, Begun) || Blocked(s, w, s.workers[w].key) then s
      else if s.workers[w].key in s.keys then Finish(s, w, Duplicate)
      else Advance(s, w, Holding)
    case InsertFails(w) => if At(s, w, Begun) then Finish(s, w, Failed) else s
    case Handle(w, verdict) =>
      if !At(s, w, Holding) then s
      else (match verdict
            case Accept => Advance(s, w, Handled)
            case Refuse => Finish(s, w, Rejected)
            case Break => Finish(s, w, Failed))
    case Commit(w, ok) =>
      if !At(s, w, Handled) then s
      else if !ok then Finish(s, w, Failed)
      else
        var c := s.workers[w];
        Advance(s, w, Committed).(keys := s.keys + {c.key}, effects := s.effects + [Effect(c.id, c.key)])
    case Return(w) => if At(s, w, Committed) then Finish(s, w, Applied) else s
    case Kill(w) => s.(workers := s.workers - {w})
  }

  function Run(actions: seq<Action>): State {
    if |actions| == 0 then INIT else Step(Run(actions[..|actions| - 1]), actions[|actions| - 1])
  }

  predicate HasEffect(s: State, call: nat) {
    exists i :: 0 <= i < |s.effects| && s.effects[i].call == call
  }

  predicate KeysInv(s: State) {
    && (forall i :: 0 <= i < |s.effects| ==> s.effects[i].key in s.keys && s.effects[i].call < s.nextCall)
    && (forall k :: k in s.keys ==> exists i :: 0 <= i < |s.effects| && s.effects[i].key == k)
    && (forall i, j :: 0 <= i < j < |s.effects| ==> s.effects[i].key != s.effects[j].key)
  }

  predicate WorkersInv(s: State) {
    && (forall w :: w in s.workers ==>
         && s.workers[w].id < s.nextCall
         && (Holds(s.workers[w]) ==> s.workers[w].key !in s.keys)
         && (if s.workers[w].stage.Committed? then Effect(s.workers[w].id, s.workers[w].key) in s.effects
             else !HasEffect(s, s.workers[w].id)))
    && (forall v, w :: v in s.workers && w in s.workers && v != w ==> s.workers[v].id != s.workers[w].id)
    && (forall v, w :: v in s.workers && w in s.workers && v != w && Holds(s.workers[v]) && Holds(s.workers[w]) ==>
         s.workers[v].key != s.workers[w].key)
  }

  /** What a returned result says about the database. */
  predicate ReplyOk(s: State, r: Reply) {
    && r.call < s.nextCall
    && r.after <= |s.effects|
    && match r.outcome
       case Applied => Effect(r.call, r.key) in s.effects[..r.after]
       case Duplicate => !HasEffect(s, r.call) && exists i :: 0 <= i < r.after && s.effects[i].key == r.key
       case Rejected => !HasEffect(s, r.call)
       case Failed => !HasEffect(s, r.call)
  }

  predicate RepliesInv(s: State) {
    && (forall i :: 0 <= i < |s.replies| ==> ReplyOk(s, s.replies[i]))
    && (forall i, w :: 0 <= i < |s.replies| && w in s.workers ==> s.replies[i].call != s.workers[w].id)
  }

  predicate Inv(s: State) { KeysInv(s) && WorkersInv(s) && RepliesInv(s) }

  lemma FinishKeepsInv(s: State, w: nat, outcome: Outcome)
    requires Inv(s) && w in s.workers
    requires match outcome
             case Applied => s.workers[w].stage.Committed?
             case Duplicate => !s.workers[w].stage.Committed? && s.workers[w].key in s.keys
             case _ => !s.workers[w].stage.Committed?
    ensures Inv(Finish(s, w, outcome))
  {
    var t := Finish(s, w, outcome);
    var c := s.workers[w];
    assert t.effects[..|t.effects|] == t.effects;
    RepliesStay(s, t);
  }

  lemma AdvanceKeepsInv(s: State, w: nat, stage: Stage)
    requires Inv(s) && w in s.workers && !s.workers[w].stage.Committed? && !stage.Committed?
    requires stage.Holding? || stage.Handled? ==>
               s.workers[w].key !in s.keys && !Blocked(s, w, s.workers[w].key)
    ensures Inv(Advance(s, w, stage))
  {
    RepliesStay(s, Advance(s, w, stage));
  }

  /** A committed effect is new to everyone else. */
  lemma CommitIsNew(s: State, w: nat, call: nat)
    requires Inv(s) && At(s, w, Handled) && call != s.workers[w].id
    ensures HasEffect(Step(s, Commit(w, true)), call) <==> HasEffect(s, call)
  {
    var t := Step(s, Commit(w, true));
    assert t.effects[|s.effects|].call == s.workers[w].id;
    assert forall i :: 0 <= i < |s.effects| ==> t.effects[i] == s.effects[i];
  }

  lemma CommitKeepsWorkers(s: State, w: nat)
    requires Inv(s) && At(s, w, Handled)
    ensures WorkersInv(Step(s, Commit(w, true)))
  {
    var t := Step(s, Commit(w, true));
    assert t.effects[|s.effects|] == Effect(s.workers[w].id, s.workers[w].key);
    forall v | v in s.workers && v != w ensures HasEffect(t, s.workers[v].id) <==> HasEffect(s, s.workers[v].id) {
      CommitIsNew(s, w, s.workers[v].id);
    }
  }

  lemma CommitKeepsReplies(s: State, w: nat)
    requires Inv(s) && At(s, w, Handled)
    ensures RepliesInv(Step(s, Commit(w, true)))
  {
    var t := Step(s, Commit(w, true));
    forall i | 0 <= i < |t.replies| ensures ReplyOk(t, t.replies[i]) {
      var r := s.replies[i];
      assert ReplyOk(s, r) && r.call != s.workers[w].id;
      assert t.effects[..r.after] == s.effects[..r.after];
      CommitIsNew(s, w, r.call);
    }
  }

  lemma CommitKeepsInv(s: State, w: nat)
    requires Inv(s) && At(s, w, Handled)
    ensures Inv(Step(s, Commit(w, true)))
  {
    var t := Step(s, Commit(w, true));
    assert t.effects[|s.effects|].key == s.workers[w].key;
    assert forall i :: 0 <= i < |s.effects| ==> t.effects[i] == s.effects[i];
    assert KeysInv(t);
    CommitKeepsWorkers(s, w);
    CommitKeepsReplies(s, w);
  }

  lemma StepKeepsInv(s: State, a: Action)
    requires Inv(s)
    ensures Inv(Step(s, a))
  {
    match a
    case Start(w, key) => StartKeepsInv(s, w, key);
    case InsertKey(w) =>
      if At(s, w, Begun) && !Blocked(s, w, s.workers[w].key) {
        if s.workers[w].key in s.keys { FinishKeepsInv(s, w, Duplicate); } else { AdvanceKeepsInv(s, w, Holding); }
      }
    case InsertFails(w) => if At(s, w, Begun) { FinishKeepsInv(s, w, Failed); }
    case Handle(w, verdict) =>
      if At(s, w, Holding) {
        match verdict
        case Accept => AdvanceKeepsInv(s, w, Handled);
        case Refuse => FinishKeepsInv(s, w, Rejected);
        case Break => FinishKeepsInv(s, w, Failed);
      }
    case Commit(w, ok) =>
      if At(s, w, Handled) {
        if ok { CommitKeepsInv(s, w); } else { FinishKeepsInv(s, w, Failed); }
      }
    case Return(w) => if At(s, w, Committed) { FinishKeepsInv(s, w, Applied); }
    case Kill(w) => KillKeepsInv(s, w);
  }

  lemma KillKeepsInv(s: State, w: nat)
    requires Inv(s)
    ensures Inv(Step(s, Kill(w)))
  {
    RepliesStay(s, Step(s, Kill(w)));
  }

  /** Results stay true while no effect is added. */
  lemma RepliesStay(s: State, t: State)
    requires RepliesInv(s) && t.effects == s.effects && s.nextCall <= t.nextCall
    ensures forall i :: 0 <= i < |s.replies| ==> ReplyOk(t, s.replies[i])
  {
    forall i | 0 <= i < |s.replies| ensures ReplyOk(t, s.replies[i]) {
      assert ReplyOk(s, s.replies[i]);
      assert HasEffect(t, s.replies[i].call) <==> HasEffect(s, s.replies[i].call);
    }
  }

  lemma StartKeepsInv(s: State, w: nat, key: string)
    requires Inv(s)
    ensures Inv(Step(s, Start(w, key)))
  {
    var t := Step(s, Start(w, key));
    RepliesStay(s, t);
    assert !HasEffect(t, s.nextCall);
    assert KeysInv(t);
    StartKeepsWorkers(s, w, key);
  }

  lemma StartKeepsWorkers(s: State, w: nat, key: string)
    requires Inv(s)
    ensures WorkersInv(Step(s, Start(w, key)))
  {
    if w !in s.workers && key != "" {
      NewWorker(s, w, Call(s.nextCall, key, Begun));
    } else {
      assert WorkersInv(s);
    }
  }

  lemma NewWorker(s: State, w: nat, c: Call)
    requires Inv(s) && w !in s.workers && c.id == s.nextCall && c.stage.Begun?
    ensures WorkersInv(s.(workers := s.workers[w := c], nextCall := s.nextCall + 1))
  {
    var t := s.(workers := s.workers[w := c], nextCall := s.nextCall + 1);
    assert !HasEffect(s, s.nextCall);
    forall call ensures HasEffect(t, call) <==> HasEffect(s, call) {
    }
  }

  lemma {:induction false} RunKeepsInv(actions: seq<Action>)
    ensures Inv(Run(actions))
  {
    if |actions| > 0 {
      RunKeepsInv(actions[..|actions| - 1]);
      StepKeepsInv(Run(actions[..|actions| - 1]), actions[|actions| - 1]);
    }
  }

  function CountKey(effects: seq<Effect>, key: string): nat {
    if |effects| == 0 then 0
    else CountKey(effects[..|effects| - 1], key) + if effects[|effects| - 1].key == key then 1 else 0
  }

  lemma {:induction false} CountDistinct(effects: seq<Effect>, key: string)
    requires forall i, j :: 0 <= i < j < |effects| ==> effects[i].key != effects[j].key
    ensures CountKey(effects, key) == if exists i :: 0 <= i < |effects| && effects[i].key == key then 1 else 0
  {
    if |effects| > 0 {
      var init := effects[..|effects| - 1];
      CountDistinct(init, key);
      assert forall i :: 0 <= i < |init| ==> init[i] == effects[i];
    }
  }

  /** At most once: in every interleaving a key is recorded exactly when exactly one effect for it has committed and
      otherwise none has; rejected and failed calls leave no effect; a duplicate is reported only after the effect
      for its key has committed. */
  lemma AtMostOnce(actions: seq<Action>)
    ensures var s := Run(actions);
            && (forall k :: CountKey(s.effects, k) == if k in s.keys then 1 else 0)
            && (forall i :: 0 <= i < |s.replies| ==> ReplyOk(s, s.replies[i]))
  {
    RunKeepsInv(actions);
    var s := Run(actions);
    forall k ensures CountKey(s.effects, k) == if k in s.keys then 1 else 0 {
      CountDistinct(s.effects, k);
    }
  }

  /** In every interleaving the empty key is refused before anything runs. */
  lemma {:induction false} EmptyKeyNeverRuns(actions: seq<Action>)
    ensures var s := Run(actions);
            && "" !in s.keys && (forall w :: w in s.workers ==> s.workers[w].key != "")
            && (forall i :: 0 <= i < |s.replies| && s.replies[i].key == "" ==> s.replies[i].outcome.Failed?)
  {
    if |actions| > 0 {
      EmptyKeyNeverRuns(actions[..|actions| - 1]);
    }
  }

  // ---- a client that replays its queue

  /** The connections of the client, with the queue position each one has reached; a connection is a worker. */
  datatype Replay = Replay(db: State, pos: map<nat, nat>)

  datatype ReplayAction = Connect(w: nat) | Do(a: Action)

  /** The client's connections start the queue's mutations in order and none of their calls is rejected or fails;
      everybody else uses other keys, with any outcome. */
  predicate Allowed(q: seq<string>, r: Replay, a: Action) {
    if a.w in r.pos then
      match a
      case Start(w, key) => r.pos[w] < |q| && key == q[r.pos[w]]
      case InsertFails(w) => false
      case Handle(w, verdict) => verdict.Accept?
      case Commit(w, ok) => ok
      case _ => true
    else a.Start? ==> a.key !in q
  }

  /** A connection moves on when its call returns; a killed connection is gone. */
  function ReplayStep(q: seq<string>, r: Replay, x: ReplayAction): Replay {
    match x
    case Connect(w) => if w in r.pos || w in r.db.workers then r else r.(pos := r.pos[w := 0])
    case Do(a) =>
      if !Allowed(q, r, a) then r
      else
        var db := Step(r.db, a);
        if a.w !in r.pos then r.(db := db)
        else if a.Kill? then Replay(db, r.pos - {a.w})
        else if a.w in r.db.workers && a.w !in db.workers then Replay(db, r.pos[a.w := r.pos[a.w] + 1])
        else r.(db := db)
  }

  function ReplayRun(q: seq<string>, xs: seq<ReplayAction>): Replay {
    if |xs| == 0 then Replay(INIT, map[])
    else ReplayStep(q, ReplayRun(q, xs[..|xs| - 1]), xs[|xs| - 1])
  }

  /** The committed effects for the queue's keys, in commit order. */
  function QueueEffects(q: seq<string>, effects: seq<Effect>): seq<string> {
    if |effects| == 0 then []
    else QueueEffects(q, effects[..|effects| - 1])
         + if effects[|effects| - 1].key in q then [effects[|effects| - 1].key] else []
  }

  predicate ConnectionInv(q: seq<string>, r: Replay, n: nat, w: nat)
    requires w in r.pos
  {
    && r.pos[w] <= n
    && (w in r.db.workers ==>
         && r.pos[w] < |q|
         && r.db.workers[w].key == q[r.pos[w]]
         && (r.db.workers[w].stage.Committed? ==> r.pos[w] < n))
  }

  predicate ReplayInv(q: seq<string>, r: Replay, n: nat) {
    && Inv(r.db)
    && n <= |q|
    && QueueEffects(q, r.db.effects) == q[..n]
    && (forall i :: 0 <= i < n ==> q[i] in r.db.keys)
    && (forall w :: w in r.pos ==> ConnectionInv(q, r, n, w))
    && (forall w :: w in r.db.workers && w !in r.pos ==> r.db.workers[w].key !in q)
  }

  predicate DistinctNonEmpty(q: seq<string>) {
    && (forall i :: 0 <= i < |q| ==> q[i] != "")
    && forall i, j :: 0 <= i < j < |q| ==> q[i] != q[j]
  }

  lemma {:induction false} QueueEffectsMember(q: seq<string>, effects: seq<Effect>, k: string)
    requires k in q
    ensures k in QueueEffects(q, effects) <==> exists i :: 0 <= i < |effects| && effects[i].key == k
  {
    if |effects| > 0 {
      var init := effects[..|effects| - 1];
      QueueEffectsMember(q, init, k);
      assert forall i :: 0 <= i < |init| ==> init[i] == effects[i];
    }
  }

  /** A queue key that has committed is among the first n. */
  lemma CommittedBefore(q: seq<string>, r: Replay, n: nat, p: nat)
    requires DistinctNonEmpty(q) && ReplayInv(q, r, n) && p < |q|
    ensures q[p] in r.db.keys <==> p < n
  {
    QueueEffectsMember(q, r.db.effects, q[p]);
    if q[p] in r.db.keys {
      assert q[p] in q[..n];
    }
  }

  lemma CommitQueueEffects(q: seq<string>, s: State, w: nat)
    requires At(s, w, Handled)
    ensures var key := s.workers[w].key;
            QueueEffects(q, Step(s, Commit(w, true)).effects) ==
            QueueEffects(q, s.effects) + if key in q then [key] else []
  {
    var t := Step(s, Commit(w, true));
    assert t.effects[..|t.effects| - 1] == s.effects;
  }

  /** A commit adds the next queue key, or none. */
  lemma CommitEffects(q: seq<string>, r: Replay, w: nat, n: nat) returns (m: nat)
    requires DistinctNonEmpty(q) && ReplayInv(q, r, n) && At(r.db, w, Handled)
    ensures n <= m <= |q| && (w in r.pos ==> r.pos[w] < m)
    ensures QueueEffects(q, Step(r.db, Commit(w, true)).effects) == q[..m]
    ensures forall i :: 0 <= i < m ==> q[i] in r.db.keys + {r.db.workers[w].key}
  {
    CommitQueueEffects(q, r.db, w);
    m := n;
    if w in r.pos {
      assert ConnectionInv(q, r, n, w);
      CommittedBefore(q, r, n, r.pos[w]);
      assert q[..n + 1] == q[..n] + [q[n]];
      m := n + 1;
    } else {
      assert q[..n] + [] == q[..n];
    }
  }

  lemma CommitReplayed(q: seq<string>, r: Replay, w: nat, n: nat) returns (m: nat)
    requires DistinctNonEmpty(q) && ReplayInv(q, r, n) && At(r.db, w, Handled)
    ensures ReplayInv(q, r.(db := Step(r.db, Commit(w, true))), m)
  {
    CommitKeepsInv(r.db, w);
    m := CommitEffects(q, r, w, n);
    CommitKeepsConnections(q, r, w, n, m);
  }

  lemma CommitKeepsConnections(q: seq<string>, r: Replay, w: nat, n: nat, m: nat)
    requires ReplayInv(q, r, n) && At(r.db, w, Handled) && n <= m && (w in r.pos ==> r.pos[w] < m)
    ensures var t := r.(db := Step(r.db, Commit(w, true)));
            && (forall v :: v in t.pos ==> ConnectionInv(q, t, m, v))
            && (forall v :: v in t.db.workers && v !in t.pos ==> t.db.workers[v].key !in q)
  {
    var t := r.(db := Step(r.db, Commit(w, true)));
    forall v | v in t.pos ensures ConnectionInv(q, t, m, v) {
      assert ConnectionInv(q, r, n, v);
    }
  }

  lemma ReplayStepKeepsInv(q: seq<string>, r: Replay, x: ReplayAction, n: nat) returns (m: nat)
    requires DistinctNonEmpty(q) && ReplayInv(q, r, n)
    ensures ReplayInv(q, ReplayStep(q, r, x), m)
  {
    m := n;
    if x.Do? && Allowed(q, r, x.a) {
      var a := x.a;
      if a.Commit? && a.ok && At(r.db, a.w, Handled) {
        m := CommitReplayed(q, r, a.w, n);
      } else {
        QuietStep(q, r, a, n);
      }
    } else if x.Connect? {
      var t := ReplayStep(q, r, x);
      forall v | v in t.pos ensures ConnectionInv(q, t, n, v) {
        if v in r.pos { assert ConnectionInv(q, r, n, v); }
      }
    }
  }

  /** Every step but a successful commit leaves keys and effects alone and moves only its own worker. */
  lemma QuietDb(s: State, a: Action)
    requires !(a.Commit? && a.ok && At(s, a.w, Handled))
    ensures var t := Step(s, a);
            && t.keys == s.keys && t.effects == s.effects
            && (forall v :: v != a.w ==> (v in t.workers <==> v in s.workers))
            && (forall v :: v != a.w && v in s.workers ==> t.workers[v] == s.workers[v])
            && (a.w in t.workers ==>
                  if a.w in s.workers
                  then t.workers[a.w].key == s.workers[a.w].key
                       && (t.workers[a.w].stage.Committed? ==> s.workers[a.w].stage.Committed?)
                  else a.Start? && t.workers[a.w].key == a.key && t.workers[a.w].stage.Begun?)
  {
  }

  /** A call that ends without being killed, rejected or failing has its key committed. */
  lemma EndsCommitted(s: State, a: Action)
    requires WorkersInv(s) && KeysInv(s) && a.w in s.workers && a.w !in Step(s, a).workers
    requires !a.Kill? && !a.InsertFails? && (a.Handle? ==> a.verdict.Accept?) && (a.Commit? ==> a.ok)
    ensures s.workers[a.w].key in s.keys
  {
  }

  lemma QuietConnections(q: seq<string>, r: Replay, a: Action, n: nat)
    requires DistinctNonEmpty(q) && ReplayInv(q, r, n) && Allowed(q, r, a)
    requires !(a.Commit? && a.ok && At(r.db, a.w, Handled))
    ensures var t := ReplayStep(q, r, Do(a));
            && (forall v :: v in t.pos ==> ConnectionInv(q, t, n, v))
            && (forall v :: v in t.db.workers && v !in t.pos ==> t.db.workers[v].key !in q)
  {
    QuietDb(r.db, a);
    var t := ReplayStep(q, r, Do(a));
    forall v | v in t.pos ensures ConnectionInv(q, t, n, v) {
      assert ConnectionInv(q, r, n, v);
      if v == a.w && v in r.db.workers && v !in t.db.workers {
        EndsCommitted(r.db, a);
        CommittedBefore(q, r, n, r.pos[v]);
      }
    }
  }

  lemma QuietStep(q: seq<string>, r: Replay, a: Action, n: nat)
    requires DistinctNonEmpty(q) && ReplayInv(q, r, n) && Allowed(q, r, a)
    requires !(a.Commit? && a.ok && At(r.db, a.w, Handled))
    ensures ReplayInv(q, ReplayStep(q, r, Do(a)), n)
  {
    StepKeepsInv(r.db, a);
    QuietDb(r.db, a);
    QuietConnections(q, r, a, n);
    assert ReplayStep(q, r, Do(a)).db == Step(r.db, a);
  }

  lemma {:induction false} ReplayRunKeepsInv(q: seq<string>, xs: seq<ReplayAction>) returns (n: nat)
    requires DistinctNonEmpty(q)
    ensures ReplayInv(q, ReplayRun(q, xs), n)
  {
    if |xs| == 0 {
      n := 0;
    } else {
      n := ReplayRunKeepsInv(q, xs[..|xs| - 1]);
      n := ReplayStepKeepsInv(q, ReplayRun(q, xs[..|xs| - 1]), xs[|xs| - 1], n);
    }
  }

  /** Queue replay: however often the client is killed and replays its queue from the start, over any number of
      overlapping connections and among any other traffic, the committed effects of the queue are a prefix of the
      queue, in queue order, each once. */
  lemma QueueReplay(q: seq<string>, xs: seq<ReplayAction>)
    requires DistinctNonEmpty(q)
    ensures QueueEffects(q, ReplayRun(q, xs).db.effects) <= q
  {
    var n := ReplayRunKeepsInv(q, xs);
  }

  // ---- the call itself, in place

  /** How the foreign parts of one call behave. */
  datatype Behaviour = Behaviour(insertFails: bool, verdict: Verdict, commitOk: bool)

  class MutationStore {
    var keys: set<string>
    var effects: seq<Effect>

    constructor ()
      ensures keys == {} && effects == []
    {
      keys, effects := {}, [];
    }

    /** One call with nothing interleaved. The key and the effect become visible together or not at all. */
    method Apply(call: nat, key: string, b: Behaviour) returns (outcome: Outcome)
      modifies this
      ensures outcome == Alone(old(keys), key, b)
      ensures keys == if outcome.Applied? then old(keys) + {key} else old(keys)
      ensures effects == if outcome.Applied? then old(effects) + [Effect(call, key)] else old(effects)
    {
      if key == "" {
        return Failed;
      }
      var tx := keys;
      if b.insertFails {
        return Failed;
      }
      if key in tx {
        return Duplicate;
      }
      tx := tx + {key};
      match b.verdict {
        case Refuse => return Rejected;
        case Break => return Failed;
        case Accept =>
      }
      if !b.commitOk {
        return Failed;
      }
      keys, effects := tx, effects + [Effect(call, key)];
      return Applied;
    }
  }

  function Alone(keys: set<string>, key: string, b: Behaviour): Outcome {
    if key == "" || b.insertFails then Failed
    else if key in keys then Duplicate
    else if b.verdict.Refuse? then Rejected
    else if b.verdict.Break? || !b.commitOk then Failed
    else Applied
  }

  /** Exactly when a call ends how. A refusal by the handler is told from every other failure. */
  lemma AloneExactly(keys: set<string>, key: string, b: Behaviour)
    ensures var runs := key != "" && !b.insertFails && key !in keys;
            var outcome := Alone(keys, key, b);
            && (outcome.Duplicate? <==> key != "" && !b.insertFails && key in keys)
            && (outcome.Applied? <==> runs && b.verdict.Accept? && b.commitOk)
            && (outcome.Rejected? <==> runs && b.verdict.Refuse?)
  {
  }

  function Serial(s: State, w: nat, key: string, b: Behaviour): State {
    var s1 := Step(s, Start(w, key));
    var s2 := Step(s1, if b.insertFails then InsertFails(w) else InsertKey(w));
    var s3 := Step(s2, Handle(w, b.verdict));
    var s4 := Step(s3, Commit(w, b.commitOk));
    Step(s4, Return(w))
  }

  /** The interleaved steps of a call, run without interleaving, are the in-place call. */
  lemma SerialCall(s: State, w: nat, key: string, b: Behaviour)
    requires s.workers == map[]
    ensures var t := Serial(s, w, key, b);
            var outcome := Alone(s.keys, key, b);
            && t.workers == map[]
            && t.replies == s.replies + [Reply(s.nextCall, key, outcome, |t.effects|)]
            && t.keys == (if outcome.Applied? then s.keys + {key} else s.keys)
            && t.effects == (if outcome.Applied? then s.effects + [Effect(s.nextCall, key)] else s.effects)
  {
    var s1 := Step(s, Start(w, key));
    if key != "" {
      assert s1.workers == map[w := Call(s.nextCall, key, Begun)];
      assert !Blocked(s1, w, key);
    }
  }
}
