/** Subscribing while changes are dispatched: a subscription reads the stream, queues what it read and only then
    marks the session as subscribed, and the dispatcher appends an event and only then looks whether the session is
    subscribed. No lock spans either pair of steps. One stream and one session, event by event. */
module SubscribeRace {
  import opened Rows
  import opened ShapeLog
  import opened Views
  import opened Replay

  /** The subscription: not begun; the stream read when it had `at` events; that queued; the session marked as
      subscribed when `since` events had been looked at. Reading is the snapshot of a live or fresh stream, or the
      events a resuming client lacks; either way the client ends up with the fold of the first `at` events. */
  datatype Phase = Outside | Read(at: nat) | Queued(at: nat) | Inside(at: nat, since: nat)

  /** `checked` counts the events for which the dispatcher has looked at the session. */
  datatype State = State(events: seq<Event>, checked: nat, phase: Phase, replica: Table)

  const INIT := State([], 0, Outside, map[])

  datatype Action = Append(ev: Event) | Check | ReadStream | QueueRows | AddShape

  /** There is one dispatcher: it looks at the session before it appends again. */
  function Step(pk: seq<string>, s: State, a: Action): State {
    match a
    case Append(ev) => if s.checked == |s.events| then s.(events := s.events + [ev]) else s
    case Check =>
      if s.checked >= |s.events| then s
      else s.(checked := s.checked + 1,
              replica := if s.phase.Inside? then FoldEvent(pk, s.replica, s.events[s.checked]) else s.replica)
    case ReadStream => if s.phase.Outside? then s.(phase := Read(|s.events|)) else s
    case QueueRows =>
      if s.phase.Read? && s.phase.at <= |s.events|
      then s.(phase := Queued(s.phase.at), replica := Fold(pk, map[], s.events[..s.phase.at])) else s
    case AddShape => if s.phase.Queued? then s.(phase := Inside(s.phase.at, s.checked)) else s
  }

  function Run(pk: seq<string>, actions: seq<Action>): State {
    if |actions| == 0 then INIT else Step(pk, Run(pk, actions[..|actions| - 1]), actions[|actions| - 1])
  }

  /** What a client holds that read the first `at` events and got those from `since` up to `n`. */
  function Got(pk: seq<string>, events: seq<Event>, at: nat, since: nat, n: nat): Table
    requires at <= |events| && since <= n <= |events|
  {
    Fold(pk, Fold(pk, map[], events[..at]), events[since..n])
  }

  predicate Inv(pk: seq<string>, s: State) {
    && s.checked <= |s.events| <= s.checked + 1
    && match s.phase
       case Outside => true
       case Read(at) => at <= |s.events|
       case Queued(at) => at <= |s.events| && s.replica == Fold(pk, map[], s.events[..at])
       case Inside(at, since) =>
         && at <= |s.events| && since <= s.checked && at <= since + 1
         && s.replica == Got(pk, s.events, at, since, s.checked)
  }

  lemma GotNext(pk: seq<string>, events: seq<Event>, at: nat, since: nat, n: nat)
    requires at <= |events| && since <= n < |events|
    ensures Got(pk, events, at, since, n + 1) == FoldEvent(pk, Got(pk, events, at, since, n), events[n])
  {
    FoldNext(pk, Fold(pk, map[], events[..at]), events, since, n);
  }

  lemma CheckKeepsInv(pk: seq<string>, s: State)
    requires Inv(pk, s) && s.checked < |s.events| && s.phase.Inside?
    ensures Inv(pk, Step(pk, s, Check))
  {
    GotNext(pk, s.events, s.phase.at, s.phase.since, s.checked);
  }

  lemma AppendKeepsInv(pk: seq<string>, s: State, ev: Event)
    requires Inv(pk, s)
    ensures Inv(pk, Step(pk, s, Append(ev)))
  {
    var longer := s.events + [ev];
    if !s.phase.Outside? {
      assert longer[..s.phase.at] == s.events[..s.phase.at];
    }
    if s.phase.Inside? {
      assert longer[s.phase.since..s.checked] == s.events[s.phase.since..s.checked];
    }
  }

  lemma StepKeepsInv(pk: seq<string>, s: State, a: Action)
    requires Inv(pk, s)
    ensures Inv(pk, Step(pk, s, a))
  {
    match a
    case Append(ev) => AppendKeepsInv(pk, s, ev);
    case Check => if s.checked < |s.events| && s.phase.Inside? { CheckKeepsInv(pk, s); }
    case AddShape =>
      if s.phase.Queued? {
        assert s.events[s.checked..s.checked] == [];
      }
    case _ =>
  }

  lemma {:induction false} RunKeepsInv(pk: seq<string>, actions: seq<Action>)
    ensures Inv(pk, Run(pk, actions))
  {
    if |actions| > 0 {
      RunKeepsInv(pk, actions[..|actions| - 1]);
      StepKeepsInv(pk, Run(pk, actions[..|actions| - 1]), actions[|actions| - 1]);
    }
  }

  /** What the client should hold: the stream's rows as of what it has been sent. */
  function Due(pk: seq<string>, s: State): Table
    requires s.phase.Inside? && s.phase.at <= |s.events| && s.checked <= |s.events|
  {
    Fold(pk, map[], s.events[..Max(s.phase.at, s.checked)])
  }

  /** The key is as it was when the stream was read, or was touched since the session was marked. */
  predicate KeyRight(pk: seq<string>, s: State, k: string)
    requires s.phase.Inside? && s.phase.at <= |s.events| && s.phase.since <= s.checked <= |s.events|
  {
    || k in Touched(pk, s.events[s.phase.since..s.checked])
    || (s.phase.at <= s.phase.since ==>
          AgreeAt(Fold(pk, map[], s.events[..s.phase.at]), Fold(pk, map[], s.events[..s.phase.since]), k))
  }

  /** Nothing was looked at between reading and marking: the client is right. */
  lemma OverlapIsHarmless(pk: seq<string>, s: State)
    requires Inv(pk, s) && s.phase.Inside? && s.phase.since <= s.phase.at
    ensures s.replica == Due(pk, s)
  {
    var at, since, n := s.phase.at, s.phase.since, s.checked;
    if n < at {
      assert s.events[since..n] == [];
    } else {
      var es := s.events[..n];
      assert es[..at] == s.events[..at] && es[since..] == s.events[since..n];
      ReplayOverlap(pk, map[], es, since, at);
    }
  }

  lemma GapPerKey(pk: seq<string>, s: State, k: string)
    requires Inv(pk, s) && s.phase.Inside? && s.phase.at <= s.phase.since
    ensures AgreeAt(s.replica, Due(pk, s), k) <==> KeyRight(pk, s, k)
  {
    var at, since, n := s.phase.at, s.phase.since, s.checked;
    assert s.events[..since] + s.events[since..n] == s.events[..n];
    FoldConcat(pk, map[], s.events[..since], s.events[since..n]);
    SameEvents(pk, Fold(pk, map[], s.events[..at]), Fold(pk, map[], s.events[..since]), s.events[since..n], k);
  }

  /** In every interleaving: the client is right about a key exactly when the events the dispatcher looked at between
      the reading and the marking left the key as it was, or a later event touched it. When there were none it is
      right about everything. */
  lemma SubscriberRightExactly(pk: seq<string>, actions: seq<Action>, k: string)
    ensures var s := Run(pk, actions);
            s.phase.Inside? ==>
              && s.phase.at <= |s.events| && s.phase.since <= s.checked <= |s.events|
              && (AgreeAt(s.replica, Due(pk, s), k) <==> KeyRight(pk, s, k))
              && (s.phase.since <= s.phase.at ==> s.replica == Due(pk, s))
  {
    var s := Run(pk, actions);
    RunKeepsInv(pk, actions);
    if s.phase.Inside? && s.phase.since <= s.phase.at {
      OverlapIsHarmless(pk, s);
    }
    if s.phase.Inside? && s.phase.at <= s.phase.since {
      GapPerKey(pk, s, k);
    }
  }

  lemma Then(pk: seq<string>, actions: seq<Action>, a: Action) returns (longer: seq<Action>)
    ensures Run(pk, longer) == Step(pk, Run(pk, actions), a)
  {
    longer := actions + [a];
    assert longer[..|actions|] == actions;
  }

  /** Such runs exist, for any row: an event appended and looked at between the reading and the marking never
      arrives. */
  lemma EventIsLost(pk: seq<string>, ev: Event) returns (actions: seq<Action>)
    requires !ev.op.EventDelete?
    ensures Run(pk, actions) == State([ev], 1, Inside(0, 1), map[])
    ensures Fold(pk, map[], [ev]) != map[]
  {
    actions := Then(pk, [], ReadStream);
    actions := Then(pk, actions, Append(ev));
    assert Run(pk, actions) == State([ev], 0, Read(0), map[]);
    actions := Then(pk, actions, Check);
    actions := Then(pk, actions, QueueRows);
    assert [ev][..0] == [];
    assert Run(pk, actions) == State([ev], 1, Queued(0), map[]);
    actions := Then(pk, actions, AddShape);
    assert KeyOf(pk, Some(ev.row)) in FoldEvent(pk, map[], ev);
  }
}
