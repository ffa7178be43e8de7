/** The outbound buffer of a connection: any number of enqueuers and shutdown callers share a mutex, an atomic flag, a
    once guard and a bounded channel with one write pump. Each thread step is one access to shared state. */
module Outbound {

  type Message = string

  /** Where a thread is. Enqueue: first flag check, waiting for the mutex, second check, send, unlock.
      Shutdown: entering the once guard, storing the flag, waiting for the mutex, closing the channel, unlock. */
  datatype Pc =
    | Check(msg: Message)
    | Wait(msg: Message)
    | Recheck(msg: Message)
    | Send(msg: Message)
    | Unlock(msg: Message, ok: bool)
    | EnterOnce
    | StoreFlag
    | WaitClose
    | CloseChannel
    | LeaveOnce

  datatype Once = NotRun | Running(winner: nat) | Ran

  datatype State = State(
    closed: bool, channelClosed: bool, mutex: set<nat>, once: Once,
    buffer: seq<Message>, capacity: nat,
    accepted: seq<Message>, taken: seq<Message>,
    threads: map<nat, Pc>, panics: nat, closes: nat)

  /** NewConn: a non-positive size falls back to 64. */
  function NewConn(size: int): State {
    State(false, false, {}, NotRun, [], if size <= 0 then 64 else size, [], [], map[], 0, 0)
  }

  datatype Action =
    | Enqueue(t: nat, msg: Message)
    | Shutdown(t: nat)
    | Move(t: nat)
    | Take

  function Goto(s: State, t: nat, pc: Pc): State { s.(threads := s.threads[t := pc]) }

  function Exit(s: State, t: nat): State { s.(threads := s.threads - {t}) }

  /** A send on the closed channel and a second close both panic. */
  function MoveThread(s: State, t: nat, pc: Pc): State {
    match pc
    case Check(m) => if s.closed then Exit(s, t) else Goto(s, t, Wait(m))
    case Wait(m) => if s.mutex == {} then Goto(s, t, Recheck(m)).(mutex := {t}) else s
    case Recheck(m) => Goto(s, t, if s.closed then Unlock(m, false) else Send(m))
    case Send(m) =>
      if s.channelClosed then Goto(s, t, Unlock(m, false)).(panics := s.panics + 1)
      else if |s.buffer| < s.capacity
      then Goto(s, t, Unlock(m, true)).(buffer := s.buffer + [m], accepted := s.accepted + [m])
      else Goto(s, t, Unlock(m, false))
    case Unlock(_, _) => Exit(s, t).(mutex := s.mutex - {t})
    case EnterOnce =>
      (match s.once
       case NotRun => Goto(s, t, StoreFlag).(once := Running(t))
       case Running(_) => s
       case Ran => Exit(s, t))
    case StoreFlag => Goto(s, t, WaitClose).(closed := true)
    case WaitClose => if s.mutex == {} then Goto(s, t, CloseChannel).(mutex := {t}) else s
    case CloseChannel =>
      Goto(s, t, LeaveOnce).(channelClosed := true, closes := s.closes + 1,
                             panics := if s.channelClosed then s.panics + 1 else s.panics)
    case LeaveOnce => Exit(s, t).(mutex := s.mutex - {t}, once := Ran)
  }

  function Step(s: State, a: Action): State {
    match a
    case Enqueue(t, m) => if t in s.threads then s else Goto(s, t, Check(m))
    case Shutdown(t) => if t in s.threads then s else Goto(s, t, EnterOnce)
    case Move(t) => if t in s.threads then MoveThread(s, t, s.threads[t]) else s
    case Take =>
      if |s.buffer| == 0 then s
      else s.(buffer := s.buffer[1..], taken := s.taken + [s.buffer[0]])
  }

  function Run(s: State, actions: seq<Action>): State {
    if |actions| == 0 then s else Step(Run(s, actions[..|actions| - 1]), actions[|actions| - 1])
  }

  predicate InMutex(pc: Pc) {
    pc.Recheck? || pc.Send? || pc.Unlock? || pc.CloseChannel? || pc.LeaveOnce?
  }

  predicate InOnce(pc: Pc) {
    pc.StoreFlag? || pc.WaitClose? || pc.CloseChannel? || pc.LeaveOnce?
  }

  predicate ThreadInv(s: State, t: nat, pc: Pc) {
    && (InMutex(pc) ==> s.mutex == {t})
    && (InOnce(pc) ==> s.once == Running(t))
    && (pc.Send? ==> !s.channelClosed)
    && (pc.StoreFlag? || pc.WaitClose? || pc.CloseChannel? ==> !s.channelClosed)
    && (pc.WaitClose? || pc.CloseChannel? ==> s.closed)
  }

  predicate Inv(s: State) {
    && (s.channelClosed ==> s.closed && !s.once.NotRun?)
    && s.closes == (if s.channelClosed then 1 else 0)
    && s.panics == 0
    && |s.buffer| <= s.capacity
    && s.accepted == s.taken + s.buffer
    && (forall t :: t in s.threads ==> ThreadInv(s, t, s.threads[t]))
  }

  lemma MoveKeepsInv(s: State, t: nat)
    requires Inv(s) && t in s.threads
    ensures Inv(MoveThread(s, t, s.threads[t]))
  {
    var pc := s.threads[t];
    var n := MoveThread(s, t, pc);
    assert ThreadInv(s, t, pc);
    forall u | u in n.threads ensures ThreadInv(n, u, n.threads[u]) {
      if u != t {
        assert ThreadInv(s, u, s.threads[u]);
      }
    }
    if pc.Send? && |s.buffer| < s.capacity {
      assert s.taken + s.buffer + [pc.msg] == s.taken + (s.buffer + [pc.msg]);
    }
  }

  lemma StepKeepsInv(s: State, a: Action)
    requires Inv(s)
    ensures Inv(Step(s, a)) && Step(s, a).capacity == s.capacity
  {
    var n := Step(s, a);
    if a.Move? && a.t in s.threads {
      MoveKeepsInv(s, a.t);
    } else {
      forall u | u in n.threads ensures ThreadInv(n, u, n.threads[u]) {
        if u in s.threads {
          assert ThreadInv(s, u, s.threads[u]);
        }
      }
      if a.Take? && |s.buffer| > 0 {
        assert s.taken + [s.buffer[0]] + s.buffer[1..] == s.taken + s.buffer;
      }
    }
  }

  lemma {:induction false} RunKeepsInv(s: State, actions: seq<Action>)
    requires Inv(s)
    ensures Inv(Run(s, actions)) && Run(s, actions).capacity == s.capacity
  {
    if |actions| > 0 {
      RunKeepsInv(s, actions[..|actions| - 1]);
      StepKeepsInv(Run(s, actions[..|actions| - 1]), actions[|actions| - 1]);
    }
  }

  /** In every interleaving nothing is sent on the closed channel, the channel is closed at most once, the buffer never
      exceeds its capacity, and what the pump has taken is a prefix, in order, of what was accepted. */
  lemma BufferProtocol(size: int, actions: seq<Action>)
    ensures var s := Run(NewConn(size), actions);
            && s.panics == 0 && s.closes <= 1
            && |s.buffer| <= s.capacity == (if size <= 0 then 64 else size)
            && s.taken <= s.accepted && s.accepted[|s.taken|..] == s.buffer
  {
    RunKeepsInv(NewConn(size), actions);
  }

  /** Once the channel is closed nothing more is accepted, whatever threads are still on their way. */
  lemma {:induction false} ClosedAcceptsNothing(s: State, actions: seq<Action>)
    requires Inv(s) && s.channelClosed
    ensures Run(s, actions).channelClosed && Run(s, actions).accepted == s.accepted
  {
    if |actions| > 0 {
      var init := actions[..|actions| - 1];
      ClosedAcceptsNothing(s, init);
      RunKeepsInv(s, init);
      var m := Run(s, init);
      var a := actions[|actions| - 1];
      if a.Move? && a.t in m.threads {
        assert ThreadInv(m, a.t, m.threads[a.t]);
      }
    }
  }

  function Takes(n: nat): seq<Action> { seq(n, _ => Take) }

  /** The pump takes what is buffered, one message at a time and in order, until nothing is left. */
  lemma {:induction false} PumpDrains(s: State, n: nat)
    requires n <= |s.buffer|
    ensures var t := Run(s, Takes(n));
            t.taken == s.taken + s.buffer[..n] && t.buffer == s.buffer[n..] && t.accepted == s.accepted
    decreases n
  {
    if n == 0 {
      assert s.taken + s.buffer[..0] == s.taken;
    } else {
      PumpDrains(s, n - 1);
      assert Takes(n)[..n - 1] == Takes(n - 1);
      assert s.buffer[..n] == s.buffer[..n - 1] + [s.buffer[n - 1]];
      assert s.buffer[n - 1..][1..] == s.buffer[n..] && s.buffer[n - 1..][0] == s.buffer[n - 1];
    }
  }

  // ---- in-place form

  /** Alone, with no other thread on its way. */
  predicate Quiet(s: State) { s.threads == map[] && s.mutex == {} && !s.once.Running? }

  /** Five moves of one thread: enough to finish an Enqueue or a shutdown. */
  function FiveMoves(s: State, t: nat): State {
    var a := Step(s, Move(t));
    var b := Step(a, Move(t));
    var c := Step(b, Move(t));
    var d := Step(c, Move(t));
    Step(d, Move(t))
  }

  class Conn {
    const capacity: nat
    var closed: bool
    var channelClosed: bool
    var buffer: seq<Message>
    ghost var accepted: seq<Message>
    ghost var taken: seq<Message>

    ghost predicate Valid()
      reads this
    {
      |buffer| <= capacity && accepted == taken + buffer && (channelClosed ==> closed)
    }

    constructor (size: int)
      ensures Valid() && capacity == NewConn(size).capacity && !closed && !channelClosed
      ensures accepted == [] && taken == []
    {
      capacity := if size <= 0 then 64 else size;
      closed, channelClosed, buffer, accepted, taken := false, false, [], [], [];
    }

    method EnqueueMessage(msg: Message) returns (ok: bool)
      requires Valid()
      modifies this`buffer, this`accepted
      ensures Valid()
      ensures ok <==> !closed && |old(buffer)| < capacity
      ensures buffer == if ok then old(buffer) + [msg] else old(buffer)
      ensures accepted == if ok then old(accepted) + [msg] else old(accepted)
    {
      if closed {
        return false;
      }
      if |buffer| < capacity {
        buffer := buffer + [msg];
        accepted := accepted + [msg];
        return true;
      }
      return false;
    }

    method ShutDown()
      requires Valid()
      modifies this`closed, this`channelClosed
      ensures Valid() && closed && channelClosed
    {
      if !channelClosed {
        closed := true;
        channelClosed := true;
      }
    }

    /** The pump writes until the buffer is empty, or until `stopAfter` messages when a write fails or the context
        ends. */
    method WritePump(stopAfter: nat) returns (written: seq<Message>)
      requires Valid()
      modifies this`buffer, this`taken
      ensures Valid()
      ensures written == old(buffer)[..if stopAfter < |old(buffer)| then stopAfter else |old(buffer)|]
      ensures taken == old(taken) + written && buffer == old(buffer)[|written|..]
    {
      written := [];
      while |buffer| > 0 && |written| < stopAfter
        invariant |written| <= |old(buffer)| && |written| <= stopAfter
        invariant written == old(buffer)[..|written|]
        invariant buffer == old(buffer)[|written|..]
        invariant taken == old(taken) + written && Valid()
        decreases |buffer|
      {
        var msg := buffer[0];
        buffer := buffer[1..];
        taken := taken + [msg];
        written := written + [msg];
      }
    }
  }

  /** The interleaved Enqueue, run with nothing interleaved, accepts exactly when the in-place one does. */
  lemma SerialEnqueue(s: State, t: nat, msg: Message)
    requires Inv(s) && Quiet(s)
    ensures var n := FiveMoves(Step(s, Enqueue(t, msg)), t);
            && Quiet(n) && n.closed == s.closed && n.channelClosed == s.channelClosed && n.taken == s.taken
            && (var ok := !s.closed && |s.buffer| < s.capacity;
                && n.buffer == (if ok then s.buffer + [msg] else s.buffer)
                && n.accepted == (if ok then s.accepted + [msg] else s.accepted))
  {
    var s0 := Step(s, Enqueue(t, msg));
    assert s0.threads == map[t := Check(msg)];
    var s1 := Step(s0, Move(t));
    var s2 := Step(s1, Move(t));
    var s3 := Step(s2, Move(t));
    var s4 := Step(s3, Move(t));
    assert s1.threads == if s.closed then map[] else map[t := Wait(msg)];
    assert s2.threads == if s.closed then map[] else map[t := Recheck(msg)];
    assert s3.threads == if s.closed then map[] else map[t := Send(msg)];
    assert s4.threads == if s.closed then map[] else map[t := Unlock(msg, |s.buffer| < s.capacity)];
  }

  lemma SecondShutdown(s: State, t: nat)
    requires Inv(s) && Quiet(s) && s.once.Ran?
    ensures var n := FiveMoves(Step(s, Shutdown(t)), t);
            && Quiet(n) && n.buffer == s.buffer && n.accepted == s.accepted && n.taken == s.taken
            && n.closed == s.closed && n.channelClosed == s.channelClosed
  {
    var s0 := Step(s, Shutdown(t));
    assert s0.threads == map[t := EnterOnce];
    var s1 := Step(s0, Move(t));
    assert s1.threads == map[];
  }

  lemma FirstShutdown(s: State, t: nat)
    requires Inv(s) && Quiet(s) && s.once.NotRun?
    ensures var n := FiveMoves(Step(s, Shutdown(t)), t);
            && Quiet(n) && n.buffer == s.buffer && n.accepted == s.accepted && n.taken == s.taken
            && n.closed && n.channelClosed && n.once.Ran?
  {
    var s0 := s.(threads := map[t := EnterOnce]);
    var s1 := s.(threads := map[t := StoreFlag], once := Running(t));
    var s2 := s1.(threads := map[t := WaitClose], closed := true);
    assert Step(s, Shutdown(t)) == s0 && Step(s0, Move(t)) == s1 && Step(s1, Move(t)) == s2;
    CloseAlone(s2, t);
  }

  /** The locked half of a shutdown. */
  lemma CloseAlone(s: State, t: nat)
    requires s.threads == map[t := WaitClose] && s.mutex == {} && !s.channelClosed
    ensures Step(Step(Step(s, Move(t)), Move(t)), Move(t)) ==
            s.(threads := map[], channelClosed := true, closes := s.closes + 1, once := Ran)
  {
    var s1 := s.(threads := map[t := CloseChannel], mutex := {t});
    var s2 := s1.(threads := map[t := LeaveOnce], channelClosed := true, closes := s.closes + 1);
    assert Step(s, Move(t)) == s1 && Step(s1, Move(t)) == s2;
    assert map[t := LeaveOnce] - {t} == map[];
  }

  /** The interleaved shutdown, run with nothing interleaved, closes the flag and the channel. */
  lemma SerialShutdown(s: State, t: nat)
    requires Inv(s) && Quiet(s)
    ensures var n := FiveMoves(Step(s, Shutdown(t)), t);
            && Quiet(n) && n.buffer == s.buffer && n.accepted == s.accepted && n.taken == s.taken
            && (s.once.NotRun? ==> n.closed && n.channelClosed && n.once.Ran?)
            && (s.once.Ran? ==> n.closed == s.closed && n.channelClosed == s.channelClosed)
  {
    if s.once.Ran? {
      SecondShutdown(s, t);
    } else {
      FirstShutdown(s, t);
    }
  }
}
