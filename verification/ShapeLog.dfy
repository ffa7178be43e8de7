/** The per-shape append-only event log with offsets 1, 2, 3, ... */
module ShapeLog {
  import opened Rows

  datatype EventOp = EventInsert | EventUpdate | EventDelete

  datatype Event = Event(offset: int, op: EventOp, table: string, row: Row)

  /** The value of a log. `next` is the offset of the next event. */
  datatype LogState = LogState(next: int, events: seq<Event>, halted: Option<Error>)

  const EMPTY_LOG := LogState(1, [], None)

  function Append(l: LogState, op: EventOp, table: string, row: Row): LogState {
    l.(next := l.next + 1, events := l.events + [Event(l.next, op, table, row)])
  }

  /** Only the first halt reason is kept. */
  function Halt(l: LogState, e: Error): LogState {
    if l.halted.None? then l.(halted := Some(e)) else l
  }

  function LastOffset(l: LogState): int {
    if |l.events| == 0 then 0 else l.events[|l.events| - 1].offset
  }

  /** The events past an offset, in order. */
  function Later(events: seq<Event>, offset: int): seq<Event> {
    if |events| == 0 then []
    else Later(events[..|events| - 1], offset)
         + if events[|events| - 1].offset > offset then [events[|events| - 1]] else []
  }

  /** None when the log cannot serve a resume from `offset`. */
  function After(l: LogState, offset: int): Option<seq<Event>> {
    if |l.events| == 0 then (if offset == 0 then Some([]) else None)
    else if 0 < offset < l.events[0].offset - 1 then None
    else Some(Later(l.events, offset))
  }

  /** Offsets are exactly 1..n. */
  predicate Contiguous(l: LogState) {
    l.next == |l.events| + 1 && forall i :: 0 <= i < |l.events| ==> l.events[i].offset == i + 1
  }

  lemma {:induction false} LaterIsSuffix(events: seq<Event>, k: nat)
    requires forall i :: 0 <= i < |events| ==> events[i].offset == i + 1
    ensures Later(events, k) == if k <= |events| then events[k..] else []
  {
    if |events| > 0 {
      LaterIsSuffix(events[..|events| - 1], k);
      if k < |events| {
        assert events[k..] == events[..|events| - 1][k..] + [events[|events| - 1]];
      }
    }
  }

  lemma {:induction false} LaterIsAll(events: seq<Event>, k: int)
    requires forall i :: 0 <= i < |events| ==> events[i].offset > k
    ensures Later(events, k) == events
  {
    if |events| > 0 {
      var init := events[..|events| - 1];
      LaterIsAll(init, k);
      assert events == init + [events[|events| - 1]];
    }
  }

  /** What any offset gets from a log with offsets 1..n: the events after it, all of them for one that is not positive,
      none for one that was never issued; an empty log only answers offset 0. */
  lemma AfterExact(l: LogState, k: int)
    requires Contiguous(l)
    ensures After(l, k) ==
            if |l.events| == 0 then (if k == 0 then Some([]) else None)
            else Some(if k <= 0 then l.events else if k <= |l.events| then l.events[k..] else [])
  {
    if k <= 0 {
      LaterIsAll(l.events, k);
    } else {
      LaterIsSuffix(l.events, k);
    }
  }

  /** The first halt reason is kept, and halting touches nothing else. */
  lemma FirstHaltWins(l: LogState, e: Error, f: Error)
    ensures l.halted.None? ==> Halt(l, e).halted == Some(e)
    ensures Halt(Halt(l, e), f) == Halt(l, e)
    ensures Halt(l, e).events == l.events && Halt(l, e).next == l.next
  {
  }

  /** Resuming from any offset the log has issued yields exactly the events after it. */
  lemma AfterIssuedOffset(l: LogState, k: nat)
    requires Contiguous(l) && k <= |l.events|
    ensures After(l, k) == Some(l.events[k..])
    ensures LastOffset(l) == |l.events|
  {
    LaterIsSuffix(l.events, k);
  }

  class Log {
    var next: int
    var events: seq<Event>
    var halted: Option<Error>

    function State(): LogState
      reads this
    {
      LogState(next, events, halted)
    }

    constructor ()
      ensures State() == EMPTY_LOG
    {
      next, events, halted := 1, [], None;
    }

    method HaltWith(e: Error)
      modifies this
      ensures State() == Halt(old(State()), e)
    {
      if halted.None? {
        halted := Some(e);
      }
    }

    method AppendEvent(op: EventOp, table: string, row: Row) returns (r: Result<Event>)
      modifies this
      ensures old(halted).Some? ==> r == Err(old(halted).value) && State() == old(State())
      ensures old(halted).None? ==>
                && State() == Append(old(State()), op, table, row)
                && r == Ok(events[|events| - 1])
    {
      if halted.Some? {
        return Err(halted.value);
      }
      var ev := Event(next, op, table, row);
      next := next + 1;
      events := events + [ev];
      return Ok(ev);
    }

    method EventsAfter(offset: int) returns (r: Option<seq<Event>>)
      ensures r == After(State(), offset)
    {
      if |events| == 0 {
        return if offset == 0 then Some([]) else None;
      }
      var first := events[0].offset;
      if offset > 0 && offset < first - 1 {
        return None;
      }
      var out: seq<Event> := [];
      for i := 0 to |events|
        invariant out == Later(events[..i], offset)
      {
        assert events[..i + 1][..i] == events[..i];
        if events[i].offset > offset {
          out := out + [events[i]];
        }
      }
      assert events[..|events|] == events;
      return Some(out);
    }
  }
}
