/** A reader that takes the newest offset and then the cached rows, with no lock held across the two reads,
    while changes are applied: Apply writes the cache first and appends to the log afterwards. */
module ConcurrentRead {
  import opened Rows
  import opened Wal
  import opened ShapeLog
  import opened Shapes
  import opened Views
  import opened Replay

  datatype Reader = Idle | GotOffset(offset: int) | Done(offset: int, rows: seq<Row>)

  /** `pending` is the instance after the append that is still to come, once the cache has been written. */
  datatype State = State(inst: Inst, pending: Option<Inst>, reader: Reader)

  datatype Action =
    | WriteCache(ch: Change)
    | AppendLog
    | ReadOffset
    | ReadRows(rows: seq<Row>)

  /** An action that is not enabled leaves the state alone. */
  function Step(s: State, a: Action): State {
    match a
    case WriteCache(ch) =>
      if s.pending.Some? || (Reaches(s.inst, ch) && !KeyPreserving(s.inst, ch)) then s
      else
        var j := Apply(s.inst, ch).0;
        if j.log.events == s.inst.log.events then s.(inst := j)
        else s.(inst := j.(log := s.inst.log), pending := Some(j))
    case AppendLog =>
      if s.pending.Some? then s.(inst := s.pending.value, pending := None) else s
    case ReadOffset =>
      if s.reader.Idle? then s.(reader := GotOffset(LastOffset(s.inst.log))) else s
    case ReadRows(rows) =>
      if s.reader.GotOffset? && Lists(rows, s.inst.cache, s.inst.def.pk)
      then s.(reader := Done(s.reader.offset, rows)) else s
  }

  function Run(s: State, actions: seq<Action>): State {
    if |actions| == 0 then s else Step(Run(s, actions[..|actions| - 1]), actions[|actions| - 1])
  }

  /** The two halves of a change, one after the other, are Apply. */
  lemma SerialApply(s: State, ch: Change)
    requires s.pending.None? && (Reaches(s.inst, ch) ==> KeyPreserving(s.inst, ch))
    ensures Step(Step(s, WriteCache(ch)), AppendLog) == s.(inst := Apply(s.inst, ch).0)
  {
  }

  /** A reader with nothing in between gets the offset of the last event and the rows it was given. */
  lemma SerialRead(s: State, rows: seq<Row>)
    requires s.reader.Idle? && Lists(rows, s.inst.cache, s.inst.def.pk)
    ensures var es := s.inst.log.events;
            Step(Step(s, ReadOffset), ReadRows(rows)) ==
            s.(reader := Done(if |es| == 0 then 0 else es[|es| - 1].offset, rows))
  {
  }

  /** The instance once the pending append is done. */
  function Settled(s: State): Inst {
    if s.pending.Some? then s.pending.value else s.inst
  }

  /** The rows are the state after the first j events, for some j not below the offset. */
  ghost predicate NotOlder(i: Inst, offset: int, rows: seq<Row>) {
    exists j: int :: 0 <= offset <= j <= |i.log.events| &&
      Laid(i.def.pk, map[], rows) == Fold(i.def.pk, map[], i.log.events[..j])
  }

  ghost predicate Inv(s: State) {
    var i := Settled(s);
    && Replays(i)
    && s.inst.cache == i.cache && s.inst.def == i.def
    && Contiguous(s.inst.log)
    && s.inst.log.events <= i.log.events
    && match s.reader
       case Idle => true
       case GotOffset(k) => 0 <= k <= |s.inst.log.events|
       case Done(k, rows) => NotOlder(i, k, rows)
  }

  lemma NotOlderGrows(i: Inst, j: Inst, offset: int, rows: seq<Row>)
    requires NotOlder(i, offset, rows) && i.def == j.def && i.log.events <= j.log.events
    ensures NotOlder(j, offset, rows)
  {
    var n: int :| 0 <= offset <= n <= |i.log.events| &&
      Laid(i.def.pk, map[], rows) == Fold(i.def.pk, map[], i.log.events[..n]);
    assert j.log.events[..n] == i.log.events[..n];
  }

  lemma WriteKeepsInv(s: State, ch: Change)
    requires Inv(s) && s.pending.None? && (Reaches(s.inst, ch) ==> KeyPreserving(s.inst, ch))
    ensures Inv(Step(s, WriteCache(ch)))
  {
    ApplyReplays(s.inst, ch);
    ApplyAppends(s.inst, ch);
    ApplyKeeps(s.inst, ch);
    if s.reader.Done? {
      NotOlderGrows(s.inst, Apply(s.inst, ch).0, s.reader.offset, s.reader.rows);
    }
  }

  lemma StepKeepsInv(s: State, a: Action)
    requires Inv(s)
    ensures Inv(Step(s, a))
  {
    var i := Settled(s);
    match a
    case WriteCache(ch) =>
      if s.pending.None? && (Reaches(s.inst, ch) ==> KeyPreserving(s.inst, ch)) {
        WriteKeepsInv(s, ch);
      }
    case AppendLog =>
    case ReadOffset => AfterIssuedOffset(s.inst.log, 0);
    case ReadRows(rows) =>
      if s.reader.GotOffset? && Lists(rows, s.inst.cache, s.inst.def.pk) {
        LaidLists(i.def.pk, rows, i.cache);
        assert i.log.events[..|i.log.events|] == i.log.events;
      }
  }

  lemma {:induction false} RunKeepsInv(s: State, actions: seq<Action>)
    requires Inv(s)
    ensures Inv(Run(s, actions))
  {
    if |actions| > 0 {
      RunKeepsInv(s, actions[..|actions| - 1]);
      StepKeepsInv(Run(s, actions[..|actions| - 1]), actions[|actions| - 1]);
    }
  }

  /** In every interleaving the rows a reader sends are never older than the offset it sends with them, and
      replaying all events after that offset, overlaps included, reaches the cache. */
  lemma SnapshotReadConverges(i: Inst, actions: seq<Action>)
    requires Replays(i)
    ensures var s := Run(State(i, None, Idle), actions);
            s.reader.Done? ==>
              && NotOlder(Settled(s), s.reader.offset, s.reader.rows)
              && (s.pending.None? ==>
                    && After(s.inst.log, s.reader.offset).Some?
                    && Fold(s.inst.def.pk, Laid(s.inst.def.pk, map[], s.reader.rows),
                            After(s.inst.log, s.reader.offset).value) == s.inst.cache)
  {
    RunKeepsInv(State(i, None, Idle), actions);
    var s := Run(State(i, None, Idle), actions);
    if s.reader.Done? && s.pending.None? {
      var es, k, pk := s.inst.log.events, s.reader.offset, s.inst.def.pk;
      var j: int :| 0 <= k <= j <= |es| && Laid(pk, map[], s.reader.rows) == Fold(pk, map[], es[..j]);
      AfterIssuedOffset(s.inst.log, k);
      ReplayOverlap(pk, map[], es, k, j);
    }
  }
}
