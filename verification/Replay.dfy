/** Replaying a shape log: the client's fold rebuilds the cache, resume is lossless, and every key's events
    follow the life cycle insert, update*, delete. */
module Replay {
  import opened Text
  import opened Rows
  import opened Filters
  import opened Wal
  import opened ShapeLog
  import opened Shapes
  import opened Views

  // ---- the client's fold

  /** A replica sets the row of an insert or update and removes the row of a delete. */
  function FoldEvent(pk: seq<string>, m: Table, e: Event): Table {
    var k := KeyOf(pk, Some(e.row));
    if e.op.EventDelete? then m - {k} else m[k := e.row]
  }

  function Fold(pk: seq<string>, m: Table, es: seq<Event>): Table {
    if |es| == 0 then m else FoldEvent(pk, Fold(pk, m, es[..|es| - 1]), es[|es| - 1])
  }

  lemma {:induction false} FoldConcat(pk: seq<string>, m: Table, a: seq<Event>, b: seq<Event>)
    ensures Fold(pk, m, a + b) == Fold(pk, Fold(pk, m, a), b)
  {
    if |b| == 0 {
      assert a + b == a;
    } else {
      FoldConcat(pk, m, a, b[..|b| - 1]);
      assert (a + b)[..|a + b| - 1] == a + b[..|b| - 1];
    }
  }

  lemma FoldNext(pk: seq<string>, m: Table, es: seq<Event>, lo: nat, hi: nat)
    requires lo <= hi < |es|
    ensures Fold(pk, m, es[lo..hi + 1]) == FoldEvent(pk, Fold(pk, m, es[lo..hi]), es[hi])
  {
    var seen := es[lo..hi + 1];
    assert seen[..|seen| - 1] == es[lo..hi] && seen[|seen| - 1] == es[hi];
  }

  lemma FoldSplit(pk: seq<string>, m: Table, es: seq<Event>, k: nat)
    requires k <= |es|
    ensures Fold(pk, Fold(pk, m, es[..k]), es[k..]) == Fold(pk, m, es)
  {
    FoldConcat(pk, m, es[..k], es[k..]);
    assert es[..k] + es[k..] == es;
  }

  function Touched(pk: seq<string>, es: seq<Event>): set<string> {
    set e | e in es :: KeyOf(pk, Some(e.row))
  }

  ghost predicate AgreeOutside(a: Table, b: Table, keys: set<string>) {
    forall k :: k !in keys ==> (k in a <==> k in b) && (k in a ==> a[k] == b[k])
  }

  lemma FoldEventConverges(pk: seq<string>, a: Table, b: Table, keys: set<string>, e: Event)
    requires AgreeOutside(a, b, keys)
    ensures AgreeOutside(FoldEvent(pk, a, e), FoldEvent(pk, b, e), keys - {KeyOf(pk, Some(e.row))})
  {
  }

  lemma TouchedLast(pk: seq<string>, es: seq<Event>)
    requires |es| > 0
    ensures Touched(pk, es) == Touched(pk, es[..|es| - 1]) + {KeyOf(pk, Some(es[|es| - 1].row))}
  {
    var init, last := es[..|es| - 1], es[|es| - 1];
    assert es == init + [last];
    assert last in es;
  }

  /** Folding the same events makes two replicas agree on every key the events touch. */
  lemma {:induction false} FoldConverges(pk: seq<string>, a: Table, b: Table, keys: set<string>, es: seq<Event>)
    requires AgreeOutside(a, b, keys)
    ensures AgreeOutside(Fold(pk, a, es), Fold(pk, b, es), keys - Touched(pk, es))
  {
    if |es| > 0 {
      var init, last := es[..|es| - 1], es[|es| - 1];
      FoldConverges(pk, a, b, keys, init);
      FoldEventConverges(pk, Fold(pk, a, init), Fold(pk, b, init), keys - Touched(pk, init), last);
      TouchedLast(pk, es);
      assert keys - Touched(pk, init) - {KeyOf(pk, Some(last.row))} == keys - Touched(pk, es);
    }
  }

  /** Two replicas fed the same events agree on a key that is touched, and otherwise where they agreed before. */
  lemma {:induction false} SameEvents(pk: seq<string>, a: Table, b: Table, es: seq<Event>, k: string)
    ensures AgreeAt(Fold(pk, a, es), Fold(pk, b, es), k) <==> k in Touched(pk, es) || AgreeAt(a, b, k)
  {
    if |es| > 0 {
      SameEvents(pk, a, b, es[..|es| - 1], k);
      TouchedLast(pk, es);
    }
  }

  lemma {:induction false} FoldStaysOutside(pk: seq<string>, a: Table, es: seq<Event>)
    ensures AgreeOutside(a, Fold(pk, a, es), Touched(pk, es))
  {
    if |es| > 0 {
      FoldStaysOutside(pk, a, es[..|es| - 1]);
      TouchedLast(pk, es);
    }
  }

  lemma FoldTwice(pk: seq<string>, m: Table, es: seq<Event>)
    ensures Fold(pk, Fold(pk, m, es), es) == Fold(pk, m, es)
  {
    var r := Fold(pk, m, es);
    FoldStaysOutside(pk, m, es);
    FoldConverges(pk, m, r, Touched(pk, es), es);
    assert AgreeOutside(r, Fold(pk, r, es), {});
  }

  /** Events already reflected in a replica may be replayed: a replica at position j that is sent everything
      after an earlier offset k still reaches the full fold. */
  lemma ReplayOverlap(pk: seq<string>, m: Table, es: seq<Event>, k: nat, j: nat)
    requires k <= j <= |es|
    ensures Fold(pk, Fold(pk, m, es[..j]), es[k..]) == Fold(pk, m, es)
  {
    CutTwice(es, k, j);
    OverlapOf(pk, m, es[..k], es[k..j], es[j..]);
  }

  lemma CutTwice(es: seq<Event>, k: nat, j: nat)
    requires k <= j <= |es|
    ensures es[..k] + es[k..j] == es[..j] && es[k..j] + es[j..] == es[k..] && es[..k] + (es[k..j] + es[j..]) == es
  {
  }

  lemma OverlapOf(pk: seq<string>, m: Table, a: seq<Event>, b: seq<Event>, c: seq<Event>)
    ensures Fold(pk, Fold(pk, m, a + b), b + c) == Fold(pk, m, a + (b + c))
  {
    var s := Fold(pk, m, a);
    FoldConcat(pk, m, a, b);
    FoldTwice(pk, s, b);
    FoldConcat(pk, Fold(pk, s, b), b, c);
    FoldConcat(pk, m, a, b + c);
    FoldConcat(pk, s, b, c);
  }

  /** A replica from which the events after an offset lead to the full fold. */
  predicate Converges(pk: seq<string>, m: Table, es: seq<Event>, offset: int) {
    0 <= offset <= |es| && Fold(pk, m, es[offset..]) == Fold(pk, map[], es)
  }

  lemma ConvergesGrows(pk: seq<string>, m: Table, es: seq<Event>, more: seq<Event>, offset: int)
    requires Converges(pk, m, es, offset)
    ensures Converges(pk, m, es + more, offset)
  {
    assert (es + more)[offset..] == es[offset..] + more;
    FoldConcat(pk, m, es[offset..], more);
    FoldConcat(pk, map[], es, more);
  }

  // ---- the log rebuilds the cache

  /** An update that leaves its row in the view keeps the key the row is cached under. */
  predicate KeyPreserving(i: Inst, ch: Change) {
    ch.op == OpUpdate ==>
      var found := Lookup(i, FirstImage(ch.oldRow, ch.newRow));
      found.Ok? ==>
        var row := PatchRow(found.value.1, ch.oldRow, ch.newRow);
        Matches(i.filter, row) ==> PkKey(i.def.pk, row) == Ok(found.value.0)
  }

  /** A new image that carries all key columns and renders to the looked-up key preserves it in any state. */
  lemma NewImageKeyPreserves(i: Inst, ch: Change)
    requires ch.op == OpUpdate && ch.newRow.Some? && PkKey(i.def.pk, ch.newRow.value).Ok?
    requires PkKey(i.def.pk, ch.newRow.value) == PkKey(i.def.pk, FirstImage(ch.oldRow, ch.newRow).value)
    ensures KeyPreserving(i, ch)
  {
    var found := Lookup(i, FirstImage(ch.oldRow, ch.newRow));
    if found.Ok? {
      PkKeyReadsKeyColumns(i.def.pk, PatchRow(found.value.1, ch.oldRow, ch.newRow), ch.newRow.value);
    }
  }

  /** Valid changes are key-preserving for a shape that is up to date. */
  lemma ValidIsKeyPreserving(src: Source, i: Inst, t: Table, ch: Change)
    requires Serves(i, src) && TableOk(src, t) && i.cache == View(src.filter, t)
    requires OfTable(src.def, ch) && ValidChange(src, t, ch)
    ensures KeyPreserving(i, ch)
  {
    if ch.op == OpUpdate {
      if UpdateKey(src, ch) in i.cache {
        PatchIsTrueRow(src, i, t, ch);
      } else {
        UncachedPatch(src, i, ch);
      }
    }
  }

  ghost predicate Replays(i: Inst) {
    && WellKeyed(i.def.pk, i.cache)
    && Contiguous(i.log)
    && (forall j :: 0 <= j < |i.log.events| ==> i.log.events[j].table == i.def.table)
    && Fold(i.def.pk, map[], i.log.events) == i.cache
  }

  /** The change touches this shape now. */
  predicate Reaches(i: Inst, ch: Change) {
    i.log.halted.None? && OfTable(i.def, ch) && !Gated(i, ch) && !Drifted(i, ch)
  }

  lemma EffectIsKeyed(i: Inst, ch: Change)
    requires WellKeyed(i.def.pk, i.cache) && KeyPreserving(i, ch)
    ensures EffectKeyed(i.def.pk, Decide(i, ch))
  {
  }

  lemma PerformReplays(i: Inst, e: Effect)
    requires Replays(i) && PkKey(i.def.pk, e.row) == Ok(e.key)
    ensures Replays(Perform(i, e))
  {
    var es := Perform(i, e).log.events;
    assert es[..|es| - 1] == i.log.events;
  }

  lemma ApplyReplays(i: Inst, ch: Change)
    requires Replays(i) && (Reaches(i, ch) ==> KeyPreserving(i, ch))
    ensures Replays(Apply(i, ch).0)
  {
    if Reaches(i, ch) {
      EffectIsKeyed(i, ch);
      var d := Decide(i, ch);
      if d.Ok? && d.value.Some? {
        PerformReplays(NoteFingerprint(i, ch.fingerprint), d.value.value);
      }
    }
  }

  /** The log only grows, by the events that Apply returns. */
  lemma ApplyAppends(i: Inst, ch: Change)
    ensures var (j, r) := Apply(i, ch);
            j.log.events == i.log.events + if r.Ok? then r.value else []
  {
  }

  lemma {:induction false} LoadReplays(i: Inst, rows: seq<Row>)
    requires Replays(i)
    ensures Replays(LoadRows(i, rows).0)
    decreases |rows|
  {
    if |rows| > 0 {
      if !Matches(i.filter, rows[0]) {
        LoadReplays(i, rows[1..]);
      } else if PkKey(i.def.pk, rows[0]).Ok? {
        var e := Effect(EventInsert, PkKey(i.def.pk, rows[0]).value, rows[0]);
        PerformReplays(i, e);
        LoadReplays(Perform(i, e), rows[1..]);
      }
    }
  }

  /** Everything that drives an instance. */
  datatype Input = Changed(ch: Change) | Loaded(lsn: nat, rows: seq<Row>)

  function Feed(i: Inst, x: Input): Inst {
    match x
    case Changed(ch) => Apply(i, ch).0
    case Loaded(lsn, rows) => LoadSnapshot(i, lsn, rows).0
  }

  function Drive(i: Inst, xs: seq<Input>): Inst {
    if |xs| == 0 then i else Feed(Drive(i, xs[..|xs| - 1]), xs[|xs| - 1])
  }

  /** Every update that reaches the shape preserves the key. */
  predicate KeyPreservingRun(i: Inst, xs: seq<Input>) {
    |xs| == 0 || (KeyPreservingRun(i, xs[..|xs| - 1]) && KeepsKeys(Drive(i, xs[..|xs| - 1]), xs[|xs| - 1]))
  }

  predicate KeepsKeys(i: Inst, x: Input) {
    x.Changed? && Reaches(i, x.ch) ==> KeyPreserving(i, x.ch)
  }

  lemma FeedReplays(i: Inst, x: Input)
    requires Replays(i) && KeepsKeys(i, x)
    ensures Replays(Feed(i, x))
  {
    match x
    case Changed(ch) => ApplyReplays(i, ch);
    case Loaded(lsn, rows) =>
      if i.log.halted.None? {
        LoadReplays(i.(snapshotLsn := lsn, hasSnapshot := true), rows);
      }
  }

  lemma {:induction false} DriveReplays(i: Inst, xs: seq<Input>)
    requires Replays(i) && KeyPreservingRun(i, xs)
    ensures Replays(Drive(i, xs))
  {
    if |xs| > 0 {
      DriveReplays(i, xs[..|xs| - 1]);
      FeedReplays(Drive(i, xs[..|xs| - 1]), xs[|xs| - 1]);
    }
  }

  /** An update that changes the key of a row in the view leaves the row under a key that is not its own. */
  lemma MovedIsMiskeyed(i: Inst, ch: Change)
    requires Reaches(i, ch) && !KeyPreserving(i, ch)
    ensures !WellKeyed(i.def.pk, Apply(i, ch).0.cache)
  {
    var found := Lookup(i, FirstImage(ch.oldRow, ch.newRow));
    var row := PatchRow(found.value.1, ch.oldRow, ch.newRow);
    var cache := Apply(i, ch).0.cache;
    assert found.value.0 in cache && cache[found.value.0] == row;
  }

  /** After every prefix of the run the log rebuilds the cache, every row under its own key. */
  ghost predicate ReplaysThroughout(i: Inst, xs: seq<Input>) {
    Replays(Drive(i, xs)) && (|xs| > 0 ==> ReplaysThroughout(i, xs[..|xs| - 1]))
  }

  lemma FeedReplaysOnly(i: Inst, x: Input)
    requires Replays(i)
    ensures Replays(Feed(i, x)) <==> KeepsKeys(i, x)
  {
    if KeepsKeys(i, x) {
      FeedReplays(i, x);
    } else {
      MovedIsMiskeyed(i, x.ch);
      ApplyKeeps(i, x.ch);
    }
  }

  /** Key preservation is exactly what log replay needs. */
  lemma {:induction false} LogReplayExact(i: Inst, xs: seq<Input>)
    requires Replays(i)
    ensures ReplaysThroughout(i, xs) <==> KeyPreservingRun(i, xs)
  {
    if |xs| > 0 {
      var init := xs[..|xs| - 1];
      LogReplayExact(i, init);
      if KeyPreservingRun(i, init) {
        DriveReplays(i, init);
        FeedReplaysOnly(Drive(i, init), xs[|xs| - 1]);
      }
    }
  }

  /** Log replay and resume: after any key-preserving run the offsets are exactly 1..n under the shape's table, folding
      the log gives the cache, and so does the fold of the first k events followed by what `After(k)` returns. */
  lemma LogReplayAndResume(def: Definition, filter: Filter, xs: seq<Input>, k: nat)
    requires KeyPreservingRun(NewInst(def, filter), xs)
    ensures var i := Drive(NewInst(def, filter), xs);
            && Contiguous(i.log)
            && (forall j :: 0 <= j < |i.log.events| ==> i.log.events[j].table == i.def.table)
            && Fold(i.def.pk, map[], i.log.events) == i.cache
            && (k <= |i.log.events| ==>
                  && After(i.log, k) == Some(i.log.events[k..])
                  && Fold(i.def.pk, Fold(i.def.pk, map[], i.log.events[..k]), After(i.log, k).value) == i.cache)
  {
    DriveReplays(NewInst(def, filter), xs);
    var i := Drive(NewInst(def, filter), xs);
    if k <= |i.log.events| {
      AfterIssuedOffset(i.log, k);
      FoldSplit(i.def.pk, map[], i.log.events, k);
    }
  }

  // ---- deleted rows

  /** A delete event of a row the log holds carries that row, whole. */
  predicate DeletesHeld(pk: seq<string>, held: Table, e: Event) {
    e.op.EventDelete? && KeyOf(pk, Some(e.row)) in held ==> e.row == held[KeyOf(pk, Some(e.row))]
  }

  ghost predicate DeletesWhole(i: Inst) {
    forall j :: 0 <= j < |i.log.events| ==>
      DeletesHeld(i.def.pk, Fold(i.def.pk, map[], i.log.events[..j]), i.log.events[j])
  }

  lemma AppendDeletesWhole(i: Inst, e: Effect)
    requires Replays(i) && DeletesWhole(i) && PkKey(i.def.pk, e.row) == Ok(e.key)
    requires e.op.EventDelete? && e.key in i.cache ==> e.row == i.cache[e.key]
    ensures DeletesWhole(Perform(i, e))
  {
    var es, fs := i.log.events, Perform(i, e).log.events;
    forall j | 0 <= j < |fs| ensures DeletesHeld(i.def.pk, Fold(i.def.pk, map[], fs[..j]), fs[j]) {
      if j < |es| {
        assert fs[..j] == es[..j] && fs[j] == es[j];
      } else {
        assert fs[..j] == es;
      }
    }
  }

  /** What a deciding delete carries: the cached row under its key, if there is one. */
  lemma DecidedDelete(i: Inst, ch: Change)
    requires WellKeyed(i.def.pk, i.cache)
    ensures var d := Decide(i, ch);
            d.Ok? && d.value.Some? && d.value.value.op.EventDelete? ==>
              var e := d.value.value;
              PkKey(i.def.pk, e.row) == Ok(e.key) && (e.key in i.cache ==> e.row == i.cache[e.key])
  {
  }

  lemma FeedDeletesWhole(i: Inst, x: Input)
    requires Replays(i) && DeletesWhole(i) && KeepsKeys(i, x)
    ensures DeletesWhole(Feed(i, x))
  {
    match x
    case Changed(ch) =>
      var d := Decide(i, ch);
      if Reaches(i, ch) && d.Ok? && d.value.Some? {
        EffectIsKeyed(i, ch);
        DecidedDelete(i, ch);
        AppendDeletesWhole(NoteFingerprint(i, ch.fingerprint), d.value.value);
      }
    case Loaded(lsn, rows) =>
      if i.log.halted.None? {
        LoadDeletesWhole(i.(snapshotLsn := lsn, hasSnapshot := true), rows);
      }
  }

  lemma {:induction false} LoadDeletesWhole(i: Inst, rows: seq<Row>)
    requires Replays(i) && DeletesWhole(i)
    ensures DeletesWhole(LoadRows(i, rows).0)
    decreases |rows|
  {
    if |rows| > 0 {
      if !Matches(i.filter, rows[0]) {
        LoadDeletesWhole(i, rows[1..]);
      } else if PkKey(i.def.pk, rows[0]).Ok? {
        var e := Effect(EventInsert, PkKey(i.def.pk, rows[0]).value, rows[0]);
        PerformReplays(i, e);
        AppendDeletesWhole(i, e);
        LoadDeletesWhole(Perform(i, e), rows[1..]);
      }
    }
  }

  /** In every key-preserving run each delete event of a row the client holds carries that row, whole. */
  lemma {:induction false} DeletesCarryRows(def: Definition, filter: Filter, xs: seq<Input>)
    requires KeyPreservingRun(NewInst(def, filter), xs)
    ensures DeletesWhole(Drive(NewInst(def, filter), xs))
    decreases |xs|
  {
    if |xs| > 0 {
      var init := xs[..|xs| - 1];
      DeletesCarryRows(def, filter, init);
      DriveReplays(NewInst(def, filter), init);
      FeedDeletesWhole(Drive(NewInst(def, filter), init), xs[|xs| - 1]);
    }
  }

  // ---- event discipline

  function OpsOf(pk: seq<string>, es: seq<Event>, k: string): seq<EventOp> {
    if |es| == 0 then []
    else OpsOf(pk, es[..|es| - 1], k)
         + if KeyOf(pk, Some(es[|es| - 1].row)) == k then [es[|es| - 1].op] else []
  }

  /** The life cycle insert, update*, delete, repeated: Some(inside) after a lawful sequence, None after a breach. */
  function LifeCycle(ops: seq<EventOp>): Option<bool> {
    if |ops| == 0 then Some(false)
    else match (LifeCycle(ops[..|ops| - 1]), ops[|ops| - 1])
      case (Some(false), EventInsert) => Some(true)
      case (Some(true), EventUpdate) => Some(true)
      case (Some(true), EventDelete) => Some(false)
      case _ => None
  }

  /** The key's events are lawful, and it is inside exactly when it is cached. */
  predicate KeyDisciplined(i: Inst, k: string) {
    LifeCycle(OpsOf(i.def.pk, i.log.events, k)) == Some(k in i.cache)
  }

  ghost predicate Disciplined(i: Inst) {
    forall k :: KeyDisciplined(i, k)
  }

  /** An insert of an absent key, or an update or delete of a present one. */
  predicate Lawful(cache: Table, d: Result<Option<Effect>>) {
    d.Ok? && d.value.Some? ==> (d.value.value.op.EventInsert? <==> d.value.value.key !in cache)
  }

  /** Exactly when a possible change is lawful: unless its old image satisfies the filter for a row outside the view. */
  lemma LawfulExact(src: Source, i: Inst, t: Table, ch: Change)
    requires Serves(i, src) && TableOk(src, t) && i.cache == View(src.filter, t)
    requires OfTable(src.def, ch) && PossibleChange(src, t, ch)
    ensures Lawful(i.cache, Decide(i, ch)) <==>
            (ch.op == OpInsert || UpdateKey(src, ch) in i.cache || !MatchesImage(src.filter, ch.oldRow))
  {
    if ch.op == OpUpdate {
      LawfulUpdate(i, ch, UpdateKey(src, ch));
    }
  }

  lemma LawfulUpdate(i: Inst, ch: Change, k: string)
    requires FirstImage(ch.oldRow, ch.newRow).Some? && PkKey(i.def.pk, FirstImage(ch.oldRow, ch.newRow).value) == Ok(k)
    ensures Lawful(i.cache, DecideUpdate(i, ch.oldRow, ch.newRow)) <==>
            k in i.cache || !MatchesImage(i.filter, ch.oldRow)
  {
  }

  /** A key-only old image, padded with nulls, breaks the life cycle: deleting a row outside the view emits a delete. */
  lemma PaddedOldImageBreaksLifeCycle()
    ensures var def := Definition("s", "public", "s", ["id"]);
            var f := [Pred("gone", IsNull, Null)];
            var src := Source(def, f, {"id", "gone"}, map["1" := map["id" := Int(1), "gone" := Int(5)]]);
            var ch := Change("public", "s", OpDelete, "", 9, Some(map["id" := Int(1), "gone" := Null]), None);
            var i := NewInst(def, f);
            && i.cache == View(f, src.base) && TableOk(src, src.base) && ValidChange(src, src.base, ch)
            && !Lawful(i.cache, Decide(i, ch))
  {
    var def := Definition("s", "public", "s", ["id"]);
    var f := [Pred("gone", IsNull, Null)];
    var row: Row := map["id" := Int(1), "gone" := Int(5)];
    var image: Row := map["id" := Int(1), "gone" := Null];
    assert KeyParts(["id"], row) == ["1"] == KeyParts(["id"], image) by {
      assert Decimal(1) == "1";
    }
    assert !MatchPred(f[0], row) && MatchPred(f[0], image);
  }

  /** The events of a key after one more effect. */
  lemma OpsAfter(i: Inst, e: Effect, k: string)
    requires PkKey(i.def.pk, e.row) == Ok(e.key)
    ensures var ops := OpsOf(i.def.pk, i.log.events, k);
            OpsOf(i.def.pk, Perform(i, e).log.events, k) == if k == e.key then ops + [e.op] else ops
  {
    var es := Perform(i, e).log.events;
    assert es[..|es| - 1] == i.log.events;
    assert OpsOf(i.def.pk, i.log.events, k) + [] == OpsOf(i.def.pk, i.log.events, k);
  }

  lemma LifeCycleLast(ops: seq<EventOp>, op: EventOp)
    ensures LifeCycle(ops + [op]) ==
            match (LifeCycle(ops), op)
            case (Some(false), EventInsert) => Some(true)
            case (Some(true), EventUpdate) => Some(true)
            case (Some(true), EventDelete) => Some(false)
            case _ => None
  {
    assert (ops + [op])[..|ops|] == ops;
  }

  lemma PerformDisciplined(i: Inst, e: Effect)
    requires Disciplined(i) && PkKey(i.def.pk, e.row) == Ok(e.key)
    requires e.op.EventInsert? <==> e.key !in i.cache
    ensures Disciplined(Perform(i, e))
  {
    forall k ensures KeyDisciplined(Perform(i, e), k) {
      assert KeyDisciplined(i, k);
      OpsAfter(i, e, k);
      LifeCycleLast(OpsOf(i.def.pk, i.log.events, k), e.op);
    }
  }

  lemma PerformBreaks(i: Inst, e: Effect)
    requires Disciplined(i) && PkKey(i.def.pk, e.row) == Ok(e.key)
    requires !(e.op.EventInsert? <==> e.key !in i.cache)
    ensures LifeCycle(OpsOf(i.def.pk, Perform(i, e).log.events, e.key)).None?
  {
    assert KeyDisciplined(i, e.key);
    OpsAfter(i, e, e.key);
    LifeCycleLast(OpsOf(i.def.pk, i.log.events, e.key), e.op);
  }

  /** A breach is never forgotten. */
  lemma {:induction false} BreachStays(pk: seq<string>, es: seq<Event>, more: seq<Event>, k: string)
    requires LifeCycle(OpsOf(pk, es, k)).None?
    ensures LifeCycle(OpsOf(pk, es + more, k)).None?
    decreases |more|
  {
    if |more| == 0 {
      assert es + more == es;
    } else {
      var init, last := more[..|more| - 1], more[|more| - 1];
      BreachStays(pk, es, init, k);
      assert (es + more)[..|es + more| - 1] == es + init;
      var ops := OpsOf(pk, es + init, k);
      LifeCycleLast(ops, last.op);
      assert ops + [] == ops;
    }
  }

  /** Some key's events are out of order. */
  ghost predicate Breached(i: Inst) {
    exists k :: LifeCycle(OpsOf(i.def.pk, i.log.events, k)).None?
  }

  lemma BreachedIsUndisciplined(i: Inst)
    requires Breached(i)
    ensures !Disciplined(i)
  {
    var k :| LifeCycle(OpsOf(i.def.pk, i.log.events, k)).None?;
    assert !KeyDisciplined(i, k);
  }

  lemma BreachedStays(i: Inst, ch: Change)
    requires Breached(i)
    ensures Breached(Apply(i, ch).0)
  {
    var k :| LifeCycle(OpsOf(i.def.pk, i.log.events, k)).None?;
    ApplyAppends(i, ch);
    ApplyKeeps(i, ch);
    var r := Apply(i, ch).1;
    BreachStays(i.def.pk, i.log.events, if r.Ok? then r.value else [], k);
  }

  /** The change is in place: an insert, a change of a row inside the view, or one whose old image fails the filter. */
  ghost predicate InPlace(src: Source, t: Table, ch: Change) {
    ch.op == OpInsert || UpdateKey(src, ch) in View(src.filter, t) || !MatchesImage(src.filter, ch.oldRow)
  }

  lemma DisciplineFrame(i: Inst, j: Inst)
    requires Disciplined(i) && j.def == i.def && j.log.events == i.log.events && j.cache == i.cache
    ensures Disciplined(j)
  {
    forall k ensures KeyDisciplined(j, k) {
      assert KeyDisciplined(i, k);
    }
  }

  /** A change that reaches a disciplined shape keeps it so exactly when it is in place. */
  lemma ApplyDisciplined(src: Source, i: Inst, t: Table, ch: Change)
    requires Disciplined(i) && Serves(i, src) && TableOk(src, t)
    requires Reaches(i, ch) ==> i.cache == View(src.filter, t) && ValidChange(src, t, ch)
    ensures Reaches(i, ch) && !InPlace(src, t, ch) ==> Breached(Apply(i, ch).0)
    ensures !(Reaches(i, ch) && !InPlace(src, t, ch)) ==> Disciplined(Apply(i, ch).0)
  {
    if Reaches(i, ch) {
      LawfulExact(src, i, t, ch);
      ValidIsKeyPreserving(src, i, t, ch);
      EffectIsKeyed(i, ch);
      var d, noted := Decide(i, ch), NoteFingerprint(i, ch.fingerprint);
      DisciplineFrame(i, noted);
      if d.Ok? && d.value.Some? {
        if InPlace(src, t, ch) {
          PerformDisciplined(noted, d.value.value);
        } else {
          PerformBreaks(noted, d.value.value);
        }
      }
    } else {
      DisciplineFrame(i, Apply(i, ch).0);
    }
  }

  /** The rows have keys, distinct and not cached yet. */
  predicate NewKeys(pk: seq<string>, cache: Table, rows: seq<Row>) {
    && (forall j :: 0 <= j < |rows| ==> PkKey(pk, rows[j]).Ok? && PkKey(pk, rows[j]).value !in cache)
    && (forall j, l :: 0 <= j < l < |rows| ==> PkKey(pk, rows[j]) != PkKey(pk, rows[l]))
  }

  lemma NewKeysTail(pk: seq<string>, cache: Table, rows: seq<Row>)
    requires NewKeys(pk, cache, rows) && |rows| > 0
    ensures NewKeys(pk, cache, rows[1..])
    ensures NewKeys(pk, cache[PkKey(pk, rows[0]).value := rows[0]], rows[1..])
  {
  }

  lemma {:induction false} LoadDisciplined(i: Inst, rows: seq<Row>)
    requires Disciplined(i) && NewKeys(i.def.pk, i.cache, rows)
    ensures Disciplined(LoadRows(i, rows).0)
    decreases |rows|
  {
    if |rows| > 0 {
      NewKeysTail(i.def.pk, i.cache, rows);
      if !Matches(i.filter, rows[0]) {
        LoadDisciplined(i, rows[1..]);
      } else {
        var e := Effect(EventInsert, PkKey(i.def.pk, rows[0]).value, rows[0]);
        PerformDisciplined(i, e);
        LoadDisciplined(Perform(i, e), rows[1..]);
      }
    }
  }

  /** Some change of the table in the stretch is out of place. */
  ghost predicate OutOfPlace(src: Source, h: seq<Change>, cut: nat, n: nat)
    requires n <= |h|
  {
    exists j :: cut <= j < n && OfTable(src.def, h[j]) && !InPlace(src, TableAt(src, h[..j]), h[j])
  }

  /** A change reaches the shape only past the cut, and then the cache is the view; on a shape that stays live every
      change of the table past the cut does. */
  lemma ReachesPastCut(src: Source, i: Inst, h: seq<Change>, cut: nat, n: nat)
    requires n < |h| && CaughtUp(src, i, h, cut, n)
    ensures Reaches(i, h[n]) ==>
              OfTable(src.def, h[n]) && cut <= n && i.cache == View(src.filter, TableAt(src, h[..n]))
    ensures Apply(i, h[n]).0.log.halted.None? && OfTable(src.def, h[n]) && cut <= n ==> Reaches(i, h[n])
  {
  }

  /** What one more change does to a disciplined shape. */
  lemma DisciplineStep(src: Source, i: Inst, h: seq<Change>, cut: nat, n: nat)
    requires n < |h| && Sound(src, h, cut, n + 1) && CaughtUp(src, i, h, cut, n) && Disciplined(i)
    ensures var out := cut <= n && OfTable(src.def, h[n]) && !InPlace(src, TableAt(src, h[..n]), h[n]);
            && (!out ==> Disciplined(Apply(i, h[n]).0))
            && (out && Apply(i, h[n]).0.log.halted.None? ==> Breached(Apply(i, h[n]).0))
  {
    ReachesPastCut(src, i, h, cut, n);
    if cut <= n {
      PossibleAt(src, h, n);
      ApplyDisciplined(src, i, TableAt(src, h[..n]), h[n]);
    } else {
      DisciplineFrame(i, Apply(i, h[n]).0);
    }
  }

  /** Disciplined, or, when something was out of place, breached unless halted. */
  ghost predicate Orderly(i: Inst, out: bool) {
    (!out ==> Disciplined(i)) && (out && i.log.halted.None? ==> Breached(i))
  }

  lemma OrderlyStep(src: Source, i: Inst, h: seq<Change>, cut: nat, n: nat)
    requires n < |h| && Sound(src, h, cut, n + 1) && CaughtUp(src, i, h, cut, n)
    requires Orderly(i, OutOfPlace(src, h, cut, n))
    ensures Orderly(Apply(i, h[n]).0, OutOfPlace(src, h, cut, n + 1))
  {
    ApplyKeeps(i, h[n]);
    if !OutOfPlace(src, h, cut, n) {
      DisciplineStep(src, i, h, cut, n);
    } else if i.log.halted.None? {
      BreachedStays(i, h[n]);
    }
  }

  lemma OrderlyNext(src: Source, i: Inst, h: seq<Change>, cut: nat, n: nat)
    requires n < |h| && Sound(src, h, cut, n + 1) && CaughtUp(src, i, h, cut, 0)
    requires Orderly(ApplyAll(i, h[..n]), OutOfPlace(src, h, cut, n))
    ensures Orderly(ApplyAll(i, h[..n + 1]), OutOfPlace(src, h, cut, n + 1))
  {
    SoundPrefix(src, h, cut, n + 1, n);
    CatchUp(src, i, h, cut, n);
    OrderlyStep(src, ApplyAll(i, h[..n]), h, cut, n);
    ApplyAllLast(i, h, n + 1);
  }

  lemma {:induction false} DisciplinedRun(src: Source, i: Inst, h: seq<Change>, cut: nat, n: nat)
    requires n <= |h| && Sound(src, h, cut, n) && CaughtUp(src, i, h, cut, 0) && Disciplined(i)
    ensures Orderly(ApplyAll(i, h[..n]), OutOfPlace(src, h, cut, n))
  {
    if n == 0 {
      OrderlyStart(src, i, h, cut);
    } else {
      SoundPrefix(src, h, cut, n, n - 1);
      DisciplinedRun(src, i, h, cut, n - 1);
      OrderlyNext(src, i, h, cut, n - 1);
    }
  }

  lemma OrderlyStart(src: Source, i: Inst, h: seq<Change>, cut: nat)
    requires Disciplined(i)
    ensures Orderly(ApplyAll(i, h[..0]), OutOfPlace(src, h, cut, 0))
  {
    assert ApplyAll(i, h[..0]) == i;
  }

  /** Event discipline: from any snapshot and over any sound history, when every change of the table past the
      snapshot is in place, each key's events are insert, update*, delete, repeated, and the key is cached exactly
      between an insert and the next delete. On a shape that stayed live the condition is also necessary. */
  lemma EventDiscipline(src: Source, h: seq<Change>, lsn: nat, cut: nat, rows: seq<Row>, n: nat)
    requires CutAt(h, lsn, cut) && n <= |h| && Sound(src, h, cut, n) && SnapshotOf(src, TableAt(src, h[..cut]), rows)
    ensures var i := ApplyAll(LoadSnapshot(NewInst(src.def, src.filter), lsn, rows).0, h[..n]);
            && (!OutOfPlace(src, h, cut, n) ==> Disciplined(i))
            && (i.log.halted.None? && Disciplined(i) ==> !OutOfPlace(src, h, cut, n))
  {
    var i := LoadSnapshot(NewInst(src.def, src.filter), lsn, rows).0;
    LoadDisciplined(NewInst(src.def, src.filter).(snapshotLsn := lsn, hasSnapshot := true), rows);
    SoundPrefix(src, h, cut, n, 0);
    LoadedCatchesUp(src, h, lsn, cut, rows);
    DisciplinedRun(src, i, h, cut, n);
    if Breached(ApplyAll(i, h[..n])) {
      BreachedIsUndisciplined(ApplyAll(i, h[..n]));
    }
  }

  /** Old images that are absent or complete are in place. */
  lemma HonestIsInPlace(src: Source, t: Table, ch: Change)
    requires OfTable(src.def, ch) && PossibleChange(src, t, ch)
    requires ch.oldRow.None? || (UpdateKey(src, ch) in t && ch.oldRow.value == t[UpdateKey(src, ch)])
    ensures InPlace(src, t, ch)
  {
  }
}
