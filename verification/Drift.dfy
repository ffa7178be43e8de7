/** Schema drift: one fingerprint per shape, halting is final, and what that means for a snapshot handoff. */
module Drift {
  import opened Rows
  import opened Filters
  import opened Wal
  import opened ShapeLog
  import opened Shapes
  import opened Views
  import opened Replay

  /** Once halted, nothing changes the log, the cache or anything else, and every later call fails. */
  lemma {:induction false} HaltIsFinal(i: Inst, xs: seq<Input>)
    requires i.log.halted.Some?
    ensures Drive(i, xs) == i
    ensures forall ch :: Apply(Drive(i, xs), ch).1 == Err(Halted)
    ensures forall lsn, rows :: LoadSnapshot(Drive(i, xs), lsn, rows).1 == Some(Halted)
  {
    if |xs| > 0 {
      HaltIsFinal(i, xs[..|xs| - 1]);
    }
  }

  predicate Emits(i: Inst, x: Input) {
    x.Changed? && Apply(i, x.ch).1.Ok? && |Apply(i, x.ch).1.value| > 0
  }

  /** Loading rows touches the cache and the events only. */
  lemma {:induction false} LoadKeeps(i: Inst, rows: seq<Row>)
    ensures var l := LoadRows(i, rows).0;
            && l.fingerprint == i.fingerprint && l.def == i.def && l.log.halted == i.log.halted
            && l.snapshotLsn == i.snapshotLsn && l.hasSnapshot == i.hasSnapshot
    decreases |rows|
  {
    if |rows| > 0 {
      if !Matches(i.filter, rows[0]) {
        LoadKeeps(i, rows[1..]);
      } else if PkKey(i.def.pk, rows[0]).Ok? {
        LoadKeeps(Perform(i, Effect(EventInsert, PkKey(i.def.pk, rows[0]).value, rows[0])), rows[1..]);
      }
    }
  }

  lemma FeedFingerprint(i: Inst, x: Input)
    ensures i.fingerprint != "" ==> Feed(i, x).fingerprint == i.fingerprint
    ensures Emits(i, x) && x.ch.fingerprint != "" ==> x.ch.fingerprint == Feed(i, x).fingerprint
  {
    if x.Loaded? && i.log.halted.None? {
      LoadKeeps(i.(snapshotLsn := x.lsn, hasSnapshot := true), x.rows);
    }
  }

  /** Over every run, the events that come from fingerprinted changes all come from one fingerprint. */
  lemma {:induction false} OneFingerprint(i: Inst, xs: seq<Input>)
    ensures forall n :: 0 <= n < |xs| && Emits(Drive(i, xs[..n]), xs[n]) && xs[n].ch.fingerprint != "" ==>
              xs[n].ch.fingerprint == Drive(i, xs).fingerprint
  {
    if |xs| > 0 {
      var init := xs[..|xs| - 1];
      OneFingerprint(i, init);
      FeedFingerprint(Drive(i, init), xs[|xs| - 1]);
      forall n | 0 <= n < |xs| && Emits(Drive(i, xs[..n]), xs[n]) && xs[n].ch.fingerprint != ""
        ensures xs[n].ch.fingerprint == Drive(i, xs).fingerprint
      {
        if n < |xs| - 1 {
          assert xs[..n] == init[..n] && xs[n] == init[n];
        }
      }
    }
  }

  // ---- exactly when a run halts

  /** The position of the newest snapshot loaded. */
  function Gate(i: Inst, xs: seq<Input>): Option<nat> {
    if |xs| == 0 then (if i.hasSnapshot then Some(i.snapshotLsn) else None)
    else if xs[|xs| - 1].Loaded? then Some(xs[|xs| - 1].lsn)
    else Gate(i, xs[..|xs| - 1])
  }

  /** A change of the shape's table that no snapshot covers. */
  predicate Counts(def: Definition, gate: Option<nat>, ch: Change) {
    OfTable(def, ch) && !(gate.Some? && ch.lsn != 0 && ch.lsn <= gate.value)
  }

  function Print(def: Definition, gate: Option<nat>, ch: Change): seq<string> {
    if Counts(def, gate, ch) && ch.fingerprint != "" then [ch.fingerprint] else []
  }

  /** The fingerprints a run carries: those of its changes of the table that are not covered when they arrive. */
  function Prints(i: Inst, xs: seq<Input>): seq<string> {
    if |xs| == 0 then (if i.fingerprint == "" then [] else [i.fingerprint])
    else
      var init, x := xs[..|xs| - 1], xs[|xs| - 1];
      Prints(i, init) + if x.Changed? then Print(i.def, Gate(i, init), x.ch) else []
  }

  predicate Uniform(ps: seq<string>) {
    forall j, k :: 0 <= j < k < |ps| ==> ps[j] == ps[k]
  }

  function First(ps: seq<string>): string {
    if |ps| == 0 then "" else ps[0]
  }

  /** One change on a live shape. */
  lemma ApplyDrift(i: Inst, ch: Change)
    requires i.log.halted.None?
    ensures var j := Apply(i, ch).0;
            && j.def == i.def && j.snapshotLsn == i.snapshotLsn && j.hasSnapshot == i.hasSnapshot
            && (j.log.halted.Some? <==> OfTable(i.def, ch) && !Gated(i, ch) && Drifted(i, ch))
            && (j.log.halted.None? ==>
                  j.fingerprint == if OfTable(i.def, ch) && !Gated(i, ch) && i.fingerprint == "" then ch.fingerprint
                                   else i.fingerprint)
    ensures Apply(i, ch).1 == Err(SchemaDrift) <==> Apply(i, ch).0.log.halted.Some?
  {
    if Reaches(i, ch) {
      var d := Decide(i, ch);
      assert d.Err? ==> d.error != SchemaDrift;
    }
  }

  /** What a live shape remembers of its run. */
  predicate Remembers(j: Inst, def: Definition, gate: Option<nat>, ps: seq<string>) {
    && j.log.halted.None? && j.def == def
    && gate == (if j.hasSnapshot then Some(j.snapshotLsn) else None)
    && Uniform(ps) && j.fingerprint == First(ps) && forall p :: p in ps ==> p != ""
  }

  lemma ChangeRemembers(j: Inst, gate: Option<nat>, ps: seq<string>, ch: Change)
    requires Remembers(j, j.def, gate, ps)
    ensures var qs := ps + Print(j.def, gate, ch);
            if Uniform(qs) then Remembers(Apply(j, ch).0, j.def, gate, qs) else Apply(j, ch).0.log.halted.Some?
  {
    ApplyDrift(j, ch);
    var q := Print(j.def, gate, ch);
    var qs := ps + q;
    assert q == [] ==> qs == ps;
    if q != [] && ps != [] {
      assert qs[0] == ps[0] && qs[|ps|] == ch.fingerprint && ps[0] in ps;
    }
  }

  /** Halting, over whole runs: a live shape halts exactly when two fingerprints the run carries differ. */
  lemma {:induction false} HaltsExactlyOnDrift(i: Inst, xs: seq<Input>)
    requires i.log.halted.None?
    ensures Drive(i, xs).log.halted.Some? <==> !Uniform(Prints(i, xs))
    ensures Drive(i, xs).log.halted.None? ==> Remembers(Drive(i, xs), i.def, Gate(i, xs), Prints(i, xs))
  {
    if |xs| > 0 {
      var init, x := xs[..|xs| - 1], xs[|xs| - 1];
      var j := Drive(i, init);
      HaltsExactlyOnDrift(i, init);
      if j.log.halted.Some? {
        HaltIsFinal(j, [x]);
        assert [x][..0] == [] && Drive(j, [x]) == Feed(j, x);
        StaysMixed(Prints(i, init), Prints(i, xs));
      } else if x.Changed? {
        ChangeRemembers(j, Gate(i, init), Prints(i, init), x.ch);
      } else {
        LoadKeeps(j.(snapshotLsn := x.lsn, hasSnapshot := true), x.rows);
        assert Prints(i, xs) == Prints(i, init);
      }
    }
  }

  lemma StaysMixed(ps: seq<string>, qs: seq<string>)
    requires !Uniform(ps) && ps <= qs
    ensures !Uniform(qs)
  {
    var j, k :| 0 <= j < k < |ps| && ps[j] != ps[k];
    assert qs[j] == ps[j] && qs[k] == ps[k];
  }

  // ---- drift across a snapshot handoff

  function Inputs(h: seq<Change>): seq<Input> {
    seq(|h|, n requires 0 <= n < |h| => Changed(h[n]))
  }

  /** The fingerprints of the changes of a table. */
  function PrintsOf(def: Definition, h: seq<Change>): seq<string> {
    if |h| == 0 then [] else PrintsOf(def, h[..|h| - 1]) + Print(def, None, h[|h| - 1])
  }

  lemma {:induction false} DriveIsApplyAll(i: Inst, h: seq<Change>)
    ensures Drive(i, Inputs(h)) == ApplyAll(i, h) && Gate(i, Inputs(h)) == Gate(i, [])
  {
    if |h| > 0 {
      DriveIsApplyAll(i, h[..|h| - 1]);
      assert Inputs(h)[..|h| - 1] == Inputs(h[..|h| - 1]);
    }
  }

  lemma PrintsSnoc(i: Inst, xs: seq<Input>, ch: Change)
    ensures Prints(i, xs + [Changed(ch)]) == Prints(i, xs) + Print(i.def, Gate(i, xs), ch)
  {
    assert (xs + [Changed(ch)])[..|xs|] == xs;
  }

  lemma PrintsLast(i: Inst, h: seq<Change>, ch: Change)
    ensures Prints(i, Inputs(h + [ch])) == Prints(i, Inputs(h)) + Print(i.def, Gate(i, []), ch)
  {
    DriveIsApplyAll(i, h);
    PrintsSnoc(i, Inputs(h), ch);
    assert Inputs(h + [ch]) == Inputs(h) + [Changed(ch)];
  }

  predicate AllCovered(i: Inst, h: seq<Change>) {
    forall j :: 0 <= j < |h| ==> !Counts(i.def, Gate(i, []), h[j])
  }

  predicate NoneCovered(i: Inst, h: seq<Change>) {
    forall j :: 0 <= j < |h| && OfTable(i.def, h[j]) ==> Counts(i.def, Gate(i, []), h[j])
  }

  lemma {:induction false} CoveredPrints(i: Inst, h: seq<Change>)
    requires i.fingerprint == "" && AllCovered(i, h)
    ensures Prints(i, Inputs(h)) == []
  {
    if |h| > 0 {
      CoveredPrints(i, h[..|h| - 1]);
      PrintsLast(i, h[..|h| - 1], h[|h| - 1]);
      assert h[..|h| - 1] + [h[|h| - 1]] == h;
    }
  }

  /** A shape that covers the first changes carries the fingerprints of the others. */
  lemma {:induction false} PrintsPastCut(i: Inst, covered: seq<Change>, h: seq<Change>)
    requires i.fingerprint == "" && AllCovered(i, covered) && NoneCovered(i, h)
    ensures Prints(i, Inputs(covered + h)) == PrintsOf(i.def, h)
    decreases |h|
  {
    if |h| == 0 {
      CoveredPrints(i, covered);
      assert covered + h == covered;
    } else {
      var init := h[..|h| - 1];
      NoneCoveredInit(i, h);
      PrintsPastCut(i, covered, init);
      PrintsNext(i, covered, h);
    }
  }

  lemma PrintsNext(i: Inst, covered: seq<Change>, h: seq<Change>)
    requires |h| > 0
    ensures Prints(i, Inputs(covered + h)) ==
            Prints(i, Inputs(covered + h[..|h| - 1])) + Print(i.def, Gate(i, []), h[|h| - 1])
  {
    PrintsLast(i, covered + h[..|h| - 1], h[|h| - 1]);
    assert covered + h[..|h| - 1] + [h[|h| - 1]] == covered + h;
  }

  lemma NoneCoveredInit(i: Inst, h: seq<Change>)
    requires |h| > 0 && NoneCovered(i, h)
    ensures NoneCovered(i, h[..|h| - 1])
    ensures Print(i.def, Gate(i, []), h[|h| - 1]) == Print(i.def, None, h[|h| - 1])
  {
  }

  lemma ApplyAllHalts(i: Inst, covered: seq<Change>, h: seq<Change>)
    requires i.log.halted.None? && i.fingerprint == "" && AllCovered(i, covered) && NoneCovered(i, h)
    ensures ApplyAll(i, covered + h).log.halted.Some? <==> !Uniform(PrintsOf(i.def, h))
  {
    PrintsPastCut(i, covered, h);
    HaltsExactlyOnDrift(i, Inputs(covered + h));
    DriveIsApplyAll(i, covered + h);
  }

  lemma {:induction false} PrintsOfConcat(def: Definition, g: seq<Change>, h: seq<Change>)
    ensures PrintsOf(def, g + h) == PrintsOf(def, g) + PrintsOf(def, h)
    decreases |h|
  {
    if |h| == 0 {
      assert g + h == g;
    } else {
      PrintsOfConcat(def, g, h[..|h| - 1]);
      assert (g + h)[..|g + h| - 1] == g + h[..|h| - 1];
    }
  }

  lemma UniformTail(ps: seq<string>, qs: seq<string>)
    requires Uniform(ps + qs)
    ensures Uniform(qs)
  {
    forall j, k | 0 <= j < k < |qs| ensures qs[j] == qs[k] {
      assert (ps + qs)[|ps| + j] == qs[j] && (ps + qs)[|ps| + k] == qs[k];
    }
  }

  /** Cut independence: load the snapshot at any cut and apply the whole history, the part it covers included. When
      every change can be followed, then wherever applying the whole history to an empty shape stays live, so does
      this, with the same cache. The handed shape needs this only past the cut to hold the filtered table. The empty
      shape halts on drift anywhere, the handed one on drift past the cut only. */
  lemma HandoffCutIndependence(src: Source, h: seq<Change>, lsn: nat, cut: nat, rows: seq<Row>)
    requires src.base == map[] && PossibleHistory(src, h) && CutAt(h, lsn, cut)
    requires SnapshotOf(src, TableAt(src, h[..cut]), rows)
    ensures var handed := ApplyAll(LoadSnapshot(NewInst(src.def, src.filter), lsn, rows).0, h);
            var replayed := ApplyAll(NewInst(src.def, src.filter), h);
            && (replayed.log.halted.Some? <==> !Uniform(PrintsOf(src.def, h)))
            && (handed.log.halted.Some? <==> !Uniform(PrintsOf(src.def, h[cut..])))
            && (replayed.log.halted.None? ==> handed.log.halted.None?)
            && (FaithfulBetween(src, h, cut, |h|) && handed.log.halted.None? ==>
                  handed.cache == View(src.filter, TableAt(src, h)))
            && (FaithfulBetween(src, h, 0, |h|) && replayed.log.halted.None? ==> handed.cache == replayed.cache)
  {
    HandoffHalts(src, h, lsn, cut, rows);
    if FaithfulBetween(src, h, cut, |h|) {
      HandedHoldsView(src, h, lsn, cut, rows);
    }
    if FaithfulBetween(src, h, 0, |h|) {
      ReplayedHoldsView(src, h);
    }
    PrintsOfConcat(src.def, h[..cut], h[cut..]);
    assert h[..cut] + h[cut..] == h;
    if Uniform(PrintsOf(src.def, h)) {
      UniformTail(PrintsOf(src.def, h[..cut]), PrintsOf(src.def, h[cut..]));
    }
  }

  lemma HandedHoldsView(src: Source, h: seq<Change>, lsn: nat, cut: nat, rows: seq<Row>)
    requires PossibleHistory(src, h) && CutAt(h, lsn, cut) && SnapshotOf(src, TableAt(src, h[..cut]), rows)
    requires FaithfulBetween(src, h, cut, |h|)
    ensures var handed := ApplyAll(LoadSnapshot(NewInst(src.def, src.filter), lsn, rows).0, h);
            handed.log.halted.None? ==> handed.cache == View(src.filter, TableAt(src, h))
  {
    assert h[..|h|] == h;
    HandoffPosition(src, h, lsn, cut, rows, |h|);
  }

  lemma ReplayedHoldsView(src: Source, h: seq<Change>)
    requires src.base == map[] && PossibleHistory(src, h) && FaithfulBetween(src, h, 0, |h|)
    ensures var replayed := ApplyAll(NewInst(src.def, src.filter), h);
            replayed.log.halted.None? ==> replayed.cache == View(src.filter, TableAt(src, h))
  {
    var empty := NewInst(src.def, src.filter);
    assert h[..0] == [] && h[..|h|] == h && View(src.filter, src.base) == map[];
    CatchUp(src, empty, h, 0, |h|);
  }

  lemma HandoffHalts(src: Source, h: seq<Change>, lsn: nat, cut: nat, rows: seq<Row>)
    requires PossibleHistory(src, h) && CutAt(h, lsn, cut) && SnapshotOf(src, TableAt(src, h[..cut]), rows)
    ensures ApplyAll(NewInst(src.def, src.filter), h).log.halted.Some? <==> !Uniform(PrintsOf(src.def, h))
    ensures ApplyAll(LoadSnapshot(NewInst(src.def, src.filter), lsn, rows).0, h).log.halted.Some? <==>
            !Uniform(PrintsOf(src.def, h[cut..]))
  {
    PossiblePrefix(src, h, cut);
    LoadedCatchesUp(src, h, lsn, cut, rows);
    EmptyHalts(NewInst(src.def, src.filter), h);
    LoadedHalts(LoadSnapshot(NewInst(src.def, src.filter), lsn, rows).0, h, lsn, cut);
  }

  lemma EmptyHalts(i: Inst, h: seq<Change>)
    requires i.log.halted.None? && i.fingerprint == "" && !i.hasSnapshot
    ensures ApplyAll(i, h).log.halted.Some? <==> !Uniform(PrintsOf(i.def, h))
  {
    assert [] + h == h;
    ApplyAllHalts(i, [], h);
  }

  lemma LoadedHalts(i: Inst, h: seq<Change>, lsn: nat, cut: nat)
    requires i.log.halted.None? && i.fingerprint == "" && i.hasSnapshot && i.snapshotLsn == lsn && CutAt(h, lsn, cut)
    ensures ApplyAll(i, h).log.halted.Some? <==> !Uniform(PrintsOf(i.def, h[cut..]))
  {
    CoveredByCut(i, h, lsn, cut);
    assert h[..cut] + h[cut..] == h;
    ApplyAllHalts(i, h[..cut], h[cut..]);
  }

  lemma CoveredByCut(i: Inst, h: seq<Change>, lsn: nat, cut: nat)
    requires i.hasSnapshot && i.snapshotLsn == lsn && CutAt(h, lsn, cut)
    ensures AllCovered(i, h[..cut]) && NoneCovered(i, h[cut..])
  {
    assert forall j :: cut <= j < |h| ==> h[cut..][j - cut] == h[j];
  }

  /** Drift before the cut: only the replay halts. */
  lemma DriftBeforeCutHaltsReplay()
    ensures var src := Source(SAMPLE, [Pred("org", Eq, Int(7))], {"id", "org"}, map[]);
            var row: Row := map["id" := Int(1), "org" := Int(7)];
            var h := [Change("public", "tasks", OpInsert, "a", 5, None, Some(row)),
                      Change("public", "tasks", OpDelete, "b", 6, Some(row), None)];
            && PossibleHistory(src, h) && CutAt(h, 6, 2) && SnapshotOf(src, TableAt(src, h[..2]), [])
            && ApplyAll(NewInst(SAMPLE, src.filter), h).log.halted.Some?
            && ApplyAll(LoadSnapshot(NewInst(SAMPLE, src.filter), 6, []).0, h).log.halted.None?
  {
    var src := Source(SAMPLE, [Pred("org", Eq, Int(7))], {"id", "org"}, map[]);
    var row: Row := map["id" := Int(1), "org" := Int(7)];
    var h := [Change("public", "tasks", OpInsert, "a", 5, None, Some(row)),
              Change("public", "tasks", OpDelete, "b", 6, Some(row), None)];
    assert h[..2] == h && h[..1] == [h[0]] && h[..1][..0] == [] && h[2..] == [];
    InsertThenDelete(src, h, row);
    TwoPrints(h);
    HandoffHalts(src, h, 6, 2, []);
  }

  lemma TwoPrints(h: seq<Change>)
    requires |h| == 2 && OfTable(SAMPLE, h[0]) && OfTable(SAMPLE, h[1])
    requires h[0].fingerprint == "a" && h[1].fingerprint == "b"
    ensures !Uniform(PrintsOf(SAMPLE, h))
  {
    assert h[..1][..0] == [] && h[..1][0] == h[0];
    assert PrintsOf(SAMPLE, h[..1]) == ["a"] && PrintsOf(SAMPLE, h) == ["a", "b"];
    assert PrintsOf(SAMPLE, h)[0] != PrintsOf(SAMPLE, h)[1];
  }

  lemma InsertThenDelete(src: Source, h: seq<Change>, row: Row)
    requires src.def == SAMPLE && src.base == map[] && row.Keys == src.cols && "id" in row && row["id"] == Int(1)
    requires |h| == 2 && OfTable(SAMPLE, h[0]) && OfTable(SAMPLE, h[1])
    requires h[0].op == OpInsert && h[0].newRow == Some(row) && h[1].op == OpDelete && h[1].oldRow == Some(row)
    ensures PossibleHistory(src, h) && TableAt(src, h) == map[]
  {
    SampleKey(row);
    assert h[..1][..0] == [] && h[..1][0] == h[0];
    assert TableAt(src, []) == map[] && TableAt(src, h[..1]) == map["1" := row];
    assert PossibleHistory(src, []) && PossibleHistory(src, h[..1]);
  }
}
