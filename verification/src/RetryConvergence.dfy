/**
 * Re-running a field-edit job from its first step after any number of crashes
 * ends exactly where one uninterrupted run ends.
 */
module RetryConvergence {
  import opened Wrappers
  import opened PhysicalTable
  import opened FieldEdits

  /** Columns `cols` of the two tables coincide. */
  ghost predicate Agree(t: Table, t': Table, cols: set<string>) {
    forall c | c in cols :: Look(t, c) == Look(t', c)
  }

  ghost predicate AgreeOutside(t: Table, t': Table, cols: set<string>) {
    && t.rows == t'.rows
    && forall c :: c !in cols ==> Look(t, c) == Look(t', c)
  }

  /** The values the shadow column of `e` can hold part-way through the edit. */
  predicate ShadowStage(server: Server, t0: Table, col: Option<Column>, e: FieldEdit)
    requires e.Modify?
  {
    || col == None
    || col == Some(EmptyColumn(ColumnTypeOf(e.dataType), false, t0.rows))
    || (Possible(server, t0, e) && col == Settled(FinalColumn(server, t0, e)))
  }

  /** The states interrupted attempts can leave the columns of `e` in, having started from `t0`. */
  predicate Stage(server: Server, t0: Table, t: Table, e: FieldEdit) {
    && (|| Look(t, e.name) == Look(t0, e.name)
        || (Possible(server, t0, e) && Look(t, e.name) == Settled(FinalColumn(server, t0, e))))
    && (e.Modify? ==> ShadowStage(server, t0, Look(t, Shadow(e.name)), e))
  }

  /** Stages of all edits; behind an edit that can only fail nothing has started. */
  ghost predicate Stages(server: Server, t0: Table, t: Table, edits: seq<FieldEdit>) {
    edits == [] ||
    (&& Stage(server, t0, t, edits[0])
     && if Possible(server, t0, edits[0])
        then Stages(server, t0, t, edits[1..])
        else Agree(t0, t, Footprints(edits[1..])))
  }

  ghost predicate Midway(server: Server, t0: Table, t: Table, edits: seq<FieldEdit>) {
    AgreeOutside(t0, t, Footprints(edits)) && Stages(server, t0, t, edits)
  }

  // ----- one edit ------------------------------------------------------

  /** What running all steps of `e` does: the declared final column, or a stop at a fixed step. */
  function EditProgress(server: Server, t0: Table, t: Table, e: FieldEdit): Progress {
    match FinalColumn(server, t0, e)
    case Impossible =>
      if e.Modify?
      then Progress(WithColumn(t, Shadow(e.name), Some(EmptyColumn(ColumnTypeOf(e.dataType), false, t0.rows))), 1)
      else Progress(t, 0)
    case m =>
      var t1 := WithColumn(t, e.name, Settled(m));
      Progress(if e.Modify? then WithColumn(t1, Shadow(e.name), None) else t1, |Compile(e)|)
  }

  lemma Unroll(server: Server, t: Table, steps: seq<FieldEditStep>, k: nat)
    requires k <= |steps|
    ensures Run(server, t, steps[..k]) ==
            if k == 0 then Progress(t, 0) else
            match Exec(server, t, steps[0])
            case None => Progress(t, 0)
            case Some(t1) => var p := Run(server, t1, steps[1..][..k - 1]); Progress(p.table, p.committed + 1)
  {
    if k > 0 {
      assert steps[..k][1..] == steps[1..][..k - 1];
    }
  }

  lemma RunThree(server: Server, t: Table, a: FieldEditStep, b: FieldEditStep, c: FieldEditStep, k: nat)
    requires k <= 3
    ensures var steps := [a, b, c][..k];
            Run(server, t, steps) ==
            if k == 0 then Progress(t, 0) else
            match Exec(server, t, a)
            case None => Progress(t, 0)
            case Some(t1) =>
              if k == 1 then Progress(t1, 1) else
              match Exec(server, t1, b)
              case None => Progress(t1, 1)
              case Some(t2) =>
                if k == 2 then Progress(t2, 2) else
                match Exec(server, t2, c) case None => Progress(t2, 2) case Some(t3) => Progress(t3, 3)
  {
    Unroll(server, t, [a, b, c], k);
    if k > 0 && Exec(server, t, a).Some? {
      var t1 := Exec(server, t, a).value;
      assert [a, b, c][1..] == [b, c];
      Unroll(server, t1, [b, c], k - 1);
      if k > 1 && Exec(server, t1, b).Some? {
        var t2 := Exec(server, t1, b).value;
        assert [b, c][1..] == [c];
        Unroll(server, t2, [c], k - 2);
      }
    }
  }

  /** A type change, step by step, from any state a crash can leave. */
  lemma ModifySteps(server: Server, t0: Table, t: Table, e: FieldEdit)
    returns (t1: Table, t2: Table, t3: Table)
    requires CastsToSelf(server.cast) && e.Modify? && WellTyped(e)
    requires t.rows == t0.rows && Stage(server, t0, t, e)
    ensures Exec(server, t, Compile(e)[0]) == Some(t1)
    ensures Stage(server, t0, t1, e) && AgreeOutside(t, t1, Footprint(e))
    ensures if Possible(server, t0, e)
            then && Exec(server, t1, Compile(e)[1]) == Some(t2)
                 && Exec(server, t2, Compile(e)[2]) == Some(t3)
                 && Stage(server, t0, t2, e) && AgreeOutside(t, t2, Footprint(e))
                 && t3 == EditProgress(server, t0, t, e).table
            else && Exec(server, t1, Compile(e)[1]) == None
                 && t1 == EditProgress(server, t0, t, e).table
  {
    var c, s := e.name, Shadow(e.name);
    ShadowDiffers(c);
    var ty := ColumnTypeOf(e.dataType);
    t1 := Exec(server, t, Compile(e)[0]).value;
    t2, t3 := t1, t1;
    if Possible(server, t0, e) {
      var final := FinalColumn(server, t0, e).col;
      CastAllToSelf(server.cast, ty, final.cells);
      assert Look(t1, s).Some? && Look(t1, s).value.ty == ty;
      t2 := Exec(server, t1, Compile(e)[1]).value;
      assert Look(t2, s) == Some(final);
      t3 := Exec(server, t2, Compile(e)[2]).value;
      SameTable(t3, EditProgress(server, t0, t, e).table);
    } else {
      assert Look(t1, c) == Look(t0, c);
      SameTable(t1, EditProgress(server, t0, t, e).table);
    }
  }

  /** Running the first `k` steps of one edit: nothing else moves and the edit stays in a legal stage. */
  lemma EditPrefix(server: Server, t0: Table, t: Table, e: FieldEdit, k: nat)
    requires CastsToSelf(server.cast) && WellTyped(e)
    requires t.rows == t0.rows && Stage(server, t0, t, e)
    requires k <= |Compile(e)|
    ensures var p := Run(server, t, Compile(e)[..k]);
            && Stage(server, t0, p.table, e)
            && AgreeOutside(t, p.table, Footprint(e))
            && (k == |Compile(e)| ==> p == EditProgress(server, t0, t, e))
  {
    if e.Modify? {
      var steps := Compile(e);
      RunThree(server, t, steps[0], steps[1], steps[2], k);
      ShadowDiffers(e.name);
      var t1, t2, t3 := ModifySteps(server, t0, t, e);
    } else if k == 0 {
    } else {
      Unroll(server, t, Compile(e), k);
      var p := Run(server, t, Compile(e)[..k]);
      SameTable(p.table, EditProgress(server, t0, t, e).table);
    }
  }

  // ----- the whole job -------------------------------------------------

  /** Stages depend only on the columns of the edits. */
  lemma {:induction false} StagesFrame(server: Server, t0: Table, t: Table, u0: Table, u: Table, edits: seq<FieldEdit>)
    requires t0.rows == u0.rows && t.rows == u.rows
    requires Agree(t0, u0, Footprints(edits)) && Agree(t, u, Footprints(edits))
    requires Stages(server, t0, t, edits)
    ensures Stages(server, u0, u, edits)
  {
    if edits != [] {
      var e := edits[0];
      assert Look(u0, e.name) == Look(t0, e.name) && Look(u, e.name) == Look(t, e.name);
      assert FinalColumn(server, t0, e) == FinalColumn(server, u0, e);
      if e.Modify? {
        assert Shadow(e.name) in Footprint(e);
      }
      if Possible(server, t0, e) {
        StagesFrame(server, t0, t, u0, u, edits[1..]);
      }
    }
  }

  /** After both runs finish the first edit, the rest is midway between the results. */
  lemma MidwayRest(server: Server, t0: Table, t: Table, edits: seq<FieldEdit>)
    requires edits != [] && Independent(edits) && NoShadows(t0, edits)
    requires Midway(server, t0, t, edits)
    requires Possible(server, t0, edits[0])
    ensures var u0 := EditProgress(server, t0, t0, edits[0]).table;
            var u := EditProgress(server, t0, t, edits[0]).table;
            && Midway(server, u0, u, edits[1..])
            && NoShadows(u0, edits[1..])
  {
    var e, rest := edits[0], edits[1..];
    var u0 := EditProgress(server, t0, t0, e).table;
    var u := EditProgress(server, t0, t, e).table;
    StagesFrame(server, t0, t, u0, u, rest);
    forall e' | e' in rest && e'.Modify?
      ensures Shadow(e'.name) !in u0.cols
    {
      FootprintIn(rest, e');
      assert e' in edits;
      assert Look(u0, Shadow(e'.name)) == Look(t0, Shadow(e'.name));
    }
  }

  lemma AtStart(server: Server, t0: Table, e: FieldEdit)
    requires e.Modify? ==> Shadow(e.name) !in t0.cols
    ensures Stage(server, t0, t0, e)
  {
  }

  /** From any state a crash can leave, a full run equals the full run from the start. */
  lemma {:induction false} MidwayConverges(server: Server, t0: Table, t: Table, edits: seq<FieldEdit>)
    requires CastsToSelf(server.cast)
    requires Independent(edits) && NoShadows(t0, edits)
    requires Midway(server, t0, t, edits)
    ensures Run(server, t, CompileAll(edits)) == Run(server, t0, CompileAll(edits))
    decreases |edits|
  {
    if edits == [] {
      SameTable(t, t0);
    } else {
      var e, rest := edits[0], edits[1..];
      var n := |Compile(e)|;
      assert Compile(e)[..n] == Compile(e);
      AtStart(server, t0, e);
      EditPrefix(server, t0, t, e, n);
      EditPrefix(server, t0, t0, e, n);
      RunConcat(server, t, Compile(e), CompileAll(rest));
      RunConcat(server, t0, Compile(e), CompileAll(rest));
      if Possible(server, t0, e) {
        MidwayRest(server, t0, t, edits);
        MidwayConverges(server, EditProgress(server, t0, t0, e).table, EditProgress(server, t0, t, e).table, rest);
      } else {
        SameTable(EditProgress(server, t0, t, e).table, EditProgress(server, t0, t0, e).table);
      }
    }
  }

  /** Moving only the first edit, within its stages, stays midway. */
  lemma MidwayFirstMoved(server: Server, t0: Table, t: Table, u: Table, edits: seq<FieldEdit>)
    requires edits != [] && Independent(edits)
    requires Midway(server, t0, t, edits)
    requires Stage(server, t0, u, edits[0]) && AgreeOutside(t, u, Footprint(edits[0]))
    ensures Midway(server, t0, u, edits)
  {
    if Possible(server, t0, edits[0]) {
      StagesFrame(server, t0, t, t0, u, edits[1..]);
    }
  }

  /** A state midway through the rest, the first edit being done, is midway through the whole. */
  lemma MidwayWhole(server: Server, t0: Table, u0: Table, w: Table, edits: seq<FieldEdit>)
    requires edits != [] && Independent(edits)
    requires Possible(server, t0, edits[0]) && u0 == EditProgress(server, t0, t0, edits[0]).table
    requires edits[0].Modify? ==> Shadow(edits[0].name) !in t0.cols
    requires Midway(server, u0, w, edits[1..])
    ensures Midway(server, t0, w, edits)
  {
    var e, rest := edits[0], edits[1..];
    StagesFrame(server, u0, w, t0, w, rest);
    assert Look(w, e.name) == Look(u0, e.name);
    if e.Modify? {
      ShadowDiffers(e.name);
      assert Shadow(e.name) in Footprint(e);
      assert Look(w, Shadow(e.name)) == None;
    }
  }

  /** Any committed prefix of the steps leaves a state a crash can leave. */
  lemma {:induction false} PrefixStaysMidway(server: Server, t0: Table, t: Table, edits: seq<FieldEdit>, k: nat)
    requires CastsToSelf(server.cast)
    requires Independent(edits) && NoShadows(t0, edits)
    requires Midway(server, t0, t, edits)
    requires k <= |CompileAll(edits)|
    ensures Midway(server, t0, Run(server, t, CompileAll(edits)[..k]).table, edits)
    decreases |edits|
  {
    if edits != [] {
      var e, rest := edits[0], edits[1..];
      var n := |Compile(e)|;
      var all := CompileAll(edits);
      if k <= n {
        assert all[..k] == Compile(e)[..k];
        EditPrefix(server, t0, t, e, k);
        MidwayFirstMoved(server, t0, t, Run(server, t, all[..k]).table, edits);
      } else {
        var more := CompileAll(rest)[..k - n];
        assert all[..k] == Compile(e) + more;
        assert Compile(e)[..n] == Compile(e);
        EditPrefix(server, t0, t, e, n);
        RunConcat(server, t, Compile(e), more);
        var u := EditProgress(server, t0, t, e).table;
        if Possible(server, t0, e) {
          var u0 := EditProgress(server, t0, t0, e).table;
          MidwayRest(server, t0, t, edits);
          PrefixStaysMidway(server, u0, u, rest, k - n);
          MidwayWhole(server, t0, u0, Run(server, u, more).table, edits);
        } else {
          MidwayFirstMoved(server, t0, t, u, edits);
        }
      }
    }
  }

  /** The table after attempts that each committed some prefix of the steps before dying. */
  function AfterAttempts(server: Server, t: Table, steps: seq<FieldEditStep>, prefixes: seq<nat>): Table
    decreases |prefixes|
  {
    if prefixes == [] then t
    else
      var k := if prefixes[0] <= |steps| then prefixes[0] else |steps|;
      AfterAttempts(server, Run(server, t, steps[..k]).table, steps, prefixes[1..])
  }

  lemma {:induction false} AttemptsStayMidway(server: Server, t0: Table, t: Table, edits: seq<FieldEdit>, prefixes: seq<nat>)
    requires CastsToSelf(server.cast)
    requires Independent(edits) && NoShadows(t0, edits)
    requires Midway(server, t0, t, edits)
    ensures Midway(server, t0, AfterAttempts(server, t, CompileAll(edits), prefixes), edits)
    decreases |prefixes|
  {
    if prefixes != [] {
      var steps := CompileAll(edits);
      var k := if prefixes[0] <= |steps| then prefixes[0] else |steps|;
      PrefixStaysMidway(server, t0, t, edits, k);
      AttemptsStayMidway(server, t0, Run(server, t, steps[..k]).table, edits, prefixes[1..]);
    }
  }

  lemma {:induction false} MidwayAtStart(server: Server, t0: Table, edits: seq<FieldEdit>)
    requires NoShadows(t0, edits)
    ensures Midway(server, t0, t0, edits)
  {
    if edits != [] {
      assert edits[0] in edits;
      MidwayAtStart(server, t0, edits[1..]);
    }
  }

  /**
   * Retry convergence: whatever prefixes earlier attempts committed, the next
   * complete attempt ends with the same columns, types and cells, and stops at
   * the same step if it stops, as one attempt on the untouched table.
   */
  lemma RetryConverges(server: Server, t: Table, edits: seq<FieldEdit>, prefixes: seq<nat>)
    requires CastsToSelf(server.cast)
    requires WellFormedJob(t, edits)
    ensures var steps := CompileAll(edits);
            Run(server, AfterAttempts(server, t, steps, prefixes), steps) == Run(server, t, steps)
  {
    WellFormedIsIndependent(t, edits);
    MidwayAtStart(server, t, edits);
    AttemptsStayMidway(server, t, t, edits, prefixes);
    MidwayConverges(server, t, AfterAttempts(server, t, CompileAll(edits), prefixes), edits);
  }

  // ----- the meaning of a completed job --------------------------------

  /** The edits applied one after the other, each in place and at once. */
  function ApplyAll(server: Server, t: Table, edits: seq<FieldEdit>): Option<Table>
    decreases |edits|
  {
    if edits == [] then Some(t)
    else if !Possible(server, t, edits[0]) then None
    else ApplyAll(server, WithColumn(t, edits[0].name, Settled(FinalColumn(server, t, edits[0]))), edits[1..])
  }

  /**
   * Expand, backfill and contract is worth an in-place change: the compiled
   * job completes exactly when every edit is possible, with the same result.
   */
  lemma {:induction false} CompiledJobMeansInPlaceEdits(server: Server, t: Table, edits: seq<FieldEdit>)
    requires CastsToSelf(server.cast)
    requires Independent(edits) && NoShadows(t, edits)
    ensures var p := Run(server, t, CompileAll(edits));
            ApplyAll(server, t, edits) == if p.committed == |CompileAll(edits)| then Some(p.table) else None
    decreases |edits|
  {
    if edits != [] {
      var e, rest := edits[0], edits[1..];
      var n := |Compile(e)|;
      assert Compile(e)[..n] == Compile(e);
      AtStart(server, t, e);
      EditPrefix(server, t, t, e, n);
      RunConcat(server, t, Compile(e), CompileAll(rest));
      if Possible(server, t, e) {
        var u := EditProgress(server, t, t, e).table;
        SameTable(u, WithColumn(t, e.name, Settled(FinalColumn(server, t, e))));
        MidwayAtStart(server, t, edits);
        MidwayRest(server, t, t, edits);
        CompiledJobMeansInPlaceEdits(server, u, rest);
      }
    }
  }

  // ----- a shadow name already in use ----------------------------------

  /**
   * The shadow slot is free, or the job cannot get past the first backfill
   * anyway, or the column in the slot already is what the job would create.
   */
  predicate ShadowHarmless(server: Server, t: Table, e: FieldEdit)
    requires e.Modify?
  {
    match (Look(t, e.name), Look(t, Shadow(e.name)))
    case (Some(source), Some(occupant)) =>
      (match CastAll(server.cast, source.ty, occupant.ty, source.cells)
       case None => true
       case Some(cells) =>
         || (occupant.notNull && Null in cells)
         || (occupant.ty == ColumnTypeOf(e.dataType) && !occupant.notNull))
    case _ => true
  }

  ghost predicate ConvergesFrom(server: Server, t: Table, steps: seq<FieldEditStep>) {
    forall prefixes: seq<nat> :: Run(server, AfterAttempts(server, t, steps, prefixes), steps) == Run(server, t, steps)
  }

  /** With an occupied slot, the steps of `e` act as these two-column updates. */
  lemma OccupiedSlot(server: Server, t: Table, e: FieldEdit, k: nat)
    requires e.Modify? && WellTyped(e) && k <= 3 && Shadow(e.name) in t.cols
    ensures var steps := Compile(e);
            var p := Run(server, t, steps[..k]);
            && (k <= 1 ==> p == Progress(t, k))
            && (k > 1 && Exec(server, t, steps[1]) == None ==> p == Progress(t, 1))
            && (k == 2 && Exec(server, t, steps[1]) != None ==> p == Progress(Exec(server, t, steps[1]).value, 2))
            && (k == 3 && Exec(server, t, steps[1]) != None ==>
                  var t2 := Exec(server, t, steps[1]).value;
                  p == match Exec(server, t2, steps[2]) case None => Progress(t2, 2) case Some(t3) => Progress(t3, 3))
  {
    var steps := Compile(e);
    RunThree(server, t, steps[0], steps[1], steps[2], k);
  }

  /** An occupied slot of the target type is overwritten, so it might as well have been free. */
  lemma {:induction false} SameTypeSlotConverges(server: Server, t: Table, e: FieldEdit, prefixes: seq<nat>)
    requires CastsToSelf(server.cast) && e.Modify? && WellTyped(e)
    requires var s := Look(t, Shadow(e.name));
             s.Some? && s.value.ty == ColumnTypeOf(e.dataType) && !s.value.notNull
    requires Possible(server, t, e)
    ensures Run(server, AfterAttempts(server, t, Compile(e), prefixes), Compile(e)) == Run(server, t, Compile(e))
    decreases |prefixes|
  {
    var steps := Compile(e);
    var free := WithColumn(t, Shadow(e.name), None);
    ShadowDiffers(e.name);
    assert Look(free, e.name) == Look(t, e.name);
    assert steps[..3] == steps;
    RunThree(server, free, steps[0], steps[1], steps[2], 3);
    OccupiedSlot(server, t, e, 3);
    var free1 := Exec(server, free, steps[0]).value;
    assert Exec(server, t, steps[1]) == Exec(server, free1, steps[1]) by {
      SameTable(Exec(server, t, steps[1]).value, Exec(server, free1, steps[1]).value);
    }
    if prefixes != [] {
      var k := if prefixes[0] <= 3 then prefixes[0] else 3;
      OccupiedSlot(server, t, e, k);
      if k <= 1 {
        SameTypeSlotConverges(server, t, e, prefixes[1..]);
      } else {
        RunThree(server, free, steps[0], steps[1], steps[2], k);
        assert AfterAttempts(server, t, steps, prefixes) == AfterAttempts(server, free, steps, prefixes);
        assert CompileAll([e]) == steps;
        RetryConverges(server, free, [e], prefixes);
      }
    }
  }

  lemma {:induction false} StuckConverges(server: Server, t: Table, e: FieldEdit, prefixes: seq<nat>)
    requires e.Modify? && WellTyped(e) && Shadow(e.name) in t.cols
    requires Exec(server, t, Compile(e)[1]) == None
    ensures AfterAttempts(server, t, Compile(e), prefixes) == t
    decreases |prefixes|
  {
    if prefixes != [] {
      var k := if prefixes[0] <= 3 then prefixes[0] else 3;
      OccupiedSlot(server, t, e, k);
      StuckConverges(server, t, e, prefixes[1..]);
    }
  }

  /** A job with one type change converges under every pattern of crashes exactly when its shadow slot is harmless. */
  lemma ModifyConvergesIff(server: Server, t: Table, e: FieldEdit)
    requires CastsToSelf(server.cast) && e.Modify? && WellTyped(e)
    ensures ConvergesFrom(server, t, Compile(e)) <==> ShadowHarmless(server, t, e)
  {
    var c, s, steps := e.name, Shadow(e.name), Compile(e);
    ShadowDiffers(c);
    assert steps[..3] == steps;
    if s !in t.cols {
      assert CompileAll([e]) == steps;
      assert WellFormedJob(t, [e]);
      forall prefixes: seq<nat> {
        RetryConverges(server, t, [e], prefixes);
      }
    } else if Exec(server, t, steps[1]) == None {
      forall prefixes: seq<nat> {
        StuckConverges(server, t, e, prefixes);
      }
    } else if ShadowHarmless(server, t, e) {
      forall prefixes: seq<nat> {
        SameTypeSlotConverges(server, t, e, prefixes);
      }
    } else {
      // One committed run, then one more: the second converts to the target type.
      OccupiedSlot(server, t, e, 3);
      var done := Run(server, t, steps).table;
      assert AfterAttempts(server, t, steps, [3]) == done by {
        assert [3 as nat][1..] == [];
      }
      assert Look(done, s) == None;
      AtStart(server, done, e);
      EditPrefix(server, done, done, e, 3);
      assert Run(server, done, steps) != Run(server, t, steps);
    }
  }
}
