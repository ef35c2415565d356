/** What `perform` guarantees, stated about its reference definition
    `Engine.Run` (which `Engine.Perform` is proved to compute). */
module Properties {
  import opened Wrappers
  import opened Database
  import opened Scripts
  import opened Engine

  /** Position `j` of the compensation list is the rollback of the
      forward script `j` places before the last executed one. */
  lemma CompensationScriptAt(queries: seq<string>, probe: Option<string>, db: Oracle, j: nat)
    requires j < Forwarded(queries, probe, db)
    ensures CompensationScripts(queries, probe, db)[j]
            == RollbackName(queries[Forwarded(queries, probe, db) - 1 - j])
  {
    var k := Forwarded(queries, probe, db);
    ReverseAt(queries[..k], j);
  }

  /** The shape of a run that compensates: the null `currentScript` error
      when there were no scripts; otherwise the first failing rollback
      escapes, or every rollback succeeds and a report is returned. */
  lemma RunCompensating(queries: seq<string>, rollbacks: seq<string>, probe: Option<string>, db: Oracle)
    requires Paired(queries, rollbacks) && !BeforeProbeFails(probe, db)
    requires Compensates(queries, probe, db)
    ensures var run := Run(queries, rollbacks, probe, db);
      var k := Forwarded(queries, probe, db);
      var m := Compensated(queries, probe, db);
      var history := CompensationHistory(queries, probe, db);
      var names := CompensationScripts(queries, probe, db);
      && m <= k
      && (queries == [] ==> run == Execution(Err(NullCurrentScript), history))
      && (queries != [] && m < k ==>
            run == Execution(Err(RollbackFailed(names[m])), history + Files(names[..m + 1])))
      && (queries != [] && m == k ==>
            && run.calls == history + Files(names)
            && run.result.Ok?
            && run.result.value.queryScripts == queries
            && run.result.value.rollbackScripts == rollbacks
            && run.result.value.executedQueryScripts == Reverse(queries[..k])
            && run.result.value.executedRollbackScripts == names
            && run.result.value.successOutputs == Outputs(db, ProbeCalls(probe), queries, k)
            && run.result.value.errorOutputs == Outputs(db, history, names, k)
            && run.result.value.afterErrors == [])
  {
  }

  /** The shape of a run that does not compensate: every forward script
      ran, then the "after" probe, and the report lists them in order. */
  lemma RunCompletes(queries: seq<string>, rollbacks: seq<string>, probe: Option<string>, db: Oracle)
    requires Paired(queries, rollbacks) && !BeforeProbeFails(probe, db)
    requires !Compensates(queries, probe, db)
    ensures var run := Run(queries, rollbacks, probe, db);
      && run.calls == ProbeCalls(probe) + Files(queries) + ProbeCalls(probe)
      && run.result.Ok?
      && run.result.value.executedQueryScripts == queries
      && run.result.value.executedRollbackScripts == []
      && run.result.value.successOutputs == Outputs(db, ProbeCalls(probe), queries, |queries|)
      && run.result.value.errorOutputs == []
      && run.result.value.afterErrors ==
           (if probe.Some? then db(ProbeCalls(probe) + Files(queries), ScriptString(probe.value)).rows else [])
  {
    assert queries[..|queries|] == queries;
  }

  /** The pairing check decides before anything runs: a missing rollback is
      reported, naming an unpaired forward script, and no database call is made. */
  lemma PairingPrecedesExecution(queries: seq<string>, rollbacks: seq<string>, probe: Option<string>, db: Oracle)
    ensures var run := Run(queries, rollbacks, probe, db);
      && (!Paired(queries, rollbacks) <==> run.result.Err? && run.result.error.MissingRollback?)
      && (!Paired(queries, rollbacks) ==>
            && run.calls == []
            && run.result.error.script in queries
            && RollbackName(run.result.error.script) !in rollbacks)
  {
  }

  /** When every forward script succeeds (and the "after" probe, if any),
      all of them run, in list order, each once, and nothing is rolled back.
      The probe snapshots are recorded whatever their sizes. */
  lemma AllScriptsSucceed(queries: seq<string>, rollbacks: seq<string>, probe: Option<string>, db: Oracle)
    requires Paired(queries, rollbacks) && !BeforeProbeFails(probe, db)
    requires forall i :: 0 <= i < |queries| ==> OutcomeAt(db, ProbeCalls(probe), queries, i).Success?
    requires probe.Some? ==> db(ProbeCalls(probe) + Files(queries), ScriptString(probe.value)).Success?
    ensures var run := Run(queries, rollbacks, probe, db);
      && run.result.Ok?
      && run.result.value.executedQueryScripts == queries
      && |run.result.value.successOutputs| == |queries|
      && (forall i :: 0 <= i < |queries| ==>
            OutcomeAt(db, ProbeCalls(probe), queries, i) == Success(run.result.value.successOutputs[i]))
      && run.result.value.executedRollbackScripts == []
      && run.result.value.errorOutputs == []
      && run.result.value.afterErrors ==
           (if probe.Some? then db(ProbeCalls(probe) + Files(queries), ScriptString(probe.value)).rows else [])
      && run.calls == ProbeCalls(probe) + Files(queries) + ProbeCalls(probe)
  {
    LeadingUnique(db, ProbeCalls(probe), queries, |queries|);
    RunCompletes(queries, rollbacks, probe, db);
  }

  /** When forward script `k` is the first to fail, exactly the scripts
      before it ran, in order, then it was attempted, and every later call is
      the rollback of an executed script, latest first: no later forward
      script runs. */
  lemma ForwardFailureAt(queries: seq<string>, rollbacks: seq<string>, probe: Option<string>, db: Oracle, k: nat)
    requires Paired(queries, rollbacks) && !BeforeProbeFails(probe, db)
    requires k < |queries|
    requires forall i :: 0 <= i < k ==> OutcomeAt(db, ProbeCalls(probe), queries, i).Success?
    requires OutcomeAt(db, ProbeCalls(probe), queries, k).Failure?
    ensures Forwarded(queries, probe, db) == k
    ensures var run := Run(queries, rollbacks, probe, db);
      var start := |ProbeCalls(probe)| + k + 1;
      && start <= |run.calls| <= start + k
      && run.calls[..start] == ProbeCalls(probe) + Files(queries[..k + 1])
      && (forall j :: start <= j < |run.calls| ==>
            run.calls[j] == ScriptFile(RollbackName(queries[k - 1 - (j - start)])))
  {
    ForwardFailureTrace(queries, rollbacks, probe, db, k);
    var run := Run(queries, rollbacks, probe, db);
    var history := CompensationHistory(queries, probe, db);
    var names := CompensationScripts(queries, probe, db);
    forall j | |history| <= j < |run.calls|
      ensures run.calls[j] == ScriptFile(RollbackName(queries[k - 1 - (j - |history|)]))
    {
      assert run.calls[j] == ScriptFile(names[j - |history|]);
      CompensationScriptAt(queries, probe, db, j - |history|);
    }
  }

  /** After forward script `k` fails, the calls are the history up to that
      failure followed by a prefix of the compensation rollbacks. */
  lemma ForwardFailureTrace(queries: seq<string>, rollbacks: seq<string>, probe: Option<string>, db: Oracle, k: nat)
    requires Paired(queries, rollbacks) && !BeforeProbeFails(probe, db)
    requires k < |queries|
    requires forall i :: 0 <= i < k ==> OutcomeAt(db, ProbeCalls(probe), queries, i).Success?
    requires OutcomeAt(db, ProbeCalls(probe), queries, k).Failure?
    ensures Forwarded(queries, probe, db) == k
    ensures CompensationHistory(queries, probe, db) == ProbeCalls(probe) + Files(queries[..k + 1])
    ensures var calls := Run(queries, rollbacks, probe, db).calls;
      var history := CompensationHistory(queries, probe, db);
      && |history| <= |calls| <= |history| + k
      && calls == history + Files(CompensationScripts(queries, probe, db)[..|calls| - |history|])
  {
    LeadingUnique(db, ProbeCalls(probe), queries, k);
    RunCompensating(queries, rollbacks, probe, db);
    var names := CompensationScripts(queries, probe, db);
    var m := Compensated(queries, probe, db);
    if m == k {
      assert names[..k] == names;
    }
  }

  /** When forward script `k` is the first to fail and the failure is
      swallowed, the report lists the executed scripts reversed, while their
      outputs stay in forward order, and the "after" snapshot is empty. */
  lemma ForwardFailureReport(queries: seq<string>, rollbacks: seq<string>, probe: Option<string>, db: Oracle, k: nat)
    requires Paired(queries, rollbacks) && !BeforeProbeFails(probe, db)
    requires k < |queries|
    requires forall i :: 0 <= i < k ==> OutcomeAt(db, ProbeCalls(probe), queries, i).Success?
    requires OutcomeAt(db, ProbeCalls(probe), queries, k).Failure?
    ensures var result := Run(queries, rollbacks, probe, db).result;
      result.Ok? ==>
        && result.value.executedQueryScripts == Reverse(queries[..k])
        && |result.value.successOutputs| == k
        && (forall i :: 0 <= i < k ==>
              OutcomeAt(db, ProbeCalls(probe), queries, i) == Success(result.value.successOutputs[i]))
        && result.value.afterErrors == []
  {
    LeadingUnique(db, ProbeCalls(probe), queries, k);
    RunCompensating(queries, rollbacks, probe, db);
  }

  /** When the very first forward script fails, no rollback is attempted
      and the report says nothing ran. */
  lemma FirstScriptFails(queries: seq<string>, rollbacks: seq<string>, probe: Option<string>, db: Oracle)
    requires Paired(queries, rollbacks) && !BeforeProbeFails(probe, db)
    requires queries != [] && OutcomeAt(db, ProbeCalls(probe), queries, 0).Failure?
    ensures var run := Run(queries, rollbacks, probe, db);
      && run.result.Ok?
      && run.result.value.executedQueryScripts == []
      && run.result.value.successOutputs == []
      && run.result.value.executedRollbackScripts == []
      && run.result.value.errorOutputs == []
      && run.calls == ProbeCalls(probe) + [ScriptFile(queries[0])]
  {
    LeadingUnique(db, ProbeCalls(probe), queries, 0);
    assert Files(queries[..1]) == [ScriptFile(queries[0])];
    assert Files([]) == [];
  }

  /** When compensation runs and every rollback succeeds, the failure is
      swallowed: a report comes back whose rollback list is the rollbacks of
      the executed scripts, latest first, whose executed list is reversed in
      the same way, one output per rollback, and whose discovered lists are
      the inputs unchanged. */
  lemma CompensationInReverseOrder(queries: seq<string>, rollbacks: seq<string>, probe: Option<string>, db: Oracle)
    requires Paired(queries, rollbacks) && !BeforeProbeFails(probe, db)
    requires Compensates(queries, probe, db) && queries != []
    requires Compensated(queries, probe, db) == Forwarded(queries, probe, db)
    ensures var run := Run(queries, rollbacks, probe, db);
      var k := Forwarded(queries, probe, db);
      && run.result.Ok?
      && run.result.value.queryScripts == queries
      && run.result.value.rollbackScripts == rollbacks
      && |run.result.value.executedRollbackScripts| == |run.result.value.errorOutputs| == k
      && |run.result.value.executedQueryScripts| == |run.result.value.successOutputs| == k
      && (forall j :: 0 <= j < k ==>
            && run.result.value.executedRollbackScripts[j] == RollbackName(queries[k - 1 - j])
            && run.result.value.executedQueryScripts[j] == queries[k - 1 - j])
      // The outputs are not reversed: `successOutputs` stays in forward order,
      // opposite to the executed list beside it.
      && (forall i :: 0 <= i < k ==>
            OutcomeAt(db, ProbeCalls(probe), queries, i) == Success(run.result.value.successOutputs[i]))
      && (forall j :: 0 <= j < k ==>
            OutcomeAt(db, CompensationHistory(queries, probe, db), CompensationScripts(queries, probe, db), j)
              == Success(run.result.value.errorOutputs[j]))
  {
    var k := Forwarded(queries, probe, db);
    var names := CompensationScripts(queries, probe, db);
    RunCompensating(queries, rollbacks, probe, db);
    forall j | 0 <= j < k
      ensures Reverse(queries[..k])[j] == queries[k - 1 - j]
      ensures names[j] == RollbackName(queries[k - 1 - j])
    {
      ReverseAt(queries[..k], j);
    }
  }

  /** A failing rollback is not caught: `perform` ends with that failure,
      the rollback calls stop there, and the rollbacks of the earlier
      forward scripts are never attempted. */
  lemma RollbackFailureEscapes(queries: seq<string>, rollbacks: seq<string>, probe: Option<string>, db: Oracle)
    requires Paired(queries, rollbacks) && !BeforeProbeFails(probe, db)
    requires Compensates(queries, probe, db) && queries != []
    requires Compensated(queries, probe, db) < Forwarded(queries, probe, db)
    ensures var run := Run(queries, rollbacks, probe, db);
      var k := Forwarded(queries, probe, db);
      var m := Compensated(queries, probe, db);
      var history := CompensationHistory(queries, probe, db);
      && run.result == Err(RollbackFailed(RollbackName(queries[k - 1 - m])))
      && RollbackName(queries[k - 1 - m]) in rollbacks
      && |run.calls| == |history| + m + 1
      && run.calls[..|history|] == history
      && (forall j :: |history| <= j < |run.calls| ==>
            run.calls[j] == ScriptFile(RollbackName(queries[k - 1 - (j - |history|)])))
  {
    var k := Forwarded(queries, probe, db);
    var m := Compensated(queries, probe, db);
    var history := CompensationHistory(queries, probe, db);
    RunCompensating(queries, rollbacks, probe, db);
    var run := Run(queries, rollbacks, probe, db);
    CompensationScriptAt(queries, probe, db, m);
    forall j | |history| <= j < |run.calls|
      ensures run.calls[j] == ScriptFile(RollbackName(queries[k - 1 - (j - |history|)]))
    {
      CompensationScriptAt(queries, probe, db, j - |history|);
    }
  }

  /** Without a registered error probe no probe query runs and both
      snapshots in the report are empty. */
  lemma NoProbeNoSnapshots(queries: seq<string>, rollbacks: seq<string>, db: Oracle)
    ensures var run := Run(queries, rollbacks, None, db);
      && (forall c :: c in run.calls ==> c.ScriptFile?)
      && (run.result.Ok? ==> run.result.value.beforeErrors == [] && run.result.value.afterErrors == [])
  {
    var run := Run(queries, rollbacks, None, db);
    AllCallsDiscovered(queries, rollbacks, None, db);
  }

  /** The "after" probe runs only after a full forward pass: when a forward
      script fails, the only probe call is the "before" one, first of all,
      and the report's "after" snapshot is empty. */
  lemma AfterProbeOnlyAfterFullPass(queries: seq<string>, rollbacks: seq<string>, probe: Option<string>, db: Oracle)
    requires Paired(queries, rollbacks) && !BeforeProbeFails(probe, db)
    requires !ForwardCompletes(queries, probe, db)
    ensures var run := Run(queries, rollbacks, probe, db);
      && (forall j :: |ProbeCalls(probe)| <= j < |run.calls| ==> run.calls[j].ScriptFile?)
      && (run.result.Ok? ==> run.result.value.afterErrors == [])
  {
    var k := Forwarded(queries, probe, db);
    ForwardFailureTrace(queries, rollbacks, probe, db, k);
    ForwardFailureReport(queries, rollbacks, probe, db, k);
    var calls := Run(queries, rollbacks, probe, db).calls;
    var history := CompensationHistory(queries, probe, db);
    ScriptFilesAfter(ProbeCalls(probe), queries[..k + 1],
                     CompensationScripts(queries, probe, db)[..|calls| - |history|]);
  }

  /** Past a prefix `pre`, a run of script files holds nothing else. */
  lemma ScriptFilesAfter(pre: seq<DbCall>, first: seq<string>, second: seq<string>)
    ensures var calls := pre + Files(first) + Files(second);
      forall j :: |pre| <= j < |calls| ==> calls[j].ScriptFile?
  {
    var calls := pre + Files(first) + Files(second);
    forall j | |pre| <= j < |calls|
      ensures calls[j].ScriptFile?
    {
      if j < |pre| + |first| {
        assert calls[j] == Files(first)[j - |pre|];
      } else {
        assert calls[j] == Files(second)[j - |pre| - |first|];
      }
    }
  }

  /** A failing "after" probe sits inside the try block: every forward script
      ran, and all of them are compensated, latest first. */
  lemma AfterProbeFailureCompensatesAll(queries: seq<string>, rollbacks: seq<string>, probe: Option<string>, db: Oracle)
    requires Paired(queries, rollbacks) && !BeforeProbeFails(probe, db)
    requires AfterProbeFails(queries, probe, db) && queries != []
    requires Compensated(queries, probe, db) == |queries|
    ensures var run := Run(queries, rollbacks, probe, db);
      && run.result.Ok?
      && run.result.value.executedQueryScripts == Reverse(queries)
      && run.result.value.executedRollbackScripts == RollbackNames(Reverse(queries))
      && run.result.value.afterErrors == []
      && run.calls == ProbeCalls(probe) + Files(queries) + ProbeCalls(probe) + Files(RollbackNames(Reverse(queries)))
  {
    assert queries[..|queries|] == queries;
    RunCompensating(queries, rollbacks, probe, db);
  }

  /** A call that targets a discovered script or the configured probe query. */
  predicate Discovered(c: DbCall, queries: seq<string>, rollbacks: seq<string>, probe: Option<string>)
  {
    || (c.ScriptString? && probe == Some(c.sql))
    || (c.ScriptFile? && (c.path in queries || c.path in rollbacks))
  }

  /** The compensation list holds only discovered rollbacks. */
  lemma CompensationScriptsDiscovered(queries: seq<string>, rollbacks: seq<string>, probe: Option<string>, db: Oracle)
    requires Paired(queries, rollbacks)
    ensures forall s :: s in CompensationScripts(queries, probe, db) ==> s in rollbacks
  {
    var names := CompensationScripts(queries, probe, db);
    forall j | 0 <= j < |names|
      ensures names[j] in rollbacks
    {
      CompensationScriptAt(queries, probe, db, j);
    }
  }

  /** Every rollback a returned report lists is a discovered rollback. */
  lemma ExecutedRollbacksDiscovered(queries: seq<string>, rollbacks: seq<string>, probe: Option<string>, db: Oracle)
    ensures var run := Run(queries, rollbacks, probe, db);
      run.result.Ok? ==> forall s :: s in run.result.value.executedRollbackScripts ==> s in rollbacks
  {
    if Paired(queries, rollbacks) {
      CompensationScriptsDiscovered(queries, rollbacks, probe, db);
    }
  }

  /** Only discovered scripts and the configured probe query ever reach the
      database. */
  lemma AllCallsDiscovered(queries: seq<string>, rollbacks: seq<string>, probe: Option<string>, db: Oracle)
    ensures forall c :: c in Run(queries, rollbacks, probe, db).calls ==> Discovered(c, queries, rollbacks, probe)
  {
    var run := Run(queries, rollbacks, probe, db);
    var probeCalls := ProbeCalls(probe);
    assert forall c :: c in probeCalls ==> Discovered(c, queries, rollbacks, probe);
    if !Paired(queries, rollbacks) || BeforeProbeFails(probe, db) {
      assert run.calls == [] || run.calls == probeCalls;
    } else if !Compensates(queries, probe, db) {
      RunCompletes(queries, rollbacks, probe, db);
      FilesDiscovered(queries, queries, rollbacks, probe);
    } else {
      CompensationCallsDiscovered(queries, rollbacks, probe, db);
    }
  }

  /** The calls of a compensating run: the probe, the forward scripts up to
      the failure, the "after" probe when it was the failure, then rollbacks. */
  lemma CompensationCallsDiscovered(queries: seq<string>, rollbacks: seq<string>, probe: Option<string>, db: Oracle)
    requires Paired(queries, rollbacks) && !BeforeProbeFails(probe, db)
    requires Compensates(queries, probe, db)
    ensures forall c :: c in Run(queries, rollbacks, probe, db).calls ==> Discovered(c, queries, rollbacks, probe)
  {
    var run := Run(queries, rollbacks, probe, db);
    var probeCalls := ProbeCalls(probe);
    assert forall c :: c in probeCalls ==> Discovered(c, queries, rollbacks, probe);
    var k := Forwarded(queries, probe, db);
    var forward := queries[..if k < |queries| then k + 1 else |queries|];
    FilesDiscovered(forward, queries, rollbacks, probe);
    var history := CompensationHistory(queries, probe, db);
    assert queries[..|queries|] == queries;
    assert history == probeCalls + Files(forward) + (if k < |queries| then [] else probeCalls);
    RunCompensating(queries, rollbacks, probe, db);
    if queries != [] {
      var names := CompensationScripts(queries, probe, db);
      var m := Compensated(queries, probe, db);
      var compensation := if m < k then names[..m + 1] else names;
      CompensationScriptsDiscovered(queries, rollbacks, probe, db);
      FilesDiscovered(compensation, queries, rollbacks, probe);
      assert run.calls == history + Files(compensation);
    }
  }

  lemma FilesDiscovered(paths: seq<string>, queries: seq<string>, rollbacks: seq<string>, probe: Option<string>)
    requires forall i :: 0 <= i < |paths| ==> paths[i] in queries || paths[i] in rollbacks
    ensures forall c :: c in Files(paths) ==> Discovered(c, queries, rollbacks, probe)
  {
  }
}
