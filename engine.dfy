/** The apply/compensate engine: `perform` of the command entry point,
    from the pairing check to the assembled execution report. */
module Engine {
  import opened Wrappers
  import opened Database
  import opened Scripts

  /** The execution report returned to the caller. */
  datatype Report = Report(
    queryScripts: seq<string>,            // every discovered forward script
    rollbackScripts: seq<string>,         // every discovered rollback script
    executedQueryScripts: seq<string>,    // forward scripts that ran (reversed once compensation ran)
    executedRollbackScripts: seq<string>, // rollback scripts that ran, in the order they ran
    successOutputs: seq<Rows>,            // rows of each executed forward script
    errorOutputs: seq<Rows>,              // rows of each executed rollback script
    beforeErrors: Rows,                   // error probe before the forward pass
    afterErrors: Rows)                    // error probe after a full forward pass

  /** The exceptions that escape `perform`. */
  datatype PerformError =
    | MissingRollback(script: string)   // the pairing check failed on this forward script
    | ProbeFailed                       // the "before" error probe failed (it runs outside the try)
    | RollbackFailed(script: string)    // this rollback script failed during compensation
    | NullCurrentScript                 // the catch block read `currentScript` before any forward script started

  /** The calls made by the optional "before" probe. */
  function ProbeCalls(probe: Option<string>): seq<DbCall>
  {
    if probe.Some? then [ScriptString(probe.value)] else []
  }

  predicate BeforeProbeFails(probe: Option<string>, db: Oracle)
  {
    probe.Some? && db([], ScriptString(probe.value)).Failure?
  }

  /** How many forward scripts succeed, in order, after the "before" probe. */
  function Forwarded(queries: seq<string>, probe: Option<string>, db: Oracle): nat
  {
    Leading(db, ProbeCalls(probe), queries)
  }

  predicate ForwardCompletes(queries: seq<string>, probe: Option<string>, db: Oracle)
  {
    Forwarded(queries, probe, db) == |queries|
  }

  /** The history at the moment the "after" probe runs (only after a full forward pass). */
  function AfterProbeHistory(queries: seq<string>, probe: Option<string>): seq<DbCall>
  {
    ProbeCalls(probe) + Files(queries)
  }

  predicate AfterProbeFails(queries: seq<string>, probe: Option<string>, db: Oracle)
  {
    probe.Some? && ForwardCompletes(queries, probe, db)
    && db(AfterProbeHistory(queries, probe), ScriptString(probe.value)).Failure?
  }

  /** Compensation runs when a forward script fails or the "after" probe fails. */
  predicate Compensates(queries: seq<string>, probe: Option<string>, db: Oracle)
  {
    !ForwardCompletes(queries, probe, db) || AfterProbeFails(queries, probe, db)
  }

  /** The history at the moment compensation starts: it includes the failed call. */
  function CompensationHistory(queries: seq<string>, probe: Option<string>, db: Oracle): seq<DbCall>
  {
    var k := Forwarded(queries, probe, db);
    if k < |queries| then ProbeCalls(probe) + Files(queries[..k + 1])
    else AfterProbeHistory(queries, probe) + ProbeCalls(probe)
  }

  /** The rollbacks compensation runs, in the order it runs them. */
  function CompensationScripts(queries: seq<string>, probe: Option<string>, db: Oracle): (names: seq<string>)
    ensures |names| == Forwarded(queries, probe, db)
  {
    RollbackNames(Reverse(queries[..Forwarded(queries, probe, db)]))
  }

  /** How many of those rollbacks succeed before the first one that fails. */
  function Compensated(queries: seq<string>, probe: Option<string>, db: Oracle): nat
  {
    Leading(db, CompensationHistory(queries, probe, db), CompensationScripts(queries, probe, db))
  }

  /** What one run of `perform` amounts to: its result (the report, or the
      exception that escapes) and every database call it made, in order. */
  datatype Execution = Execution(result: Result<Report, PerformError>, calls: seq<DbCall>)

  /** The rows of the first `n` scripts of `paths`, all of which succeed. */
  function Outputs(db: Oracle, h: seq<DbCall>, paths: seq<string>, n: nat): seq<Rows>
    requires n <= Leading(db, h, paths)
  {
    seq(n, i requires 0 <= i < n => OutcomeAt(db, h, paths, i).rows)
  }

  /** The reference definition of `perform`, stated through the number of
      scripts that succeed before the first failure rather than through loops. */
  function Run(queries: seq<string>, rollbacks: seq<string>, probe: Option<string>, db: Oracle): Execution
  {
    var missing := FindMissingRollback(queries, rollbacks);
    if missing.Some? then Execution(Err(MissingRollback(missing.value)), [])
    else if BeforeProbeFails(probe, db) then Execution(Err(ProbeFailed), ProbeCalls(probe))
    else Proceed(queries, rollbacks, probe, db)
  }

  /** What `perform` does after the pairing check and a successful "before"
      probe: the try block, the catch block and the report. */
  function Proceed(queries: seq<string>, rollbacks: seq<string>, probe: Option<string>, db: Oracle): Execution
    requires !BeforeProbeFails(probe, db)
  {
    var beforeErrors := if probe.Some? then db([], ScriptString(probe.value)).rows else [];
    var k := Forwarded(queries, probe, db);
    var successOutputs := Outputs(db, ProbeCalls(probe), queries, k);
    if !Compensates(queries, probe, db) then
      var afterErrors :=
        if probe.Some? then db(AfterProbeHistory(queries, probe), ScriptString(probe.value)).rows else [];
      Execution(Ok(Report(queries, rollbacks, queries, [], successOutputs, [], beforeErrors, afterErrors)),
                AfterProbeHistory(queries, probe) + ProbeCalls(probe))
    else if queries == [] then
      Execution(Err(NullCurrentScript), CompensationHistory(queries, probe, db))
    else
      var history := CompensationHistory(queries, probe, db);
      var names := CompensationScripts(queries, probe, db);
      var m := Compensated(queries, probe, db);
      if m < k then
        Execution(Err(RollbackFailed(names[m])), history + Files(names[..m + 1]))
      else
        Execution(Ok(Report(queries, rollbacks, Reverse(queries[..k]), names, successOutputs,
                            Outputs(db, history, names, m), beforeErrors, [])),
                  history + Files(names))
  }

  /** The forward loop: runs `queries` in order after `history` and stops at
      the first script that fails; that script is not recorded as executed. */
  method ForwardPass(db: Oracle, history: seq<DbCall>, queries: seq<string>)
    returns (executed: seq<string>, outputs: seq<Rows>, calls: seq<DbCall>, failed: bool,
             currentScript: Option<string>)
    ensures |executed| == Leading(db, history, queries)
    ensures executed == queries[..|executed|]
    ensures failed <==> |executed| < |queries|
    ensures outputs == Outputs(db, history, queries, |executed|)
    ensures !failed ==> calls == history + Files(queries)
    ensures failed ==> calls == history + Files(queries[..|executed| + 1])
    // The last script the loop started, or none when there was no script.
    ensures currentScript ==
      if failed then Some(queries[|executed|])
      else if queries == [] then None
      else Some(queries[|queries| - 1])
  {
    executed, outputs, calls, failed, currentScript := [], [], history, false, None;
    var i := 0;
    while i < |queries|
      invariant 0 <= i <= |queries|
      invariant currentScript == if i == 0 then None else Some(queries[i - 1])
      invariant executed == queries[..i] && |outputs| == i
      invariant calls == history + Files(queries[..i])
      invariant forall j :: 0 <= j < i ==> OutcomeAt(db, history, queries, j) == Success(outputs[j])
    {
      currentScript := Some(queries[i]);
      var scriptOutput := db(calls, ScriptFile(queries[i]));
      FilesAppend(queries, i);
      calls := calls + [ScriptFile(queries[i])];
      if scriptOutput.Failure? {
        LeadingUnique(db, history, queries, i);
        assert outputs == Outputs(db, history, queries, i);
        failed := true;
        break;
      }
      executed := executed + [queries[i]];
      outputs := outputs + [scriptOutput.rows];
      i := i + 1;
    }
    if !failed {
      assert queries[..i] == queries;
      LeadingUnique(db, history, queries, i);
      assert outputs == Outputs(db, history, queries, i);
    }
  }

  /** The compensation loop: for each script of `executed` (already
      reversed), runs its rollback; the first rollback that fails stops the
      loop, and the ones after it are never attempted. */
  method Compensate(db: Oracle, history: seq<DbCall>, executed: seq<string>)
    returns (executedRollbacks: seq<string>, outputs: seq<Rows>, calls: seq<DbCall>, failed: bool)
    ensures |executedRollbacks| == Leading(db, history, RollbackNames(executed))
    ensures executedRollbacks == RollbackNames(executed)[..|executedRollbacks|]
    ensures failed <==> |executedRollbacks| < |executed|
    ensures outputs == Outputs(db, history, RollbackNames(executed), |executedRollbacks|)
    ensures !failed ==> calls == history + Files(RollbackNames(executed))
    ensures failed ==> calls == history + Files(RollbackNames(executed)[..|executedRollbacks| + 1])
  {
    ghost var names := RollbackNames(executed);
    executedRollbacks, outputs, calls, failed := [], [], history, false;
    var i := 0;
    while i < |executed|
      invariant 0 <= i <= |executed|
      invariant executedRollbacks == names[..i] && |outputs| == i
      invariant calls == history + Files(names[..i])
      invariant forall j :: 0 <= j < i ==> OutcomeAt(db, history, names, j) == Success(outputs[j])
    {
      var rollbackScript := RollbackName(executed[i]);
      var scriptOutput := db(calls, ScriptFile(rollbackScript));
      FilesAppend(names, i);
      calls := calls + [ScriptFile(rollbackScript)];
      if scriptOutput.Failure? {
        LeadingUnique(db, history, names, i);
        assert outputs == Outputs(db, history, names, i);
        failed := true;
        break;
      }
      outputs := outputs + [scriptOutput.rows];
      executedRollbacks := executedRollbacks + [rollbackScript];
      i := i + 1;
    }
    if !failed {
      assert names[..i] == names;
      LeadingUnique(db, history, names, i);
      assert outputs == Outputs(db, history, names, i);
    }
  }

  /** `perform`: checks the pairing, takes the optional "before" probe, runs
      the forward scripts, then either takes the "after" probe or compensates
      by running the rollbacks of the executed scripts in reverse order, and
      assembles the report. `calls` is every database call made, in order. */
  method Perform(queries: seq<string>, rollbacks: seq<string>, probe: Option<string>, db: Oracle)
    returns (result: Result<Report, PerformError>, calls: seq<DbCall>)
    ensures Execution(result, calls) == Run(queries, rollbacks, probe, db)
  {
    var missing := FindMissingRollback(queries, rollbacks);
    if missing.Some? {
      return Err(MissingRollback(missing.value)), [];
    }
    calls := [];
    var beforeErrors: Rows := [];
    if probe.Some? {
      var probeOutput := db(calls, ScriptString(probe.value));
      calls := calls + [ScriptString(probe.value)];
      if probeOutput.Failure? {
        return Err(ProbeFailed), calls;
      }
      beforeErrors := probeOutput.rows;
    }
    result, calls := ExecuteScripts(queries, rollbacks, probe, db, calls, beforeErrors);
  }

  /** The try block, the catch block and the report, once the pairing check
      and the "before" probe have passed. */
  method ExecuteScripts(queries: seq<string>, rollbacks: seq<string>, probe: Option<string>, db: Oracle,
                        history: seq<DbCall>, beforeErrors: Rows)
    returns (result: Result<Report, PerformError>, calls: seq<DbCall>)
    requires !BeforeProbeFails(probe, db) && history == ProbeCalls(probe)
    requires beforeErrors == if probe.Some? then db([], ScriptString(probe.value)).rows else []
    ensures Execution(result, calls) == Proceed(queries, rollbacks, probe, db)
  {
    var executedQueries, successOutputs, afterErrors, currentScript, failed;
    executedQueries, successOutputs, afterErrors, calls, currentScript, failed := TryBlock(db, probe, history, queries);
    ghost var k := Forwarded(queries, probe, db);
    assert executedQueries == queries[..k];
    assert failed <==> Compensates(queries, probe, db);
    var executedRollbacks: seq<string> := [];
    var errorOutputs: seq<Rows> := [];
    if failed {
      ghost var names := CompensationScripts(queries, probe, db);
      ghost var compensationHistory := CompensationHistory(queries, probe, db);
      assert calls == compensationHistory;
      assert names == RollbackNames(Reverse(executedQueries));
      var error;
      executedQueries, executedRollbacks, errorOutputs, calls, error :=
        CatchBlock(db, calls, currentScript, executedQueries);
      if error.Some? {
        return Err(error.value), calls;
      }
      assert Compensated(queries, probe, db) == k;
      assert executedRollbacks == names;
      assert calls == compensationHistory + Files(names);
      assert executedQueries == Reverse(queries[..k]);
      assert errorOutputs == Outputs(db, compensationHistory, names, Compensated(queries, probe, db));
    } else {
      assert calls == AfterProbeHistory(queries, probe) + ProbeCalls(probe);
      assert executedQueries == queries;
    }
    result := Ok(Report(queries, rollbacks, executedQueries, executedRollbacks,
                        successOutputs, errorOutputs, beforeErrors, afterErrors));
  }

  /** The try block: the forward loop, then the "after" probe when one is
      configured. The probe's failure counts as a failure of the block. */
  method TryBlock(db: Oracle, probe: Option<string>, history: seq<DbCall>, queries: seq<string>)
    returns (executed: seq<string>, outputs: seq<Rows>, afterErrors: Rows, calls: seq<DbCall>,
             currentScript: Option<string>, failed: bool)
    ensures executed == queries[..Leading(db, history, queries)]
    ensures outputs == Outputs(db, history, queries, |executed|)
    ensures failed <==>
      |executed| < |queries|
      || (probe.Some? && db(history + Files(queries), ScriptString(probe.value)).Failure?)
    ensures |executed| < |queries| ==> calls == history + Files(queries[..|executed| + 1])
    ensures |executed| == |queries| ==> calls == history + Files(queries) + ProbeCalls(probe)
    ensures afterErrors ==
      if !failed && probe.Some? then db(history + Files(queries), ScriptString(probe.value)).rows else []
    ensures currentScript.None? <==> queries == []
  {
    var forwardFailed;
    executed, outputs, calls, forwardFailed, currentScript := ForwardPass(db, history, queries);
    failed := forwardFailed;
    afterErrors := [];
    if !forwardFailed && probe.Some? {
      // The size comparison of the two snapshots only logs.
      var probeOutput := db(calls, ScriptString(probe.value));
      calls := calls + [ScriptString(probe.value)];
      if probeOutput.Failure? {
        failed := true;
      } else {
        afterErrors := probeOutput.rows;
      }
    }
  }

  /** The catch block: reverses the executed list in place and runs the
      rollback of each entry; a failing rollback escapes. The error message
      it builds first dereferences `currentScript`. */
  method CatchBlock(db: Oracle, history: seq<DbCall>, currentScript: Option<string>, executed: seq<string>)
    returns (reported: seq<string>, executedRollbacks: seq<string>, errorOutputs: seq<Rows>,
             calls: seq<DbCall>, error: Option<PerformError>)
    ensures currentScript.None? ==> error == Some(NullCurrentScript) && calls == history
    ensures currentScript.Some? ==> reported == Reverse(executed)
    ensures currentScript.Some? && Leading(db, history, RollbackNames(Reverse(executed))) < |executed| ==>
      var names := RollbackNames(Reverse(executed));
      var m := Leading(db, history, names);
      error == Some(RollbackFailed(names[m])) && calls == history + Files(names[..m + 1])
    ensures currentScript.Some? && Leading(db, history, RollbackNames(Reverse(executed))) == |executed| ==>
      var names := RollbackNames(Reverse(executed));
      && error.None?
      && executedRollbacks == names
      && errorOutputs == Outputs(db, history, names, |names|)
      && calls == history + Files(names)
  {
    reported, executedRollbacks, errorOutputs, calls, error := executed, [], [], history, None;
    if currentScript.None? {
      error := Some(NullCurrentScript);
      return;
    }
    if |executed| < 1 {
      // Rollback is not required: the first script failed.
      assert calls + Files(RollbackNames(Reverse(executed))) == calls;
    } else {
      reported := Reverse(executed);
      var failed;
      executedRollbacks, errorOutputs, calls, failed := Compensate(db, history, reported);
      if failed {
        error := Some(RollbackFailed(RollbackName(reported[|executedRollbacks|])));
      }
    }
  }
}
