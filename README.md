# dbvops apply/compensate engine in Dafny

dbvops runs a folder of SQL scripts against a relational database as one
logical change set. Every forward script `X.sql` must have a paired rollback
`X.sql.rollback`. `perform` of the command entry point works in these steps:

1. It refuses to run when a pairing is missing.
2. When the engine has an error-probe query configured, it takes a "before"
   snapshot.
3. It runs the forward scripts in list order.
4. If a forward script fails, or the "after" probe fails, it compensates. It
   reverses the list of executed scripts in place and runs the rollback of
   each one.
5. It returns an execution report.

This model covers `perform` from the pairing check up to the returned report.

The database is a parameter, an *oracle* of type `Database.Oracle`. It maps
the history of calls made so far, plus the next call, to `Success(rows)` or
`Failure`. A failure stands for an exception thrown by the JDBC helper.
Because the oracle sees the history, a script can behave differently after
earlier scripts have run. For the same reason, the "before" and "after"
probes can return different rows.

Each run is described as an `Execution`. This holds the outcome and the
ordered list of every database call made:

- The outcome is either the `Report` or the `PerformError` exception that
  escapes `perform`.
- The list of calls lets "nothing ran", "ran in this order" and "was never
  attempted" be stated directly.

Modules:

- `Wrappers`: `Option` and `Result`.
- `Database`: calls, outcomes and the oracle. `Leading` is the number of
  scripts that succeed before the first failure. It is the reference
  definition of both loops.
- `Scripts`: rollback names, the pairing check and list reversal.
- `Engine`: `Run`, the reference definition of `perform`, and the imperative
  model. The imperative part is made of `Perform`, `ExecuteScripts`,
  `TryBlock`, `CatchBlock`, `ForwardPass` and `Compensate`. Their loops mirror
  the Java loops, and `Perform` is proved to compute exactly `Run`.
- `Properties`: what `perform` guarantees, proved about `Run`.
- `Scenarios`: concrete runs on the four-script folder used by the SQLite
  integration tests, each proved.

Three behaviours of `perform` are easy to misread. The model follows the
code in each:

- A failing forward script is caught and swallowed. `perform` still returns
  a report after the rollbacks succeed.
- A failing rollback is not caught. It escapes `perform`, and the rollbacks
  that were still due are never attempted.
- `Collections.reverse` reverses `executedQueries` in place. The report's
  executed list is therefore in reverse order whenever compensation ran,
  including an after-probe failure that triggers compensation. The
  `successOutputs` list is not reversed, so after compensation it runs in
  the opposite order to the executed list beside it.

There are two more points where the code's behaviour matters:

- The "before" probe runs outside the `try` block, so its failure escapes
  before any script runs.
- The "after" probe runs inside the `try` block, so its failure triggers
  compensation of every forward script.

Also, `SqliteTest.tablesShouldExistIfRollbackFails` calls `perform` without
catching an exception. It exercises the older `DatabaseOps` class. Under the
entry point modelled here, that run ends with the rollback failure escaping
(`Scenarios.SecondRollbackFails`).

## Model

| member | source | states |
|---|---|---|
| Engine.Perform | src/main/java/org/usil/oss/devops/databaseops/DbvopsCmdEntrypoint.java:52-133 | the outcome and the exact sequence of database calls of `perform` equal the reference definition `Run`: the pairing check, then the optional "before" probe, then the try and catch blocks, then the report |
| Engine.ExecuteScripts | src/main/java/org/usil/oss/devops/databaseops/DbvopsCmdEntrypoint.java:72-133 | once pairing and the "before" probe pass, the try block, the catch block and the assembled report equal `Proceed`: a report, or the rollback failure or null-`currentScript` exception that escapes |
| Engine.TryBlock | src/main/java/org/usil/oss/devops/databaseops/DbvopsCmdEntrypoint.java:75-94 | the executed prefix is exactly the scripts before the first failure; the block fails iff a forward script fails or the "after" probe, run only after a full pass, fails; the "after" snapshot is recorded only on success; `currentScript` is unset iff there were no scripts |
| Engine.ForwardPass | src/main/java/org/usil/oss/devops/databaseops/DbvopsCmdEntrypoint.java:76-85 | the scripts run in list order; the executed list is the prefix before the first failing script, which is attempted but not recorded; one output per executed script, the oracle's rows for it; later scripts are never called; `currentScript` is the last script started |
| Engine.CatchBlock | src/main/java/org/usil/oss/devops/databaseops/DbvopsCmdEntrypoint.java:95-120 | with no `currentScript` the message construction throws before any rollback; otherwise the executed list is reversed, and either every rollback runs and succeeds (outputs recorded), or the first failing rollback escapes after exactly the rollbacks before it plus itself were called |
| Engine.Compensate | src/main/java/org/usil/oss/devops/databaseops/DbvopsCmdEntrypoint.java:111-118 | the rollback `X.rollback` of each entry runs in the (reversed) list order; the recorded rollbacks are the prefix before the first failure; the call stops there and no later rollback is attempted |
| Engine.CompensationScripts | src/main/java/org/usil/oss/devops/databaseops/DbvopsCmdEntrypoint.java:109-113 | there is exactly one compensation rollback per forward script that succeeded |
| Database.Leading | src/main/java/org/usil/oss/devops/databaseops/DbvopsCmdEntrypoint.java:76-85 | the number of scripts run before the loop stops: all scripts before it succeed, and when it is short of the whole list the script at that position fails |
| Database.LeadingUnique | src/main/java/org/usil/oss/devops/databaseops/DbvopsCmdEntrypoint.java:76-85 | the stopping position of the loop is determined uniquely by "all before succeed and this one fails, or the list is exhausted" |
| Scripts.FindMissingRollback | src/main/java/org/usil/oss/devops/databaseops/DbvopsCmdEntrypoint.java:52 | no script is reported iff every forward script has its `.rollback` among the discovered rollbacks; a reported script is a forward script whose rollback is missing |
| Scripts.Reverse | src/main/java/org/usil/oss/devops/databaseops/DbvopsCmdEntrypoint.java:109 | reversal keeps the length of the list |
| Scripts.ReverseAt | src/main/java/org/usil/oss/devops/databaseops/DbvopsCmdEntrypoint.java:109 | position `j` of the reversed list holds the element `j` places from the end |
| Properties.CompensationScriptAt | src/main/java/org/usil/oss/devops/databaseops/DbvopsCmdEntrypoint.java:109-117 | the `j`-th rollback run is the rollback of the forward script `j` places before the last executed one |
| Properties.PairingPrecedesExecution | src/main/java/org/usil/oss/devops/databaseops/DbvopsCmdEntrypoint.java:52-65 | the run is refused with a missing-rollback error iff some forward script is unpaired; the error names such a script, and then no database call at all is made |
| Properties.AllScriptsSucceed | src/main/java/org/usil/oss/devops/databaseops/DbvopsCmdEntrypoint.java:76-94 | when every forward script and the "after" probe succeed, the report lists all scripts in order, each script's rows, no rollbacks and the "after" snapshot, and the calls are the probe, the scripts once each in order, then the probe |
| Properties.ForwardFailureAt | src/main/java/org/usil/oss/devops/databaseops/DbvopsCmdEntrypoint.java:76-118 | when script `k` is the first to fail, the scripts before it run in order, `k` is attempted, no later forward script runs, and every later call (at most `k` of them) is a rollback of an executed script, latest first |
| Properties.ForwardFailureReport | src/main/java/org/usil/oss/devops/databaseops/DbvopsCmdEntrypoint.java:83-109 | when script `k` is the first to fail and a report is returned, it lists the executed scripts reversed, their `successOutputs` still in forward order (entry `i` is the rows of `queries[i]`), and an empty "after" snapshot |
| Properties.RunCompensating | src/main/java/org/usil/oss/devops/databaseops/DbvopsCmdEntrypoint.java:95-133 | a compensating run either throws on the null `currentScript` (no scripts) after no further call, or ends with the first failing rollback's error right after calling it, or, when every rollback succeeds, returns the report with the reversed executed list, the rollbacks run, both outputs lists and an empty "after" snapshot |
| Properties.RunCompletes | src/main/java/org/usil/oss/devops/databaseops/DbvopsCmdEntrypoint.java:76-133 | a run that does not compensate calls the probe, every script once in order, then the probe, and returns a report with the scripts in order, their outputs, no rollbacks and the "after" snapshot |
| Properties.FirstScriptFails | src/main/java/org/usil/oss/devops/databaseops/DbvopsCmdEntrypoint.java:106-107 | when the first script fails, no rollback is attempted and the report shows nothing executed |
| Properties.CompensationInReverseOrder | src/main/java/org/usil/oss/devops/databaseops/DbvopsCmdEntrypoint.java:95-133 | when compensation runs and every rollback succeeds, the failure is swallowed; the report's rollback list is `queries[k-1]+".rollback"` down to `queries[0]+".rollback"`, its executed list is reversed too, while `successOutputs[i]` still holds the rows of `queries[i]` (forward order); `errorOutputs[j]` holds the rows of the `j`-th rollback run; the discovered lists are unchanged |
| Properties.RollbackFailureEscapes | src/main/java/org/usil/oss/devops/databaseops/DbvopsCmdEntrypoint.java:111-118 | a failing rollback ends `perform` with that rollback's error; calls stop right after it, and the rollbacks of earlier forward scripts are never attempted |
| Properties.NoProbeNoSnapshots | src/main/java/org/usil/oss/devops/databaseops/DbvopsCmdEntrypoint.java:61-70 | with no probe configured, only script files reach the database and both snapshots are empty |
| Properties.AfterProbeOnlyAfterFullPass | src/main/java/org/usil/oss/devops/databaseops/DbvopsCmdEntrypoint.java:86-94 | when a forward script fails, the only probe call is the "before" one at the start, and the "after" snapshot is empty |
| Properties.AfterProbeFailureCompensatesAll | src/main/java/org/usil/oss/devops/databaseops/DbvopsCmdEntrypoint.java:86-120 | a failing "after" probe compensates every forward script, latest first; the report lists the scripts reversed and has an empty "after" snapshot |
| Properties.CompensationScriptsDiscovered | src/main/java/org/usil/oss/devops/databaseops/DbvopsCmdEntrypoint.java:52 | with pairing established, every rollback compensation would run is a discovered rollback file |
| Properties.ExecutedRollbacksDiscovered | src/main/java/org/usil/oss/devops/databaseops/DbvopsCmdEntrypoint.java:111-117 | every rollback a returned report lists is a discovered rollback file |
| Properties.AllCallsDiscovered | src/main/java/org/usil/oss/devops/databaseops/DbvopsCmdEntrypoint.java:61-118 | every database call is a discovered forward or rollback script, or the configured probe query |
| Scenarios.AllFourSucceed | src/test/java/real/databases/SqliteTest.java:91-131 | four succeeding scripts run as 001, 002, 003, 004, and nothing is rolled back |
| Scenarios.RollbacksMissing | src/test/java/real/databases/SqliteTest.java:134-164 | with no rollback files the run fails with a missing-rollback error and makes no database call |
| Scenarios.ThirdScriptFails | src/test/java/real/databases/SqliteTest.java:167-209 | when 003 fails, 002's and then 001's rollbacks run; a report is returned whose executed list is [002, 001] |
| Scenarios.SecondRollbackFails | src/test/java/real/databases/SqliteTest.java:212-255 | when 003 and 002's rollback fail, the rollback failure escapes and 001's rollback is never called |

## Left out

- Command-line parsing (`DbvopsCmdEntrypoint.java:26-42`, `136-144`): the
  model takes the parsed values directly. The connection parameters (engine,
  host, port, name, user, password) are folded into the oracle.
- Script discovery: `FileHelper.readFilesAtRoot` and its ordering are not
  part of this model. The discovered forward and rollback lists are inputs.
- The source of `FileHelper.detectRequiredPairs` is not available. The model
  checks that every forward script `q` has `q + ".rollback"` among the
  discovered rollbacks and reports the first one that does not. The
  exception's message is left out.
- The engine's probe-query lookup (`ClassPathProperties`,
  `getFileAsStringFromClasspath`) is an optional probe text given as an input.
  A failure to read that file is left out, and so is the double lookup of the
  same key at lines 61 and 86.
- Logging, verbose mode and ASCII table rendering are left out. The
  after-versus-before size comparison at line 90 only logs, so it has no
  effect on the model.
- Row contents are uninterpreted (`Row` is a list of cells), and so are the
  exception kinds: every database exception is one `Failure`.
- `Engine.CatchBlock`: `Collections.reverse` on the shared `ArrayList` is
  modelled as reassigning a sequence. The aliasing between the reversed list
  and the report's executed list is captured only by returning the reversed
  sequence as the report's list.
- The JDBC connection lifecycle, concurrency and the process exit code are
  left out.
