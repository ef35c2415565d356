/** Concrete runs of `perform` on the four-script directory the engine's
    integration tests use, against a database whose behaviour is fixed. */
module Scenarios {
  import opened Wrappers
  import opened Database
  import opened Scripts
  import opened Engine
  import opened Properties

  const Table1: string := "001.table1.sql"
  const Table2: string := "002.table2.sql"
  const View1: string := "003.view1.sql"
  const View2: string := "004.view2.sql"

  function Scripts4(): seq<string>
  {
    [Table1, Table2, View1, View2]
  }

  function Rollbacks4(): seq<string>
  {
    [Table1 + ".rollback", Table2 + ".rollback", View1 + ".rollback", View2 + ".rollback"]
  }

  lemma Scripts4Paired()
    ensures Paired(Scripts4(), Rollbacks4())
  {
    var q, r := Scripts4(), Rollbacks4();
    forall i | 0 <= i < |q|
      ensures RollbackName(q[i]) in r
    {
      assert RollbackName(q[i]) == r[i];
    }
  }

  /** Every script succeeds: all four run in directory order and nothing is
      rolled back. */
  method AllFourSucceed() returns (result: Result<Report, PerformError>, calls: seq<DbCall>)
    ensures result.Ok?
    ensures result.value.executedQueryScripts == [Table1, Table2, View1, View2]
    ensures result.value.executedRollbackScripts == []
    ensures calls == [ScriptFile(Table1), ScriptFile(Table2), ScriptFile(View1), ScriptFile(View2)]
  {
    var db: Oracle := (h, c) => Success([]);
    Scripts4Paired();
    result, calls := Perform(Scripts4(), Rollbacks4(), None, db);
    AllScriptsSucceed(Scripts4(), Rollbacks4(), None, db);
  }

  /** No rollback script was discovered: the run is refused before any
      database call. */
  method RollbacksMissing() returns (result: Result<Report, PerformError>, calls: seq<DbCall>)
    ensures result.Err? && result.error.MissingRollback?
    ensures calls == []
  {
    var db: Oracle := (h, c) => Success([]);
    result, calls := Perform(Scripts4(), [], None, db);
    assert !Paired(Scripts4(), []) by {
      assert RollbackName(Scripts4()[0]) !in [];
    }
    PairingPrecedesExecution(Scripts4(), [], None, db);
  }

  /** The third script fails: the first two ran and are rolled back, the
      second first; the failure itself is swallowed and the report lists the
      executed scripts reversed. */
  method ThirdScriptFails() returns (result: Result<Report, PerformError>, calls: seq<DbCall>)
    ensures result.Ok?
    ensures result.value.executedQueryScripts == [Table2, Table1]
    ensures result.value.executedRollbackScripts == [Table2 + ".rollback", Table1 + ".rollback"]
    ensures calls == [ScriptFile(Table1), ScriptFile(Table2), ScriptFile(View1),
                      ScriptFile(Table2 + ".rollback"), ScriptFile(Table1 + ".rollback")]
  {
    var db: Oracle := (h, c) => if c == ScriptFile(View1) then Failure else Success([]);
    Scripts4Paired();
    result, calls := Perform(Scripts4(), Rollbacks4(), None, db);
    ForwardFailureAt(Scripts4(), Rollbacks4(), None, db, 2);
    CompensationInReverseOrder(Scripts4(), Rollbacks4(), None, db);
  }

  /** The third script fails and so does the second script's rollback: the
      failure escapes and the first script's rollback never runs, so both
      tables stay in the database. */
  method SecondRollbackFails() returns (result: Result<Report, PerformError>, calls: seq<DbCall>)
    ensures result == Err(RollbackFailed(Table2 + ".rollback"))
    ensures calls == [ScriptFile(Table1), ScriptFile(Table2), ScriptFile(View1), ScriptFile(Table2 + ".rollback")]
  {
    var db: Oracle := (h, c) =>
      if c == ScriptFile(View1) || c == ScriptFile(Table2 + ".rollback") then Failure else Success([]);
    Scripts4Paired();
    result, calls := Perform(Scripts4(), Rollbacks4(), None, db);
    ForwardFailureAt(Scripts4(), Rollbacks4(), None, db, 2);
    RollbackFailureEscapes(Scripts4(), Rollbacks4(), None, db);
  }
}
