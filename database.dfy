/** The database as the engine sees it: an opaque executor of scripts.
    Which rows a call returns, and whether it fails, may depend on every
    call made before it, so the executor is a function of the call history. */
module Database {

  /** One row of tabular output; the engine never looks inside it. */
  datatype Row = Row(cells: seq<string>)

  type Rows = seq<Row>

  /** A request sent to the database: a script file named by its path
      (`executeSimpleScriptFile`) or inline SQL text (`executeSimpleScriptString`). */
  datatype DbCall = ScriptFile(path: string) | ScriptString(sql: string)

  /** What one call yields: its rows, or a failure (an exception in the driver). */
  datatype ExecResult = Success(rows: Rows) | Failure

  /** The outcome of `call` issued after the calls in the history. */
  type Oracle = (seq<DbCall>, DbCall) -> ExecResult

  /** The calls that run the given script files one after another. */
  function Files(paths: seq<string>): seq<DbCall>
  {
    seq(|paths|, i requires 0 <= i < |paths| => ScriptFile(paths[i]))
  }

  lemma FilesAppend(paths: seq<string>, i: nat)
    requires i < |paths|
    ensures Files(paths[..i + 1]) == Files(paths[..i]) + [ScriptFile(paths[i])]
  {
  }

  /** The outcome of script `i` when `paths` run in order after history `h`
      and every script before it has run. */
  function OutcomeAt(db: Oracle, h: seq<DbCall>, paths: seq<string>, i: nat): ExecResult
    requires i < |paths|
  {
    db(h + Files(paths[..i]), ScriptFile(paths[i]))
  }

  lemma OutcomeFirst(db: Oracle, h: seq<DbCall>, paths: seq<string>)
    requires 0 < |paths|
    ensures OutcomeAt(db, h, paths, 0) == db(h, ScriptFile(paths[0]))
  {
    assert Files(paths[..0]) == [];
    assert h + [] == h;
  }

  lemma OutcomeShift(db: Oracle, h: seq<DbCall>, paths: seq<string>, i: nat)
    requires 1 <= i < |paths|
    ensures OutcomeAt(db, h, paths, i) == OutcomeAt(db, h + [ScriptFile(paths[0])], paths[1..], i - 1)
  {
    assert paths[1..][..i - 1] == paths[1..i];
    assert h + Files(paths[..i]) == h + [ScriptFile(paths[0])] + Files(paths[1..][..i - 1]);
  }

  /** How many scripts of `paths`, run in order after history `h` and
      stopping at the first failure, succeed. */
  function Leading(db: Oracle, h: seq<DbCall>, paths: seq<string>): (k: nat)
    ensures k <= |paths|
    ensures forall i :: 0 <= i < k ==> OutcomeAt(db, h, paths, i).Success?
    ensures k < |paths| ==> OutcomeAt(db, h, paths, k).Failure?
    decreases |paths|
  {
    if paths == [] then 0
    else
      OutcomeFirst(db, h, paths);
      if db(h, ScriptFile(paths[0])).Failure? then 0
      else
        var rest := Leading(db, h + [ScriptFile(paths[0])], paths[1..]);
        assert forall i :: 1 <= i <= rest ==> OutcomeAt(db, h, paths, i).Success? by {
          forall i | 1 <= i <= rest {
            OutcomeShift(db, h, paths, i);
          }
        }
        assert rest + 1 < |paths| ==> OutcomeAt(db, h, paths, rest + 1).Failure? by {
          if rest + 1 < |paths| {
            OutcomeShift(db, h, paths, rest + 1);
          }
        }
        1 + rest
  }

  /** The count of leading successes is the only count that its
      characterisation allows. */
  lemma LeadingUnique(db: Oracle, h: seq<DbCall>, paths: seq<string>, k: nat)
    requires k <= |paths|
    requires forall i :: 0 <= i < k ==> OutcomeAt(db, h, paths, i).Success?
    requires k < |paths| ==> OutcomeAt(db, h, paths, k).Failure?
    ensures Leading(db, h, paths) == k
  {
  }
}
