/** Naming and pairing of forward and rollback scripts, and the list
    reversal the engine applies before compensating. */
module Scripts {
  import opened Wrappers

  /** The suffix that turns a forward script's path into its rollback's path. */
  const RollbackSuffix: string := ".rollback"

  function RollbackName(script: string): string
  {
    script + RollbackSuffix
  }

  /** The rollback path of each script, in the same order. */
  function RollbackNames(scripts: seq<string>): seq<string>
  {
    seq(|scripts|, i requires 0 <= i < |scripts| => RollbackName(scripts[i]))
  }

  /** Every forward script has its rollback among the discovered rollbacks. */
  predicate Paired(queries: seq<string>, rollbacks: seq<string>)
  {
    forall i :: 0 <= i < |queries| ==> RollbackName(queries[i]) in rollbacks
  }

  /** The pairing check: the first forward script whose rollback was not
      discovered, if there is one. */
  function FindMissingRollback(queries: seq<string>, rollbacks: seq<string>): (missing: Option<string>)
    ensures missing.None? <==> Paired(queries, rollbacks)
    ensures missing.Some? ==> missing.value in queries && RollbackName(missing.value) !in rollbacks
  {
    if queries == [] then None
    else if RollbackName(queries[0]) !in rollbacks then Some(queries[0])
    else
      var missing := FindMissingRollback(queries[1..], rollbacks);
      assert forall i :: 1 <= i < |queries| ==> queries[i] == queries[1..][i - 1];
      missing
  }

  /** The elements of `s` in the opposite order. */
  function Reverse<T>(s: seq<T>): (r: seq<T>)
    ensures |r| == |s|
  {
    if s == [] then [] else [s[|s| - 1]] + Reverse(s[..|s| - 1])
  }

  /** Position `j` of the reversal holds the element `j` places from the end. */
  lemma {:induction false} ReverseAt<T>(s: seq<T>, j: nat)
    requires j < |s|
    ensures |Reverse(s)| == |s|
    ensures Reverse(s)[j] == s[|s| - 1 - j]
  {
    if j > 0 {
      ReverseAt(s[..|s| - 1], j - 1);
    }
  }
}
