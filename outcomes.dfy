/**
 * What one model export reports, and how the reports are split into the
 * manifest's `ok_models` and `failed_models` lists (lines 41-45 of
 * mlflow_export_import/bulk/export_models.py).
 */
module Outcomes {

  /** The `(success, name)` pair returned by `ModelExporter.export_model`. */
  type Outcome = (bool, string)

  /** The names of the successful exports, in submission order. */
  function OkNames(results: seq<Outcome>): (ok: seq<string>)
    ensures |ok| <= |results|
  {
    if results == [] then []
    else
      var last := results[|results| - 1];
      OkNames(results[..|results| - 1]) + (if last.0 then [last.1] else [])
  }

  /** The names of the failed exports, in submission order. */
  function FailedNames(results: seq<Outcome>): (failed: seq<string>)
    ensures |failed| <= |results|
  {
    if results == [] then []
    else
      var last := results[|results| - 1];
      FailedNames(results[..|results| - 1]) + (if last.0 then [] else [last.1])
  }

  /** Every reported name, in submission order. */
  function Names(results: seq<Outcome>): (names: seq<string>)
    ensures |names| == |results|
    ensures forall i :: 0 <= i < |results| ==> names[i] == results[i].1
  {
    if results == [] then [] else Names(results[..|results| - 1]) + [results[|results| - 1].1]
  }

  /**
   * Results that report the same name agree on its success flag (as when a
   * name is submitted twice to a deterministic exporter).
   */
  predicate SameNameSameFlag(results: seq<Outcome>) {
    forall i, j :: 0 <= i < |results| && 0 <= j < |results| && results[i].1 == results[j].1 ==> results[i].0 == results[j].0
  }

  /** Every result is counted once: the two lists together are as long as the results. */
  lemma {:induction false} PartitionCounts(results: seq<Outcome>)
    ensures |OkNames(results)| + |FailedNames(results)| == |results|
  {
    if results != [] {
      PartitionCounts(results[..|results| - 1]);
    }
  }

  /** Together the two lists hold every reported name, as often as it was reported. */
  lemma {:induction false} PartitionMultiset(results: seq<Outcome>)
    ensures multiset(OkNames(results)) + multiset(FailedNames(results)) == multiset(Names(results))
  {
    if results != [] {
      var init, last := results[..|results| - 1], results[|results| - 1];
      PartitionMultiset(init);
      if last.0 {
        assert OkNames(results) == OkNames(init) + [last.1];
        assert FailedNames(results) == FailedNames(init);
      } else {
        assert OkNames(results) == OkNames(init);
        assert FailedNames(results) == FailedNames(init) + [last.1];
      }
      assert Names(results) == Names(init) + [last.1];
    }
  }

  /** `ok_models`, counted with repeats, holds exactly the names of the successful results. */
  lemma {:induction false} OkNamesCounts(results: seq<Outcome>)
    ensures forall x :: multiset(OkNames(results))[x] == multiset(results)[(true, x)]
  {
    if results != [] {
      var init, last := results[..|results| - 1], results[|results| - 1];
      OkNamesCounts(init);
      assert results == init + [last];
      assert multiset(results) == multiset(init) + multiset{last};
    }
  }

  /** `failed_models`, counted with repeats, holds exactly the names of the failed results. */
  lemma {:induction false} FailedNamesCounts(results: seq<Outcome>)
    ensures forall x :: multiset(FailedNames(results))[x] == multiset(results)[(false, x)]
  {
    if results != [] {
      var init, last := results[..|results| - 1], results[|results| - 1];
      FailedNamesCounts(init);
      assert results == init + [last];
      assert multiset(results) == multiset(init) + multiset{last};
    }
  }

  /** Some result reports `name` with the given success flag. */
  predicate Reported(results: seq<Outcome>, success: bool, name: string) {
    exists j :: 0 <= j < |results| && results[j].0 == success && results[j].1 == name
  }

  /** A name is in `ok_models` exactly when some result reports it as a success, and likewise for failures. */
  lemma {:induction false} PartitionMembership(results: seq<Outcome>)
    ensures forall x :: x in OkNames(results) <==> Reported(results, true, x)
    ensures forall x :: x in FailedNames(results) <==> Reported(results, false, x)
  {
    if results != [] {
      var n := |results| - 1;
      var init := results[..n];
      PartitionMembership(init);
      forall success: bool, x | Reported(results, success, x)
        ensures Reported(init, success, x) || results[n] == (success, x)
      {
        var j :| 0 <= j < |results| && results[j].0 == success && results[j].1 == x;
        if j < n {
          assert init[j] == results[j];
        }
      }
      forall success: bool, x | Reported(init, success, x)
        ensures Reported(results, success, x)
      {
        var j :| 0 <= j < |init| && init[j].0 == success && init[j].1 == x;
        assert results[j] == init[j];
      }
    }
  }

  /**
   * When results that share a name share its flag, each result lands in exactly one
   * list: in `ok_models` if and only if it succeeded, otherwise in
   * `failed_models`.
   */
  lemma PartitionExactlyOnce(results: seq<Outcome>)
    requires SameNameSameFlag(results)
    ensures forall i :: 0 <= i < |results| ==>
              (results[i].1 in OkNames(results) <==> results[i].0) &&
              (results[i].1 in FailedNames(results) <==> !results[i].0)
  {
    forall i | 0 <= i < |results|
      ensures results[i].1 in OkNames(results) <==> results[i].0
      ensures results[i].1 in FailedNames(results) <==> !results[i].0
    {
      ExactlyOnceAt(results, i);
    }
  }

  lemma ExactlyOnceAt(results: seq<Outcome>, i: nat)
    requires SameNameSameFlag(results) && i < |results|
    ensures results[i].1 in OkNames(results) <==> results[i].0
    ensures results[i].1 in FailedNames(results) <==> !results[i].0
  {
    var x := results[i].1;
    PartitionMembership(results);
    assert Reported(results, results[i].0, x);
    if x in OkNames(results) {
      OnlyReport(results, i, true);
    }
    if x in FailedNames(results) {
      OnlyReport(results, i, false);
    }
  }

  /** When names determine flags, any report of `results[i].1` carries the flag of `results[i]`. */
  lemma OnlyReport(results: seq<Outcome>, i: nat, success: bool)
    requires SameNameSameFlag(results)
    requires i < |results| && Reported(results, success, results[i].1)
    ensures results[i].0 == success
  {
    var j :| 0 <= j < |results| && results[j].0 == success && results[j].1 == results[i].1;
    assert results[j].0 == results[i].0;
  }

  /** Both lists keep submission order: the partition of a concatenation is the concatenation of the partitions. */
  lemma {:induction false} PartitionConcat(a: seq<Outcome>, b: seq<Outcome>)
    ensures OkNames(a + b) == OkNames(a) + OkNames(b)
    ensures FailedNames(a + b) == FailedNames(a) + FailedNames(b)
  {
    if b == [] {
      assert a + b == a;
    } else {
      var initB := b[..|b| - 1];
      PartitionConcat(a, initB);
      assert (a + b)[..|a + b| - 1] == a + initB;
      assert (a + b)[|a + b| - 1] == b[|b| - 1];
    }
  }
}
