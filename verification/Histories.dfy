/** Options and keyed logs shared by the models of the per-meeting queues. */
module Histories {
  datatype Option<+T> = None | Some(value: T)

  /** The values a log holds for one key, oldest first. */
  function Of<K(==), T>(log: seq<(K, T)>, key: K): seq<T> {
    if log == [] then []
    else
      var last := log[|log| - 1];
      Of(log[..|log| - 1], key) + (if last.0 == key then [last.1] else [])
  }

  lemma OfAppend<K, T>(log: seq<(K, T)>, entry: (K, T), key: K)
    ensures Of(log + [entry], key) == Of(log, key) + (if entry.0 == key then [entry.1] else [])
  {
    assert (log + [entry])[..|log|] == log;
  }

  ghost predicate NoDuplicates<T(!new)>(s: seq<T>) {
    forall i, j :: 0 <= i < j < |s| ==> s[i] != s[j]
  }

  /** A sequence without duplicates that stays inside a set is no longer than the set. */
  lemma {:induction false} DistinctFit<T(!new)>(s: seq<T>, all: set<T>)
    requires NoDuplicates(s)
    requires forall x :: x in s ==> x in all
    ensures |s| <= |all|
  {
    if s != [] {
      var rest := s[..|s| - 1];
      assert forall x :: x in rest ==> x in all - {s[|s| - 1]};
      DistinctFit(rest, all - {s[|s| - 1]});
    }
  }
}
