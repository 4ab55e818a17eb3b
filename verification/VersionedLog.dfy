/** Append-only logs read by key: the newest row of each key, and versions that count a key's
    rows. Decisions, allocations and mappings are all kept this way. */
module VersionedLog {
  import opened Sums

  /** `latest[key] = row` over the rows in order: later rows overwrite earlier ones. */
  function Latest<T, K(==)>(log: seq<T>, key: T -> K): map<K, T> {
    if log == [] then map[]
    else
      var row := log[|log| - 1];
      Latest(log[..|log| - 1], key)[key(row) := row]
  }

  function Under<T, K(==)>(key: T -> K, k: K): T -> int {
    (row: T) => if key(row) == k then 1 else 0
  }

  /** Each key's rows are numbered 1, 2, 3 in the order they were appended. */
  ghost predicate Gapless<T, K>(log: seq<T>, key: T -> K, version: T -> int) {
    forall i :: 0 <= i < |log| ==> version(log[i]) == SumBy(log[..i], Under(key, key(log[i]))) + 1
  }

  function LastVersion<T, K(==)>(log: seq<T>, key: T -> K, version: T -> int, k: K): int {
    if k in Latest(log, key) then version(Latest(log, key)[k]) else 0
  }

  lemma LatestSnoc<T, K>(log: seq<T>, row: T, key: T -> K)
    ensures Latest(log + [row], key) == Latest(log, key)[key(row) := row]
  {
    assert (log + [row])[..|log|] == log;
  }

  lemma {:induction false} LatestComesFromLog<T, K(!new)>(log: seq<T>, key: T -> K)
    ensures forall k :: k in Latest(log, key) ==> Latest(log, key)[k] in log && key(Latest(log, key)[k]) == k
    decreases |log|
  {
    if log != [] {
      LatestComesFromLog(log[..|log| - 1], key);
      assert log == log[..|log| - 1] + [log[|log| - 1]];
    }
  }

  lemma {:induction false} LastVersionCounts<T, K>(log: seq<T>, key: T -> K, version: T -> int, k: K)
    requires Gapless(log, key, version)
    ensures LastVersion(log, key, version, k) == SumBy(log, Under(key, k))
    decreases |log|
  {
    if log != [] {
      var front, row := log[..|log| - 1], log[|log| - 1];
      GaplessPrefix(log, key, version, |front|);
      LastVersionCounts(front, key, version, k);
      assert version(row) == SumBy(front, Under(key, key(row))) + 1;
    }
  }

  lemma GaplessPrefix<T, K>(log: seq<T>, key: T -> K, version: T -> int, n: nat)
    requires n <= |log| && Gapless(log, key, version)
    ensures Gapless(log[..n], key, version)
  {
    forall i | 0 <= i < n ensures version(log[..n][i]) == SumBy(log[..n][..i], Under(key, key(log[..n][i]))) + 1 {
      assert log[..n][..i] == log[..i] && log[..n][i] == log[i];
    }
  }

  /** A row with the next version of its key keeps the numbering. */
  lemma GaplessSnoc<T, K>(log: seq<T>, row: T, key: T -> K, version: T -> int)
    requires Gapless(log, key, version) && version(row) == LastVersion(log, key, version, key(row)) + 1
    ensures Gapless(log + [row], key, version)
  {
    var more := log + [row];
    LastVersionCounts(log, key, version, key(row));
    forall i | 0 <= i < |more| ensures version(more[i]) == SumBy(more[..i], Under(key, key(more[i]))) + 1 {
      if i < |log| {
        assert more[..i] == log[..i] && more[i] == log[i];
      } else {
        assert more[..i] == log;
      }
    }
  }

  /** One ordered pass; the last row under a key wins. */
  method LatestBy<T, K(==)>(log: seq<T>, key: T -> K) returns (latest: map<K, T>)
    ensures latest == Latest(log, key)
  {
    latest := map[];
    var i := 0;
    while i < |log|
      invariant 0 <= i <= |log| && latest == Latest(log[..i], key)
    {
      assert log[..i + 1] == log[..i] + [log[i]];
      LatestSnoc(log[..i], log[i], key);
      latest := latest[key(log[i]) := log[i]];
      i := i + 1;
    }
    assert log[..i] == log;
  }
}
