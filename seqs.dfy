/** Sequence helpers for the two player containers (the bench and the court). */
module Seqs {

  /** No element occurs twice. */
  predicate NoDup(s: seq<string>) {
    forall i, j :: 0 <= i < j < |s| ==> s[i] != s[j]
  }

  /** `s` with every occurrence of `p` taken out, the rest in their order; this is what
      `appendChild` does to the container an element leaves. */
  function Without(s: seq<string>, p: string): (r: seq<string>)
    ensures forall x :: x in r <==> x in s && x != p
    ensures |r| <= |s|
  {
    if s == [] then []
    else
      var init := Without(s[..|s| - 1], p);
      assert s == s[..|s| - 1] + [s[|s| - 1]];
      if s[|s| - 1] == p then init else init + [s[|s| - 1]]
  }

  /** Taking out an element that is absent changes nothing. */
  lemma {:induction false} WithoutAbsent(s: seq<string>, p: string)
    requires p !in s
    ensures Without(s, p) == s
  {
    if s != [] {
      assert s == s[..|s| - 1] + [s[|s| - 1]];
      WithoutAbsent(s[..|s| - 1], p);
    }
  }

  /** Taking one present element out of a duplicate-free sequence shortens it by exactly one
      and keeps it duplicate-free. */
  lemma {:induction false} WithoutPresent(s: seq<string>, p: string)
    requires NoDup(s) && p in s
    ensures |Without(s, p)| == |s| - 1
    ensures NoDup(Without(s, p))
  {
    var init, last := s[..|s| - 1], s[|s| - 1];
    assert s == init + [last];
    assert NoDup(init);
    if last == p {
      assert p !in init;
      WithoutAbsent(init, p);
    } else {
      WithoutPresent(init, p);
      var w := Without(init, p);
      assert last !in init;
      assert last !in w;
      assert Without(s, p) == w + [last];
    }
  }

  /** Appending an absent element keeps a sequence duplicate-free. */
  lemma AppendNoDup(s: seq<string>, x: string)
    requires NoDup(s) && x !in s
    ensures NoDup(s + [x])
  {
  }

  /** `court` and `bench` split `names` between them: each name is in exactly one, once. */
  ghost predicate Partition(names: seq<string>, court: seq<string>, bench: seq<string>) {
    NoDup(court) && NoDup(bench)
    && (forall n :: n in court ==> n !in bench)
    && (forall n :: n in names <==> n in court || n in bench)
  }

  /** Moving a bench player to the end of the court keeps the split. */
  lemma PartitionToCourt(names: seq<string>, court: seq<string>, bench: seq<string>, p: string)
    requires Partition(names, court, bench) && p in bench
    ensures Partition(names, court + [p], Without(bench, p))
  {
    WithoutPresent(bench, p);
    assert p !in court;
    AppendNoDup(court, p);
  }

  /** Moving a court player to the end of the bench keeps the split. */
  lemma PartitionToBench(names: seq<string>, court: seq<string>, bench: seq<string>, p: string)
    requires Partition(names, court, bench) && p in court
    ensures Partition(names, Without(court, p), bench + [p])
  {
    WithoutPresent(court, p);
    assert p !in bench;
    AppendNoDup(bench, p);
  }
}
