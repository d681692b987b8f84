/** The list transforms the sources apply to usernames and keys: `funk.Uniq`
    (de-duplication keeping the first occurrence) and the exclusion filter. */
module Seqs {

  predicate NoDups<T(==)>(s: seq<T>)
  {
    forall i, j :: 0 <= i < j < |s| ==> s[i] != s[j]
  }

  /** Position of the first occurrence of `x` in `s`. */
  function FirstIndex<T(==)>(s: seq<T>, x: T): (i: nat)
    requires x in s
    ensures i < |s| && s[i] == x
    ensures forall j :: 0 <= j < i ==> s[j] != x
  {
    if s[0] == x then 0 else 1 + FirstIndex(s[1..], x)
  }

  /** `r` holds elements of `s` listed in the order in which they first appear in `s`. */
  ghost predicate InFirstSeenOrder<T>(r: seq<T>, s: seq<T>)
  {
    && (forall i :: 0 <= i < |r| ==> r[i] in s)
    && (forall i, j :: 0 <= i < j < |r| ==> FirstIndex(s, r[i]) < FirstIndex(s, r[j]))
  }

  /** `funk.Uniq`: walks the list front to back and keeps an element only the first
      time it is seen. */
  function Dedup<T(==, !new)>(s: seq<T>): (r: seq<T>)
    ensures NoDups(r)
    ensures forall x :: x in r <==> x in s
    ensures |r| <= |s|
  {
    if s == [] then []
    else
      var p := Dedup(s[..|s| - 1]);
      var x := s[|s| - 1];
      assert s == s[..|s| - 1] + [x];
      if x in p then p else p + [x]
  }

  /** The exclusion filter: keeps, in order, the elements of `s` that are not in `ex`. */
  function Without<T(==, !new)>(s: seq<T>, ex: seq<T>): (r: seq<T>)
    ensures forall x :: x in r <==> x in s && x !in ex
    ensures |r| <= |s|
  {
    if s == [] then []
    else
      var p := Without(s[..|s| - 1], ex);
      var x := s[|s| - 1];
      assert s == s[..|s| - 1] + [x];
      if x in ex then p else p + [x]
  }

  lemma {:induction false} FirstIndexInPrefix<T(!new)>(s: seq<T>, t: seq<T>, x: T)
    requires x in s
    ensures FirstIndex(s + t, x) == FirstIndex(s, x)
  {
    if s[0] != x {
      assert (s + t)[1..] == s[1..] + t;
      FirstIndexInPrefix(s[1..], t, x);
    }
  }

  /** De-duplication keeps first-seen order. */
  lemma {:induction false} DedupFirstSeen<T(!new)>(s: seq<T>)
    ensures InFirstSeenOrder(Dedup(s), s)
  {
    if s != [] {
      var s', x := s[..|s| - 1], s[|s| - 1];
      assert s == s' + [x];
      DedupFirstSeen(s');
      var p := Dedup(s');
      forall y | y in s' ensures FirstIndex(s, y) == FirstIndex(s', y) {
        FirstIndexInPrefix(s', [x], y);
      }
      if x !in p {
        assert x !in s';
        assert FirstIndex(s, x) == |s'| by {
          assert s[|s'|] == x;
          forall j | 0 <= j < |s'| ensures s[j] != x {
            assert s[j] == s'[j];
          }
        }
        forall i | 0 <= i < |p| ensures FirstIndex(s, p[i]) < |s'| {
          assert p[i] in s';
        }
      }
    }
  }

  /** Filtering a list that is in first-seen order leaves it in first-seen order. */
  lemma {:induction false} WithoutKeepsOrder<T(!new)>(r: seq<T>, s: seq<T>, ex: seq<T>)
    requires InFirstSeenOrder(r, s)
    ensures InFirstSeenOrder(Without(r, ex), s)
  {
    if r != [] {
      var r', x := r[..|r| - 1], r[|r| - 1];
      assert InFirstSeenOrder(r', s);
      WithoutKeepsOrder(r', s, ex);
      var p := Without(r', ex);
      if x !in ex {
        forall i | 0 <= i < |p| ensures FirstIndex(s, p[i]) < FirstIndex(s, x) {
          assert p[i] in r';
          var k :| 0 <= k < |r'| && r'[k] == p[i];
          assert r[k] == p[i];
        }
      }
    }
  }

  /** The username pipeline of GetKeys: de-duplicate, then drop excluded names. The
      result has no duplicates, no excluded name, every collected name that is not
      excluded, and keeps the order in which names were first collected. */
  lemma SurvivorsSpec<T(!new)>(collected: seq<T>, exclude: seq<T>)
    ensures var r := Without(Dedup(collected), exclude);
      && NoDups(r)
      && (forall x :: x in r <==> x in collected && x !in exclude)
      && InFirstSeenOrder(r, collected)
  {
    DedupFirstSeen(collected);
    WithoutKeepsOrder(Dedup(collected), collected, exclude);
  }

  /** De-duplication is idempotent: a list without duplicates is left as it is. */
  lemma {:induction false} DedupOfNoDups<T(!new)>(s: seq<T>)
    requires NoDups(s)
    ensures Dedup(s) == s
  {
    if s != [] {
      var s' := s[..|s| - 1];
      DedupOfNoDups(s');
      assert s[|s| - 1] !in s';
      assert s == s' + [s[|s| - 1]];
    }
  }
}
