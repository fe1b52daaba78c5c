/**
  Deduplication against the titles already posted in this process, and the
  selection policy of one cycle: keep the unposted candidates in their order,
  fall back to the whole batch with a cleared history when none is left, and
  pick the first one.
 */
module Dedup {
  import opened Coupons

  /** `a` can be obtained from `b` by deleting elements, keeping the order. */
  predicate IsSubsequence<T(==)>(a: seq<T>, b: seq<T>)
    decreases |b|
  {
    if |b| == 0 then |a| == 0
    else (|a| > 0 && a[0] == b[0] && IsSubsequence(a[1..], b[1..])) || IsSubsequence(a, b[1..])
  }

  /** True when some candidate of the batch has a title not yet posted. */
  predicate HasUnposted(batch: seq<Candidate>, posted: set<string>) {
    exists i :: 0 <= i < |batch| && batch[i].title !in posted
  }

  /** The comprehension `[c for c in cupons if c["titulo"] not in posted_coupons]`:
      exactly the candidates with an unposted title, each as often as in the
      batch, in their original relative order. */
  function FilterNew(batch: seq<Candidate>, posted: set<string>): (r: seq<Candidate>)
    ensures IsSubsequence(r, batch)
    ensures forall k :: 0 <= k < |r| ==> r[k].title !in posted
    ensures forall c :: multiset(r)[c] == if c.title in posted then 0 else multiset(batch)[c]
    ensures |r| == 0 <==> !HasUnposted(batch, posted)
  {
    if |batch| == 0 then []
    else
      var rest := FilterNew(batch[1..], posted);
      assert batch == [batch[0]] + batch[1..];
      assert multiset(batch) == multiset{batch[0]} + multiset(batch[1..]);
      if batch[0].title in posted then
        assert HasUnposted(batch[1..], posted) ==> HasUnposted(batch, posted) by {
          if HasUnposted(batch[1..], posted) {
            var i :| 0 <= i < |batch[1..]| && batch[1..][i].title !in posted;
            assert batch[i + 1].title !in posted;
          }
        }
        rest
      else
        var r := [batch[0]] + rest;
        assert r[1..] == rest;
        assert batch[0].title !in posted;
        r
  }

  /** The pool a cycle picks from and the history after the reset check. */
  datatype Selection = NoCandidates | Pick(pool: seq<Candidate>, posted: set<string>) {
    /** The candidate a cycle publishes: always the first of the pool. */
    function Chosen(): Candidate
      requires Pick? && |pool| > 0
    {
      pool[0]
    }
  }

  /** The selection part of `post_cupons`: an empty batch selects nothing; a
      batch with unposted titles keeps the history and selects from the
      filtered candidates; a batch whose titles are all posted clears the
      history and selects from the original batch. */
  function Select(batch: seq<Candidate>, posted: set<string>): (r: Selection)
    ensures r.NoCandidates? <==> |batch| == 0
    ensures r.Pick? ==> |r.pool| > 0 && IsSubsequence(r.pool, batch)
    ensures r.Pick? && HasUnposted(batch, posted) ==>
              r.posted == posted && r.pool == FilterNew(batch, posted)
    ensures r.Pick? && !HasUnposted(batch, posted) ==> r.posted == {} && r.pool == batch
  {
    if |batch| == 0 then NoCandidates
    else
      var unposted := FilterNew(batch, posted);
      if |unposted| == 0 then
        assert IsSubsequence(batch, batch) by { SubsequenceReflexive(batch); }
        Pick(batch, {})
      else Pick(unposted, posted)
  }

  /** Every sequence is a subsequence of itself. */
  lemma {:induction false} SubsequenceReflexive<T>(s: seq<T>)
    ensures IsSubsequence(s, s)
    decreases |s|
  {
    if |s| > 0 {
      SubsequenceReflexive(s[1..]);
    }
  }

  /** Every element of a subsequence occurs in the sequence it was taken from. */
  lemma {:induction false} SubsequenceMembers<T>(a: seq<T>, b: seq<T>, x: T)
    requires IsSubsequence(a, b) && x in a
    ensures x in b
    decreases |b|
  {
    assert |b| > 0;
    if |a| > 0 && a[0] == b[0] && IsSubsequence(a[1..], b[1..]) {
      if x != a[0] {
        SubsequenceMembers(a[1..], b[1..], x);
      }
    } else {
      SubsequenceMembers(a, b[1..], x);
    }
  }

  /** The first filtered candidate is the first candidate of the batch, in
      batch order, whose title is not posted. */
  lemma {:induction false} FilterNewFirst(batch: seq<Candidate>, posted: set<string>, i: nat)
    requires i < |batch| && batch[i].title !in posted
    requires forall j :: 0 <= j < i ==> batch[j].title in posted
    ensures |FilterNew(batch, posted)| > 0 && FilterNew(batch, posted)[0] == batch[i]
    decreases i
  {
    if i > 0 {
      assert batch[1..][i - 1] == batch[i];
      assert FilterNew(batch, posted) == FilterNew(batch[1..], posted);
      FilterNewFirst(batch[1..], posted, i - 1);
    }
  }

  /** Filtering twice with the same history changes nothing. */
  lemma {:induction false} FilterNewIdempotent(batch: seq<Candidate>, posted: set<string>)
    ensures FilterNew(FilterNew(batch, posted), posted) == FilterNew(batch, posted)
    decreases |batch|
  {
    if |batch| > 0 {
      FilterNewIdempotent(batch[1..], posted);
      var rest := FilterNew(batch[1..], posted);
      if batch[0].title !in posted {
        var r := [batch[0]] + rest;
        assert r[1..] == rest;
      }
    }
  }

  /** Recording one more title filters out exactly the candidates carrying
      that title from what was new before: the rest of the pool stays
      available to later cycles. */
  lemma {:induction false} FilterNewRecord(batch: seq<Candidate>, posted: set<string>, title: string)
    ensures FilterNew(batch, posted + {title}) == FilterNew(FilterNew(batch, posted), {title})
    decreases |batch|
  {
    if |batch| > 0 {
      FilterNewRecord(batch[1..], posted, title);
      var rest := FilterNew(batch[1..], posted);
      if batch[0].title !in posted {
        var r := [batch[0]] + rest;
        assert r[1..] == rest;
      }
    }
  }
}
