/** Choosing whom to ask: a binary min-heap of candidates on score, then partner id. */
module Assignment {
  import opened Results
  import opened Reals
  import opened Text

  datatype Candidate = Candidate(
    partnerId: string, distance: real, carrying: int, maxConcurrent: int, acceptanceRate: real)

  function Clamp01(v: real): real { if v < 0.0 then 0.0 else if v > 1.0 then 1.0 else v }

  function Proximity(distance: real, radius: real): real { if radius <= 0.0 then 0.0 else distance / radius }

  function Load(carrying: int, maxConcurrent: int): real
  {
    if maxConcurrent <= 0 then 0.0 else carrying as real / maxConcurrent as real
  }

  /** Lower is better. */
  function Score(c: Candidate, radius: real): (score: real)
    ensures 0.0 <= score <= 1.0
  {
    0.55 * Clamp01(Proximity(c.distance, radius)) + 0.25 * Clamp01(Load(c.carrying, c.maxConcurrent)) +
    0.20 * Clamp01(1.0 - c.acceptanceRate)
  }

  /** Nearer, less loaded and more willing never scores worse; and no load or record puts the counter behind the horizon. */
  lemma ScorePrefers(c: Candidate, d: Candidate, radius: real)
    ensures (c.distance <= d.distance && c.carrying <= d.carrying && c.maxConcurrent == d.maxConcurrent &&
             c.acceptanceRate >= d.acceptanceRate) ==> Score(c, radius) <= Score(d, radius)
    ensures radius > 0.0 && c.distance <= 0.0 && d.distance >= radius ==> Score(c, radius) < Score(d, radius)
  {
    if radius > 0.0 {
      if c.distance <= d.distance {
        DivideGrows(c.distance, d.distance, radius);
      }
      if c.distance <= 0.0 && d.distance >= radius {
        DivideGrows(c.distance, 0.0, radius);
        DivideGrows(radius, d.distance, radius);
        QuotientIs(0.0, radius, 0.0);
        QuotientIs(radius, radius, 1.0);
        assert Clamp01(Proximity(c.distance, radius)) == 0.0;
        assert Clamp01(Proximity(d.distance, radius)) == 1.0;
      }
    }
    if c.maxConcurrent > 0 && c.carrying <= d.carrying {
      DivideGrows(c.carrying as real, d.carrying as real, c.maxConcurrent as real);
    }
  }

  /** A share t of the radius, of the limit or of refusals costs that share of 0.55, 0.25 or 0.20, and no more beyond it. */
  lemma ScoreShares(c: Candidate, radius: real, t: real, load: int)
    requires 0.0 <= t <= 1.0 && radius > 0.0 && c.maxConcurrent > 0 && load >= c.maxConcurrent
    ensures Score(c.(distance := t * radius), radius) - Score(c.(distance := 0.0), radius) == 0.55 * t
    ensures Score(c.(carrying := load), radius) - Score(c.(carrying := 0), radius) == 0.25
    ensures 2 * c.carrying == c.maxConcurrent ==> Score(c, radius) - Score(c.(carrying := 0), radius) == 0.125
    ensures Score(c.(acceptanceRate := 1.0 - t), radius) - Score(c.(acceptanceRate := 1.0), radius) == 0.20 * t
  {
    QuotientIs(t * radius, radius, t);
    QuotientIs(0.0, radius, 0.0);
    var limit := c.maxConcurrent as real;
    QuotientIs(0.0, limit, 0.0);
    QuotientIs(limit, limit, 1.0);
    DivideGrows(limit, load as real, limit);
    if 2 * c.carrying == c.maxConcurrent {
      QuotientIs(c.carrying as real, limit, 0.5);
    }
  }

  /** The most a score can be is reached at the edge of the radius, at the limit and never accepting; the least at the counter. */
  lemma ScoreEnds(c: Candidate, radius: real)
    ensures (radius > 0.0 && c.distance >= radius && c.maxConcurrent > 0 && c.carrying >= c.maxConcurrent &&
             c.acceptanceRate <= 0.0) ==> Score(c, radius) == 1.0
    ensures c.distance <= 0.0 && c.carrying <= 0 && c.acceptanceRate >= 1.0 ==> Score(c, radius) == 0.0
    ensures radius <= 0.0 ==> Score(c, radius) == Score(c.(distance := 0.0), radius)
    ensures c.maxConcurrent <= 0 ==> Score(c, radius) == Score(c.(carrying := 0), radius)
  {
    if radius > 0.0 {
      QuotientIs(radius, radius, 1.0);
      QuotientIs(0.0, radius, 0.0);
      if c.distance >= radius {
        DivideGrows(radius, c.distance, radius);
      } else if c.distance <= 0.0 {
        DivideGrows(c.distance, 0.0, radius);
      }
    }
    if c.maxConcurrent > 0 {
      var limit := c.maxConcurrent as real;
      QuotientIs(limit, limit, 1.0);
      QuotientIs(0.0, limit, 0.0);
      if c.carrying >= c.maxConcurrent {
        DivideGrows(limit, c.carrying as real, limit);
      } else if c.carrying <= 0 {
        DivideGrows(c.carrying as real, 0.0, limit);
      }
    }
  }

  datatype Scored = Scored(candidate: Candidate, score: real)

  // ---------------------------------------------------------------- the order on candidates

  predicate Less(a: Scored, b: Scored)
  {
    a.score < b.score || (a.score == b.score && TextLess(a.candidate.partnerId, b.candidate.partnerId))
  }

  /** a may come before b: the heap never has to swap them. */
  predicate AtMost(a: Scored, b: Scored) { !Less(b, a) }

  /** The lower score comes first; of equal scores, the id that does not come after in lexicographic order. */
  lemma AtMostMeaning(a: Scored, b: Scored)
    ensures AtMost(a, b) <==>
            a.score < b.score || (a.score == b.score && !TextLess(b.candidate.partnerId, a.candidate.partnerId))
  {
  }

  lemma AtMostOrder(a: Scored, b: Scored, c: Scored)
    ensures AtMost(a, b) && AtMost(b, c) ==> AtMost(a, c)
    ensures AtMost(a, b) || AtMost(b, a)
    ensures AtMost(a, a)
    ensures AtMost(a, b) && AtMost(b, a) ==> a.candidate.partnerId == b.candidate.partnerId
  {
    var i, j, k := a.candidate.partnerId, b.candidate.partnerId, c.candidate.partnerId;
    TextOrder(i, j, k);
    TextOrder(k, j, i);
    TextOrder(i, i, i);
    TextOrder(j, k, i);
    TextOrder(k, i, j);
    TextOrder(j, i, k);
  }

  // ---------------------------------------------------------------- the heap

  function Parent(i: nat): nat
    requires i > 0
  {
    (i - 1) / 2
  }

  /** Heap order everywhere except possibly between position j and its parent. */
  ghost predicate HeapButUp(h: seq<Scored>, j: nat)
  {
    && (forall i :: 0 < i < |h| && i != j ==> AtMost(h[Parent(i)], h[i]))
    && (j > 0 ==> forall i :: 0 < i < |h| && Parent(i) == j ==> AtMost(h[Parent(j)], h[i]))
  }

  /** Heap order everywhere except possibly between position j and its children. */
  ghost predicate HeapButDown(h: seq<Scored>, j: nat)
  {
    && (forall i :: 0 < i < |h| && Parent(i) != j ==> AtMost(h[Parent(i)], h[i]))
    && (j > 0 ==> forall i :: 0 < i < |h| && Parent(i) == j ==> AtMost(h[Parent(j)], h[i]))
  }

  ghost predicate IsHeap(h: seq<Scored>)
  {
    forall i :: 0 < i < |h| ==> AtMost(h[Parent(i)], h[i])
  }

  function Swapped(h: seq<Scored>, i: nat, j: nat): seq<Scored>
    requires i < |h| && j < |h|
  {
    h[i := h[j]][j := h[i]]
  }

  lemma SwappedKeepsAll(h: seq<Scored>, i: nat, j: nat)
    requires i < |h| && j < |h|
    ensures multiset(Swapped(h, i, j)) == multiset(h)
  {
  }

  lemma SwapUp(h: seq<Scored>, j: nat)
    requires 0 < j < |h| && HeapButUp(h, j) && Less(h[j], h[Parent(j)])
    ensures HeapButUp(Swapped(h, Parent(j), j), Parent(j))
  {
    var p := Parent(j);
    var g := Swapped(h, p, j);
    forall i | 0 < i < |g| && i != p
      ensures AtMost(g[Parent(i)], g[i])
    {
      AtMostOrder(h[j], h[p], h[i]);
    }
    forall i | 0 < i < |g| && p > 0 && Parent(i) == p
      ensures AtMost(g[Parent(p)], g[i])
    {
      AtMostOrder(h[Parent(p)], h[p], h[i]);
    }
  }

  lemma SwapDown(h: seq<Scored>, i: nat, j: nat)
    requires j < |h| && 0 < j && Parent(j) == i && HeapButDown(h, i) && Less(h[j], h[i])
    requires forall k :: 0 < k < |h| && Parent(k) == i ==> AtMost(h[j], h[k])
    ensures HeapButDown(Swapped(h, i, j), j)
  {
    var g := Swapped(h, i, j);
    forall k | 0 < k < |g| && Parent(k) != j
      ensures AtMost(g[Parent(k)], g[k])
    {
      AtMostOrder(h[j], h[i], h[k]);
    }
  }

  /** The child SiftDown picks is no worse than either child. */
  lemma BetterChild(h: seq<Scored>, i: nat, j: nat)
    requires 2 * i + 1 < |h|
    requires j == if 2 * i + 2 < |h| && Less(h[2 * i + 2], h[2 * i + 1]) then 2 * i + 2 else 2 * i + 1
    ensures Parent(j) == i
    ensures forall k :: 0 < k < |h| && Parent(k) == i ==> AtMost(h[j], h[k])
  {
    forall k | 0 < k < |h| && Parent(k) == i
      ensures AtMost(h[j], h[k])
    {
      AtMostOrder(h[j], h[k], h[k]);
    }
  }

  lemma WholeHeap(h: seq<Scored>, i: nat, j: nat)
    requires i < |h| && j < |h| && HeapButDown(h, i) && !Less(h[j], h[i])
    requires forall k :: 0 < k < |h| && Parent(k) == i ==> AtMost(h[j], h[k])
    ensures IsHeap(h)
  {
    forall k | 0 < k < |h|
      ensures AtMost(h[Parent(k)], h[k])
    {
      AtMostOrder(h[i], h[j], h[k]);
    }
  }

  lemma {:induction false} RootIsLeast(h: seq<Scored>, i: nat)
    requires IsHeap(h) && i < |h|
    ensures AtMost(h[0], h[i])
  {
    if i == 0 {
      AtMostOrder(h[0], h[0], h[0]);
    } else {
      RootIsLeast(h, Parent(i));
      AtMostOrder(h[0], h[Parent(i)], h[i]);
    }
  }

  /** Moving the root to the end and dropping it leaves everybody else, in heap order but for the new root. */
  lemma RootLeavesHeap(h: seq<Scored>)
    requires IsHeap(h) && h != []
    ensures var rest := Swapped(h, 0, |h| - 1)[..|h| - 1];
            && HeapButDown(rest, 0)
            && multiset(rest) == multiset(h) - multiset{h[0]}
            && (forall x :: x in multiset(rest) ==> x in h)
    ensures forall x :: x in h ==> AtMost(h[0], x)
  {
    var n := |h| - 1;
    var swapped := Swapped(h, 0, n);
    SwappedKeepsAll(h, 0, n);
    assert swapped == swapped[..n] + [h[0]];
    assert multiset(swapped[..n]) == multiset(h) - multiset{h[0]};
    forall x | x in h
      ensures AtMost(h[0], x)
    {
      var i :| 0 <= i < |h| && h[i] == x;
      RootIsLeast(h, i);
    }
  }

  /** Orders candidates best-first and hands them out one at a time. */
  class Assigner {
    var heap: seq<Scored>
    const radius: real

    ghost predicate Valid()
      reads this
    {
      IsHeap(heap) && forall s :: s in heap ==> s.score == Score(s.candidate, radius)
    }

    /** Pushes the candidates one at a time. */
    constructor (candidates: seq<Candidate>, radius: real)
      ensures Valid() && this.radius == radius
      ensures multiset(heap) == multiset(AllScored(candidates, radius))
    {
      this.radius := radius;
      this.heap := [];
      new;
      var all := AllScored(candidates, radius);
      for i := 0 to |candidates|
        invariant Valid()
        invariant multiset(heap) == multiset(all[..i])
      {
        Push(all[i]);
        assert all[..i + 1] == all[..i] + [all[i]];
      }
      assert all[..|candidates|] == all;
    }

    /** Appends, then swaps upwards until the parent is no worse. */
    method Push(s: Scored)
      requires Valid() && s.score == Score(s.candidate, radius)
      modifies this`heap
      ensures Valid()
      ensures multiset(heap) == multiset(old(heap)) + multiset{s}
    {
      heap := heap + [s];
      var j := |heap| - 1;
      ghost var all := multiset(heap);
      while j > 0 && Less(heap[j], heap[Parent(j)])
        invariant 0 <= j < |heap|
        invariant HeapButUp(heap, j)
        invariant multiset(heap) == all
      {
        SwapUp(heap, j);
        SwappedKeepsAll(heap, Parent(j), j);
        heap := Swapped(heap, Parent(j), j);
        j := Parent(j);
      }
      assert forall x :: x in heap ==> x in all;
    }

    /** Takes the best remaining candidate: nobody left comes before it. */
    method Next() returns (best: Option<Candidate>)
      requires Valid()
      modifies this`heap
      ensures Valid()
      ensures best.None? <==> old(heap) == []
      ensures best.Some? ==>
                var s := Scored(best.value, Score(best.value, radius));
                && s in old(heap) && multiset(heap) == multiset(old(heap)) - multiset{s}
                && forall x :: x in old(heap) ==> AtMost(s, x)
      ensures best.None? ==> heap == []
    {
      hide IsHeap, HeapButDown, AtMost, Score;
      if heap == [] {
        return None;
      }
      var top, n := heap[0], |heap| - 1;
      RootLeavesHeap(heap);
      heap := Swapped(heap, 0, n)[..n];
      ghost var rest := multiset(heap);
      SiftDown();
      assert forall x :: x in heap ==> x in rest;
      best := Some(top.candidate);
    }

    /** Swaps the root downwards until no child is better. */
    method SiftDown()
      requires HeapButDown(heap, 0)
      modifies this`heap
      ensures IsHeap(heap)
      ensures multiset(heap) == multiset(old(heap))
    {
      var i := 0;
      ghost var n := |heap|;
      while 2 * i + 1 < |heap|
        invariant 0 <= i && |heap| == n
        invariant HeapButDown(heap, i)
        invariant multiset(heap) == multiset(old(heap))
        decreases n - i
      {
        var j := 2 * i + 1;
        if j + 1 < |heap| && Less(heap[j + 1], heap[j]) {
          j := j + 1;
        }
        BetterChild(heap, i, j);
        if !Less(heap[j], heap[i]) {
          WholeHeap(heap, i, j);
          return;
        }
        SwapDown(heap, i, j);
        SwappedKeepsAll(heap, i, j);
        heap := Swapped(heap, i, j);
        i := j;
      }
    }
  }

  // ---------------------------------------------------------------- draining

  function AllScored(candidates: seq<Candidate>, radius: real): seq<Scored>
  {
    seq(|candidates|, i requires 0 <= i < |candidates| => Scored(candidates[i], Score(candidates[i], radius)))
  }

  ghost predicate BestFirst(s: seq<Scored>)
  {
    forall i, j :: 0 <= i < j < |s| ==> AtMost(s[i], s[j])
  }

  /** Calls Next until nobody is left: a permutation of the candidates, sorted by score and then partner id. */
  method Drain(candidates: seq<Candidate>, radius: real) returns (out: seq<Scored>)
    ensures multiset(out) == multiset(AllScored(candidates, radius))
    ensures BestFirst(out)
  {
    var a := new Assigner(candidates, radius);
    out := [];
    ghost var all := multiset(a.heap);
    while a.heap != []
      invariant a.Valid() && a.radius == radius
      invariant multiset(out) + multiset(a.heap) == all
      invariant BestFirst(out)
      invariant forall x, y :: x in out && y in a.heap ==> AtMost(x, y)
      decreases |a.heap|
    {
      ghost var before := a.heap;
      var best := a.Next();
      var s := Scored(best.value, Score(best.value, radius));
      hide Score, AtMost;
      OneFewer(before, a.heap, s);
      assert forall x :: x in a.heap ==> x in before;
      out := out + [s];
    }
  }

  lemma OneFewer(before: seq<Scored>, after: seq<Scored>, s: Scored)
    requires s in before && multiset(after) == multiset(before) - multiset{s}
    ensures |after| == |before| - 1 && multiset(before) == multiset(after) + multiset{s}
    ensures forall x :: x in after ==> x in before
  {
    assert |multiset(after)| == |after| && |multiset(before)| == |before|;
    forall x | x in after ensures x in before {
      assert x in multiset(after);
    }
  }

  ghost predicate DistinctIds(s: seq<Scored>)
  {
    forall i, j :: 0 <= i < j < |s| ==> s[i].candidate.partnerId != s[j].candidate.partnerId
  }

  lemma SameFirst(s: seq<Scored>, t: seq<Scored>)
    requires BestFirst(s) && BestFirst(t) && multiset(s) == multiset(t) && DistinctIds(s) && s != []
    ensures t != [] && s[0] == t[0]
  {
    assert s[0] in multiset(t);
    var j :| 0 <= j < |t| && t[j] == s[0];
    assert t[0] in multiset(s);
    var i :| 0 <= i < |s| && s[i] == t[0];
    AtMostOrder(s[0], t[0], s[0]);
  }

  lemma TailMultiset(s: seq<Scored>)
    requires s != []
    ensures multiset(s[1..]) == multiset(s) - multiset{s[0]}
  {
    assert s == [s[0]] + s[1..];
  }

  /** With distinct partner ids there is only one best-first order, so insertion order cannot matter. */
  lemma {:induction false} BestFirstIsUnique(s: seq<Scored>, t: seq<Scored>)
    requires BestFirst(s) && BestFirst(t) && multiset(s) == multiset(t) && DistinctIds(s)
    ensures s == t
    decreases |s|
  {
    if s == [] {
      assert |multiset(t)| == 0;
    } else {
      SameFirst(s, t);
      TailMultiset(s);
      TailMultiset(t);
      BestFirstIsUnique(s[1..], t[1..]);
      assert s == [s[0]] + s[1..] && t == [t[0]] + t[1..];
    }
  }

  lemma {:induction false} ScoredCounts(candidates: seq<Candidate>, radius: real, s: Scored)
    ensures multiset(AllScored(candidates, radius))[s] ==
            if s.score == Score(s.candidate, radius) then multiset(candidates)[s.candidate] else 0
  {
    if candidates != [] {
      var rest, last := candidates[..|candidates| - 1], candidates[|candidates| - 1];
      ScoredCounts(rest, radius, s);
      assert AllScored(candidates, radius) == AllScored(rest, radius) + [Scored(last, Score(last, radius))];
      assert candidates == rest + [last];
    }
  }

  /** However the same candidates are inserted, draining hands them out in the same order when their ids differ. */
  lemma InsertionOrderIsIrrelevant(c: seq<Candidate>, d: seq<Candidate>, radius: real, s: seq<Scored>, t: seq<Scored>)
    requires multiset(c) == multiset(d) && DistinctIds(s)
    requires BestFirst(s) && multiset(s) == multiset(AllScored(c, radius))
    requires BestFirst(t) && multiset(t) == multiset(AllScored(d, radius))
    ensures s == t
  {
    forall x: Scored
      ensures multiset(s)[x] == multiset(t)[x]
    {
      ScoredCounts(c, radius, x);
      ScoredCounts(d, radius, x);
    }
    BestFirstIsUnique(s, t);
  }
}
