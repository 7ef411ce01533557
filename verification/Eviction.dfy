/** Eviction policies: which instance gives up its slot when the pool is full. */
module Eviction {
  import opened Wrappers
  import opened Decimal
  import opened Types

  /** Lower goes first; a Probing instance has no priority and is never evicted. */
  function EvictPriority(s: Status): Option<nat> {
    match s
    case Disabled => Some(0)
    case Draining => Some(1)
    case Normal => Some(2)
    case Probing => None
  }

  predicate Evictable(v: InstanceView) {
    EvictPriority(v.status).Some?
  }

  /** Lexicographic order on (priority, creation time). */
  predicate Before(a: InstanceView, b: InstanceView)
    requires Evictable(a) && Evictable(b)
  {
    var p, q := EvictPriority(a.status).value, EvictPriority(b.status).value;
    p < q || (p == q && a.createdAt < b.createdAt)
  }

  /** No evictable candidate comes strictly before this one. */
  ghost predicate IsMinimal(v: InstanceView, candidates: seq<InstanceView>) {
    && Evictable(v)
    && forall c :: c in candidates && Evictable(c) ==> !Before(c, v)
  }

  /** Of the candidates that are not Probing, Disabled ones go first, then Draining ones, then Normal ones, and
      of the same status none older is spared. */
  ghost predicate GoesFirst(v: InstanceView, candidates: seq<InstanceView>) {
    && v.status != Probing
    && (v.status == Draining ==> forall c :: c in candidates ==> c.status != Disabled)
    && (v.status == Normal ==> forall c :: c in candidates ==> c.status != Disabled && c.status != Draining)
    && (forall c :: c in candidates && c.status == v.status ==> v.createdAt <= c.createdAt)
  }

  /** That is the lexicographic minimum of priority and creation time. */
  lemma MinimalGoesFirst(v: InstanceView, candidates: seq<InstanceView>)
    ensures IsMinimal(v, candidates) <==> GoesFirst(v, candidates)
  {
  }

  /** The oldest-first answer: the first listed of those that go first, or none when all are Probing. */
  ghost predicate OldestAnswer(candidates: seq<InstanceView>, r: Option<ID>) {
    && (r.None? <==> forall c :: c in candidates ==> c.status == Probing)
    && (r.Some? ==> exists best ::
          && 0 <= best < |candidates|
          && GoesFirst(candidates[best], candidates)
          && (forall j :: 0 <= j < best ==> !GoesFirst(candidates[j], candidates))
          && r.value == candidates[best].id)
  }

  /** Scan keeping the index of the best candidate so far. */
  method EvictOldest(candidates: seq<InstanceView>) returns (r: Option<ID>)
    ensures OldestAnswer(candidates, r)
  {
    var best := -1;
    for i := 0 to |candidates|
      invariant -1 <= best < i
      invariant best < 0 ==> forall j :: 0 <= j < i ==> !Evictable(candidates[j])
      invariant best >= 0 ==>
                  && Evictable(candidates[best])
                  && (forall j :: 0 <= j < i && Evictable(candidates[j]) ==> !Before(candidates[j], candidates[best]))
                  && (forall j :: 0 <= j < best && Evictable(candidates[j]) ==> Before(candidates[best], candidates[j]))
    {
      var c := candidates[i];
      var pri := EvictPriority(c.status);
      if pri.None? {
        continue;
      }
      if best < 0 {
        best := i;
        continue;
      }
      var bestPri := EvictPriority(candidates[best].status);
      if pri.value < bestPri.value || (pri.value == bestPri.value && c.createdAt < candidates[best].createdAt) {
        best := i;
      }
    }
    if best < 0 {
      return None;
    }
    MinimalGoesFirst(candidates[best], candidates);
    forall j | 0 <= j < best
      ensures !GoesFirst(candidates[j], candidates)
    {
      MinimalGoesFirst(candidates[j], candidates);
    }
    return Some(candidates[best].id);
  }

  /** No two candidates that may be evicted share both status and creation time. */
  ghost predicate NoTies(candidates: seq<InstanceView>) {
    forall a, b ::
      (a in candidates && b in candidates && a.status == b.status != Probing && a.createdAt == b.createdAt) ==> a == b
  }

  /** Without ties the victim is the same however the map of instances was iterated. */
  lemma VictimIgnoresCandidateOrder(c1: seq<InstanceView>, c2: seq<InstanceView>, v1: InstanceView, v2: InstanceView)
    requires multiset(c1) == multiset(c2)
    requires NoTies(c1)
    requires v1 in c1 && GoesFirst(v1, c1)
    requires v2 in c2 && GoesFirst(v2, c2)
    ensures v1 == v2
  {
    assert v1 in multiset(c1) && v2 in multiset(c2);
    assert v1 in c2 && v2 in c1;
  }

  lemma {:induction false} CountedOnce(s: seq<InstanceView>, v: InstanceView)
    requires forall i, j :: 0 <= i < j < |s| ==> s[i] != s[j]
    ensures multiset(s)[v] == if v in s then 1 else 0
  {
    if s != [] {
      assert s == [s[0]] + s[1..];
      CountedOnce(s[1..], v);
    }
  }

  /** Listings of the same entries, each once, are permutations of each other. */
  lemma SameEntriesSameMultiset(s: seq<InstanceView>, t: seq<InstanceView>)
    requires forall i, j :: 0 <= i < j < |s| ==> s[i] != s[j]
    requires forall i, j :: 0 <= i < j < |t| ==> t[i] != t[j]
    requires forall v :: v in s <==> v in t
    ensures multiset(s) == multiset(t)
  {
    forall v: InstanceView
      ensures multiset(s)[v] == multiset(t)[v]
    {
      CountedOnce(s, v);
      CountedOnce(t, v);
    }
  }
}
