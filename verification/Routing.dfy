/** Rendezvous routing: the order in which the instances are tried for a key. */
module Routing {
  import opened Hash

  /** How good a candidate is for a key. The lemmas below hold for any scoring, hence for `ScoreFor`. */
  type Scoring = Bytes -> int

  function ScoreFor(key: Bytes): Scoring {
    (id: Bytes) => Fnv64a(key + id)
  }

  ghost predicate Descending(score: Scoring, order: seq<Bytes>) {
    forall i, j :: 0 <= i < j < |order| ==> score(order[i]) >= score(order[j])
  }

  /** What clone-then-sort may return: any permutation with the scores in descending order. */
  ghost predicate IsOrder(score: Scoring, candidates: seq<Bytes>, order: seq<Bytes>) {
    multiset(order) == multiset(candidates) && Descending(score, order)
  }

  ghost predicate IsAffinityOrder(key: Bytes, candidates: seq<Bytes>, order: seq<Bytes>) {
    IsOrder(ScoreFor(key), candidates, order)
  }

  /** Every candidate appears once and no two have the same score. */
  ghost predicate NoTies(score: Scoring, candidates: multiset<Bytes>) {
    && (forall a :: a in candidates ==> candidates[a] == 1)
    && (forall a, b :: a in candidates && b in candidates && score(a) == score(b) ==> a == b)
  }

  /** Clone the candidates and sort them by descending score. */
  method AffinityOrder(key: Bytes, candidates: seq<Bytes>) returns (order: seq<Bytes>)
    ensures IsAffinityOrder(key, candidates, order)
    ensures multiset(order) == multiset(candidates)
    ensures forall i, j :: 0 <= i < j < |order| ==> Fnv64a(key + order[i]) >= Fnv64a(key + order[j])
  {
    var score := ScoreFor(key);
    order := [];
    for i := 0 to |candidates|
      invariant IsOrder(score, candidates[..i], order)
    {
      assert candidates[..i + 1] == candidates[..i] + [candidates[i]];
      order := InsertByScore(score, order, candidates[i]);
    }
    assert candidates[..|candidates|] == candidates;
  }

  method InsertByScore(score: Scoring, order: seq<Bytes>, x: Bytes) returns (longer: seq<Bytes>)
    requires Descending(score, order)
    ensures Descending(score, longer)
    ensures multiset(longer) == multiset(order) + multiset{x}
  {
    var at := 0;
    while at < |order| && score(order[at]) >= score(x)
      invariant at <= |order|
      invariant forall j :: 0 <= j < at ==> score(order[j]) >= score(x)
    {
      at := at + 1;
    }
    longer := order[..at] + [x] + order[at..];
    Spliced(score, order, x, at);
  }

  lemma Spliced(score: Scoring, order: seq<Bytes>, x: Bytes, at: nat)
    requires Descending(score, order) && at <= |order|
    requires forall j :: 0 <= j < at ==> score(order[j]) >= score(x)
    requires at < |order| ==> score(order[at]) < score(x)
    ensures var longer := order[..at] + [x] + order[at..];
            Descending(score, longer) && multiset(longer) == multiset(order) + multiset{x}
  {
    assert order == order[..at] + order[at..];
    SplicedInOrder(score, order, x, at);
  }

  lemma SplicedInOrder(score: Scoring, order: seq<Bytes>, x: Bytes, at: nat)
    requires Descending(score, order) && at <= |order|
    requires forall j :: 0 <= j < at ==> score(order[j]) >= score(x)
    requires at < |order| ==> score(order[at]) < score(x)
    ensures Descending(score, order[..at] + [x] + order[at..])
  {
    var longer := order[..at] + [x] + order[at..];
    forall i, j | 0 <= i < j < |longer|
      ensures score(longer[i]) >= score(longer[j])
    {
      assert j < at ==> longer[j] == order[j];
      assert i < at ==> longer[i] == order[i];
      assert at < j ==> longer[j] == order[j - 1];
      assert at < i ==> longer[i] == order[i - 1];
      assert at < j ==> score(order[at]) >= score(order[j - 1]);
    }
  }

  /** What a key's order is: the hash of key and id together never rises along it. */
  lemma OrderFollowsTheHash(key: Bytes, candidates: seq<Bytes>, order: seq<Bytes>)
    ensures IsAffinityOrder(key, candidates, order) <==>
              && multiset(order) == multiset(candidates)
              && (forall i, j :: 0 <= i < j < |order| ==> Fnv64a(key + order[i]) >= Fnv64a(key + order[j]))
  {
    hide Fnv64a;
  }

  /** Keys of one length that differ in one byte never score an instance alike. */
  lemma KeysOneByteApartScoreApart(key: Bytes, other: Bytes, id: Bytes, i: nat)
    requires |key| == |other| && i < |key| && key[i] != other[i]
    requires forall j :: 0 <= j < |key| && j != i ==> key[j] == other[j]
    ensures ScoreFor(key)(id) != ScoreFor(other)(id)
  {
    OneByteApartNeverCollide(key + id, other + id, i);
  }

  lemma HeadBeatsAll(score: Scoring, order: seq<Bytes>, x: Bytes)
    requires Descending(score, order) && x in order
    ensures score(order[0]) >= score(x)
  {
    var i :| 0 <= i < |order| && order[i] == x;
  }

  lemma HeadsAgree(score: Scoring, o1: seq<Bytes>, o2: seq<Bytes>)
    requires multiset(o1) == multiset(o2) && NoTies(score, multiset(o1))
    requires Descending(score, o1) && Descending(score, o2)
    requires o1 != []
    ensures |o2| > 0 && o1[0] == o2[0]
  {
    assert o1[0] in multiset(o2);
    assert o2[0] in multiset(o1);
    HeadBeatsAll(score, o1, o2[0]);
    HeadBeatsAll(score, o2, o1[0]);
  }

  lemma TailMultiset(o: seq<Bytes>)
    requires o != []
    ensures multiset(o[1..]) == multiset(o) - multiset{o[0]}
  {
    assert o == [o[0]] + o[1..];
  }

  lemma {:induction false} SortedTwiceIsSame(score: Scoring, o1: seq<Bytes>, o2: seq<Bytes>)
    requires multiset(o1) == multiset(o2) && NoTies(score, multiset(o1))
    requires Descending(score, o1) && Descending(score, o2)
    ensures o1 == o2
    decreases |o1|
  {
    if o1 == [] {
      assert |o2| == |multiset(o2)| == 0;
    } else {
      HeadsAgree(score, o1, o2);
      TailMultiset(o1);
      TailMultiset(o2);
      NoTiesInTail(score, o1);
      DescendingTail(score, o1);
      DescendingTail(score, o2);
      SortedTwiceIsSame(score, o1[1..], o2[1..]);
      SameHeadAndTail(o1, o2);
    }
  }

  lemma SameHeadAndTail(o1: seq<Bytes>, o2: seq<Bytes>)
    requires |o1| > 0 && |o2| > 0 && o1[0] == o2[0] && o1[1..] == o2[1..]
    ensures o1 == o2
  {
    assert o1 == [o1[0]] + o1[1..] && o2 == [o2[0]] + o2[1..];
  }

  lemma DescendingTail(score: Scoring, o: seq<Bytes>)
    requires o != [] && Descending(score, o)
    ensures Descending(score, o[1..])
  {
  }

  lemma NoTiesInTail(score: Scoring, o: seq<Bytes>)
    requires o != [] && NoTies(score, multiset(o))
    ensures NoTies(score, multiset(o[1..]))
  {
    TailMultiset(o);
    assert forall a :: a in multiset(o[1..]) ==> a in multiset(o);
  }

  /** Without ties the order depends neither on how the candidates were listed nor on the sort. */
  lemma AffinityOrderIsUnique(score: Scoring, c1: seq<Bytes>, c2: seq<Bytes>, o1: seq<Bytes>, o2: seq<Bytes>)
    requires multiset(c1) == multiset(c2) && NoTies(score, multiset(c1))
    requires IsOrder(score, c1, o1) && IsOrder(score, c2, o2)
    ensures o1 == o2
  {
    SortedTwiceIsSame(score, o1, o2);
  }

  /** The sequence with the first occurrence of `v` deleted. */
  function Without(order: seq<Bytes>, v: Bytes): (r: seq<Bytes>)
    ensures multiset(r) == multiset(order) - multiset{v}
  {
    if order == [] then []
    else
      assert order == [order[0]] + order[1..];
      if order[0] == v then order[1..] else [order[0]] + Without(order[1..], v)
  }

  lemma {:induction false} WithoutStaysSorted(score: Scoring, order: seq<Bytes>, v: Bytes)
    requires Descending(score, order)
    ensures Descending(score, Without(order, v))
    decreases |order|
  {
    if order != [] && order[0] != v {
      var rest := Without(order[1..], v);
      WithoutStaysSorted(score, order[1..], v);
      forall j | 0 <= j < |rest|
        ensures score(order[0]) >= score(rest[j])
      {
        assert rest[j] in multiset(rest) && rest[j] in multiset(order[1..]);
        HeadBeatsAll(score, order, rest[j]);
      }
    }
  }

  /** Removing a candidate gives the same order with that one entry deleted. */
  lemma RemovalDeletesOneEntry(score: Scoring, before: seq<Bytes>, after: seq<Bytes>, v: Bytes,
                               orderBefore: seq<Bytes>, orderAfter: seq<Bytes>)
    requires NoTies(score, multiset(before)) && v in before
    requires multiset(after) == multiset(before) - multiset{v}
    requires IsOrder(score, before, orderBefore) && IsOrder(score, after, orderAfter)
    ensures orderAfter == Without(orderBefore, v)
  {
    WithoutStaysSorted(score, orderBefore, v);
    SortedTwiceIsSame(score, orderAfter, Without(orderBefore, v));
  }

  /** Adding a candidate moves a key's first choice to the newcomer or not at all. */
  lemma AdditionMovesFirstChoiceOnlyToNewcomer(score: Scoring, before: seq<Bytes>, after: seq<Bytes>, v: Bytes,
                                               orderBefore: seq<Bytes>, orderAfter: seq<Bytes>)
    requires NoTies(score, multiset(after)) && before != []
    requires multiset(after) == multiset(before) + multiset{v}
    requires IsOrder(score, before, orderBefore) && IsOrder(score, after, orderAfter)
    ensures |orderBefore| > 0 && |orderAfter| > 0
    ensures orderAfter[0] != orderBefore[0] ==> orderAfter[0] == v
    ensures orderBefore == Without(orderAfter, v)
  {
    assert v in multiset(after);
    RemovalDeletesOneEntry(score, after, before, v, orderAfter, orderBefore);
    assert before[0] in multiset(orderBefore);
  }
}
