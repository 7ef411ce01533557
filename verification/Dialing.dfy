/** Dialling through the Normal instances: fail-over, counters, and round-robin fairness. */
module Dialing {
  import opened Wrappers
  import opened Types
  import opened Numbers
  import opened Hash
  import opened Routing

  type Error = nat

  datatype Outcome<V> = Closed | NoInstance | Cancelled | Connected(via: V) | Failed(last: Error)

  /** What the world answers to the i-th try, made through the given candidate. */
  type Answers<!V> = (nat, V) -> Option<Error>

  /** The snapshot entries that are Normal when read, in snapshot order. */
  function Normals<V(!new)>(views: seq<V>, status: V -> Status): (r: seq<V>)
    ensures forall v :: v in r <==> v in views && status(v) == Normal
  {
    if views == [] then []
    else
      var last := views[|views| - 1];
      var rest := Normals(views[..|views| - 1], status);
      assert views == views[..|views| - 1] + [last];
      if status(last) == Normal then rest + [last] else rest
  }

  /** The places of the Normal entries: in snapshot order, each once, none missed. */
  ghost predicate TakenFrom<V(!new)>(views: seq<V>, status: V -> Status, out: seq<V>, places: seq<nat>) {
    && |places| == |out|
    && (forall k :: 0 <= k < |places| ==> places[k] < |views| && out[k] == views[places[k]])
    && (forall i, j :: 0 <= i < j < |places| ==> places[i] < places[j])
    && (forall i :: 0 <= i < |views| ==> (status(views[i]) == Normal <==> i in places))
  }

  lemma {:induction false} NormalsInOrder<V(!new)>(views: seq<V>, status: V -> Status) returns (places: seq<nat>)
    ensures TakenFrom(views, status, Normals(views, status), places)
  {
    if views == [] {
      places := [];
    } else {
      var n := |views| - 1;
      var before := NormalsInOrder(views[..n], status);
      places := if status(views[n]) == Normal then before + [n] else before;
      OneMoreTaken(views, status, Normals(views[..n], status), before);
    }
  }

  lemma OneMoreTaken<V(!new)>(views: seq<V>, status: V -> Status, out: seq<V>, before: seq<nat>)
    requires views != [] && TakenFrom(views[..|views| - 1], status, out, before)
    ensures var n := |views| - 1;
            if status(views[n]) == Normal then TakenFrom(views, status, out + [views[n]], before + [n])
            else TakenFrom(views, status, out, before)
  {
    var n := |views| - 1;
    var places := if status(views[n]) == Normal then before + [n] else before;
    PlacesGrow(views, status, before, places);
    assert forall k :: 0 <= k < |before| ==> before[k] < n && views[..n][before[k]] == views[before[k]];
  }

  lemma PlacesGrow<V(!new)>(views: seq<V>, status: V -> Status, before: seq<nat>, places: seq<nat>)
    requires views != []
    requires forall k :: 0 <= k < |before| ==> before[k] < |views| - 1
    requires forall i :: 0 <= i < |views| - 1 ==> (status(views[..|views| - 1][i]) == Normal <==> i in before)
    requires places == if status(views[|views| - 1]) == Normal then before + [|views| - 1] else before
    ensures forall i :: 0 <= i < |views| ==> (status(views[i]) == Normal <==> i in places)
  {
    var n := |views| - 1;
    forall i | 0 <= i < |views|
      ensures status(views[i]) == Normal <==> i in places
    {
      if i < n {
        assert views[..n][i] == views[i];
      } else {
        assert i !in before;
      }
    }
  }

  method NormalCandidates<V(!new)>(views: seq<V>, status: V -> Status) returns (out: seq<V>, ghost places: seq<nat>)
    ensures out == Normals(views, status)
    ensures TakenFrom(views, status, out, places)
  {
    places := NormalsInOrder(views, status);
    out := [];
    for i := 0 to |views|
      invariant out == Normals(views[..i], status)
    {
      assert views[..i + 1][..i] == views[..i];
      if status(views[i]) == Normal {
        out := out + [views[i]];
      }
    }
    assert views[..|views|] == views;
  }

  /** The candidates from `first` on, then those before it. */
  function Rotated<V>(candidates: seq<V>, first: nat): (r: seq<V>)
    requires first < |candidates|
    ensures |r| == |candidates|
  {
    candidates[first..] + candidates[..first]
  }

  lemma RotatedAt<V>(candidates: seq<V>, first: nat, i: nat)
    requires first < |candidates| && i < |candidates|
    ensures Rotated(candidates, first)[i] == candidates[(first + i) % |candidates|]
  {
    var n := |candidates|;
    if first + i < n {
      Residue(first + i, 0, first + i, n);
      assert Rotated(candidates, first)[i] == candidates[first..][i] == candidates[first + i];
    } else {
      Residue(first + i, 1, first + i - n, n);
      assert Rotated(candidates, first)[i] == candidates[..first][i - (n - first)] == candidates[first + i - n];
    }
  }

  /** Rotation tries every candidate exactly once. */
  lemma RotatedIsAPermutation<V>(candidates: seq<V>, first: nat)
    requires first < |candidates|
    ensures multiset(Rotated(candidates, first)) == multiset(candidates)
    ensures Rotated(candidates, first)[0] == candidates[first]
  {
    assert candidates == candidates[..first] + candidates[first..];
  }

  /** Trying an order from the front: every try but the last failed, and the last one explains the outcome. */
  ghost predicate Explains<V>(order: seq<V>, ctxDone: nat -> bool, answers: Answers<V>, tries: nat, r: Outcome<V>) {
    && tries <= |order|
    && (forall i :: 0 <= i < tries ==> !ctxDone(i))
    && (forall i :: 0 <= i < tries && !(r.Connected? && i == tries - 1) ==> answers(i, order[i]).Some?)
    && match r
       case Closed => false
       case NoInstance => order == []
       case Cancelled => tries < |order| && ctxDone(tries)
       case Connected(via) => 0 < tries && via == order[tries - 1] && answers(tries - 1, via).None?
       case Failed(last) => 0 < tries == |order| && answers(tries - 1, order[tries - 1]) == Some(last)
  }

  /** In plain words: all tries before the last failed; the last one connected, or it failed with the error
      returned and there was no other candidate, or the context ended before the next. */
  lemma OutcomeIsExplained<V>(order: seq<V>, ctxDone: nat -> bool, answers: Answers<V>, tries: nat, r: Outcome<V>)
    requires Explains(order, ctxDone, answers, tries, r)
    ensures tries <= |order|
    ensures forall i :: 0 <= i < tries - 1 ==> answers(i, order[i]).Some?
    ensures r.NoInstance? <==> order == []
    ensures r.Connected? <==> tries > 0 && answers(tries - 1, order[tries - 1]) == None
    ensures r.Connected? ==> r.via == order[tries - 1]
    ensures r.Failed? ==> tries == |order| && answers(tries - 1, order[tries - 1]) == Some(r.last)
    ensures r.Cancelled? ==> tries < |order| && ctxDone(tries)
    ensures Failures(tries, r) == FailedAmong(order, answers, tries)
  {
    AllFail(order, answers, if r.Connected? then tries - 1 else tries);
  }

  /** How many of the first tries fail. */
  function FailedAmong<V>(order: seq<V>, answers: Answers<V>, n: nat): nat
    requires n <= |order|
  {
    if n == 0 then 0
    else FailedAmong(order, answers, n - 1) + (if answers(n - 1, order[n - 1]).Some? then 1 else 0)
  }

  lemma {:induction false} AllFail<V>(order: seq<V>, answers: Answers<V>, n: nat)
    requires n <= |order| && forall i :: 0 <= i < n ==> answers(i, order[i]).Some?
    ensures FailedAmong(order, answers, n) == n
  {
    if n > 0 {
      AllFail(order, answers, n - 1);
    }
  }

  lemma NoEarlierStop<V>(order: seq<V>, ctxDone: nat -> bool, answers: Answers<V>,
                         t1: nat, r1: Outcome<V>, t2: nat, r2: Outcome<V>)
    requires Explains(order, ctxDone, answers, t1, r1)
    requires Explains(order, ctxDone, answers, t2, r2)
    ensures t1 >= t2
  {
  }

  /** The explanation leaves no choice: the number of tries and the outcome are determined. */
  lemma OutcomeIsDetermined<V>(order: seq<V>, ctxDone: nat -> bool, answers: Answers<V>,
                               t1: nat, r1: Outcome<V>, t2: nat, r2: Outcome<V>)
    requires Explains(order, ctxDone, answers, t1, r1)
    requires Explains(order, ctxDone, answers, t2, r2)
    ensures t1 == t2 && r1 == r2
  {
    NoEarlierStop(order, ctxDone, answers, t1, r1, t2, r2);
    NoEarlierStop(order, ctxDone, answers, t2, r2, t1, r1);
  }

  function Failures<V>(tries: nat, r: Outcome<V>): int {
    if r.Connected? then tries - 1 else tries
  }

  class Dialer<V(!new)> {
    var closed: bool
    var cursor: nat
    var dialTotal: nat
    var dialFailures: nat
    /** The candidates dialled so far, in order. */
    var dialled: seq<V>

    constructor ()
      ensures !closed && cursor == dialTotal == dialFailures == 0 && dialled == []
    {
      closed, cursor, dialTotal, dialFailures, dialled := false, 0, 0, 0, [];
    }

    /** One dial through one instance, counted. */
    method DialView(v: V, answer: Option<Error>) returns (err: Option<Error>)
      modifies this`dialTotal, this`dialFailures, this`dialled
      ensures err == answer
      ensures dialTotal == old(dialTotal) + 1
      ensures dialFailures == old(dialFailures) + (if answer.Some? then 1 else 0)
      ensures dialled == old(dialled) + [v]
    {
      dialTotal := dialTotal + 1;
      dialled := dialled + [v];
      if answer.Some? {
        dialFailures := dialFailures + 1;
      }
      return answer;
    }

    /** Round-robin body: try the candidates from the cursor value on, wrapping round. */
    method Dial(candidates: seq<V>, start: nat, ctxDone: nat -> bool, answers: Answers<V>)
      returns (r: Outcome<V>, tries: nat)
      modifies this`dialTotal, this`dialFailures, this`dialled
      ensures candidates == [] ==> r == NoInstance && tries == 0
      ensures candidates != [] ==>
                var order := Rotated(candidates, start % |candidates|);
                && Explains(order, ctxDone, answers, tries, r)
                && dialled == old(dialled) + order[..tries]
      ensures candidates == [] ==> dialled == old(dialled)
      ensures dialTotal == old(dialTotal) + tries
      ensures dialFailures == old(dialFailures) + Failures(tries, r)
    {
      tries := 0;
      if |candidates| == 0 {
        return NoInstance, 0;
      }
      var first := start % |candidates|;
      ghost var order := Rotated(candidates, first);
      var lastErr: Error := 0;
      for i := 0 to |candidates|
        invariant tries == i
        invariant forall j :: 0 <= j < i ==> !ctxDone(j) && answers(j, order[j]).Some?
        invariant i > 0 ==> answers(i - 1, order[i - 1]) == Some(lastErr)
        invariant dialled == old(dialled) + order[..i]
        invariant dialTotal == old(dialTotal) + i && dialFailures == old(dialFailures) + i
      {
        if ctxDone(i) {
          return Cancelled, i;
        }
        var v := candidates[(first + i) % |candidates|];
        RotatedAt(candidates, first, i);
        assert order[..i + 1] == order[..i] + [v];
        var err := DialView(v, answers(i, v));
        tries := i + 1;
        if err.None? {
          return Connected(v), i + 1;
        }
        lastErr := err.value;
      }
      return Failed(lastErr), tries;
    }

    /** Affinity body: try the candidates in rendezvous order. */
    method DialKey(order: seq<V>, ctxDone: nat -> bool, answers: Answers<V>)
      returns (r: Outcome<V>, tries: nat)
      modifies this`dialTotal, this`dialFailures, this`dialled
      ensures Explains(order, ctxDone, answers, tries, r)
      ensures dialled == old(dialled) + order[..tries]
      ensures dialTotal == old(dialTotal) + tries
      ensures dialFailures == old(dialFailures) + Failures(tries, r)
    {
      tries := 0;
      if |order| == 0 {
        return NoInstance, 0;
      }
      var lastErr: Error := 0;
      for i := 0 to |order|
        invariant tries == i
        invariant forall j :: 0 <= j < i ==> !ctxDone(j) && answers(j, order[j]).Some?
        invariant i > 0 ==> answers(i - 1, order[i - 1]) == Some(lastErr)
        invariant dialled == old(dialled) + order[..i]
        invariant dialTotal == old(dialTotal) + i && dialFailures == old(dialFailures) + i
      {
        if ctxDone(i) {
          return Cancelled, i;
        }
        assert order[..i + 1] == order[..i] + [order[i]];
        var err := DialView(order[i], answers(i, order[i]));
        tries := i + 1;
        if err.None? {
          return Connected(order[i]), i + 1;
        }
        lastErr := err.value;
      }
      return Failed(lastErr), tries;
    }

    /** Every call, even one that finds no candidate, takes one 64-bit cursor value. */
    method DialContext(views: seq<V>, status: V -> Status, ctxDone: nat -> bool, answers: Answers<V>)
      returns (r: Outcome<V>, tries: nat)
      requires cursor < TWO_64
      modifies this
      ensures closed == old(closed)
      ensures closed ==> r == Closed && tries == 0 && cursor == old(cursor) && dialled == old(dialled)
      ensures !closed ==> cursor == (old(cursor) + 1) % TWO_64
      ensures !closed ==>
                var candidates := Normals(views, status);
                if candidates == [] then r == NoInstance && tries == 0 && dialled == old(dialled)
                else var order := Rotated(candidates, old(cursor) % |candidates|);
                     Explains(order, ctxDone, answers, tries, r) && dialled == old(dialled) + order[..tries]
      ensures dialTotal == old(dialTotal) + tries
      ensures dialFailures == old(dialFailures) + Failures(tries, r)
    {
      if closed {
        return Closed, 0;
      }
      var start := cursor;
      cursor := (cursor + 1) % TWO_64;
      var candidates, _ := NormalCandidates(views, status);
      r, tries := Dial(candidates, start, ctxDone, answers);
    }
  }

  /** Affinity dialling among instances known by their ids: the Normal ones in rendezvous order. An empty
      key falls back to round-robin. */
  method DialContextWithKey(d: Dialer<Bytes>, key: Bytes, ids: seq<Bytes>, status: Bytes -> Status,
                            ctxDone: nat -> bool, answers: Answers<Bytes>)
    returns (r: Outcome<Bytes>, tries: nat, ghost order: seq<Bytes>)
    requires d.cursor < TWO_64
    modifies d
    ensures d.closed == old(d.closed)
    ensures d.closed ==> r == Closed && tries == 0 && d.dialled == old(d.dialled)
    ensures !d.closed ==>
              && Explains(order, ctxDone, answers, tries, r)
              && d.dialled == old(d.dialled) + order[..tries]
    ensures !d.closed && key != [] ==>
              && IsAffinityOrder(key, Normals(ids, status), order)
              && multiset(order) == multiset(Normals(ids, status))
              && (forall i, j :: 0 <= i < j < |order| ==> Fnv64a(key + order[i]) >= Fnv64a(key + order[j]))
    ensures !d.closed && key == [] ==>
              var candidates := Normals(ids, status);
              order == if candidates == [] then [] else Rotated(candidates, old(d.cursor) % |candidates|)
    ensures d.cursor == if d.closed || key != [] then old(d.cursor) else (old(d.cursor) + 1) % TWO_64
    ensures d.dialTotal == old(d.dialTotal) + tries
    ensures d.dialFailures == old(d.dialFailures) + Failures(tries, r)
  {
    order := [];
    if d.closed {
      return Closed, 0, order;
    }
    if key == [] {
      var candidates := Normals(ids, status);
      order := if candidates == [] then [] else Rotated(candidates, d.cursor % |candidates|);
      r, tries := d.DialContext(ids, status, ctxDone, answers);
      return;
    }
    var candidates, _ := NormalCandidates(ids, status);
    var sorted := AffinityOrder(key, candidates);
    order := sorted;
    r, tries := d.DialKey(sorted, ctxDone, answers);
  }

  /** One key sticks to one instance: as long as the same instances are Normal and answer alike, it ends
      up at the same one after the same tries, however the snapshot lists them. */
  lemma SameKeySameInstance(score: Scoring, c1: seq<Bytes>, c2: seq<Bytes>, o1: seq<Bytes>, o2: seq<Bytes>,
                            ctxDone: nat -> bool, answers: Answers<Bytes>,
                            t1: nat, r1: Outcome<Bytes>, t2: nat, r2: Outcome<Bytes>)
    requires multiset(c1) == multiset(c2) && NoTies(score, multiset(c1))
    requires IsOrder(score, c1, o1) && IsOrder(score, c2, o2)
    requires Explains(o1, ctxDone, answers, t1, r1) && Explains(o2, ctxDone, answers, t2, r2)
    ensures t1 == t2 && r1 == r2
  {
    AffinityOrderIsUnique(score, c1, c2, o1, o2);
    OutcomeIsDetermined(o1, ctxDone, answers, t1, r1, t2, r2);
  }

  /** How many of the m cursor values from c on make candidate j (of n) the first choice. */
  function FirstChoices(c: nat, m: nat, n: nat, j: nat): nat
    requires n > 0
  {
    if m == 0 then 0 else FirstChoices(c, m - 1, n, j) + (if (c + m - 1) % n == j then 1 else 0)
  }

  lemma {:induction false} FirstChoicesSplit(c: nat, m: nat, k: nat, n: nat, j: nat)
    requires n > 0
    ensures FirstChoices(c, m + k, n, j) == FirstChoices(c, m, n, j) + FirstChoices(c + m, k, n, j)
  {
    if k > 0 {
      FirstChoicesSplit(c, m, k - 1, n, j);
      assert c + (m + k) - 1 == (c + m) + k - 1;
      assert m + (k - 1) == (m + k) - 1;
    }
  }

  /** How far cursor value c is from the next value that picks j. */
  function Gap(c: nat, n: nat, j: nat): nat
    requires j < n
  {
    if c % n <= j then j - c % n else j + n - c % n
  }

  lemma NextResidue(c: nat, d: nat, n: nat)
    requires n > 0 && d < n
    ensures (c + d) % n == if c % n + d < n then c % n + d else c % n + d - n
  {
    var q, r := c / n, c % n;
    assert c == n * q + r;
    if r + d < n {
      Residue(c + d, q, r + d, n);
    } else {
      assert c + d == n * (q + 1) + (r + d - n);
      Residue(c + d, q + 1, r + d - n, n);
    }
  }

  /** Within one round of n values a candidate is picked once its turn has come, and never twice. */
  lemma {:induction false} OneRound(c: nat, m: nat, n: nat, j: nat)
    requires j < n && m <= n
    ensures FirstChoices(c, m, n, j) == if Gap(c, n, j) < m then 1 else 0
  {
    if m > 0 {
      OneRound(c, m - 1, n, j);
      NextResidue(c, m - 1, n);
    }
  }

  /** Over any m consecutive cursor values each of n candidates is first floor(m/n) or ceil(m/n) times. */
  lemma {:induction false} RoundRobinIsFair(c: nat, m: nat, n: nat, j: nat)
    requires j < n
    ensures FirstChoices(c, m, n, j) == m / n || (m % n > 0 && FirstChoices(c, m, n, j) == m / n + 1)
    decreases m
  {
    if m < n {
      OneRound(c, m, n, j);
    } else {
      FirstChoicesSplit(c, n, m - n, n, j);
      OneRound(c, n, n, j);
      RoundRobinIsFair(c + n, m - n, n, j);
      OneRoundLess(m, n);
    }
  }

  lemma OneRoundLess(m: nat, n: nat)
    requires 0 < n <= m
    ensures m / n == (m - n) / n + 1 && m % n == (m - n) % n
  {
    var q, r := (m - n) / n, (m - n) % n;
    assert m == n * (q + 1) + r;
    Residue(m, q + 1, r, n);
    assert n * (m / n - (q + 1)) == 0;
    var e := m / n - (q + 1);
    if e > 0 {
      Grows(n, e);
    } else if e < 0 {
      Grows(n, -e);
    }
  }
}
