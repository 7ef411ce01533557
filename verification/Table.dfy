/** The instance table of the coordinator: creation, removal, ports, and the published snapshot. */
module Table {
  import opened Wrappers
  import opened Decimal
  import opened Ports

  /** Creation times by id, port offsets by id, and the ids as published to the dial side. */
  datatype Table = Table(created: map<ID, int>, portOf: map<ID, nat>, ports: Allocator, nextSeq: nat, snap: seq<ID>)

  function Create(t: Table, now: int): (Table, Option<ID>) {
    var g := Acquire(t.ports);
    match g.offset
    case None => (t.(ports := g.after), None)
    case Some(off) =>
      var id := Itoa(t.nextSeq);
      (t.(created := t.created[id := now], portOf := t.portOf[id := off], ports := g.after,
          nextSeq := t.nextSeq + 1, snap := t.snap + [id]),
       Some(id))
  }

  function Drop(snap: seq<ID>, id: ID): (r: seq<ID>)
    ensures forall x :: x in r <==> x in snap && x != id
  {
    if snap == [] then []
    else
      assert snap == [snap[0]] + snap[1..];
      if snap[0] == id then Drop(snap[1..], id) else [snap[0]] + Drop(snap[1..], id)
  }

  function Remove(t: Table, id: ID): Table {
    var gone := t.(created := t.created - {id}, snap := Drop(t.snap, id));
    if id in t.portOf
    then gone.(ports := Release(t.ports, t.portOf[id]), portOf := t.portOf - {id})
    else gone
  }

  /** Whether the first instance is in the table and was created after the second. */
  function NewerThan(created: map<ID, int>): (ID, ID) -> bool {
    (owner, id) => owner in created && id in created && created[owner] > created[id]
  }

  /** An id printed from a creation number below the bound. */
  ghost predicate IsSeqId(id: ID, bound: nat) {
    match Atoi(id)
    case None => false
    case Some(n) => n < bound && Itoa(n) == id
  }

  /** A snapshot lists exactly the given ids, strictly ordered by creation number. */
  ghost predicate IsSnapshot(snap: seq<ID>, ids: set<ID>) {
    && (forall id :: id in snap <==> id in ids)
    && (forall i, j :: 0 <= i < j < |snap| ==> ViewLess(snap[i], snap[j]) < 0)
  }

  /** The offsets in use are held by one instance each. */
  ghost predicate OneHolderEach(portOf: map<ID, nat>, used: set<nat>) {
    && (forall id :: id in portOf ==> portOf[id] in used)
    && (forall a, b :: a in portOf && b in portOf && portOf[a] == portOf[b] ==> a == b)
    && (forall off :: off in used ==> exists id :: id in portOf && portOf[id] == off)
  }

  ghost predicate TableInv(t: Table) {
    && Partitioned(t.ports)
    && t.portOf.Keys == t.created.Keys
    && OneHolderEach(t.portOf, t.ports.used)
    && (forall id :: id in t.created ==> IsSeqId(id, t.nextSeq))
    && IsSnapshot(t.snap, t.created.Keys)
  }

  lemma NewId(n: nat)
    ensures IsSeqId(Itoa(n), n + 1) && !IsSeqId(Itoa(n), n)
  {
    AtoiItoa(n);
  }

  /** Creation numbers order the ids they print as. */
  lemma EarlierIdsComeFirst(id: ID, n: nat)
    requires IsSeqId(id, n)
    ensures ViewLess(id, Itoa(n)) < 0
  {
    ViewLessIsCreationOrder(Atoi(id).value, n);
  }

  lemma AppendKeepsSnapshot(snap: seq<ID>, ids: set<ID>, n: nat)
    requires IsSnapshot(snap, ids) && forall id :: id in ids ==> IsSeqId(id, n)
    ensures IsSnapshot(snap + [Itoa(n)], ids + {Itoa(n)})
  {
    forall i | 0 <= i < |snap|
      ensures ViewLess(snap[i], Itoa(n)) < 0
    {
      EarlierIdsComeFirst(snap[i], n);
    }
  }

  lemma {:induction false} DropKeepsOrder(snap: seq<ID>, id: ID)
    requires forall i, j :: 0 <= i < j < |snap| ==> ViewLess(snap[i], snap[j]) < 0
    ensures forall i, j :: 0 <= i < j < |Drop(snap, id)| ==> ViewLess(Drop(snap, id)[i], Drop(snap, id)[j]) < 0
  {
    if snap != [] {
      var rest := Drop(snap[1..], id);
      DropKeepsOrder(snap[1..], id);
      forall j | 0 <= j < |rest|
        ensures ViewLess(snap[0], rest[j]) < 0
      {
        assert rest[j] in snap[1..];
      }
    }
  }

  lemma NewHolder(portOf: map<ID, nat>, used: set<nat>, id: ID, off: nat)
    requires OneHolderEach(portOf, used) && id !in portOf && off !in used
    ensures OneHolderEach(portOf[id := off], used + {off})
  {
    var after := portOf[id := off];
    forall o | o in used + {off}
      ensures exists x :: x in after && after[x] == o
    {
      if o == off {
        assert after[id] == o;
      } else {
        var x :| x in portOf && portOf[x] == o;
        assert after[x] == o;
      }
    }
  }

  lemma HolderGone(portOf: map<ID, nat>, used: set<nat>, id: ID)
    requires OneHolderEach(portOf, used) && id in portOf
    ensures OneHolderEach(portOf - {id}, used - {portOf[id]})
  {
    var after := portOf - {id};
    forall o | o in used - {portOf[id]}
      ensures exists x :: x in after && after[x] == o
    {
      var x :| x in portOf && portOf[x] == o;
      assert x in after && after[x] == o;
    }
  }

  lemma LaterBound(t: Table)
    requires TableInv(t)
    ensures forall id :: id in t.created ==> IsSeqId(id, t.nextSeq + 1)
  {
  }

  /** A creation fails exactly when every port is in use, and then changes nothing. */
  lemma CreateFailsIffPortsExhausted(t: Table, now: int)
    requires TableInv(t)
    ensures var (u, id) := Create(t, now);
            && (id.None? <==> forall off: nat :: t.ports.base + off <= MAX_PORT ==> off in t.ports.used)
            && (id.None? ==> u == t)
  {
    AcquireKeepsPartition(t.ports);
    AcquireFailsIffExhausted(t.ports);
  }

  /** A creation adds one instance, under an id that was never used before. */
  lemma CreateKeepsTable(t: Table, now: int)
    requires TableInv(t)
    ensures var (u, id) := Create(t, now);
            && TableInv(u)
            && (id.Some? ==>
                  && id.value == Itoa(t.nextSeq) && id.value !in t.created
                  && u.created == t.created[id.value := now] && u.nextSeq == t.nextSeq + 1)
  {
    hide Itoa, ViewLess, IsSnapshot, OneHolderEach, Partitioned;
    AcquireKeepsPartition(t.ports);
    NewId(t.nextSeq);
    LaterBound(t);
    var (u, id) := Create(t, now);
    if id.Some? {
      AppendKeepsSnapshot(t.snap, t.created.Keys, t.nextSeq);
      assert u.created.Keys == t.created.Keys + {id.value};
      NewHolder(t.portOf, t.ports.used, id.value, Acquire(t.ports).offset.value);
    }
  }

  lemma RemoveKeepsTable(t: Table, id: ID)
    requires TableInv(t)
    ensures TableInv(Remove(t, id))
    ensures Remove(t, id).created == t.created - {id}
  {
    DropKeepsOrder(t.snap, id);
    if id in t.portOf {
      ReleaseKeepsPartition(t.ports, t.portOf[id]);
      HolderGone(t.portOf, t.ports.used, id);
    } else {
      assert t.created - {id} == t.created;
    }
  }

  /** No two instances in the table listen on the same address. */
  lemma ListenAddressesDiffer(t: Table, host: string, a: ID, b: ID)
    requires TableInv(t) && a in t.created && b in t.created && a != b
    ensures Address(host, t.ports, t.portOf[a]) != Address(host, t.ports, t.portOf[b])
    ensures MIN_PORT <= t.ports.base + t.portOf[a] <= MAX_PORT
  {
    if Address(host, t.ports, t.portOf[a]) == Address(host, t.ports, t.portOf[b]) {
      AddressInjective(host, t.ports, t.portOf[a], t.portOf[b]);
    }
  }

  // ----- sorting from scratch gives the same snapshot -----

  lemma ViewLessIsStrict(a: ID, b: ID, bound: nat)
    requires IsSeqId(a, bound) && IsSeqId(b, bound)
    ensures ViewLess(a, b) < 0 ==> ViewLess(b, a) > 0
    ensures ViewLess(a, b) == 0 ==> a == b
  {
  }

  lemma {:induction false} SnapshotIsUnique(s1: seq<ID>, s2: seq<ID>, ids: set<ID>, bound: nat)
    requires IsSnapshot(s1, ids) && IsSnapshot(s2, ids)
    requires forall id :: id in ids ==> IsSeqId(id, bound)
    ensures s1 == s2
    decreases |s1|
  {
    if s1 == [] {
      assert forall i :: 0 <= i < |s2| ==> s2[i] in s1;
    } else {
      FirstAgrees(s1, s2, ids, bound);
      TailSnapshot(s1, ids, bound);
      TailSnapshot(s2, ids, bound);
      SnapshotIsUnique(s1[1..], s2[1..], ids - {s1[0]}, bound);
      assert s1 == [s1[0]] + s1[1..] && s2 == [s2[0]] + s2[1..];
    }
  }

  lemma FirstAgrees(s1: seq<ID>, s2: seq<ID>, ids: set<ID>, bound: nat)
    requires IsSnapshot(s1, ids) && IsSnapshot(s2, ids) && s1 != []
    requires forall id :: id in ids ==> IsSeqId(id, bound)
    ensures |s2| > 0 && s1[0] == s2[0]
  {
    assert s1[0] in ids;
    var i :| 0 <= i < |s2| && s2[i] == s1[0];
    assert s2[0] in ids;
    var j :| 0 <= j < |s1| && s1[j] == s2[0];
    ViewLessIsStrict(s1[0], s2[0], bound);
  }

  lemma TailSnapshot(s: seq<ID>, ids: set<ID>, bound: nat)
    requires IsSnapshot(s, ids) && s != []
    requires forall id :: id in ids ==> IsSeqId(id, bound)
    ensures IsSnapshot(s[1..], ids - {s[0]})
  {
    assert s == [s[0]] + s[1..];
    assert s[0] in ids && ViewLess(s[0], s[0]) == 0;
    assert forall j :: 0 < j < |s| ==> s[j] != s[0];
  }
}
