/** The listener port allocator: offsets from a base port, released offsets reused first. */
module Ports {
  import opened Wrappers
  import opened Decimal

  const MIN_PORT: nat := 1
  const MAX_PORT: nat := 65535

  datatype Allocator = Allocator(base: nat, next: nat, used: set<nat>, free: seq<nat>)

  datatype Grant = Grant(after: Allocator, offset: Option<nat>)

  /** Where the scan for a fresh offset stops: the first unused offset, or just past the last port. */
  function SkipUsed(base: nat, next: nat, used: set<nat>): (n: nat)
    ensures next <= n
    ensures forall off :: next <= off < n ==> off in used
    decreases MAX_PORT + 1 - (base + next)
  {
    if base + next <= MAX_PORT && next in used then SkipUsed(base, next + 1, used) else next
  }

  function Acquire(a: Allocator): Grant {
    if |a.free| > 0 then
      var off := a.free[|a.free| - 1];
      Grant(a.(free := a.free[..|a.free| - 1], used := a.used + {off}), Some(off))
    else
      var off := SkipUsed(a.base, a.next, a.used);
      if a.base + off <= MAX_PORT
      then Grant(a.(next := off + 1, used := a.used + {off}), Some(off))
      else Grant(a.(next := off), None)
  }

  function Release(a: Allocator, off: nat): Allocator {
    if off !in a.used then a else a.(used := a.used - {off}, free := a.free + [off])
  }

  /** `newPortAllocator` once the host and port have been split: an illegal port is an error. */
  function NewAllocator(port: int): Option<Allocator> {
    if port < MIN_PORT || port > MAX_PORT then None else Some(Allocator(port, 0, {}, []))
  }

  /** Used and free offsets split 0..next-1 between them, without repetition. */
  ghost predicate Partitioned(a: Allocator) {
    && MIN_PORT <= a.base <= MAX_PORT
    && a.base + a.next <= MAX_PORT + 1
    && (forall off :: off in a.used ==> off < a.next)
    && (forall i :: 0 <= i < |a.free| ==> a.free[i] < a.next && a.free[i] !in a.used)
    && (forall i, j :: 0 <= i < j < |a.free| ==> a.free[i] != a.free[j])
    && (forall off: nat :: off < a.next ==> off in a.used || off in a.free)
  }

  lemma NewAllocatorIsPartitioned(port: int)
    ensures NewAllocator(port).Some? <==> MIN_PORT <= port <= MAX_PORT
    ensures NewAllocator(port).Some? ==> Partitioned(NewAllocator(port).value)
  {
  }

  /** A granted offset was not in use, its port is legal, and the scan skips nothing. */
  lemma AcquireKeepsPartition(a: Allocator)
    requires Partitioned(a)
    ensures SkipUsed(a.base, a.next, a.used) == a.next
    ensures Partitioned(Acquire(a).after)
    ensures Acquire(a).offset.Some? ==>
              && Acquire(a).offset.value !in a.used
              && a.base + Acquire(a).offset.value <= MAX_PORT
              && Acquire(a).after.used == a.used + {Acquire(a).offset.value}
    ensures Acquire(a).offset.None? ==> Acquire(a).after == a
  {
    var g := Acquire(a);
    if |a.free| > 0 {
      var last := |a.free| - 1;
      forall off: nat | off < a.next
        ensures off in g.after.used || off in g.after.free
      {
        if off in a.free {
          var i :| 0 <= i < |a.free| && a.free[i] == off;
          assert i < last ==> g.after.free[i] == off;
        }
      }
    }
  }

  /** `acquire` fails exactly when every port from the base to the last one is in use. */
  lemma AcquireFailsIffExhausted(a: Allocator)
    requires Partitioned(a)
    ensures Acquire(a).offset.None? <==> forall off: nat :: a.base + off <= MAX_PORT ==> off in a.used
  {
    AcquireKeepsPartition(a);
    if Acquire(a).offset.None? {
      assert a.free == [] && a.base + a.next == MAX_PORT + 1;
    } else {
      var off := Acquire(a).offset.value;
      assert a.base + off <= MAX_PORT && off !in a.used;
    }
  }

  lemma ReleaseKeepsPartition(a: Allocator, off: nat)
    requires Partitioned(a)
    ensures Partitioned(Release(a, off))
    ensures Release(a, off).used == a.used - {off}
  {
    if off in a.used {
      var b := Release(a, off);
      forall o: nat | o < b.next
        ensures o in b.used || o in b.free
      {
        if o == off {
          assert b.free[|a.free|] == off;
        } else if o in a.free {
          var i :| 0 <= i < |a.free| && a.free[i] == o;
          assert b.free[i] == o;
        }
      }
    }
  }

  /** Releasing undoes acquiring on the used set, and the freed offset is the next one handed out. */
  lemma ReleaseUndoesAcquire(a: Allocator)
    requires Partitioned(a) && Acquire(a).offset.Some?
    ensures Release(Acquire(a).after, Acquire(a).offset.value).used == a.used
    ensures Acquire(Release(Acquire(a).after, Acquire(a).offset.value)).offset == Acquire(a).offset
  {
    AcquireKeepsPartition(a);
  }

  /** How many more acquisitions can succeed. */
  function Spare(a: Allocator): int {
    MAX_PORT + 1 - a.base - |a.used|
  }

  lemma {:induction false} BoundedSetSize(s: set<nat>, n: nat)
    requires forall x :: x in s ==> x < n
    ensures |s| <= n
    ensures |s| == n ==> forall x: nat :: x < n ==> x in s
  {
    if n == 0 {
      assert s == {};
    } else {
      BoundedSetSize(s - {n - 1}, n - 1);
    }
  }

  /** The number of successes left is exact: an acquisition fails if and only if it is zero. */
  lemma SpareIsExact(a: Allocator)
    requires Partitioned(a)
    ensures Spare(a) >= 0
    ensures Acquire(a).offset.Some? <==> Spare(a) > 0
    ensures Acquire(a).offset.Some? ==> Spare(Acquire(a).after) == Spare(a) - 1
  {
    AcquireKeepsPartition(a);
    BoundedSetSize(a.used, a.next);
    var total: nat := MAX_PORT + 1 - a.base;
    BoundedSetSize(a.used, total);
    if Acquire(a).offset.None? {
      assert forall x: nat :: x < total ==> x in a.used;
      AllBelowSize(a.used, total);
    }
  }

  lemma {:induction false} AllBelowSize(s: set<nat>, n: nat)
    requires forall x: nat :: x < n ==> x in s
    ensures |s| >= n
  {
    if n > 0 {
      AllBelowSize(s - {n - 1}, n - 1);
    }
  }

  /** Host and separator as `net.JoinHostPort` writes them: a host with a colon in it is bracketed. */
  function HostPart(host: string): string {
    if ':' in host then "[" + host + "]:" else host + ":"
  }

  function Address(host: string, a: Allocator, off: nat): string {
    HostPart(host) + Itoa(a.base + off)
  }

  /** An address is the host, then the port in decimal: base and offset can be read back from it. */
  lemma AddressNamesThePort(host: string, a: Allocator, off: nat)
    ensures var text := Address(host, a, off);
            var prefix := if ':' in host then "[" + host + "]:" else host + ":";
            && |prefix| < |text| && text[..|prefix|] == prefix
            && Atoi(text[|prefix|..]) == Some(a.base + off)
  {
    var prefix := HostPart(host);
    assert Address(host, a, off)[|prefix|..] == Itoa(a.base + off);
    AtoiItoa(a.base + off);
  }

  /** Different offsets listen on different addresses. */
  lemma AddressInjective(host: string, a: Allocator, m: nat, n: nat)
    requires Address(host, a, m) == Address(host, a, n)
    ensures m == n
  {
    var prefix := HostPart(host);
    assert Itoa(a.base + m) == Address(host, a, m)[|prefix|..];
    assert Itoa(a.base + n) == Address(host, a, n)[|prefix|..];
    ItoaInjective(a.base + m, a.base + n);
  }

  class PortAllocator {
    const host: string
    const base: nat
    var next: nat
    var used: set<nat>
    var free: seq<nat>

    ghost function State(): Allocator
      reads this
    {
      Allocator(base, next, used, free)
    }

    constructor (host: string, base: nat)
      requires MIN_PORT <= base <= MAX_PORT
      ensures NewAllocator(base) == Some(State())
      ensures this.host == host
    {
      this.host, this.base := host, base;
      next, used, free := 0, {}, [];
    }

    method AcquirePort() returns (addr: string, off: nat, ok: bool)
      modifies this
      ensures Acquire(old(State())) == Grant(State(), if ok then Some(off) else None)
      ensures ok ==> addr == Address(host, State(), off)
    {
      var n := |free|;
      if n > 0 {
        off := free[n - 1];
        free := free[..n - 1];
        used := used + {off};
        return Addr(off), off, true;
      }
      while base + next <= MAX_PORT
        invariant used == old(used) && free == old(free)
        invariant SkipUsed(base, next, used) == SkipUsed(base, old(next), used)
        decreases MAX_PORT + 1 - (base + next)
      {
        if next in used {
          next := next + 1;
          continue;
        }
        off := next;
        used := used + {off};
        next := next + 1;
        return Addr(off), off, true;
      }
      return "", 0, false;
    }

    method ReleasePort(off: nat)
      modifies this
      ensures State() == Release(old(State()), off)
    {
      if off !in used {
        return;
      }
      used := used - {off};
      free := free + [off];
    }

    function Addr(off: nat): (s: string)
      reads this
      ensures s == Address(host, State(), off)
    {
      HostPart(host) + Itoa(base + off)
    }
  }
}
