/** The code of pool.go run by the coordinator: maps updated in place, loops over them in any order.
    Statuses and clocks are read from outside and may change between reads. Every method is proved
    against the functions of modules Registry and Table. */
module PoolCode {
  import opened Wrappers
  import opened Decimal
  import opened Types
  import opened EgressKeys
  import opened Numbers
  import P = Ports
  import R = Registry
  import T = Table
  import I = Instances
  import E = Eviction

  type Send = (ID, I.Command)

  function Asked(send: Option<Send>): seq<Send> {
    if send.Some? then [send.value] else []
  }

  /** What one result of a check stores: nothing when it failed or read no address. */
  function Read(id: ID, eg: Egress, failed: bool): seq<(ID, Egress)> {
    if failed || eg == NO_EGRESS then [] else [(id, eg)]
  }

  /** What an eviction policy answers to the candidates, listed in any order. */
  type Evictor = seq<InstanceView> -> Option<ID>

  type Statuses = ID -> Status

  datatype Stop = Enough | Full | NoPorts

  predicate CountsAsActive(s: Status) {
    s == Normal || s == Probing
  }

  /** The instances read as Normal or Probing in one round of reads. */
  ghost function ActiveIds(ids: set<ID>, status: Statuses): set<ID> {
    set id | id in ids && CountsAsActive(status(id))
  }

  /** The decided instances of the table that are read as Probing and waiting, each once. */
  ghost predicate AwaitingAnswer(sent: seq<ID>, ids: set<ID>, decided: set<ID>, status: Statuses, awaiting: ID -> bool) {
    && (forall id :: id in sent <==> id in ids && id in decided && status(id) == Probing && awaiting(id))
    && (forall i, j :: 0 <= i < j < |sent| ==> sent[i] != sent[j])
  }

  /** The instances of the table that are read as Normal and fail their check, each once. */
  ghost predicate FailingCheck(sent: seq<ID>, ids: set<ID>, status: Statuses, healthy: ID -> bool) {
    && (forall id :: id in sent <==> id in ids && status(id) == Normal && !healthy(id))
    && (forall i, j :: 0 <= i < j < |sent| ==> sent[i] != sent[j])
  }

  /** One candidate per instance of the table, as read, in any order. */
  ghost predicate IsListing(views: seq<InstanceView>, instances: map<ID, int>, status: Statuses) {
    && |views| == |instances|
    && (forall i, j :: 0 <= i < j < |views| ==> views[i] != views[j])
    && (forall v :: v in views <==> v.id in instances && v == InstanceView(v.id, status(v.id), instances[v.id]))
  }

  ghost predicate Lists(views: seq<InstanceView>, ids: set<ID>, instances: map<ID, int>, status: Statuses) {
    && ids <= instances.Keys
    && |views| == |ids|
    && (forall i, j :: 0 <= i < j < |views| ==> views[i] != views[j])
    && (forall v :: v in views <==>
          v.id in ids && v.id in instances && v == InstanceView(v.id, status(v.id), instances[v.id]))
  }

  lemma NoneListed(instances: map<ID, int>, status: Statuses)
    ensures Lists([], {}, instances, status)
  {
  }

  lemma OneMoreListed(views: seq<InstanceView>, ids: set<ID>, instances: map<ID, int>, status: Statuses, id: ID)
    requires Lists(views, ids, instances, status) && id in instances && id !in ids
    ensures Lists(views + [InstanceView(id, status(id), instances[id])], ids + {id}, instances, status)
  {
    var v := InstanceView(id, status(id), instances[id]);
    assert v !in views;
    assert forall i :: 0 <= i < |views| ==> views[i] in views;
  }

  lemma AllListed(views: seq<InstanceView>, instances: map<ID, int>, status: Statuses)
    requires Lists(views, instances.Keys, instances, status)
    ensures IsListing(views, instances, status)
  {
    assert |instances| == |instances.Keys|;
  }

  /** The instance to stop: what the policy answers, if it is in the table. */
  function Chosen(evictor: Evictor, views: seq<InstanceView>, instances: map<ID, int>): Option<ID> {
    var victim := evictor(views);
    if victim.Some? && victim.value in instances then victim else None
  }

  ghost predicate EvictedBy(evictor: Evictor, instances: map<ID, int>, status: Statuses, victim: Option<ID>) {
    exists views :: IsListing(views, instances, status) && victim == Chosen(evictor, views, instances)
  }

  function Stops(victim: Option<ID>): seq<Send> {
    if victim.Some? then [(victim.value, I.Stop)] else []
  }

  class Pool {
    const keyer: Keyer
    const evictor: Evictor
    const host: string
    const ports: P.PortAllocator

    var min: int
    var max: int

    var usedKeys: map<string, ID>
    var keysByInst: map<ID, string>
    var emptyByInst: map<ID, nat>
    var instances: map<ID, int>
    var portOf: map<ID, nat>
    var nextSeq: nat
    var snap: seq<ID>

    /** The commands handed to `send`, in order; whether they are accepted is not the pool's to know. */
    var out: seq<Send>

    /** The valid egress addresses that checks store into instances, in order. */
    var stored: seq<(ID, Egress)>

    // History.
    var heard: map<ID, nat>
    var accepted: map<ID, nat>
    var exempt: set<ID>
    var rekeyed: set<ID>
    var seen: map<ID, Egress>
    var log: seq<R.Decision>

    ghost function Reg(): R.Registry
      reads this
    {
      R.Registry(usedKeys, keysByInst, emptyByInst, heard, accepted, exempt, rekeyed, seen, log)
    }

    ghost function Tab(): T.Table
      reads this, ports
    {
      T.Table(instances, portOf, ports.State(), nextSeq, snap)
    }

    constructor (keyer: Keyer, evictor: Evictor, host: string, base: nat, min: int, max: int)
      requires P.MIN_PORT <= base <= P.MAX_PORT
      ensures Reg() == R.EMPTY
      ensures T.TableInv(Tab()) && instances == map[] && nextSeq == 0
      ensures fresh(ports) && this.keyer == keyer && this.min == min && this.max == max && out == [] && stored == []
    {
      this.keyer, this.evictor, this.host, this.min, this.max := keyer, evictor, host, min, max;
      ports := new P.PortAllocator(host, base);
      usedKeys, keysByInst, emptyByInst, instances, portOf := map[], map[], map[], map[], map[];
      nextSeq, snap, out, stored := 0, [], [], [];
      heard, accepted, exempt, rekeyed, seen, log := map[], map[], {}, {}, map[], [];
      new;
      P.NewAllocatorIsPartitioned(base);
    }

    // ----- the registry -----

    method ReleaseKey(id: ID)
      modifies this`usedKeys, this`keysByInst
      ensures Reg() == old(R.ReleaseKey(Reg(), id))
    {
      if id !in keysByInst {
        return;
      }
      var key := keysByInst[id];
      keysByInst := keysByInst - {id};
      if R.Text(usedKeys, key) == id {
        usedKeys := usedKeys - {key};
      }
    }

    /** An accepted or exempted report. */
    method Settle(id: ID, eg: Egress, report: nat)
      modifies this`usedKeys, this`keysByInst, this`emptyByInst, this`accepted, this`exempt, this`rekeyed, this`seen
      ensures Reg() == old(R.Settle(Reg(), id, eg, report))
    {
      ReleaseKey(id);
      emptyByInst := emptyByInst - {id};
      accepted := accepted[id := report];
      exempt := exempt - {id};
      rekeyed := rekeyed - {id};
      seen := seen[id := eg];
    }

    method HandleReady(id: ID, eg: Egress, report: nat)
      modifies this`usedKeys, this`keysByInst, this`emptyByInst, this`out,
               this`heard, this`accepted, this`exempt, this`rekeyed, this`seen, this`log
      ensures Reg() == old(R.HandleReady(Reg(), keyer, id, eg, report)).0
      ensures out == old(out) + [(id, old(R.HandleReady(Reg(), keyer, id, eg, report)).1)]
    {
      hide R.Settle, WhitelistedEmptyKey;
      heard := heard[id := report];
      var key := keyer(eg);
      if WhitelistedEmptyKey(key, eg) {
        Settle(id, eg, report);
        keysByInst := keysByInst[id := ""];
        log := log + [R.Decision(id, R.Exempted)];
        out := out + [(id, I.Confirm(report))];
        return;
      }
      if key == "" {
        var n := R.Count(emptyByInst, id) + 1;
        if n < R.PROBE_FAIL_LIMIT {
          emptyByInst := emptyByInst[id := n];
          log := log + [R.Decision(id, R.AskedToReprobe)];
          out := out + [(id, I.Reprobe)];
          return;
        }
        emptyByInst := emptyByInst - {id};
        log := log + [R.Decision(id, R.ReplayedAsEmpty)];
        out := out + [(id, I.Replay)];
        return;
      }
      if key in usedKeys && usedKeys[key] != id {
        log := log + [R.Decision(id, R.ReplayedAsDuplicate)];
        out := out + [(id, I.Replay)];
        return;
      }
      Settle(id, eg, report);
      usedKeys := usedKeys[key := id];
      keysByInst := keysByInst[id := key];
      log := log + [R.Decision(id, R.Accepted)];
      out := out + [(id, I.Confirm(report))];
    }

    /** One result of the periodic egress check. */
    method ApplyEgress(id: ID, eg: Egress, failed: bool)
      modifies this`usedKeys, this`keysByInst, this`out, this`stored, this`exempt, this`rekeyed, this`seen
      ensures var (r, send) := old(R.ApplyEgress(Reg(), keyer, id, eg, failed, T.NewerThan(instances)));
              && Reg() == r
              && out == old(out) + Asked(send)
      ensures stored == old(stored) + Read(id, eg, failed)
      ensures (failed || keyer(eg) == "") && eg == NO_EGRESS ==>
                Reg() == old(Reg()) && out == old(out) + [(id, I.Drain)]
    {
      R.AnswerToCheck(Reg(), keyer, id, eg, failed, T.NewerThan(instances));
      hide R.ApplyEgress;
      var key := "";
      if !failed {
        key := keyer(eg);
        if eg != NO_EGRESS {
          stored := stored + [(id, eg)];
        }
      }
      JudgeKey(id, key, eg, failed);
    }

    /** What the key found means for the instance and for the one that owns it. */
    method JudgeKey(id: ID, key: string, eg: Egress, ghost failed: bool)
      requires key == if failed then "" else keyer(eg)
      modifies this`usedKeys, this`keysByInst, this`out, this`exempt, this`rekeyed, this`seen
      ensures var (r, send) := old(R.ApplyEgress(Reg(), keyer, id, eg, failed, T.NewerThan(instances)));
              && Reg() == r
              && out == old(out) + Asked(send)
    {
      hide R.ReleaseKey, R.Rekey, WhitelistedEmptyKey;
      if WhitelistedEmptyKey(key, eg) {
        ReleaseKey(id);
        exempt := exempt + {id};
        return;
      }
      if key == "" {
        out := out + [(id, I.Drain)];
        return;
      }
      if R.Text(keysByInst, id) == key {
        return;
      }
      if key in usedKeys && usedKeys[key] != id {
        var victim := id;
        var owner := usedKeys[key];
        if owner in instances && id in instances && instances[owner] > instances[id] {
          victim := owner;
        }
        out := out + [(victim, I.Drain)];
        return;
      }
      Move(id, key, eg);
    }

    /** The entry moves to the new key. */
    method Move(id: ID, key: string, eg: Egress)
      modifies this`usedKeys, this`keysByInst, this`exempt, this`rekeyed, this`seen
      ensures Reg() == old(R.Rekey(Reg(), id, key, eg))
    {
      hide R.ReleaseKey;
      ReleaseKey(id);
      usedKeys := usedKeys[key := id];
      keysByInst := keysByInst[id := key];
      exempt := exempt - {id};
      rekeyed := rekeyed + {id};
      seen := seen[id := eg];
    }

    /** Confirm again every decided instance that is read as Probing and waiting. */
    method ReconfirmProbing(status: Statuses, awaiting: ID -> bool) returns (sent: seq<ID>)
      modifies this`out
      ensures AwaitingAnswer(sent, instances.Keys, keysByInst.Keys, status, awaiting)
      ensures out == old(out) + Confirms(sent, accepted)
    {
      hide Confirms, AwaitingAnswer;
      sent := [];
      NoConfirms(accepted);
      var rest := instances.Keys;
      NoneAwaiting(instances.Keys - rest, keysByInst.Keys, status, awaiting);
      while rest != {}
        invariant rest <= instances.Keys
        invariant AwaitingAnswer(sent, instances.Keys - rest, keysByInst.Keys, status, awaiting)
        invariant out == old(out) + Confirms(sent, accepted)
        decreases rest
      {
        var id :| id in rest;
        NextAwaiting(sent, instances.Keys - rest, keysByInst.Keys, status, awaiting, id);
        assert instances.Keys - (rest - {id}) == (instances.Keys - rest) + {id};
        rest := rest - {id};
        if id in keysByInst && status(id) == Probing && awaiting(id) {
          OneMoreConfirm(sent, accepted, id);
          sent := sent + [id];
          out := out + [(id, I.Confirm(R.Count(accepted, id)))];
        }
      }
      assert instances.Keys - rest == instances.Keys;
    }

    /** Every Normal instance that fails its check is told to drain, and no other. */
    method HealthCheck(status: Statuses, healthy: ID -> bool) returns (sent: seq<ID>)
      modifies this`out
      ensures FailingCheck(sent, instances.Keys, status, healthy)
      ensures out == old(out) + Drains(sent)
    {
      hide Drains, FailingCheck;
      sent := [];
      NoDrains();
      var rest := instances.Keys;
      NoneFailing(instances.Keys - rest, status, healthy);
      while rest != {}
        invariant rest <= instances.Keys
        invariant FailingCheck(sent, instances.Keys - rest, status, healthy)
        invariant out == old(out) + Drains(sent)
        decreases rest
      {
        var id :| id in rest;
        NextFailing(sent, instances.Keys - rest, status, healthy, id);
        assert instances.Keys - (rest - {id}) == (instances.Keys - rest) + {id};
        rest := rest - {id};
        if status(id) == Normal && !healthy(id) {
          OneMoreDrain(sent, id);
          sent := sent + [id];
          out := out + [(id, I.Drain)];
        }
      }
      assert instances.Keys - rest == instances.Keys;
    }

    // ----- the table -----

    /** Rebuild the snapshot from the map, sorted: there is only one it can be. */
    method Publish(ghost expected: seq<ID>)
      requires forall id :: id in instances ==> T.IsSeqId(id, nextSeq)
      requires T.IsSnapshot(expected, instances.Keys)
      modifies this`snap
      ensures snap == expected
    {
      snap := SortedIds(instances.Keys, nextSeq);
      T.SnapshotIsUnique(snap, expected, instances.Keys, nextSeq);
    }

    /** Drop what the registry knows of an instance. */
    method Forget(id: ID)
      modifies this`usedKeys, this`keysByInst, this`emptyByInst, this`log
      ensures Reg() == old(R.Forget(Reg(), id))
    {
      ReleaseKey(id);
      emptyByInst := emptyByInst - {id};
      log := log + [R.Decision(id, R.Removed)];
    }

    method RemoveInstance(id: ID)
      requires T.TableInv(Tab())
      modifies this`instances, this`portOf, this`snap, this`usedKeys, this`keysByInst, this`emptyByInst, this`log, ports
      ensures Reg() == old(R.Forget(Reg(), id))
      ensures Tab() == old(T.Remove(Tab(), id)) && T.TableInv(Tab())
    {
      hide T.TableInv, T.Remove, T.IsSnapshot, T.IsSeqId, R.Forget, P.Release;
      T.RemoveKeepsTable(Tab(), id);
      RemovedFields(Tab(), id);
      ghost var after := T.Remove(Tab(), id);
      instances := instances - {id};
      Forget(id);
      if id in portOf {
        ports.ReleasePort(portOf[id]);
        portOf := portOf - {id};
      }
      Publish(after.snap);
      assert Tab() == after;
    }

    /** Take a port and start an instance under the next id; nothing changes when the ports are exhausted. */
    method CreateInstance(now: int) returns (ok: bool)
      requires T.TableInv(Tab())
      modifies this`instances, this`portOf, this`nextSeq, this`snap, ports
      ensures T.TableInv(Tab())
      ensures Tab() == old(T.Create(Tab(), now)).0
      ensures ok <==> old(T.Create(Tab(), now)).1.Some?
    {
      hide T.TableInv, T.Create, T.IsSnapshot, T.IsSeqId, Itoa, P.Acquire;
      T.CreateKeepsTable(Tab(), now);
      CreatedFields(Tab(), now);
      ghost var after := T.Create(Tab(), now).0;
      var addr, off, got := ports.AcquirePort();
      if !got {
        return false;
      }
      var s := nextSeq;
      nextSeq := nextSeq + 1;
      var id := Itoa(s);
      instances := instances[id := now];
      portOf := portOf[id := off];
      Publish(after.snap);
      return true;
    }

    /** The same call, summed up by what it adds. */
    method Grow(now: int) returns (ok: bool)
      requires T.TableInv(Tab())
      modifies this`instances, this`portOf, this`nextSeq, this`snap, ports
      ensures T.TableInv(Tab())
      ensures Tab() == NextTable(old(Tab()), now)
      ensures ok ==> OneMore(old(instances.Keys), instances.Keys) && P.Spare(ports.State()) == old(P.Spare(ports.State())) - 1
      ensures !ok ==> P.Spare(ports.State()) == 0 && Tab() == old(Tab())
    {
      hide T.TableInv, T.Create;
      CreationCounts(Tab(), now);
      ok := CreateInstance(now);
    }

    /** How many instances are Normal or Probing, each read once. */
    method ActiveCount(status: Statuses) returns (n: nat)
      ensures n == |ActiveIds(instances.Keys, status)|
      ensures n == |set id | id in instances && (status(id) == Normal || status(id) == Probing)|
    {
      n := 0;
      var rest := instances.Keys;
      ghost var counted: set<ID> := {};
      while rest != {}
        invariant rest <= instances.Keys
        invariant counted == ActiveIds(instances.Keys - rest, status)
        invariant n == |counted|
        decreases rest
      {
        var id :| id in rest;
        assert instances.Keys - (rest - {id}) == (instances.Keys - rest) + {id};
        rest := rest - {id};
        if CountsAsActive(status(id)) {
          counted := counted + {id};
          n := n + 1;
        }
      }
      assert instances.Keys - rest == instances.Keys;
      assert counted == set id | id in instances && (status(id) == Normal || status(id) == Probing);
    }

    /** The candidates for eviction, in whatever order the map is iterated. */
    method Views(status: Statuses) returns (out: seq<InstanceView>)
      ensures IsListing(out, instances, status)
    {
      hide Lists;
      out := [];
      NoneListed(instances, status);
      var rest := instances.Keys;
      assert instances.Keys - rest == {};
      while rest != {}
        invariant rest <= instances.Keys
        invariant Lists(out, instances.Keys - rest, instances, status)
        decreases rest
      {
        var id :| id in rest;
        assert instances.Keys - (rest - {id}) == (instances.Keys - rest) + {id};
        OneMoreListed(out, instances.Keys - rest, instances, status, id);
        rest := rest - {id};
        out := out + [InstanceView(id, status(id), instances[id])];
      }
      assert instances.Keys - rest == instances.Keys;
      AllListed(out, instances, status);
    }

    /** Ask the policy once, and stop its victim if that is an instance of the table. */
    method EvictOnce(status: Statuses) returns (victim: Option<ID>)
      modifies this`out
      ensures EvictedBy(evictor, instances, status, victim)
      ensures out == old(out) + Stops(victim)
    {
      var views := Views(status);
      victim := evictor(views);
      assert EvictedBy(evictor, instances, status, Chosen(evictor, views, instances));
      if victim.None? {
        return None;
      }
      if victim.value in instances {
        out := out + [(victim.value, I.Stop)];
        return victim;
      }
      return None;
    }

    /** One result of the check per instance, applied in whatever order the results arrive. */
    method EgressCheck(results: seq<(ID, Egress, bool)>)
      modifies this`usedKeys, this`keysByInst, this`out, this`stored, this`exempt, this`rekeyed, this`seen
      ensures Reg() == old(Checked(Reg(), keyer, results, T.NewerThan(instances))).0
      ensures out == old(out) + old(Checked(Reg(), keyer, results, T.NewerThan(instances))).1
      ensures stored == old(stored) + AllRead(results)
    {
      hide R.ApplyEgress, Checked, AllRead;
      NoneChecked(Reg(), keyer, T.NewerThan(instances));
      for i := 0 to |results|
        invariant Reg() == old(Checked(Reg(), keyer, results[..i], T.NewerThan(instances))).0
        invariant out == old(out) + old(Checked(Reg(), keyer, results[..i], T.NewerThan(instances))).1
        invariant stored == old(stored) + AllRead(results[..i])
      {
        OneMoreChecked(old(Reg()), keyer, results, i, T.NewerThan(instances));
        ApplyEgress(results[i].0, results[i].1, results[i].2);
      }
      assert results[..|results|] == results;
    }

    /** One round of the loop of `Align`: create one more instance, or say why not. */
    method AlignRound(status: Statuses, look: Statuses, now: int, low: int, high: int) returns (why: Option<Stop>, victim: Option<ID>)
      requires T.TableInv(Tab()) && |instances| <= high
      modifies this`instances, this`portOf, this`nextSeq, this`snap, this`out, ports
      ensures T.TableInv(Tab()) && |instances| <= high
      ensures why.None? ==>
                && |ActiveIds(old(instances.Keys), status)| < low && |old(instances)| < high
                && OneMore(old(instances.Keys), instances.Keys)
                && P.Spare(ports.State()) == old(P.Spare(ports.State())) - 1
                && Tab() == NextTable(old(Tab()), now)
      ensures why.Some? ==>
                && instances == old(instances)
                && Explained(why.value, instances.Keys, status, low, high, P.Spare(ports.State()))
                && P.Spare(ports.State()) == old(P.Spare(ports.State()))
                && Tab() == old(Tab())
      ensures if why == Some(Full) then EvictedBy(evictor, instances, look, victim) else victim.None?
      ensures out == old(out) + Stops(victim)
    {
      hide T.TableInv, T.Create, EvictedBy;
      var n := ActiveCount(status);
      if n >= low {
        return Some(Enough), None;
      }
      if |instances| >= high {
        victim := EvictOnce(look);
        return Some(Full), victim;
      }
      var ok := Grow(now);
      if ok {
        OneMoreSize(old(instances.Keys), instances.Keys);
        return None, None;
      }
      return Some(NoPorts), None;
    }

    /** Bring the number of active instances up to the minimum. Each round reads the statuses anew:
        the instances move while the loop runs, and are looked at once more for the eviction. The trail
        records the table's ids round by round. */
    method Align(status: nat -> Statuses, look: Statuses, now: nat -> int)
      returns (made: nat, why: Stop, victim: Option<ID>, ghost trail: seq<set<ID>>)
      requires T.TableInv(Tab())
      modifies this`instances, this`portOf, this`nextSeq, this`snap, this`out, ports
      ensures T.TableInv(Tab())
      ensures Aligned(old(Tab()), Tab(), evictor, status, look, now, min, max, made, why, victim, trail)
      ensures out == old(out) + Stops(victim)
    {
      hide T.TableInv, T.Create, EvictedBy;
      var low, high := min, max;
      made, trail := 0, [instances.Keys];
      SpareIsCounted(Tab());
      if |instances| > high {
        victim := EvictOnce(look);
        return 0, Full, victim, trail;
      }
      while true
        invariant T.TableInv(Tab())
        invariant Tab() == CreateTimes(old(Tab()), now, made)
        invariant Climb(trail, status, low, high, made)
        invariant trail[0] == old(instances.Keys) && trail[made] == instances.Keys
        invariant P.Spare(ports.State()) == old(P.Spare(ports.State())) - made >= 0
        invariant |instances| <= high
        invariant out == old(out)
        decreases high - |instances|
      {
        var stop;
        stop, victim := AlignRound(status(made), look, now(made), low, high);
        if stop.Some? {
          return made, stop.value, victim, trail;
        }
        OneMoreSize(trail[made], instances.Keys);
        ClimbOn(trail, status, low, high, made, instances.Keys);
        SpareIsCounted(Tab());
        made, trail := made + 1, trail + [instances.Keys];
      }
    }

    /** What an event other than a report does before the alignment. */
    method FreeUp(id: ID, ev: I.Event)
      requires T.TableInv(Tab()) && !ev.Ready?
      modifies this`instances, this`portOf, this`snap, this`usedKeys, this`keysByInst, this`emptyByInst, this`rekeyed, this`log, ports
      ensures Reg() == old(R.HandleEvent(Reg(), keyer, id, ev, 0))
      ensures Tab() == Cleared(old(Tab()), id, ev) && T.TableInv(Tab())
    {
      hide T.TableInv, T.Remove, R.ReleaseKey, R.Forget, R.HandleReady;
      if ev.Stopped? {
        RemoveInstance(id);
      } else {
        ReleaseKey(id);
        rekeyed := rekeyed - {id};
        log := log + [R.Decision(id, R.KeyReleased)];
      }
    }

    /** One event of an instance: a report is judged; anything else frees its key or removes it, and
        then the number of instances is aligned. */
    method HandleEvent(id: ID, ev: I.Event, report: nat, status: nat -> Statuses, look: Statuses, now: nat -> int)
      returns (made: nat, why: Stop, victim: Option<ID>, ghost trail: seq<set<ID>>)
      requires T.TableInv(Tab())
      modifies this`usedKeys, this`keysByInst, this`emptyByInst, this`out, this`heard, this`accepted, this`exempt,
               this`rekeyed, this`seen, this`log, this`instances, this`portOf, this`nextSeq, this`snap, ports
      ensures T.TableInv(Tab())
      ensures Reg() == old(R.HandleEvent(Reg(), keyer, id, ev, report))
      ensures ev.Ready? ==> Tab() == old(Tab()) && made == 0 && victim.None?
      ensures !ev.Ready? ==>
                Aligned(Cleared(old(Tab()), id, ev), Tab(), evictor, status, look, now, min, max, made, why, victim, trail)
      ensures out == old(out) + Answer(old(Reg()), keyer, id, ev, report) + Stops(victim)
    {
      hide T.TableInv, Cleared, Aligned, R.HandleReady, R.HandleEvent;
      EventByKind(Reg(), keyer, id, ev, report);
      assert Stops(None) == [];
      if ev.Ready? {
        HandleReady(id, ev.egress, report);
        return 0, Enough, None, [];
      }
      FreeUp(id, ev);
      made, why, victim, trail := Align(status, look, now);
    }
  }

  /** The table after a creation, field by field. */
  lemma CreatedFields(t: T.Table, now: int)
    requires T.TableInv(t)
    ensures var (u, id) := T.Create(t, now);
            var g := P.Acquire(t.ports);
            && (g.offset.None? ==> id.None? && u == t && g.after == t.ports)
            && (g.offset.Some? ==>
                  && id == Some(Itoa(t.nextSeq))
                  && u.created == t.created[Itoa(t.nextSeq) := now] && u.nextSeq == t.nextSeq + 1
                  && u.portOf == t.portOf[Itoa(t.nextSeq) := g.offset.value] && u.ports == g.after)
            && (forall x :: x in u.created ==> T.IsSeqId(x, u.nextSeq))
            && T.IsSnapshot(u.snap, u.created.Keys)
  {
    T.CreateKeepsTable(t, now);
    T.CreateFailsIffPortsExhausted(t, now);
  }

  /** The table without an instance, field by field. */
  lemma RemovedFields(t: T.Table, id: ID)
    requires T.TableInv(t)
    ensures var u := T.Remove(t, id);
            && u.created == t.created - {id} && u.nextSeq == t.nextSeq
            && u.ports == (if id in t.portOf then P.Release(t.ports, t.portOf[id]) else t.ports)
            && u.portOf == (if id in t.portOf then t.portOf - {id} else t.portOf)
            && (forall x :: x in u.created ==> T.IsSeqId(x, u.nextSeq))
            && T.IsSnapshot(u.snap, u.created.Keys)
  {
    T.RemoveKeepsTable(t, id);
  }

  /** The command that answers an event: only a report is answered. */
  function Answer(r: R.Registry, keyer: Keyer, id: ID, ev: I.Event, report: nat): seq<Send> {
    if ev.Ready? then [(id, R.HandleReady(r, keyer, id, ev.egress, report).1)] else []
  }

  lemma NoneChecked(r: R.Registry, keyer: Keyer, newer: (ID, ID) -> bool)
    ensures Checked(r, keyer, [], newer) == (r, []) && AllRead([]) == []
  {
  }

  lemma OneMoreChecked(r: R.Registry, keyer: Keyer, results: seq<(ID, Egress, bool)>, i: nat, newer: (ID, ID) -> bool)
    requires i < |results|
    ensures var (u, sent) := Checked(r, keyer, results[..i], newer);
            var (t, send) := R.ApplyEgress(u, keyer, results[i].0, results[i].1, results[i].2, newer);
            Checked(r, keyer, results[..i + 1], newer) == (t, sent + Asked(send))
    ensures AllRead(results[..i + 1]) == AllRead(results[..i]) + Read(results[i].0, results[i].1, results[i].2)
  {
    assert results[..i + 1][..i] == results[..i];
  }

  /** The table once an event is heard, before it is aligned. */
  ghost function Cleared(t: T.Table, id: ID, ev: I.Event): T.Table {
    if ev.Stopped? then T.Remove(t, id) else t
  }

  lemma EventByKind(r: R.Registry, keyer: Keyer, id: ID, ev: I.Event, report: nat)
    ensures ev.Ready? ==> R.HandleEvent(r, keyer, id, ev, report) == R.HandleReady(r, keyer, id, ev.egress, report).0
    ensures !ev.Ready? ==> R.HandleEvent(r, keyer, id, ev, report) == R.HandleEvent(r, keyer, id, ev, 0)
  {
  }

  /** The registry after the results of a check, one by one, and the commands sent on the way. */
  ghost function Checked(r: R.Registry, keyer: Keyer, results: seq<(ID, Egress, bool)>, newer: (ID, ID) -> bool)
    : (R.Registry, seq<Send>)
  {
    if results == [] then (r, [])
    else
      var last := results[|results| - 1];
      var (u, sent) := Checked(r, keyer, results[..|results| - 1], newer);
      var (t, send) := R.ApplyEgress(u, keyer, last.0, last.1, last.2, newer);
      (t, sent + Asked(send))
  }

  /** What the results of a check store into the instances, in order. */
  ghost function AllRead(results: seq<(ID, Egress, bool)>): seq<(ID, Egress)> {
    if results == [] then []
    else
      var last := results[|results| - 1];
      AllRead(results[..|results| - 1]) + Read(last.0, last.1, last.2)
  }

  ghost function NextTable(t: T.Table, now: int): T.Table {
    T.Create(t, now).0
  }

  ghost function CreateTimes(t: T.Table, now: nat -> int, k: nat): T.Table {
    if k == 0 then t else NextTable(CreateTimes(t, now, k - 1), now(k - 1))
  }

  lemma SpareIsCounted(t: T.Table)
    requires T.TableInv(t)
    ensures P.Spare(t.ports) >= 0
  {
    P.SpareIsExact(t.ports);
  }

  lemma PortsArePartitioned(t: T.Table)
    requires T.TableInv(t)
    ensures P.Partitioned(t.ports)
  {
  }

  /** What one creation does to the ids and to the spare ports. */
  lemma CreationCounts(t: T.Table, now: int)
    requires T.TableInv(t)
    ensures var (u, id) := T.Create(t, now);
            && u == NextTable(t, now)
            && (id.Some? ==> OneMore(t.created.Keys, u.created.Keys) && P.Spare(u.ports) == P.Spare(t.ports) - 1)
            && (id.None? ==> u == t && P.Spare(t.ports) == 0)
  {
    hide T.TableInv, T.Create, T.IsSnapshot, T.IsSeqId, Itoa, P.Acquire, P.Spare;
    T.CreateKeepsTable(t, now);
    PortsArePartitioned(t);
    P.SpareIsExact(t.ports);
    CreatedFields(t, now);
    T.CreateFailsIffPortsExhausted(t, now);
    var (u, id) := T.Create(t, now);
    if id.Some? {
      assert u.created.Keys == t.created.Keys + {id.value};
    }
  }

  ghost predicate OneMore(before: set<ID>, after: set<ID>) {
    exists id :: id !in before && after == before + {id}
  }

  /** Every round so far found too few active instances and room for one more, and created one. */
  ghost predicate Climb(trail: seq<set<ID>>, status: nat -> Statuses, min: int, max: int, made: nat) {
    && |trail| == made + 1
    && (forall r :: 0 <= r < made ==>
          |ActiveIds(trail[r], status(r))| < min && |trail[r]| < max && OneMore(trail[r], trail[r + 1]))
  }

  /** Why a round creates nothing. */
  ghost predicate Explained(why: Stop, ids: set<ID>, status: Statuses, min: int, max: int, spare: int) {
    var active := |ActiveIds(ids, status)|;
    match why
    case Enough => |ids| <= max && active >= min
    case Full => |ids| > max || (|ids| == max && active < min)
    case NoPorts => |ids| < max && active < min && spare == 0
  }

  /** A run of the loop: the creating rounds, and why there was no other. */
  ghost predicate AlignRun(trail: seq<set<ID>>, status: nat -> Statuses, min: int, max: int, spare: int, made: nat, why: Stop) {
    && Climb(trail, status, min, max, made)
    && made <= spare
    && Explained(why, trail[made], status(made), min, max, spare - made)
  }

  /** What an alignment makes of a table: the instances it created, why it stopped, and whom it evicted. */
  ghost predicate Aligned(t: T.Table, u: T.Table, evictor: Evictor, status: nat -> Statuses, look: Statuses, now: nat -> int,
                          min: int, max: int, made: nat, why: Stop, victim: Option<ID>, trail: seq<set<ID>>) {
    && u == CreateTimes(t, now, made)
    && AlignRun(trail, status, min, max, P.Spare(t.ports), made, why)
    && trail[0] == t.created.Keys && trail[made] == u.created.Keys
    && (if why.Full? then EvictedBy(evictor, u.created, look, victim) else victim.None?)
  }

  lemma OneMoreSize(before: set<ID>, after: set<ID>)
    requires OneMore(before, after)
    ensures |after| == |before| + 1
  {
  }

  lemma ClimbOn(trail: seq<set<ID>>, status: nat -> Statuses, min: int, max: int, made: nat, next: set<ID>)
    requires Climb(trail, status, min, max, made)
    requires |ActiveIds(trail[made], status(made))| < min && |trail[made]| < max && OneMore(trail[made], next)
    ensures Climb(trail + [next], status, min, max, made + 1)
  {
    hide ActiveIds, OneMore;
    var longer := trail + [next];
    assert longer[made] == trail[made] && longer[made + 1] == next;
    forall r | 0 <= r < made
      ensures |ActiveIds(longer[r], status(r))| < min && |longer[r]| < max && OneMore(longer[r], longer[r + 1])
    {
      assert longer[r] == trail[r] && longer[r + 1] == trail[r + 1];
    }
  }

  lemma {:induction false} ClimbCounts(trail: seq<set<ID>>, status: nat -> Statuses, min: int, max: int, made: nat, r: nat)
    requires Climb(trail, status, min, max, made) && r <= made
    ensures |trail[r]| == |trail[0]| + r && trail[0] <= trail[r]
  {
    if r > 0 {
      ClimbCounts(trail, status, min, max, made, r - 1);
      assert OneMore(trail[r - 1], trail[(r - 1) + 1]);
      OneMoreSize(trail[r - 1], trail[r]);
    }
  }

  /** However the statuses move, the loop never creates at or above the maximum, and a table above
      the maximum is left as it is. */
  lemma AlignNeverOvershoots(trail: seq<set<ID>>, status: nat -> Statuses, min: int, max: int, spare: int, made: nat, why: Stop)
    requires AlignRun(trail, status, min, max, spare, made, why)
    ensures |trail[made]| == |trail[0]| + made
    ensures made > 0 ==> |trail[made]| <= max
    ensures |trail[0]| > max ==> made == 0
  {
    ClimbCounts(trail, status, min, max, made, made);
    if made > 0 {
      ClimbCounts(trail, status, min, max, made, made - 1);
      assert |trail[0]| < max;
    }
  }

  /** Every round that created one had found too few instances Normal or Probing and room for another; and
      the loop stopped because there were enough, because the table was full, or because no port was left. */
  lemma AlignStopsForAReason(trail: seq<set<ID>>, status: nat -> Statuses, min: int, max: int, spare: int, made: nat, why: Stop)
    requires AlignRun(trail, status, min, max, spare, made, why)
    ensures forall r :: 0 <= r < made ==>
              && |set id | id in trail[r] && (status(r)(id) == Normal || status(r)(id) == Probing)| < min
              && |trail[r]| < max
    ensures var active := set id | id in trail[made] && (status(made)(id) == Normal || status(made)(id) == Probing);
            && (why == Enough <==> |trail[made]| <= max && |active| >= min)
            && (why == Full <==> |trail[made]| > max || (|trail[made]| == max && |active| < min))
            && (why == NoPorts ==> made == spare)
  {
    forall r | 0 <= r <= made
      ensures ActiveIds(trail[r], status(r)) == set id | id in trail[r] && (status(r)(id) == Normal || status(r)(id) == Probing)
    {
    }
  }

  /** No status changes while the loop runs, and what it creates is Probing. */
  ghost predicate HeldStill(status: nat -> Statuses, ids: set<ID>) {
    && (forall r: nat, id: ID :: status(r)(id) == status(0)(id))
    && (forall id: ID :: id !in ids ==> status(0)(id) == Probing)
  }

  lemma {:induction false} ActiveCountsUp(trail: seq<set<ID>>, status: nat -> Statuses, min: int, max: int, made: nat, r: nat)
    requires Climb(trail, status, min, max, made) && r <= made && HeldStill(status, trail[0])
    ensures |ActiveIds(trail[r], status(r))| == |ActiveIds(trail[0], status(0))| + r
  {
    if r > 0 {
      ActiveCountsUp(trail, status, min, max, made, r - 1);
      ClimbCounts(trail, status, min, max, made, r - 1);
      assert OneMore(trail[r - 1], trail[(r - 1) + 1]);
      var id :| id !in trail[r - 1] && trail[(r - 1) + 1] == trail[r - 1] + {id};
      assert status(r)(id) == status(0)(id) == Probing;
      assert forall x :: status(r)(x) == status(0)(x) == status(r - 1)(x);
      assert ActiveIds(trail[r], status(r)) == ActiveIds(trail[r - 1], status(r - 1)) + {id};
    }
  }

  // ----- eviction -----

  ghost predicate OldestFirst(evictor: Evictor) {
    forall views :: E.OldestAnswer(views, evictor(views))
  }

  /** No two instances that may be evicted share status and creation time. */
  ghost predicate NoSharedPlace(instances: map<ID, int>, status: Statuses) {
    forall a, b ::
      (a in instances && b in instances && status(a) == status(b) != Probing && instances[a] == instances[b]) ==> a == b
  }

  lemma ListingHasNoTies(views: seq<InstanceView>, instances: map<ID, int>, status: Statuses)
    requires IsListing(views, instances, status) && NoSharedPlace(instances, status)
    ensures E.NoTies(views)
  {
  }

  lemma OldestIsMinimal(evictor: Evictor, views: seq<InstanceView>) returns (v: InstanceView)
    requires OldestFirst(evictor) && evictor(views).Some?
    ensures v in views && E.GoesFirst(v, views) && evictor(views) == Some(v.id)
  {
    assert E.OldestAnswer(views, evictor(views));
    var best :| 0 <= best < |views| && E.GoesFirst(views[best], views) && evictor(views).value == views[best].id;
    v := views[best];
  }

  /** With the oldest-first policy and no ties, which instance is stopped does not depend on the order in
      which the map is iterated; none is exactly when all are Probing. */
  lemma StoppedIgnoresMapOrder(evictor: Evictor, instances: map<ID, int>, status: Statuses,
                               v1: Option<ID>, v2: Option<ID>)
    requires OldestFirst(evictor) && NoSharedPlace(instances, status)
    requires EvictedBy(evictor, instances, status, v1) && EvictedBy(evictor, instances, status, v2)
    ensures v1 == v2
    ensures v1.None? <==> forall id :: id in instances ==> status(id) == Probing
    ensures v1.Some? ==> StoppedFirst(v1.value, instances, status)
  {
    var l1 :| IsListing(l1, instances, status) && v1 == Chosen(evictor, l1, instances);
    var l2 :| IsListing(l2, instances, status) && v2 == Chosen(evictor, l2, instances);
    E.SameEntriesSameMultiset(l1, l2);
    ListingHasNoTies(l1, instances, status);
    NoneIffAllProbing(evictor, l1, instances, status);
    NoneIffAllProbing(evictor, l2, instances, status);
    if evictor(l1).Some? && evictor(l2).Some? {
      var m1 := OldestIsMinimal(evictor, l1);
      var m2 := OldestIsMinimal(evictor, l2);
      E.VictimIgnoresCandidateOrder(l1, l2, m1, m2);
      FirstListedGoesFirst(l1, instances, status, m1);
    }
  }

  /** It is not Probing; no Disabled one is spared for a Draining or Normal one, nor a Draining one for a Normal
      one; and none of its own status is older. */
  ghost predicate StoppedFirst(id: ID, instances: map<ID, int>, status: Statuses) {
    && id in instances && status(id) != Probing
    && (status(id) == Draining ==> forall x :: x in instances ==> status(x) != Disabled)
    && (status(id) == Normal ==> forall x :: x in instances ==> status(x) != Disabled && status(x) != Draining)
    && (forall x :: x in instances && status(x) == status(id) ==> instances[id] <= instances[x])
  }

  lemma FirstListedGoesFirst(views: seq<InstanceView>, instances: map<ID, int>, status: Statuses, v: InstanceView)
    requires IsListing(views, instances, status) && v in views && E.GoesFirst(v, views)
    ensures StoppedFirst(v.id, instances, status)
  {
    forall x | x in instances
      ensures InstanceView(x, status(x), instances[x]) in views
    {
    }
  }

  lemma NoneIffAllProbing(evictor: Evictor, views: seq<InstanceView>, instances: map<ID, int>, status: Statuses)
    requires OldestFirst(evictor) && IsListing(views, instances, status)
    ensures evictor(views).None? <==> forall id :: id in instances ==> status(id) == Probing
    ensures evictor(views) == Chosen(evictor, views, instances)
  {
    assert E.OldestAnswer(views, evictor(views));
    forall id | id in instances
      ensures InstanceView(id, status(id), instances[id]) in views
    {
    }
  }

  function Max0(x: int): nat {
    if x < 0 then 0 else x
  }

  /** While nothing moves, exactly as many are created as are missing, have room, and have ports. */
  lemma AlignIsExact(trail: seq<set<ID>>, status: nat -> Statuses, min: int, max: int, spare: nat, made: nat, why: Stop)
    requires AlignRun(trail, status, min, max, spare, made, why) && HeldStill(status, trail[0])
    ensures made == Min(Min(Max0(min - |ActiveIds(trail[0], status(0))|), Max0(max - |trail[0]|)), spare)
    ensures var active := set id | id in trail[0] && (status(0)(id) == Normal || status(0)(id) == Probing);
            made == Min(Min(Max0(min - |active|), Max0(max - |trail[0]|)), spare)
  {
    assert ActiveIds(trail[0], status(0))
        == set id | id in trail[0] && (status(0)(id) == Normal || status(0)(id) == Probing);
    ClimbCounts(trail, status, min, max, made, made);
    ActiveCountsUp(trail, status, min, max, made, made);
    if made > 0 {
      ClimbCounts(trail, status, min, max, made, made - 1);
      ActiveCountsUp(trail, status, min, max, made, made - 1);
    }
  }

  function Confirms(ids: seq<ID>, accepted: map<ID, nat>): seq<Send> {
    if ids == [] then []
    else Confirms(ids[..|ids| - 1], accepted) + [(ids[|ids| - 1], I.Confirm(R.Count(accepted, ids[|ids| - 1])))]
  }

  function Drains(ids: seq<ID>): seq<Send> {
    if ids == [] then [] else Drains(ids[..|ids| - 1]) + [(ids[|ids| - 1], I.Drain)]
  }

  lemma NoneAwaiting(ids: set<ID>, decided: set<ID>, status: Statuses, awaiting: ID -> bool)
    requires ids == {}
    ensures AwaitingAnswer([], ids, decided, status, awaiting)
  {
  }

  lemma NextAwaiting(sent: seq<ID>, ids: set<ID>, decided: set<ID>, status: Statuses, awaiting: ID -> bool, id: ID)
    requires AwaitingAnswer(sent, ids, decided, status, awaiting) && id !in ids
    ensures AwaitingAnswer(if id in decided && status(id) == Probing && awaiting(id) then sent + [id] else sent,
                           ids + {id}, decided, status, awaiting)
  {
    assert id !in sent;
    assert forall i :: 0 <= i < |sent| ==> sent[i] in sent;
  }

  lemma NoneFailing(ids: set<ID>, status: Statuses, healthy: ID -> bool)
    requires ids == {}
    ensures FailingCheck([], ids, status, healthy)
  {
  }

  lemma NextFailing(sent: seq<ID>, ids: set<ID>, status: Statuses, healthy: ID -> bool, id: ID)
    requires FailingCheck(sent, ids, status, healthy) && id !in ids
    ensures FailingCheck(if status(id) == Normal && !healthy(id) then sent + [id] else sent, ids + {id}, status, healthy)
  {
    assert id !in sent;
    assert forall i :: 0 <= i < |sent| ==> sent[i] in sent;
  }

  lemma NoDrains()
    ensures Drains([]) == []
  {
  }

  lemma NoConfirms(accepted: map<ID, nat>)
    ensures Confirms([], accepted) == []
  {
  }

  lemma OneMoreConfirm(ids: seq<ID>, accepted: map<ID, nat>, id: ID)
    ensures Confirms(ids + [id], accepted) == Confirms(ids, accepted) + [(id, I.Confirm(R.Count(accepted, id)))]
  {
    assert (ids + [id])[..|ids|] == ids;
  }

  lemma OneMoreDrain(ids: seq<ID>, id: ID)
    ensures Drains(ids + [id]) == Drains(ids) + [(id, I.Drain)]
  {
    assert (ids + [id])[..|ids|] == ids;
  }

  /** The keys of a map, in any order, sorted as the snapshot is. */
  method SortedIds(ids: set<ID>, ghost bound: nat) returns (sorted: seq<ID>)
    requires forall id :: id in ids ==> T.IsSeqId(id, bound)
    ensures T.IsSnapshot(sorted, ids)
  {
    sorted := [];
    var rest := ids;
    while rest != {}
      invariant rest <= ids
      invariant T.IsSnapshot(sorted, ids - rest)
      decreases rest
    {
      var id :| id in rest;
      sorted := InsertId(sorted, id, ids - rest, bound);
      assert (ids - rest) + {id} == ids - (rest - {id});
      rest := rest - {id};
    }
    assert ids - rest == ids;
  }

  method InsertId(sorted: seq<ID>, id: ID, ghost ids: set<ID>, ghost bound: nat) returns (longer: seq<ID>)
    requires T.IsSnapshot(sorted, ids) && id !in ids && T.IsSeqId(id, bound)
    requires forall x :: x in ids ==> T.IsSeqId(x, bound)
    ensures T.IsSnapshot(longer, ids + {id})
  {
    var at := 0;
    while at < |sorted| && ViewLess(sorted[at], id) < 0
      invariant at <= |sorted|
      invariant forall i :: 0 <= i < at ==> ViewLess(sorted[i], id) < 0
    {
      at := at + 1;
    }
    longer := sorted[..at] + [id] + sorted[at..];
    InsertedInOrder(sorted, id, at, ids, bound);
  }

  lemma InsertedInOrder(sorted: seq<ID>, id: ID, at: nat, ids: set<ID>, bound: nat)
    requires T.IsSnapshot(sorted, ids) && id !in ids && T.IsSeqId(id, bound)
    requires forall x :: x in ids ==> T.IsSeqId(x, bound)
    requires at <= |sorted|
    requires forall i :: 0 <= i < at ==> ViewLess(sorted[i], id) < 0
    requires at < |sorted| ==> ViewLess(sorted[at], id) >= 0
    ensures T.IsSnapshot(sorted[..at] + [id] + sorted[at..], ids + {id})
  {
    forall j | at <= j < |sorted|
      ensures ViewLess(id, sorted[j]) < 0
    {
      assert sorted[at] in ids;
      ViewLessTrichotomy(id, sorted[at], bound);
      if at < j {
        assert sorted[j] in ids;
        ViewLessTransitive(id, sorted[at], sorted[j], bound);
      }
    }
    Spliced((a, b) => ViewLess(a, b) < 0, sorted, id, at);
  }

  lemma Spliced(less: (ID, ID) -> bool, sorted: seq<ID>, id: ID, at: nat)
    requires at <= |sorted|
    requires forall i, j :: 0 <= i < j < |sorted| ==> less(sorted[i], sorted[j])
    requires forall i :: 0 <= i < at ==> less(sorted[i], id)
    requires forall j :: at <= j < |sorted| ==> less(id, sorted[j])
    ensures var longer := sorted[..at] + [id] + sorted[at..];
            && (forall i, j :: 0 <= i < j < |longer| ==> less(longer[i], longer[j]))
            && (forall x :: x in longer <==> x in sorted || x == id)
  {
    var longer := sorted[..at] + [id] + sorted[at..];
    assert sorted == sorted[..at] + sorted[at..];
    assert forall i :: 0 <= i < |longer| ==>
      longer[i] == if i < at then sorted[i] else if i == at then id else sorted[i - 1];
  }

  lemma ViewLessTransitive(a: ID, b: ID, c: ID, bound: nat)
    requires T.IsSeqId(a, bound) && T.IsSeqId(b, bound) && T.IsSeqId(c, bound)
    requires ViewLess(a, b) < 0 && ViewLess(b, c) < 0
    ensures ViewLess(a, c) < 0
  {
  }

  lemma ViewLessTrichotomy(a: ID, b: ID, bound: nat)
    requires T.IsSeqId(a, bound) && T.IsSeqId(b, bound) && a != b
    ensures ViewLess(b, a) >= 0 ==> ViewLess(a, b) < 0
  {
  }
}
