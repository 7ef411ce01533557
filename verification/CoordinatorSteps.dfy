/** What one turn of the coordinator does is a run of the system. The methods of the pool are proved against
    the functions of Registry and Table and record the commands they send and the egresses they store; here
    the labels of module Protocol do the same, turn by turn: an event heard, a health tick, an egress tick. */
module CoordinatorSteps {
  import opened Wrappers
  import opened Decimal
  import opened Types
  import opened EgressKeys
  import opened Instances
  import opened Protocol
  import opened SystemSafety
  import opened SystemTheorems
  import C = PoolCode
  import R = Registry
  import T = Table
  import P = Ports

  type Result = (ID, Egress, bool)

  /** What arrives of the commands sent, in order, for any choice of which are dropped. */
  function Delivered(s: System, sends: seq<C.Send>, accepts: nat -> bool): System {
    if sends == [] then s
    else
      var n := |sends| - 1;
      Deliver(Delivered(s, sends[..n], accepts), sends[n].0, sends[n].1, accepts(n))
  }

  /** What the instances show after the egresses stored, in order. */
  function Stored(s: System, stores: seq<(ID, Egress)>): System {
    if stores == [] then s
    else
      var n := |stores| - 1;
      Show(Stored(s, stores[..n]), stores[n].0, stores[n].1, false)
  }

  lemma DeliveredMore(s: System, sends: seq<C.Send>, accepts: nat -> bool, id: ID, cmd: Command)
    ensures Delivered(s, sends + [(id, cmd)], accepts)
         == Deliver(Delivered(s, sends, accepts), id, cmd, accepts(|sends|))
  {
    assert (sends + [(id, cmd)])[..|sends|] == sends;
  }

  lemma StoredMore(s: System, stores: seq<(ID, Egress)>, id: ID, eg: Egress)
    ensures Stored(s, stores + [(id, eg)]) == Show(Stored(s, stores), id, eg, false)
  {
    assert (stores + [(id, eg)])[..|stores|] == stores;
  }

  lemma ReachOne(w: Setup, s: System, l: Label)
    ensures Reach(w, s, [l]) == Apply(w, s, l)
  {
    hide Apply;
    assert [l][1..] == [];
  }

  lemma ReachNone(w: Setup, s: System)
    ensures Reach(w, s, []) == s
  {
  }

  lemma ReachMore(w: Setup, s: System, labels: seq<Label>, l: Label)
    ensures Reach(w, s, labels + [l]) == Apply(w, Reach(w, s, labels), l)
  {
    hide Reach, Apply;
    ReachInTwo(w, s, labels, [l]);
    ReachOne(w, Reach(w, s, labels), l);
  }

  // ----- sending -----

  function SendLabel(send: C.Send, accept: bool): Label {
    match send.1
    case Confirm(_) => PoolReconfirms(send.0, accept)
    case Stop => PoolStops(send.0, accept)
    case _ => PoolDrains(send.0, accept)
  }

  function SendLabels(sends: seq<C.Send>, accepts: nat -> bool): seq<Label> {
    if sends == [] then []
    else
      var n := |sends| - 1;
      SendLabels(sends[..n], accepts) + [SendLabel(sends[n], accepts(n))]
  }

  /** What the coordinator sends on a tick: to instances of the table; a Confirm, for the report accepted. */
  predicate Sendable(s: System, send: C.Send) {
    && send.0 in s.tab.created
    && (send.1 == Drain || send.1 == Stop
        || (send.0 in s.reg.keysByInst && send.1 == Confirm(R.Count(s.reg.accepted, send.0))))
  }

  lemma {:induction false} DeliveredKeeps(s: System, sends: seq<C.Send>, accepts: nat -> bool)
    ensures var t := Delivered(s, sends, accepts);
            t == s.(insts := t.insts) && t.insts.Keys == s.insts.Keys
    decreases |sends|
  {
    if sends != [] {
      DeliveredKeeps(s, sends[..|sends| - 1], accepts);
    }
    hide StepOutside;
  }

  lemma {:induction false} SendingIsARun(w: Setup, s: System, sends: seq<C.Send>, accepts: nat -> bool)
    requires forall i :: 0 <= i < |sends| ==> Sendable(s, sends[i])
    ensures Reach(w, s, SendLabels(sends, accepts)) == Delivered(s, sends, accepts)
    decreases |sends|
  {
    hide Reach, Apply, Sendable;
    if sends == [] {
      ReachNone(w, s);
    } else {
      var n := |sends| - 1;
      var u := Delivered(s, sends[..n], accepts);
      SendingIsARun(w, s, sends[..n], accepts);
      ReachMore(w, s, SendLabels(sends[..n], accepts), SendLabel(sends[n], accepts(n)));
      DeliveredKeeps(s, sends[..n], accepts);
      SendingOne(w, s, u, sends[n], accepts(n));
    }
  }

  lemma SendingOne(w: Setup, s: System, u: System, send: C.Send, accept: bool)
    requires Sendable(s, send) && u.reg == s.reg && u.tab == s.tab
    ensures Apply(w, u, SendLabel(send, accept)) == Deliver(u, send.0, send.1, accept)
  {
    hide Deliver;
  }

  // ----- creating -----

  /** The labels of an alignment that creates `k` instances. */
  function Creations(now: nat -> int, k: nat): seq<Label> {
    if k == 0 then [] else Creations(now, k - 1) + [PoolCreates(now(k - 1))]
  }

  lemma CreatingOne(w: Setup, s: System, now: int)
    requires SystemInv(w, s)
    ensures var t := Apply(w, s, PoolCreates(now));
            && t.tab == C.NextTable(s.tab, now) && t.reg == s.reg && t.events == s.events
            && forall x :: x in s.insts ==> x in t.insts && t.insts[x] == s.insts[x]
  {
    hide SystemInv, Itoa, NewInst, P.Acquire;
    IdsAreNew(w, s);
  }

  /** Creating leaves the instances there are as they are. */
  lemma {:induction false} CreatingSeveral(w: Setup, s: System, now: nat -> int, k: nat)
    requires SystemInv(w, s)
    ensures var t := Reach(w, s, Creations(now, k));
            && t.tab == C.CreateTimes(s.tab, now, k) && t.reg == s.reg && t.events == s.events
            && forall x :: x in s.insts ==> x in t.insts && t.insts[x] == s.insts[x]
    decreases k
  {
    hide Reach, Apply, SystemInv, C.NextTable;
    if k == 0 {
      ReachNone(w, s);
    } else {
      CreatingSeveral(w, s, now, k - 1);
      ReachKeeps(w, s, Creations(now, k - 1));
      ReachMore(w, s, Creations(now, k - 1), PoolCreates(now(k - 1)));
      CreatingOne(w, Reach(w, s, Creations(now, k - 1)), now(k - 1));
    }
  }

  // ----- aligning -----

  /** The labels of an alignment: creations, and a Stop to the victim if there is one. */
  function Alignment(now: nat -> int, made: nat, victim: Option<ID>, accept: bool): seq<Label> {
    Creations(now, made) + (if victim.Some? then [PoolStops(victim.value, accept)] else [])
  }

  /** The instance is as `Delivered` leaves it, Stop to the victim included. */
  lemma AligningIsARun(w: Setup, s: System, now: nat -> int, made: nat, victim: Option<ID>, accept: bool)
    requires SystemInv(w, s)
    requires victim.Some? ==> victim.value in C.CreateTimes(s.tab, now, made).created
    ensures var t := Reach(w, s, Alignment(now, made, victim, accept));
            && t.tab == C.CreateTimes(s.tab, now, made) && t.reg == s.reg && t.events == s.events
            && forall x :: x in s.insts ==>
                 && x in t.insts
                 && t.insts[x] == (if victim == Some(x) then Deliver(s, x, Stop, accept).insts[x] else s.insts[x])
  {
    hide Reach, Apply, SystemInv, C.CreateTimes, StepOutside;
    CreatingSeveral(w, s, now, made);
    var u := Reach(w, s, Creations(now, made));
    if victim.Some? {
      ReachMore(w, s, Creations(now, made), PoolStops(victim.value, accept));
      StoppingOne(w, u, victim.value, accept);
    } else {
      assert Creations(now, made) + [] == Creations(now, made);
    }
  }

  lemma StoppingOne(w: Setup, s: System, id: ID, accept: bool)
    requires id in s.tab.created
    ensures Apply(w, s, PoolStops(id, accept)) == Deliver(s, id, Stop, accept)
  {
  }

  /** One more command to one instance, seen from any other. */
  lemma LastDelivery(s: System, sends: seq<C.Send>, accepts: nat -> bool, victim: Option<ID>)
    ensures var d, e := Delivered(s, sends, accepts), Delivered(s, sends + C.Stops(victim), accepts);
            && d.insts.Keys == e.insts.Keys == s.insts.Keys
            && forall x :: x in s.insts ==>
                 e.insts[x] == if victim == Some(x) then Deliver(d, x, Stop, accepts(|sends|)).insts[x] else d.insts[x]
  {
    DeliveredKeeps(s, sends, accepts);
    if victim.Some? {
      DeliveredMore(s, sends, accepts, victim.value, Stop);
    } else {
      assert sends + C.Stops(victim) == sends;
    }
    hide Delivered, StepOutside;
  }

  // ----- an event -----

  lemma HearingIsHandling(w: Setup, s: System, accepts: nat -> bool)
    requires s.events != [] && s.checking == {}
    ensures var e := s.events[0];
            var t := Apply(w, s, PoolHears(accepts(0)));
            && t.reg == R.HandleEvent(s.reg, w.keyer, e.id, e.ev, e.report)
            && t.tab == C.Cleared(s.tab, e.id, e.ev)
            && t.events == s.events[1..]
            && t.insts == Delivered(s, C.Answer(s.reg, w.keyer, e.id, e.ev, e.report), accepts).insts
  {
    hide R.HandleReady, R.ReleaseKey, T.Remove, StepOutside;
    var e := s.events[0];
    if e.ev.Ready? {
      DeliveredMore(s, [], accepts, e.id, R.HandleReady(s.reg, w.keyer, e.id, e.ev.egress, e.report).1);
      assert C.Answer(s.reg, w.keyer, e.id, e.ev, e.report)
          == [] + [(e.id, R.HandleReady(s.reg, w.keyer, e.id, e.ev.egress, e.report).1)];
    }
  }

  /** Hearing an event and aligning leaves registry, table, channel and instances as `HandleEvent` of the pool
      does, the commands it sends having been delivered or dropped. */
  lemma HandleEventIsARun(w: Setup, s: System, accepts: nat -> bool, now: nat -> int, made: nat, victim: Option<ID>)
    requires SystemInv(w, s) && s.events != [] && s.checking == {}
    requires victim.Some? ==>
               victim.value in C.CreateTimes(C.Cleared(s.tab, s.events[0].id, s.events[0].ev), now, made).created
    ensures var e := s.events[0];
            var answer := C.Answer(s.reg, w.keyer, e.id, e.ev, e.report);
            var t := Reach(w, s, [PoolHears(accepts(0))] + Alignment(now, made, victim, accepts(|answer|)));
            && t.reg == R.HandleEvent(s.reg, w.keyer, e.id, e.ev, e.report)
            && t.tab == C.CreateTimes(C.Cleared(s.tab, e.id, e.ev), now, made)
            && t.events == s.events[1..]
            && AsDelivered(s, answer + C.Stops(victim), accepts, t)
  {
    hide Reach, Apply, SystemInv, R.HandleEvent, C.Cleared, C.CreateTimes, C.Answer, Delivered;
    var e := s.events[0];
    var answer := C.Answer(s.reg, w.keyer, e.id, e.ev, e.report);
    var u := Apply(w, s, PoolHears(accepts(0)));
    HearingIsHandling(w, s, accepts);
    ApplyKeeps(w, s, PoolHears(accepts(0)));
    ReachOne(w, s, PoolHears(accepts(0)));
    ReachInTwo(w, s, [PoolHears(accepts(0))], Alignment(now, made, victim, accepts(|answer|)));
    AligningIsARun(w, u, now, made, victim, accepts(|answer|));
    LastDelivery(s, answer, accepts, victim);
    if victim.Some? {
      SameInstsSameDelivery(Delivered(s, answer, accepts), u, victim.value, Stop, accepts(|answer|));
    }
  }

  /** Every instance there was is as the deliveries leave it. */
  ghost predicate AsDelivered(s: System, sends: seq<C.Send>, accepts: nat -> bool, t: System) {
    forall x :: x in s.insts ==>
      x in t.insts && x in Delivered(s, sends, accepts).insts && t.insts[x] == Delivered(s, sends, accepts).insts[x]
  }

  lemma SameInstsSameDelivery(s: System, u: System, id: ID, cmd: Command, accept: bool)
    requires s.insts == u.insts
    ensures Deliver(s, id, cmd, accept).insts == Deliver(u, id, cmd, accept).insts
  {
  }

  // ----- a health tick -----

  /** The drains of a health check, the confirms sent again and the alignment that follows: registry, table
      and instances are as the three methods of the pool leave them. */
  lemma HealthTickIsARun(w: Setup, s: System, status: C.Statuses, healthy: ID -> bool, later: C.Statuses, waits: ID -> bool,
                         failing: seq<ID>, awaiting: seq<ID>, accepts: nat -> bool,
                         now: nat -> int, made: nat, victim: Option<ID>)
    requires SystemInv(w, s)
    requires C.FailingCheck(failing, s.tab.created.Keys, status, healthy)
    requires C.AwaitingAnswer(awaiting, s.tab.created.Keys, s.reg.keysByInst.Keys, later, waits)
    requires victim.Some? ==> victim.value in C.CreateTimes(s.tab, now, made).created
    ensures var sends := C.Drains(failing) + C.Confirms(awaiting, s.reg.accepted);
            var t := Reach(w, s, SendLabels(sends, accepts) + Alignment(now, made, victim, accepts(|sends|)));
            && t.reg == s.reg && t.events == s.events
            && t.tab == C.CreateTimes(s.tab, now, made)
            && AsDelivered(s, sends + C.Stops(victim), accepts, t)
  {
    hide Reach, Apply, SystemInv, C.CreateTimes, Delivered;
    var sends := C.Drains(failing) + C.Confirms(awaiting, s.reg.accepted);
    DrainsAreSendable(s, failing);
    ConfirmsAreSendable(s, awaiting);
    SendingIsARun(w, s, sends, accepts);
    var u := Delivered(s, sends, accepts);
    ReachKeeps(w, s, SendLabels(sends, accepts));
    DeliveredKeeps(s, sends, accepts);
    ReachInTwo(w, s, SendLabels(sends, accepts), Alignment(now, made, victim, accepts(|sends|)));
    AligningIsARun(w, u, now, made, victim, accepts(|sends|));
    LastDelivery(s, sends, accepts, victim);
  }

  /** If what was read of the instances is how they stand, every command of the tick keeps to the questions that
      the code asks before it sends. */
  lemma HealthTickIsGuarded(w: Setup, s: System, status: C.Statuses, healthy: ID -> bool, waits: ID -> bool,
                            failing: seq<ID>, awaiting: seq<ID>, accepts: nat -> bool)
    requires s.tab.created.Keys <= s.insts.Keys
    requires C.FailingCheck(failing, s.tab.created.Keys, status, healthy)
    requires C.AwaitingAnswer(awaiting, s.tab.created.Keys, s.reg.keysByInst.Keys, status, waits)
    requires forall id :: id in s.tab.created ==>
               status(id) == s.insts[id].status && waits(id) == s.insts[id].reporting.awaitConfirm
    ensures AllGuarded(w, s, SendLabels(C.Drains(failing) + C.Confirms(awaiting, s.reg.accepted), accepts))
  {
    hide AllGuarded;
    DrainsAreSendable(s, failing);
    ConfirmsAreSendable(s, awaiting);
    SendsAreGuarded(w, s, C.Drains(failing) + C.Confirms(awaiting, s.reg.accepted), accepts);
  }

  /** What the code finds out about an instance before it sends. */
  predicate Asked(s: System, send: C.Send) {
    && send.0 in s.insts
    && (send.1 == Drain ==> s.insts[send.0].status == Normal)
    && (send.1.Confirm? ==> s.insts[send.0].status == Probing && s.insts[send.0].reporting.awaitConfirm)
  }

  lemma {:induction false} SendsAreGuarded(w: Setup, s: System, sends: seq<C.Send>, accepts: nat -> bool)
    requires forall i :: 0 <= i < |sends| ==> Sendable(s, sends[i]) && Asked(s, sends[i])
    ensures AllGuarded(w, s, SendLabels(sends, accepts))
    decreases |sends|
  {
    hide Apply, Sendable, Asked;
    if sends != [] {
      var n := |sends| - 1;
      SendsAreGuarded(w, s, sends[..n], accepts);
      SendingIsARun(w, s, sends[..n], accepts);
      LastIsGuarded(s, sends[..n], sends[n], accepts);
      OneIsGuarded(w, Delivered(s, sends[..n], accepts), SendLabel(sends[n], accepts(n)));
      GuardedInTwo(w, s, SendLabels(sends[..n], accepts), [SendLabel(sends[n], accepts(n))]);
    }
  }

  lemma OneIsGuarded(w: Setup, s: System, l: Label)
    requires Guarded(s, l)
    ensures AllGuarded(w, s, [l])
  {
    hide Apply;
    assert [l][1..] == [];
  }

  /** Deliveries do not change what the code asks about. */
  lemma LastIsGuarded(s: System, before: seq<C.Send>, send: C.Send, accepts: nat -> bool)
    requires Sendable(s, send) && Asked(s, send)
    ensures Guarded(Delivered(s, before, accepts), SendLabel(send, accepts(|before|)))
  {
    DeliveredTouches(s, before, accepts);
    hide Delivered;
  }

  lemma {:induction false} DeliveredTouches(s: System, sends: seq<C.Send>, accepts: nat -> bool)
    ensures OnlyTouches(s, Delivered(s, sends, accepts), {})
    decreases |sends|
  {
    hide OnlyTouches, Deliver;
    if sends == [] {
      NothingTouched(s, {});
    } else {
      var n := |sends| - 1;
      DeliveredTouches(s, sends[..n], accepts);
      DeliverOnlyTouches(Delivered(s, sends[..n], accepts), sends[n].0, sends[n].1, accepts(n));
      TouchedTwice(s, Delivered(s, sends[..n], accepts), Delivered(s, sends, accepts));
    }
  }

  lemma {:induction false} DrainsAreSendable(s: System, ids: seq<ID>)
    requires forall i :: 0 <= i < |ids| ==> ids[i] in s.tab.created
    ensures forall i :: 0 <= i < |C.Drains(ids)| ==>
              Sendable(s, C.Drains(ids)[i]) && C.Drains(ids)[i].1 == Drain && C.Drains(ids)[i].0 in ids
    decreases |ids|
  {
    if ids != [] {
      DrainsAreSendable(s, ids[..|ids| - 1]);
    }
  }

  lemma {:induction false} ConfirmsAreSendable(s: System, ids: seq<ID>)
    requires forall i :: 0 <= i < |ids| ==> ids[i] in s.tab.created && ids[i] in s.reg.keysByInst
    ensures forall i :: 0 <= i < |C.Confirms(ids, s.reg.accepted)| ==>
              var send := C.Confirms(ids, s.reg.accepted)[i];
              Sendable(s, send) && send.1.Confirm? && send.0 in ids
    decreases |ids|
  {
    if ids != [] {
      ConfirmsAreSendable(s, ids[..|ids| - 1]);
    }
  }

  // ----- an egress tick -----

  function ReadLabels(results: seq<Result>): seq<Label> {
    if results == [] then []
    else
      var n := |results| - 1;
      ReadLabels(results[..n]) + [PoolReadsNormal(results[n].0)]
  }

  function Ids(results: seq<Result>): set<ID> {
    set i | 0 <= i < |results| :: results[i].0
  }

  lemma {:induction false} ReadingIsARun(w: Setup, s: System, results: seq<Result>)
    requires forall i :: 0 <= i < |results| ==>
               && results[i].0 in s.tab.created && results[i].0 in s.insts
               && s.insts[results[i].0].status == Normal
    ensures Reach(w, s, ReadLabels(results)) == s.(checking := s.checking + Ids(results))
    decreases |results|
  {
    hide Reach;
    if results == [] {
      ReachNone(w, s);
      assert s.checking + Ids(results) == s.checking;
    } else {
      var n := |results| - 1;
      ReadingIsARun(w, s, results[..n]);
      ReachMore(w, s, ReadLabels(results[..n]), PoolReadsNormal(results[n].0));
      OneMoreId(results);
      assert s.checking + Ids(results) == s.checking + Ids(results[..n]) + {results[n].0};
    }
  }

  lemma OneMoreId(results: seq<Result>)
    requires results != []
    ensures Ids(results) == Ids(results[..|results| - 1]) + {results[|results| - 1].0}
  {
    var rest := results[..|results| - 1];
    forall id
      ensures id in Ids(results) <==> id in Ids(rest) || id == results[|results| - 1].0
    {
      if id in Ids(results) {
        var i :| 0 <= i < |results| && results[i].0 == id;
        assert i < |rest| ==> rest[i].0 == id;
      }
      if id in Ids(rest) {
        var i :| 0 <= i < |rest| && rest[i].0 == id;
        assert results[i].0 == id;
      }
      if id == results[|results| - 1].0 {
        assert id in Ids(results);
      }
    }
  }

  ghost function CheckLabels(w: Setup, s: System, results: seq<Result>, accepts: nat -> bool): seq<Label> {
    if results == [] then []
    else
      var n := |results| - 1;
      var sent := C.Checked(s.reg, w.keyer, results[..n], T.NewerThan(s.tab.created)).1;
      CheckLabels(w, s, results[..n], accepts)
      + [PoolChecksEgress(results[n].0, results[n].1, results[n].2, accepts(|sent|))]
  }

  /** What the results of a check make of a system: registry, commands delivered, egresses stored. */
  ghost function AfterCheck(w: Setup, s: System, results: seq<Result>, accepts: nat -> bool): System {
    var (reg, sent) := C.Checked(s.reg, w.keyer, results, T.NewerThan(s.tab.created));
    Delivered(Stored(s, C.AllRead(results)), sent, accepts).(reg := reg, checking := s.checking - Ids(results))
  }

  lemma {:induction false} StoredKeeps(s: System, stores: seq<(ID, Egress)>)
    ensures var t := Stored(s, stores);
            t == s.(insts := t.insts) && t.insts.Keys == s.insts.Keys
    decreases |stores|
  {
    if stores != [] {
      StoredKeeps(s, stores[..|stores| - 1]);
    }
    hide StepOutside;
  }

  /** Storing an egress and delivering commands touch different fields. */
  lemma {:induction false} ShowCommutes(s: System, sends: seq<C.Send>, accepts: nat -> bool, id: ID, eg: Egress, failed: bool)
    ensures Show(Delivered(s, sends, accepts), id, eg, failed) == Delivered(Show(s, id, eg, failed), sends, accepts)
    decreases |sends|
  {
    hide Show, Deliver;
    if sends != [] {
      var n := |sends| - 1;
      ShowCommutes(s, sends[..n], accepts, id, eg, failed);
      ShowCommutesOnce(Delivered(s, sends[..n], accepts), sends[n].0, sends[n].1, accepts(n), id, eg, failed);
    }
  }

  lemma ShowCommutesOnce(s: System, to: ID, cmd: Command, accept: bool, id: ID, eg: Egress, failed: bool)
    ensures Show(Deliver(s, to, cmd, accept), id, eg, failed) == Deliver(Show(s, id, eg, failed), to, cmd, accept)
  {
    if to == id && id in s.insts {
      assert Show(Deliver(s, to, cmd, accept), id, eg, failed).insts
          == Deliver(Show(s, id, eg, failed), to, cmd, accept).insts;
    } else if to in s.insts && id in s.insts {
      assert Show(Deliver(s, to, cmd, accept), id, eg, failed).insts
          == Deliver(Show(s, id, eg, failed), to, cmd, accept).insts;
    }
  }

  /** One more result, applied to the instances as the earlier ones left them. */
  lemma CheckingOne(w: Setup, s: System, u: System, d: System, r: Result, accept: bool)
    requires r.0 in u.tab.created && r.0 in u.checking && u.insts == d.insts
    ensures var t := Apply(w, u, PoolChecksEgress(r.0, r.1, r.2, accept));
            var (reg, send) := R.ApplyEgress(u.reg, w.keyer, r.0, r.1, r.2, T.NewerThan(u.tab.created));
            var shown := Show(d, r.0, r.1, r.2);
            && t.reg == reg && t.tab == u.tab && t.events == u.events && t.tokens == u.tokens
            && t.checking == u.checking - {r.0}
            && t.insts == (if send.Some? then Deliver(shown, send.value.0, send.value.1, accept) else shown).insts
  {
    var (reg, send) := R.ApplyEgress(u.reg, w.keyer, r.0, r.1, r.2, T.NewerThan(u.tab.created));
    var mine := Show(u, r.0, r.1, r.2).(reg := reg, checking := u.checking - {r.0});
    var shown := Show(d, r.0, r.1, r.2);
    assert mine.insts == shown.insts;
    hide R.ApplyEgress, Show;
    assert Apply(w, u, PoolChecksEgress(r.0, r.1, r.2, accept))
        == if send.Some? then Deliver(mine, send.value.0, send.value.1, accept) else mine;
    if send.Some? {
      SameInstsSameDelivery(mine, shown, send.value.0, send.value.1, accept);
      DeliveryKeepsRest(mine, send.value.0, send.value.1, accept);
    }
  }

  lemma DeliveryKeepsRest(s: System, id: ID, cmd: Command, accept: bool)
    ensures Deliver(s, id, cmd, accept) == s.(insts := Deliver(s, id, cmd, accept).insts)
  {
  }

  lemma ReadMore(s: System, results: seq<Result>)
    requires results != []
    ensures var n := |results| - 1;
            Stored(s, C.AllRead(results)) == Show(Stored(s, C.AllRead(results[..n])), results[n].0, results[n].1, results[n].2)
  {
    var n := |results| - 1;
    var (id, eg, failed) := results[n];
    if failed || eg == NO_EGRESS {
      assert C.AllRead(results[..n]) + [] == C.AllRead(results[..n]);
    } else {
      StoredMore(s, C.AllRead(results[..n]), id, eg);
    }
  }

  lemma AskedMore(s: System, sent: seq<C.Send>, send: Option<C.Send>, accepts: nat -> bool)
    ensures Delivered(s, sent + C.Asked(send), accepts)
         == if send.Some? then Deliver(Delivered(s, sent, accepts), send.value.0, send.value.1, accepts(|sent|))
            else Delivered(s, sent, accepts)
  {
    if send.Some? {
      DeliveredMore(s, sent, accepts, send.value.0, send.value.1);
    } else {
      assert sent + C.Asked(send) == sent;
    }
  }

  lemma AfterCheckKeeps(w: Setup, s: System, results: seq<Result>, accepts: nat -> bool)
    ensures var t := AfterCheck(w, s, results, accepts);
            && t.tab == s.tab && t.events == s.events && t.tokens == s.tokens
            && t.checking == s.checking - Ids(results)
            && t.reg == C.Checked(s.reg, w.keyer, results, T.NewerThan(s.tab.created)).0
            && t.insts.Keys == s.insts.Keys
  {
    var sent := C.Checked(s.reg, w.keyer, results, T.NewerThan(s.tab.created)).1;
    StoredKeeps(s, C.AllRead(results));
    DeliveredKeeps(Stored(s, C.AllRead(results)), sent, accepts);
    hide C.Checked, C.AllRead, Stored, Delivered;
  }

  lemma AfterOneMoreCheck(w: Setup, s: System, results: seq<Result>, accepts: nat -> bool)
    requires results != [] && results[|results| - 1].0 in s.tab.created
    requires results[|results| - 1].0 in s.checking && results[|results| - 1].0 !in Ids(results[..|results| - 1])
    ensures var n := |results| - 1;
            var sent := C.Checked(s.reg, w.keyer, results[..n], T.NewerThan(s.tab.created)).1;
            Apply(w, AfterCheck(w, s, results[..n], accepts),
                  PoolChecksEgress(results[n].0, results[n].1, results[n].2, accepts(|sent|)))
            == AfterCheck(w, s, results, accepts)
  {
    hide Apply, R.ApplyEgress, Stored, Delivered, Show, Deliver, C.AllRead;
    var n := |results| - 1;
    var newer := T.NewerThan(s.tab.created);
    var (reg, sent) := C.Checked(s.reg, w.keyer, results[..n], newer);
    var u := AfterCheck(w, s, results[..n], accepts);
    var d := Delivered(Stored(s, C.AllRead(results[..n])), sent, accepts);
    AfterCheckKeeps(w, s, results[..n], accepts);
    AfterCheckKeeps(w, s, results, accepts);
    CheckingOne(w, s, u, d, results[n], accepts(|sent|));
    ShowCommutes(Stored(s, C.AllRead(results[..n])), sent, accepts, results[n].0, results[n].1, results[n].2);
    ReadMore(s, results);
    AskedMore(Stored(s, C.AllRead(results)), sent,
              R.ApplyEgress(reg, w.keyer, results[n].0, results[n].1, results[n].2, newer).1, accepts);
    OneMoreId(results);
    assert s.checking - Ids(results) == s.checking - Ids(results[..n]) - {results[n].0};
  }

  lemma {:induction false} CheckingIsARun(w: Setup, s: System, results: seq<Result>, accepts: nat -> bool)
    requires Ids(results) <= s.checking && Ids(results) <= s.tab.created.Keys
    requires forall i, j :: 0 <= i < j < |results| ==> results[i].0 != results[j].0
    ensures Reach(w, s, CheckLabels(w, s, results, accepts)) == AfterCheck(w, s, results, accepts)
    decreases |results|
  {
    hide Reach, Apply;
    if results == [] {
      ReachNone(w, s);
      assert s.checking - Ids(results) == s.checking;
    } else {
      hide AfterCheck;
      var n := |results| - 1;
      OneMoreId(results);
      CheckingIsARun(w, s, results[..n], accepts);
      var sent := C.Checked(s.reg, w.keyer, results[..n], T.NewerThan(s.tab.created)).1;
      ReachMore(w, s, CheckLabels(w, s, results[..n], accepts),
                PoolChecksEgress(results[n].0, results[n].1, results[n].2, accepts(|sent|)));
      AfterOneMoreCheck(w, s, results, accepts);
    }
  }

  /** An egress check of instances read as Normal, each once, and the alignment that follows: the registry is
      as `EgressCheck` of the pool leaves it, and the instances as the commands it sends and the egresses it
      stores leave them, whichever commands are dropped. */
  lemma EgressTickIsARun(w: Setup, s: System, results: seq<Result>, accepts: nat -> bool,
                         now: nat -> int, made: nat, victim: Option<ID>)
    requires SystemInv(w, s) && s.checking == {}
    requires forall i :: 0 <= i < |results| ==>
               && results[i].0 in s.tab.created && results[i].0 in s.insts
               && s.insts[results[i].0].status == Normal
    requires forall i, j :: 0 <= i < j < |results| ==> results[i].0 != results[j].0
    requires victim.Some? ==> victim.value in C.CreateTimes(s.tab, now, made).created
    ensures var (reg, sent) := C.Checked(s.reg, w.keyer, results, T.NewerThan(s.tab.created));
            var reading := s.(checking := Ids(results));
            var t := Reach(w, s, ReadLabels(results) + CheckLabels(w, reading, results, accepts)
                                 + Alignment(now, made, victim, accepts(|sent|)));
            && t.reg == reg && t.events == s.events
            && t.tab == C.CreateTimes(s.tab, now, made)
            && AsDelivered(Stored(s, C.AllRead(results)), sent + C.Stops(victim), accepts, t)
  {
    hide Reach, Apply, SystemInv, C.CreateTimes, C.Checked, C.AllRead, Delivered, Stored, CheckLabels, ReadLabels,
         Alignment, AfterCheck;
    var (reg, sent) := C.Checked(s.reg, w.keyer, results, T.NewerThan(s.tab.created));
    var reading := s.(checking := Ids(results));
    var looks, checks := ReadLabels(results), CheckLabels(w, reading, results, accepts);
    ReadingIsARun(w, s, results);
    assert s.checking + Ids(results) == Ids(results);
    CheckedIdsAreListed(s, results);
    CheckingIsARun(w, reading, results, accepts);
    ReachInTwo(w, s, looks, checks);
    var u := AfterCheck(w, reading, results, accepts);
    ReachKeeps(w, s, looks + checks);
    ReachInTwo(w, s, looks + checks, Alignment(now, made, victim, accepts(|sent|)));
    AfterCheckKeeps(w, reading, results, accepts);
    AligningIsARun(w, u, now, made, victim, accepts(|sent|));
    CheckedInsts(w, s, reading, results, accepts);
    var stored := Stored(s, C.AllRead(results));
    LastDelivery(stored, sent, accepts, victim);
    StoredKeeps(s, C.AllRead(results));
    if victim.Some? {
      SameInstsSameDelivery(Delivered(stored, sent, accepts), u, victim.value, Stop, accepts(|sent|));
    }
  }

  lemma CheckedIdsAreListed(s: System, results: seq<Result>)
    requires forall i :: 0 <= i < |results| ==> results[i].0 in s.tab.created
    ensures Ids(results) <= s.tab.created.Keys
  {
  }

  /** Which instances are being checked makes no difference to what they get. */
  lemma CheckedInsts(w: Setup, s: System, reading: System, results: seq<Result>, accepts: nat -> bool)
    requires reading == s.(checking := reading.checking)
    ensures var sent := C.Checked(s.reg, w.keyer, results, T.NewerThan(s.tab.created)).1;
            AfterCheck(w, reading, results, accepts).insts == Delivered(Stored(s, C.AllRead(results)), sent, accepts).insts
  {
    var sent := C.Checked(s.reg, w.keyer, results, T.NewerThan(s.tab.created)).1;
    StoredInsts(s, reading, C.AllRead(results));
    DeliveredInsts(Stored(s, C.AllRead(results)), Stored(reading, C.AllRead(results)), sent, accepts);
    hide C.Checked, C.AllRead, Stored, Delivered;
  }

  lemma {:induction false} StoredInsts(s: System, u: System, stores: seq<(ID, Egress)>)
    requires s.insts == u.insts
    ensures Stored(s, stores).insts == Stored(u, stores).insts
    decreases |stores|
  {
    if stores != [] {
      StoredInsts(s, u, stores[..|stores| - 1]);
    }
    hide StepOutside;
  }

  lemma {:induction false} DeliveredInsts(s: System, u: System, sends: seq<C.Send>, accepts: nat -> bool)
    requires s.insts == u.insts
    ensures Delivered(s, sends, accepts).insts == Delivered(u, sends, accepts).insts
    decreases |sends|
  {
    if sends != [] {
      DeliveredInsts(s, u, sends[..|sends| - 1], accepts);
    }
    hide StepOutside;
  }

  // ----- a wake-up, and the first turn -----

  /** The turn of a wake-up, and the one before the loop, is an alignment and nothing else. */
  lemma WakeIsARun(w: Setup, s: System, accepts: nat -> bool, now: nat -> int, made: nat, victim: Option<ID>)
    requires SystemInv(w, s)
    requires victim.Some? ==> victim.value in C.CreateTimes(s.tab, now, made).created
    ensures var t := Reach(w, s, Alignment(now, made, victim, accepts(0)));
            && t.reg == s.reg && t.events == s.events
            && t.tab == C.CreateTimes(s.tab, now, made)
            && AsDelivered(s, C.Stops(victim), accepts, t)
  {
    hide Reach, SystemInv, C.CreateTimes;
    AligningIsARun(w, s, now, made, victim, accepts(0));
    LastDelivery(s, [], accepts, victim);
    assert [] + C.Stops(victim) == C.Stops(victim);
  }

  // ----- the instances need not stand still -----

  predicate ByOthers(l: Label) {
    l.InstanceMoves? || l.UserSends?
  }

  /** Labels of the coordinator that look at no instance and at no event. */
  predicate Steady(l: Label) {
    !ByOthers(l) && !l.PoolHears? && !l.PoolReadsNormal?
  }

  /** The coordinator's own part of a run. */
  function Own(labels: seq<Label>): seq<Label> {
    if labels == [] then []
    else if ByOthers(labels[0]) then Own(labels[1..])
    else [labels[0]] + Own(labels[1..])
  }

  /** What the coordinator keeps to itself. */
  predicate SameView(s: System, u: System) {
    s.reg == u.reg && s.tab == u.tab && s.checking == u.checking
  }

  lemma OthersKeepView(w: Setup, s: System, l: Label)
    requires ByOthers(l)
    ensures SameView(Apply(w, s, l), s)
    ensures |s.events| <= |Apply(w, s, l).events| && Apply(w, s, l).events[..|s.events|] == s.events
  {
    hide Step, Possible, StepOutside;
  }

  lemma SteadyKeepsView(w: Setup, s: System, u: System, l: Label)
    requires Steady(l) && SameView(s, u)
    ensures SameView(Apply(w, s, l), Apply(w, u, l))
  {
    hide R.ApplyEgress, StepOutside, T.Create;
  }

  /** Whatever the instances do in between, the coordinator's registry and table end up the same. */
  lemma {:induction false} InterleavingKeepsView(w: Setup, s: System, u: System, labels: seq<Label>)
    requires SameView(s, u)
    requires forall i :: 0 <= i < |labels| ==> ByOthers(labels[i]) || Steady(labels[i])
    ensures SameView(Reach(w, s, labels), Reach(w, u, Own(labels)))
    decreases |labels|
  {
    hide Apply, SameView, ByOthers, Steady;
    if labels != [] {
      var rest := labels[1..];
      if ByOthers(labels[0]) {
        OthersKeepView(w, s, labels[0]);
        ViewsChain(Apply(w, s, labels[0]), s, u);
        InterleavingKeepsView(w, Apply(w, s, labels[0]), u, rest);
      } else {
        SteadyKeepsView(w, s, u, labels[0]);
        InterleavingKeepsView(w, Apply(w, s, labels[0]), Apply(w, u, labels[0]), rest);
        assert ([labels[0]] + Own(rest))[1..] == Own(rest);
      }
    }
  }

  lemma ViewsChain(s: System, u: System, t: System)
    requires SameView(s, u) && SameView(u, t)
    ensures SameView(s, t)
  {
  }

  /** The instances move before the event is heard, too: it is the same event. */
  lemma {:induction false} WaitingKeepsHead(w: Setup, s: System, labels: seq<Label>)
    requires s.events != [] && forall i :: 0 <= i < |labels| ==> ByOthers(labels[i])
    ensures var t := Reach(w, s, labels);
            SameView(t, s) && t.events != [] && t.events[0] == s.events[0]
    decreases |labels|
  {
    hide Apply, ByOthers;
    if labels != [] {
      var t := Apply(w, s, labels[0]);
      OthersKeepView(w, s, labels[0]);
      assert t.events[0] == t.events[..|s.events|][0];
      WaitingKeepsHead(w, t, labels[1..]);
    }
  }

  lemma HearingKeepsView(w: Setup, s: System, u: System, accepts: nat -> bool)
    requires s.events != [] && u.events != [] && s.events[0] == u.events[0] && SameView(s, u) && s.checking == {}
    ensures SameView(Apply(w, s, PoolHears(accepts(0))), Apply(w, u, PoolHears(accepts(0))))
  {
    HearingIsHandling(w, s, accepts);
    HearingIsHandling(w, u, accepts);
    HearingKeepsChecking(w, s, accepts(0));
    HearingKeepsChecking(w, u, accepts(0));
    hide Apply, R.HandleEvent;
  }

  lemma HearingKeepsChecking(w: Setup, s: System, accept: bool)
    ensures Apply(w, s, PoolHears(accept)).checking == s.checking
  {
    hide R.HandleReady, R.ReleaseKey, T.Remove, StepOutside;
  }

  /** An event turn with the instances and the user acting before, between and after its labels: registry and
      table are as `HandleEvent` of the pool leaves them. */
  lemma HandleEventInterleaved(w: Setup, s: System, before: seq<Label>, after: seq<Label>, accepts: nat -> bool,
                               now: nat -> int, made: nat, victim: Option<ID>, accept: bool)
    requires SystemInv(w, s) && s.events != [] && s.checking == {}
    requires victim.Some? ==>
               victim.value in C.CreateTimes(C.Cleared(s.tab, s.events[0].id, s.events[0].ev), now, made).created
    requires forall i :: 0 <= i < |before| ==> ByOthers(before[i])
    requires forall i :: 0 <= i < |after| ==> ByOthers(after[i]) || Steady(after[i])
    requires Own(after) == Alignment(now, made, victim, accept)
    ensures var e := s.events[0];
            var t := Reach(w, s, before + [PoolHears(accepts(0))] + after);
            && t.reg == R.HandleEvent(s.reg, w.keyer, e.id, e.ev, e.report)
            && t.tab == C.CreateTimes(C.Cleared(s.tab, e.id, e.ev), now, made)
  {
    hide Reach, Apply, SystemInv, Own, Alignment, R.HandleEvent, C.Cleared, C.CreateTimes;
    var hear := PoolHears(accepts(0));
    var s1 := Reach(w, s, before);
    WaitingKeepsHead(w, s, before);
    HearingKeepsView(w, s1, s, accepts);
    HearingIsHandling(w, s, accepts);
    ApplyKeeps(w, s, hear);
    InterleavingKeepsView(w, Apply(w, s1, hear), Apply(w, s, hear), after);
    AligningIsARun(w, Apply(w, s, hear), now, made, victim, accept);
    ReachMore(w, s, before, hear);
    ReachInTwo(w, s, before + [hear], after);
  }

  /** The same for a health tick: whatever lists it sends to, the registry stays and the table is aligned. */
  lemma HealthTickInterleaved(w: Setup, s: System, labels: seq<Label>, sends: seq<C.Send>, accepts: nat -> bool,
                              now: nat -> int, made: nat, victim: Option<ID>, accept: bool)
    requires SystemInv(w, s) && forall i :: 0 <= i < |sends| ==> Sendable(s, sends[i])
    requires victim.Some? ==> victim.value in C.CreateTimes(s.tab, now, made).created
    requires forall i :: 0 <= i < |labels| ==> ByOthers(labels[i]) || Steady(labels[i])
    requires Own(labels) == SendLabels(sends, accepts) + Alignment(now, made, victim, accept)
    ensures var t := Reach(w, s, labels);
            t.reg == s.reg && t.tab == C.CreateTimes(s.tab, now, made)
  {
    hide Reach, SystemInv, Own, Alignment, SendLabels, Delivered, Sendable, C.CreateTimes;
    InterleavingKeepsView(w, s, s, labels);
    SendingIsARun(w, s, sends, accepts);
    DeliveredKeeps(s, sends, accepts);
    ReachKeeps(w, s, SendLabels(sends, accepts));
    ReachInTwo(w, s, SendLabels(sends, accepts), Alignment(now, made, victim, accept));
    AligningIsARun(w, Delivered(s, sends, accepts), now, made, victim, accept);
  }

  /** Each instance is Normal at the moment it is read. */
  ghost predicate FindNormal(w: Setup, s: System, labels: seq<Label>)
    decreases |labels|
  {
    labels != [] ==>
      && (labels[0].PoolReadsNormal? ==>
            && labels[0].id in s.tab.created && labels[0].id in s.insts
            && s.insts[labels[0].id].status == Normal)
      && FindNormal(w, Apply(w, s, labels[0]), labels[1..])
  }

  function ReadIds(labels: seq<Label>): set<ID> {
    set i | 0 <= i < |labels| && labels[i].PoolReadsNormal? :: labels[i].id
  }

  lemma FirstRead(labels: seq<Label>)
    requires labels != []
    ensures ReadIds(labels) == ReadIds(labels[1..]) + (if labels[0].PoolReadsNormal? then {labels[0].id} else {})
  {
    var rest := labels[1..];
    forall id
      ensures id in ReadIds(labels) <==> id in ReadIds(rest) || (labels[0].PoolReadsNormal? && labels[0].id == id)
    {
      if id in ReadIds(labels) {
        var i :| 0 <= i < |labels| && labels[i].PoolReadsNormal? && labels[i].id == id;
        assert i > 0 ==> rest[i - 1] == labels[i];
      }
      if id in ReadIds(rest) {
        var i :| 0 <= i < |rest| && rest[i].PoolReadsNormal? && rest[i].id == id;
        assert labels[i + 1] == rest[i];
      }
    }
  }

  lemma {:induction false} ReadingInterleaved(w: Setup, s: System, labels: seq<Label>)
    requires forall i :: 0 <= i < |labels| ==> ByOthers(labels[i]) || labels[i].PoolReadsNormal?
    requires FindNormal(w, s, labels)
    ensures var t := Reach(w, s, labels);
            t.reg == s.reg && t.tab == s.tab && t.checking == s.checking + ReadIds(labels)
    decreases |labels|
  {
    hide ReadIds;
    if labels == [] {
      assert ReadIds(labels) == {} by { NoReads(); }
    } else {
      FirstRead(labels);
      if ByOthers(labels[0]) {
        OthersKeepView(w, s, labels[0]);
      }
      hide Step, Possible, StepOutside, MoveInstance, Deliver;
      ReadingInterleaved(w, Apply(w, s, labels[0]), labels[1..]);
    }
  }

  lemma NoReads()
    ensures ReadIds([]) == {}
  {
  }

  /** The same for an egress tick: each instance checked was Normal when it was read, and they all moved on
      since; registry and table are as `EgressCheck` and the alignment leave them. */
  lemma EgressTickInterleaved(w: Setup, s: System, looks: seq<Label>, labels: seq<Label>, results: seq<Result>,
                              accepts: nat -> bool, now: nat -> int, made: nat, victim: Option<ID>, accept: bool)
    requires SystemInv(w, s) && s.checking == {}
    requires forall i :: 0 <= i < |looks| ==> ByOthers(looks[i]) || looks[i].PoolReadsNormal?
    requires FindNormal(w, s, looks) && ReadIds(looks) == Ids(results) <= s.tab.created.Keys
    requires forall i, j :: 0 <= i < j < |results| ==> results[i].0 != results[j].0
    requires forall i :: 0 <= i < |labels| ==> ByOthers(labels[i]) || Steady(labels[i])
    requires Own(labels) == CheckLabels(w, s, results, accepts) + Alignment(now, made, victim, accept)
    requires victim.Some? ==> victim.value in C.CreateTimes(s.tab, now, made).created
    ensures var t := Reach(w, s, looks + labels);
            && t.reg == C.Checked(s.reg, w.keyer, results, T.NewerThan(s.tab.created)).0
            && t.tab == C.CreateTimes(s.tab, now, made)
  {
    hide Reach, Apply, SystemInv, Own, Alignment, CheckLabels, AfterCheck, FindNormal, ReadIds, Ids, C.CreateTimes, C.Checked;
    var u := Reach(w, s, looks);
    ReadingInterleaved(w, s, looks);
    ReachKeeps(w, s, looks);
    ReachInTwo(w, s, looks, labels);
    var checks := CheckLabels(w, u, results, accepts);
    SameChecks(w, s, u, results, accepts);
    InterleavingKeepsView(w, u, u, labels);
    CheckingIsARun(w, u, results, accepts);
    AfterCheckKeeps(w, u, results, accepts);
    ReachKeeps(w, u, checks);
    ReachInTwo(w, u, checks, Alignment(now, made, victim, accept));
    AligningIsARun(w, Reach(w, u, checks), now, made, victim, accept);
  }

  lemma {:induction false} SameChecks(w: Setup, s: System, u: System, results: seq<Result>, accepts: nat -> bool)
    requires u.reg == s.reg && u.tab == s.tab
    ensures CheckLabels(w, u, results, accepts) == CheckLabels(w, s, results, accepts)
    decreases |results|
  {
    if results != [] {
      SameChecks(w, s, u, results[..|results| - 1], accepts);
    }
    hide C.Checked;
  }
}
