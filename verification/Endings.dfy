/** An instance that ends says so only if the event channel has room. One that could not say it stays in the
    table for good, with its port and the status it had. */
module Endings {
  import opened Decimal
  import opened Types
  import opened EgressKeys
  import opened Instances
  import opened InstanceSafety
  import opened Protocol
  import opened ProtocolSafety
  import opened SystemSafety
  import opened SystemTheorems
  import opened ReleaseSafety
  import opened EntrySafety
  import opened SampleRuns
  import R = Registry
  import T = Table
  import P = Ports

  /** The last event the instance sent is Stopped. */
  predicate SaidStopped(i: Inst) {
    var sent := i.reporting.emitted;
    sent != [] && sent[|sent| - 1] == Stopped
  }

  ghost predicate StoppedInChannel(id: ID, events: seq<Tagged>) {
    exists k :: 0 <= k < |events| && IsStopped(events[k], id)
  }

  predicate IsStopped(e: Tagged, id: ID) {
    e.id == id && e.ev == Stopped
  }

  /** Exactly the instances that said Stopped are out of the table, or about to be. */
  ghost predicate StopKept(s: System, id: ID, i: Inst) {
    && (SaidStopped(i) <==> id !in s.tab.created || StoppedInChannel(id, s.events))
    && (SaidStopped(i) ==> i.pc.Gone?)
  }

  ghost predicate StopInv(s: System) {
    forall id :: id in s.insts ==> StopKept(s, id, s.insts[id])
  }

  lemma StepSays(conf: Config, i: Inst, m: Move)
    requires Safe(i) && Enabled(conf, i, m)
    ensures var j := Step(conf, i, m);
            && (m == StoppedSent ==> SaidStopped(j) && j.pc.Gone?)
            && (m == Sent ==> !SaidStopped(j))
            && (m != Sent && m != StoppedSent ==> j.reporting.emitted == i.reporting.emitted)
            && (i.pc.Gone? ==> j.pc.Gone? && m != Sent && m != StoppedSent && j.status == i.status)
            && (m == Sent ==> i.pc.Emitting? && !i.pc.ev.Stopped?)
  {
    hide QueueInv, GenInv, ClientInv, NextDelay, Closed, Adopted, Exited, Rotated, Pushed, Parked, Overtaking, StepMain;
    if i.pc.Main? {
      MainSaysNothing(conf, i, m);
    }
  }

  lemma MainSaysNothing(conf: Config, i: Inst, m: Move)
    requires i.pc.Main? && Enabled(conf, i, m)
    ensures StepMain(conf, i, m).reporting.emitted == i.reporting.emitted
  {
    hide Handle;
    if m == TakePending {
      HandleEmits(conf, i.(queue := HandledPending(i.queue)), i.queue.pending[0].cmd);
    } else if m == Receive {
      HandleEmits(conf, i.(queue := HandledReceived(i.queue)), i.queue.cmds[0].cmd);
    }
  }

  lemma HandleEmits(conf: Config, i: Inst, c: Command)
    ensures Handle(conf, i, c).reporting.emitted == i.reporting.emitted
  {
    hide NextDelay, Closed, Rotated;
  }

  lemma LongerChannel(id: ID, events: seq<Tagged>, e: Tagged)
    ensures StoppedInChannel(id, events + [e]) <==> StoppedInChannel(id, events) || IsStopped(e, id)
  {
    var longer := events + [e];
    assert longer[|events|] == e;
    if StoppedInChannel(id, events) {
      var k :| 0 <= k < |events| && IsStopped(events[k], id);
      assert longer[k] == events[k];
    }
  }

  lemma ShorterChannel(id: ID, events: seq<Tagged>)
    requires events != []
    ensures StoppedInChannel(id, events) <==> StoppedInChannel(id, events[1..]) || IsStopped(events[0], id)
  {
    var rest := events[1..];
    if StoppedInChannel(id, rest) {
      var k :| 0 <= k < |rest| && IsStopped(rest[k], id);
      assert events[k + 1] == rest[k];
    }
    if k :| 0 < k < |events| && IsStopped(events[k], id) {
      assert rest[k - 1] == events[k];
    }
  }

  lemma MovedKeepsOwnStop(w: Setup, s: System, id: ID, m: Move)
    requires id in s.insts && Safe(s.insts[id]) && Possible(w, s, s.insts[id], m) && StopKept(s, id, s.insts[id])
    ensures var t := MoveInstance(w, s, id, m);
            id in t.insts && StopKept(t, id, t.insts[id])
  {
    StepSays(w.conf, s.insts[id], m);
    hide Step, Enabled, Safe, SaidStopped, StoppedInChannel;
    var t := MoveInstance(w, s, id, m);
    if m == Sent || m == StoppedSent {
      LongerChannel(id, s.events, t.events[|s.events|]);
    } else {
      assert SaidStopped(t.insts[id]) <==> SaidStopped(s.insts[id]) by {
        SameWordsSameStop(s.insts[id], t.insts[id]);
      }
    }
  }

  lemma SameWordsSameStop(i: Inst, j: Inst)
    requires j.reporting.emitted == i.reporting.emitted
    ensures SaidStopped(j) <==> SaidStopped(i)
  {
  }

  lemma MoveKeepsStops(w: Setup, s: System, id: ID, m: Move)
    requires SystemInv(w, s) && StopInv(s)
    ensures StopInv(MoveInstance(w, s, id, m))
  {
    hide SystemInv, Safe, Possible, StopKept, MoveInstance;
    MoveOnlyOne(w, s, id, m);
    var t := MoveInstance(w, s, id, m);
    forall x | x in t.insts
      ensures StopKept(t, x, t.insts[x])
    {
      if x != id {
        MovedKeepsOtherStop(w, s, id, m, x);
      } else if Possible(w, s, s.insts[id], m) {
        EachIsSafe(w, s, id);
        MovedKeepsOwnStop(w, s, id, m);
      } else {
        Impossible(w, s, id, m);
      }
    }
  }

  lemma MovedKeepsOtherStop(w: Setup, s: System, id: ID, m: Move, x: ID)
    requires x in s.insts && x != id && StopKept(s, x, s.insts[x])
    ensures var t := MoveInstance(w, s, id, m);
            x in t.insts && StopKept(t, x, t.insts[x])
  {
    hide Step, Possible, StoppedInChannel;
    var t := MoveInstance(w, s, id, m);
    if |t.events| > |s.events| {
      LongerChannel(x, s.events, t.events[|s.events|]);
    }
  }

  /** Hearing takes the head event; who has said Stopped leaves the table. */
  lemma HearingRemoves(w: Setup, s: System, accept: bool)
    requires s.events != []
    ensures var e, t := s.events[0], Hear(w, s, accept);
            && t.events == s.events[1..] && t.insts.Keys == s.insts.Keys
            && t.tab.created == (if e.ev == Stopped then s.tab.created - {e.id} else s.tab.created)
            && (forall x :: x in s.tab.portOf && !IsStopped(e, x) ==>
                  x in t.tab.portOf && t.tab.portOf[x] == s.tab.portOf[x])
  {
    hide R.HandleReady, R.ReleaseKey, P.Release, T.Drop, StepOutside;
  }

  lemma HeardKeepsStop(s: System, t: System, id: ID, j: Inst)
    requires s.events != [] && t.events == s.events[1..]
    requires id in s.insts && StopKept(s, id, s.insts[id]) && j == Touched(s.insts[id], j)
    requires t.tab.created == if s.events[0].ev == Stopped then s.tab.created - {s.events[0].id} else s.tab.created
    ensures StopKept(t, id, j)
  {
    hide StoppedInChannel;
    ShorterChannel(id, s.events);
  }

  lemma HearKeepsStops(w: Setup, s: System, accept: bool)
    requires StopInv(s) && s.events != []
    ensures StopInv(Hear(w, s, accept))
  {
    hide Hear, StopKept;
    HearOnlyTouches(w, s, accept);
    HearingRemoves(w, s, accept);
    var t := Hear(w, s, accept);
    forall id | id in t.insts
      ensures StopKept(t, id, t.insts[id])
    {
      HeardKeepsStop(s, t, id, t.insts[id]);
    }
  }

  lemma NobodySpeaksForTheNew(w: Setup, s: System)
    requires SystemInv(w, s)
    ensures !StoppedInChannel(Itoa(s.tab.nextSeq), s.events)
  {
    EventsAreOk(w, s);
    IdsAreNew(w, s);
    hide SystemInv, Itoa;
  }

  lemma CreateKeepsStops(w: Setup, s: System, now: int)
    requires SystemInv(w, s) && StopInv(s)
    ensures StopInv(CreateOne(s, now))
  {
    hide SystemInv, P.Acquire, Itoa, NewInst, StoppedInChannel, SaidStopped;
    NobodySpeaksForTheNew(w, s);
    IdsAreNew(w, s);
    NewHasSaidNothing(s.tab.nextSeq);
  }

  lemma NewHasSaidNothing(seqNo: nat)
    ensures !SaidStopped(NewInst(seqNo))
  {
  }

  predicate OnlySends(l: Label) {
    || l.PoolReconfirms? || l.PoolDrains? || l.PoolStops? || l.UserSends? || l.PoolReadsNormal? || l.PoolEndsCheck?
    || l.PoolChecksEgress?
  }

  lemma SendingKeepsTable(w: Setup, s: System, l: Label)
    requires OnlySends(l)
    ensures var t := Apply(w, s, l);
            t.events == s.events && t.tab == s.tab && t.insts.Keys == s.insts.Keys && OnlyTouches(s, t, {})
  {
    hide Deliver, OnlyTouches, R.ApplyEgress;
    NothingTouched(s, {});
    match l {
      case PoolReconfirms(id, accept) => DeliverAdds(s, id, Confirm(R.Count(s.reg.accepted, id)), accept);
      case PoolDrains(id, accept) => DeliverAdds(s, id, Drain, accept);
      case PoolStops(id, accept) => DeliverAdds(s, id, Stop, accept);
      case UserSends(id, cmd, accept) => DeliverAdds(s, id, cmd, accept);
      case PoolChecksEgress(id, eg, failed, accept) =>
        CheckOnlyTouches(w, s, id, eg, failed, accept);
        CheckKeepsTable(w, s, id, eg, failed, accept);
      case PoolReadsNormal(id) => NothingTouched(s, s.checking + {id});
      case PoolEndsCheck =>
    }
  }

  lemma CheckKeepsTable(w: Setup, s: System, id: ID, eg: Egress, failed: bool, accept: bool)
    ensures var t := CheckEgress(w, s, id, eg, failed, accept);
            t.events == s.events && t.tab == s.tab && t.insts.Keys == s.insts.Keys
  {
    hide R.ApplyEgress, StepOutside;
  }

  lemma SendKeepsStops(w: Setup, s: System, l: Label)
    requires StopInv(s) && OnlySends(l)
    ensures StopInv(Apply(w, s, l))
  {
    hide Apply, StoppedInChannel;
    SendingKeepsTable(w, s, l);
  }

  lemma ApplyKeepsStops(w: Setup, s: System, l: Label)
    requires SystemInv(w, s) && StopInv(s)
    ensures StopInv(Apply(w, s, l))
  {
    hide SystemInv, StopInv, Hear, CheckEgress, CreateOne, MoveInstance, Deliver;
    if OnlySends(l) {
      SendKeepsStops(w, s, l);
    } else if l.PoolHears? {
      if s.events != [] {
        HearKeepsStops(w, s, l.accept);
      }
    } else if l.PoolCreates? {
      CreateKeepsStops(w, s, l.now);
    } else {
      MoveKeepsStops(w, s, l.id, l.move);
    }
  }

  lemma {:induction false} ReachKeepsStops(w: Setup, s: System, labels: seq<Label>)
    requires SystemInv(w, s) && StopInv(s)
    ensures StopInv(Reach(w, s, labels))
    decreases |labels|
  {
    hide SystemInv, StopInv, Apply;
    if labels != [] {
      ApplyKeeps(w, s, labels[0]);
      ApplyKeepsStops(w, s, labels[0]);
      ReachKeepsStops(w, Apply(w, s, labels[0]), labels[1..]);
    }
  }

  /** Whether an ending instance says Stopped is decided by room in the channel alone; and in every reachable
      state it has said so exactly if it is out of the table or the event is still to be heard. */
  lemma EndedLeavesIffItSaidStopped(w: Setup, labels: seq<Label>, id: ID, m: Move)
    requires ValidSetup(w) && id in After(w, labels).insts
    ensures var s := After(w, labels);
            SaidStopped(s.insts[id]) <==> id !in s.tab.created || StoppedInChannel(id, s.events)
    ensures var s := After(w, labels);
            s.insts[id].pc.Finalized? && Possible(w, s, s.insts[id], m) && !FromOutside(m) ==>
              (SaidStopped(Step(w.conf, s.insts[id], m)) <==> |s.events| < EVENT_CAPACITY)
              && Step(w.conf, s.insts[id], m).pc.Gone?
  {
    hide SystemInv, Reach;
    StartHolds(w);
    ReachKeepsStops(w, Start(w), labels);
    EveryRunIsSafe(w, labels);
    RoomDecides(w, After(w, labels), id, m);
  }

  lemma RoomDecides(w: Setup, s: System, id: ID, m: Move)
    requires id in s.insts && (s.insts[id].pc.Finalized? ==> !SaidStopped(s.insts[id]))
    ensures s.insts[id].pc.Finalized? && Possible(w, s, s.insts[id], m) && !FromOutside(m) ==>
              (SaidStopped(Step(w.conf, s.insts[id], m)) <==> |s.events| < EVENT_CAPACITY)
              && Step(w.conf, s.insts[id], m).pc.Gone?
  {
  }

  // ----- the ones that could not say it -----

  /** Over, in the table, and with nothing on its way that would take it out. */
  ghost predicate Stranded(s: System, id: ID) {
    id in s.insts && s.insts[id].pc.Gone? && !SaidStopped(s.insts[id])
  }

  lemma StrandedStays(w: Setup, s: System, l: Label, id: ID)
    requires SystemInv(w, s) && StopInv(s) && Stranded(s, id) && id in s.tab.portOf
    ensures var t := Apply(w, s, l);
            && Stranded(t, id) && t.insts[id].status == s.insts[id].status
            && id in t.tab.portOf && t.tab.portOf[id] == s.tab.portOf[id]
  {
    hide SystemInv, Hear, CheckEgress, CreateOne, MoveInstance, Deliver, Apply;
    ApplyByKind(w, s, l);
    if OnlySends(l) {
      SendingKeepsTable(w, s, l);
    } else if l.PoolHears? {
      if s.events != [] && s.checking == {} {
        NotTheOneHeard(s, id);
        HearingRemoves(w, s, l.accept);
        HearOnlyTouches(w, s, l.accept);
      }
    } else if l.PoolCreates? {
      IdsAreNew(w, s);
      CreatingKeepsPorts(s, l.now, id);
    } else {
      EachIsSafe(w, s, id);
      StrandedDoesNotMove(w, s, l.id, l.move, id);
    }
  }

  lemma NotTheOneHeard(s: System, id: ID)
    requires StopInv(s) && Stranded(s, id) && s.events != []
    ensures !IsStopped(s.events[0], id)
  {
    assert StopKept(s, id, s.insts[id]);
  }

  lemma CreatingKeepsPorts(s: System, now: int, id: ID)
    requires id in s.insts && Itoa(s.tab.nextSeq) !in s.insts && id in s.tab.portOf
    ensures var t := CreateOne(s, now);
            && id in t.insts && t.insts[id] == s.insts[id]
            && id in t.tab.portOf && t.tab.portOf[id] == s.tab.portOf[id]
  {
    hide P.Acquire, Itoa, NewInst;
  }

  lemma StrandedDoesNotMove(w: Setup, s: System, mover: ID, m: Move, id: ID)
    requires Stranded(s, id) && Safe(s.insts[id])
    ensures var t := MoveInstance(w, s, mover, m);
            Stranded(t, id) && t.insts[id].status == s.insts[id].status && t.tab == s.tab
  {
    hide Step, Safe, Enabled, SaidStopped;
    if mover == id && Enabled(w.conf, s.insts[id], m) {
      StepSays(w.conf, s.insts[id], m);
      SameWordsSameStop(s.insts[id], Step(w.conf, s.insts[id], m));
    }
  }

  lemma {:induction false} StrandedForGood(w: Setup, s: System, more: seq<Label>, id: ID)
    requires SystemInv(w, s) && StopInv(s) && Stranded(s, id) && id in s.tab.portOf
    ensures var t := Reach(w, s, more);
            && SystemInv(w, t) && StopInv(t)
            && Stranded(t, id) && t.insts[id].status == s.insts[id].status
            && id in t.tab.portOf && t.tab.portOf[id] == s.tab.portOf[id]
    decreases |more|
  {
    hide SystemInv, StopInv, Stranded, Apply;
    if more != [] {
      StrandedStays(w, s, more[0], id);
      ApplyKeeps(w, s, more[0]);
      ApplyKeepsStops(w, s, more[0]);
      StrandedForGood(w, Apply(w, s, more[0]), more[1..], id);
    }
  }

  /** An instance that ended without saying Stopped is in the table in every later state of the run, with the
      port and the status it ended with. */
  lemma UnsaidStopStaysForGood(w: Setup, labels: seq<Label>, more: seq<Label>, id: ID)
    requires ValidSetup(w) && Stranded(After(w, labels), id)
    ensures var s, t := After(w, labels), After(w, labels + more);
            && id in t.tab.created && id in t.insts && t.insts[id].status == s.insts[id].status
            && id in s.tab.portOf && id in t.tab.portOf && t.tab.portOf[id] == s.tab.portOf[id]
  {
    hide SystemInv, Reach, Stranded;
    StartHolds(w);
    EveryRunIsSafe(w, labels);
    ReachKeepsStops(w, Start(w), labels);
    StrandedIsListed(w, After(w, labels), id);
    StrandedForGood(w, After(w, labels), more, id);
    StrandedIsListed(w, Reach(w, After(w, labels), more), id);
    ReachInTwo(w, Start(w), labels, more);
  }

  lemma StrandedIsListed(w: Setup, s: System, id: ID)
    requires SystemInv(w, s) && StopInv(s) && Stranded(s, id)
    ensures id in s.tab.created && id in s.tab.portOf && id in s.insts
  {
    assert StopKept(s, id, s.insts[id]);
    hide Linked, RegistryInv, InstsInv, TokensInv;
  }

  // ----- what its key does -----

  /** The check has read an address through the instance: only that can move or free its entry. */
  predicate ReadsThrough(l: Label, id: ID) {
    l.PoolChecksEgress? && l.id == id && (!l.failed || AnyValid(l.eg))
  }

  predicate NothingFrom(id: ID, events: seq<Tagged>) {
    forall k :: 0 <= k < |events| ==> events[k].id != id
  }

  predicate HasEntry(s: System, id: ID, key: string) {
    id in s.reg.keysByInst && s.reg.keysByInst[id] == key && NothingFrom(id, s.events)
  }

  lemma HearingKeepsEntry(w: Setup, s: System, accept: bool, id: ID, key: string)
    requires s.events != [] && HasEntry(s, id, key)
    ensures HasEntry(Hear(w, s, accept), id, key)
  {
    hide Hear, R.HandleReady, R.ReleaseKey;
    var e := s.events[0];
    assert e.id != id;
    HearingIsJudging(w, s, accept);
    ReleaseKeyTouches(s.reg, e.id);
    if e.ev.Ready? {
      HandleReadyEffect(s.reg, w.keyer, e.id, e.ev.egress, e.report);
    }
  }

  lemma OtherKeysStay(r: R.Registry, keyer: Keyer, id: ID, eg: Egress, failed: bool, newer: (ID, ID) -> bool, x: ID)
    requires x in r.keysByInst && (x == id ==> failed && !AnyValid(eg))
    ensures var t := R.ApplyEgress(r, keyer, id, eg, failed, newer).0;
            x in t.keysByInst && t.keysByInst[x] == r.keysByInst[x]
  {
    ReleaseKeyTouches(r, id);
    hide R.ReleaseKey;
  }

  lemma CheckingKeepsEntry(w: Setup, s: System, l: Label, id: ID, key: string)
    requires l.PoolChecksEgress? && !ReadsThrough(l, id) && HasEntry(s, id, key)
    ensures HasEntry(CheckEgress(w, s, l.id, l.eg, l.failed, l.accept), id, key)
  {
    OtherKeysStay(s.reg, w.keyer, l.id, l.eg, l.failed, T.NewerThan(s.tab.created), id);
    CheckTakes(w, s, l.id, l.eg, l.failed, l.accept);
    hide R.ApplyEgress, CheckEgress;
  }

  lemma MovingKeepsEntry(w: Setup, s: System, mover: ID, m: Move, id: ID, key: string)
    requires HasEntry(s, id, key) && id in s.insts && s.insts[id].pc.Gone? && Safe(s.insts[id])
    ensures HasEntry(MoveInstance(w, s, mover, m), id, key)
  {
    hide Step, Safe, Enabled;
    if mover == id && Enabled(w.conf, s.insts[id], m) {
      StepSays(w.conf, s.insts[id], m);
    }
  }

  lemma CreatingKeepsEntry(s: System, now: int, id: ID, key: string)
    requires HasEntry(s, id, key)
    ensures HasEntry(CreateOne(s, now), id, key)
  {
    hide T.Create, NewInst;
  }

  lemma StepKeepsStrandedEntry(w: Setup, s: System, l: Label, id: ID, key: string)
    requires SystemInv(w, s) && Stranded(s, id) && HasEntry(s, id, key) && !ReadsThrough(l, id)
    ensures HasEntry(Apply(w, s, l), id, key)
  {
    hide SystemInv, Hear, CheckEgress, CreateOne, MoveInstance, Deliver, HasEntry;
    if l.PoolChecksEgress? {
      CheckingKeepsEntry(w, s, l, id, key);
    } else if l.PoolHears? {
      if s.events != [] {
        HearingKeepsEntry(w, s, l.accept, id, key);
      }
    } else if l.PoolCreates? {
      CreatingKeepsEntry(s, l.now, id, key);
    } else if l.InstanceMoves? {
      EachIsSafe(w, s, id);
      MovingKeepsEntry(w, s, l.id, l.move, id, key);
    } else {
      SendingKeepsEntry(w, s, l, id, key);
    }
  }

  lemma SendingKeepsEntry(w: Setup, s: System, l: Label, id: ID, key: string)
    requires OnlySends(l) && !l.PoolChecksEgress? && HasEntry(s, id, key)
    ensures HasEntry(Apply(w, s, l), id, key)
  {
    hide StepOutside;
  }

  lemma {:induction false} StrandedKeepsEntry(w: Setup, s: System, more: seq<Label>, id: ID, key: string)
    requires SystemInv(w, s) && StopInv(s) && Stranded(s, id) && id in s.tab.portOf && HasEntry(s, id, key)
    requires forall i :: 0 <= i < |more| ==> !ReadsThrough(more[i], id)
    ensures HasEntry(Reach(w, s, more), id, key)
    decreases |more|
  {
    hide SystemInv, StopInv, Stranded, HasEntry, ReadsThrough, Apply;
    if more != [] {
      StrandedStays(w, s, more[0], id);
      StepKeepsStrandedEntry(w, s, more[0], id, key);
      ApplyKeeps(w, s, more[0]);
      ApplyKeepsStops(w, s, more[0]);
      StrandedKeepsEntry(w, Apply(w, s, more[0]), more[1..], id, key);
    }
  }

  /** Its events heard, an entry it has stays for good unless a check reads an address through it; and as long
      as it does, every other instance that reports that key is told to replay. */
  lemma UnsaidStopKeepsItsKey(w: Setup, labels: seq<Label>, more: seq<Label>, id: ID, other: ID, eg: Egress, report: nat)
    requires ValidSetup(w) && Stranded(After(w, labels), id) && NothingFrom(id, After(w, labels).events)
    requires id in After(w, labels).reg.keysByInst && After(w, labels).reg.keysByInst[id] == w.keyer(eg)
    requires forall i :: 0 <= i < |more| ==> !ReadsThrough(more[i], id)
    ensures var t := After(w, labels + more);
            && id in t.reg.keysByInst && t.reg.keysByInst[id] == w.keyer(eg)
            && (other != id && w.keyer(eg) != "" ==> R.HandleReady(t.reg, w.keyer, other, eg, report).1 == Replay)
  {
    hide SystemInv, Reach, Stranded, R.HandleReady, NothingFrom;
    StartHolds(w);
    EveryRunIsSafe(w, labels);
    ReachKeepsStops(w, Start(w), labels);
    StrandedIsListed(w, After(w, labels), id);
    StrandedKeepsEntry(w, After(w, labels), more, id, w.keyer(eg));
    ReachInTwo(w, Start(w), labels, more);
    RegistryIsExact(w, labels + more, w.keyer(eg), id);
    OwnedIsReplayed(After(w, labels + more).reg, w.keyer, id, other, eg, report);
  }

  lemma OwnedIsReplayed(r: R.Registry, keyer: Keyer, id: ID, other: ID, eg: Egress, report: nat)
    ensures other != id && keyer(eg) != "" && keyer(eg) in r.usedKeys && r.usedKeys[keyer(eg)] == id ==>
              R.HandleReady(r, keyer, other, eg, report).1 == Replay
  {
  }

  // ----- a run that strands one -----

  /** Disabled and idle. */
  predicate Off(i: Inst, reports: nat) {
    i.pc.Main? && i.status == Disabled && Undisturbed(i, 0, reports, 0)
  }

  lemma DisableSteps(conf: Config, i: Inst, reports: nat, last: Egress)
    requires Idle(i, Probing, 0, reports, 0, last)
    ensures var i1 := Step(conf, i.(queue := Pushed(i.queue, Disable)), Receive);
            i1.pc == Emitting(DisabledNow, ToMain) && i1.reporting.reports == reports && Off(Step(conf, i1, Sent), reports)
  {
  }

  /** It is disabled, and says so. */
  lemma IsDisabled(w: Setup, s: System, id: ID, reports: nat, last: Egress) returns (t: System)
    requires id in s.insts && Idle(s.insts[id], Probing, 0, reports, 0, last) && |s.events| < EVENT_CAPACITY
    ensures Leads(w, s, t) && id in t.insts && Off(t.insts[id], reports)
    ensures t == s.(insts := s.insts[id := t.insts[id]], events := s.events + [Tagged(id, DisabledNow, reports)])
  {
    var i := s.insts[id];
    DisableSteps(w.conf, i, reports, last);
    assert AtSelect(i) && i.queue.cmds == [];
    hide Leads, Step, Idle, Off;
    var i1 := Step(w.conf, i.(queue := Pushed(i.queue, Disable)), Receive);
    var i2 := Step(w.conf, i1, Sent);
    NoLabels(w, s);
    LeadsByTaking(w, s, s, id, Disable, i1);
    var s1 := s.(insts := s.insts[id := i1]);
    LeadsByMove(w, s, s1, id, Sent, i2);
    t := Moved(w, s1, id, Sent, i2);
    assert t.insts == s.insts[id := i2];
  }

  lemma EnableSteps(conf: Config, i: Inst, reports: nat)
    requires Off(i, reports)
    ensures AboutToStart(Step(conf, i.(queue := Pushed(i.queue, Enable)), Receive), ThenProbe, 0, reports, 0)
  {
    hide NextDelay;
  }

  /** It is enabled, starts and reports. */
  lemma IsEnabled(w: Setup, s: System, id: ID, reports: nat, eg: Egress) returns (t: System)
    requires id in s.insts && Off(s.insts[id], reports)
    requires s.tokens == 0 < w.replayConcurrency && |s.events| < EVENT_CAPACITY
    ensures Leads(w, s, t) && id in t.insts && Idle(t.insts[id], Probing, 0, reports + 1, 0, eg)
    ensures t == s.(insts := s.insts[id := t.insts[id]], events := s.events + [Tagged(id, Ready(eg), reports + 1)])
  {
    var i := s.insts[id];
    EnableSteps(w.conf, i, reports);
    assert AtSelect(i) && i.queue.cmds == [];
    hide Leads, Step, Idle, Off, AboutToStart;
    var i1 := Step(w.conf, i.(queue := Pushed(i.queue, Enable)), Receive);
    NoLabels(w, s);
    LeadsByTaking(w, s, s, id, Enable, i1);
    var s1 := s.(insts := s.insts[id := i1]);
    t := StartsAndReports(w, s1, id, eg, 0, reports, 0);
    LeadsOn(w, s, s1, t);
    assert t.insts == s.insts[id := t.insts[id]];
  }

  /** Disabled and enabled over and over while nothing is heard, "1" fills the channel by two events a time. */
  lemma {:induction false} Fills(w: Setup, s: System, reports: nat, eg: Egress, times: nat) returns (t: System)
    requires "1" in s.insts && Idle(s.insts["1"], Probing, 0, reports, 0, eg)
    requires s.tokens == 0 < w.replayConcurrency && |s.events| + 2 * times <= EVENT_CAPACITY
    requires NothingFrom("0", s.events)
    ensures Leads(w, s, t) && "1" in t.insts && Idle(t.insts["1"], Probing, 0, reports + times, 0, eg)
    ensures t == s.(insts := s.insts["1" := t.insts["1"]], events := t.events)
    ensures |t.events| == |s.events| + 2 * times && NothingFrom("0", t.events)
    decreases times
  {
    hide Leads, Idle, Off;
    if times == 0 {
      NoLabels(w, s);
      t := s;
    } else {
      var s1 := IsDisabled(w, s, "1", reports, eg);
      var s2 := IsEnabled(w, s1, "1", reports, eg);
      LeadsOn(w, s, s1, s2);
      t := Fills(w, s2, reports + 1, eg, times - 1);
      LeadsOn(w, s, s2, t);
      assert t.insts == s.insts["1" := t.insts["1"]];
    }
  }

  lemma EndSteps(conf: Config, i: Inst, reports: nat, last: Egress)
    requires Idle(i, Normal, 0, reports, reports, last) && !SaidStopped(i)
    ensures var i1 := i.(queue := Pushed(i.queue, Stop));
            var i2 := Step(conf, i1, Receive);
            var i3 := Step(conf, i2, Finalize);
            var i4 := Step(conf, i3, StoppedDropped);
            && Enabled(conf, i1, Receive) && Enabled(conf, i2, Finalize) && Enabled(conf, i3, StoppedDropped)
            && i4.pc.Gone? && i4.status == Normal && !SaidStopped(i4)
  {
  }

  lemma IsToldToStop(w: Setup, s: System, id: ID) returns (t: System)
    requires id in s.insts && id in s.tab.created && s.insts[id].queue.cmds == []
    ensures Leads(w, s, t)
    ensures t == s.(insts := s.insts[id := s.insts[id].(queue := Pushed(s.insts[id].queue, Stop))])
  {
    hide Leads;
    LeadsBy(w, s, PoolStops(id, true));
    t := Apply(w, s, PoolStops(id, true));
  }

  lemma LeadsByDrop(w: Setup, o: System, s: System, id: ID, j: Inst)
    requires Leads(w, o, s) && id in s.insts && |s.events| >= EVENT_CAPACITY
    requires Enabled(w.conf, s.insts[id], StoppedDropped) && j == Step(w.conf, s.insts[id], StoppedDropped)
    ensures Leads(w, o, s.(insts := s.insts[id := j]))
  {
    hide Leads, Enabled, Step;
    LeadsByMove(w, o, s, id, StoppedDropped, j);
    assert Moved(w, s, id, StoppedDropped, j) == s.(insts := s.insts[id := j]);
  }

  /** A Stop reaches "0" while the channel is full: it ends and cannot say so. */
  lemma EndsUnheard(w: Setup, s: System, reports: nat, last: Egress) returns (t: System)
    requires "0" in s.insts && "0" in s.tab.created && Idle(s.insts["0"], Normal, 0, reports, reports, last)
    requires !SaidStopped(s.insts["0"]) && |s.events| >= EVENT_CAPACITY
    ensures Leads(w, s, t) && "0" in t.insts && t == s.(insts := s.insts["0" := t.insts["0"]])
    ensures t.insts["0"].pc.Gone? && t.insts["0"].status == Normal && !SaidStopped(t.insts["0"])
  {
    var i := s.insts["0"];
    EndSteps(w.conf, i, reports, last);
    assert i.queue.cmds == [];
    hide Leads, Step, Enabled, Idle, SaidStopped;
    var i1 := i.(queue := Pushed(i.queue, Stop));
    var i2 := Step(w.conf, i1, Receive);
    var i3 := Step(w.conf, i2, Finalize);
    var i4 := Step(w.conf, i3, StoppedDropped);
    var s1 := IsToldToStop(w, s, "0");
    LeadsByQuietMove(w, s, s1, "0", Receive, i2);
    var s2 := s1.(insts := s1.insts["0" := i2]);
    LeadsByQuietMove(w, s, s2, "0", Finalize, i3);
    var s3 := s2.(insts := s2.insts["0" := i3]);
    LeadsByDrop(w, s, s3, "0", i4);
    t := s3.(insts := s3.insts["0" := i4]);
  }

  /** Over, still in the table as Normal and the owner of a key, with nothing on its way that would end that. */
  ghost predicate StrandedWithKey(s: System, key: string) {
    && Stranded(s, "0") && s.insts["0"].status == Normal && "0" in s.tab.created
    && NothingFrom("0", s.events)
    && "0" in s.reg.keysByInst && s.reg.keysByInst["0"] == key
  }

  lemma StartsUnsaid(w: Setup, s: System, eg: Egress) returns (t: System)
    requires "0" in s.insts && s.insts["0"] == NewInst(0) && s.events == [] && s.checking == {} && s.reg == R.EMPTY
    requires s.tokens == 0 < w.replayConcurrency && w.keyer(eg) != ""
    ensures Leads(w, s, t) && "0" in t.insts && Idle(t.insts["0"], Normal, 0, 1, 1, eg)
    ensures t == s.(reg := t.reg, insts := s.insts["0" := t.insts["0"]])
    ensures t.reg.keysByInst == map["0" := w.keyer(eg)]
  {
    hide Leads, Idle, AboutToStart, NewInst, R.Accept;
    NewIsAboutToStart(0);
    var s1 := StartsAndReports(w, s, "0", eg, 0, 0, 0);
    t := AcceptedBecomesNormal(w, s1, "0", eg, 0, 1, 0);
    FirstAccepted(w, s.reg, "0", eg);
    LeadsOn(w, s, s1, t);
    assert t.insts == s.insts["0" := t.insts["0"]];
  }

  /** Some run ends so: "0" is confirmed, "1" fills the channel while the coordinator hears nothing, and then a
      Stop reaches "0". */
  lemma AnInstanceCanBeStranded(w: Setup, eg: Egress)
    requires ValidSetup(w) && w.basePort < P.MAX_PORT && w.keyer(eg) != ""
    ensures exists labels :: AllGuarded(w, Start(w), labels) && StrandedWithKey(After(w, labels), w.keyer(eg))
  {
    hide Leads, Reach, Idle, AboutToStart, Off, NewInst, SaidStopped;
    var o := Start(w);
    var s1 := TwoAreCreated(w);
    var s2 := StartsUnsaid(w, s1, eg);
    LeadsOn(w, o, s1, s2);
    NewIsAboutToStart(1);
    var s3 := StartsAndReports(w, s2, "1", eg, 0, 0, 0);
    LeadsOn(w, o, s2, s3);
    var s4 := Fills(w, s3, 1, eg, 15);
    LeadsOn(w, o, s3, s4);
    var s5 := IsDisabled(w, s4, "1", 16, eg);
    LeadsOn(w, o, s4, s5);
    IdleHasNotStopped(w, s5, eg);
    var s6 := EndsUnheard(w, s5, 1, eg);
    LeadsOn(w, o, s5, s6);
    SomeLabelsStrand(w, s6, w.keyer(eg));
  }

  lemma IdleHasNotStopped(w: Setup, s: System, eg: Egress)
    requires Leads(w, Start(w), s) && ValidSetup(w) && "0" in s.insts && Idle(s.insts["0"], Normal, 0, 1, 1, eg)
    ensures !SaidStopped(s.insts["0"])
  {
    var labels :| s == Reach(w, Start(w), labels) && AllGuarded(w, Start(w), labels);
    hide SystemInv, Reach;
    StartHolds(w);
    ReachKeepsStops(w, Start(w), labels);
    assert StopKept(s, "0", s.insts["0"]);
  }

  lemma SomeLabelsStrand(w: Setup, t: System, key: string)
    requires Leads(w, Start(w), t) && StrandedWithKey(t, key)
    ensures exists labels :: AllGuarded(w, Start(w), labels) && StrandedWithKey(After(w, labels), key)
  {
    hide Reach, StrandedWithKey, AllGuarded;
    var labels :| t == Reach(w, Start(w), labels) && AllGuarded(w, Start(w), labels);
    assert StrandedWithKey(After(w, labels), key);
  }
}
