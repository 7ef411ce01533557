/** An instance that has announced its departure loses its key: once the announcement has been heard, no
    entry, no check under way and no report still to be heard can bring one back before it reports anew. */
module ReleaseSafety {
  import opened Decimal
  import opened Types
  import opened EgressKeys
  import opened Instances
  import opened InstanceSafety
  import opened Protocol
  import opened ProtocolSafety
  import opened SystemSafety
  import opened SystemTheorems
  import R = Registry
  import T = Table
  import P = Ports

  /** An event that frees the key is being sent, or is in the channel, since the latest report. */
  ghost predicate ReleaseOnItsWay(id: ID, i: Inst, events: seq<Tagged>) {
    || (i.pc.Emitting? && Releases(i.pc.ev))
    || exists k :: 0 <= k < |events| && IsRelease(events[k], id, i.reporting.reports)
  }

  predicate IsRelease(e: Tagged, id: ID, report: nat) {
    e.id == id && Releases(e.ev) && e.report == report
  }

  /** No key, and nothing under way that would bring one. */
  ghost predicate Freed(keys: set<ID>, checking: set<ID>, id: ID, events: seq<Tagged>) {
    && id !in keys && id !in checking
    && (forall k :: 0 <= k < |events| ==> !(events[k].id == id && events[k].ev.Ready?))
  }

  /** Once cancelled, an instance may give up an announcement. */
  ghost predicate ReleaseKept(s: System, id: ID, i: Inst) {
    i.reporting.departed && !i.cancelled && !ReleaseOnItsWay(id, i, s.events) ==>
      Freed(s.reg.keysByInst.Keys, s.checking, id, s.events)
  }

  ghost predicate ReleaseInv(s: System) {
    forall id :: id in s.insts ==> ReleaseKept(s, id, s.insts[id])
  }

  // ----- an instance moves -----

  lemma StepDeparts(conf: Config, i: Inst, m: Move)
    requires Enabled(conf, i, m)
    ensures var j := Step(conf, i, m);
            && (j.reporting.departed && !i.reporting.departed ==> j.pc.Emitting? && Releases(j.pc.ev))
            && (i.pc.Emitting? && m != Sent && m != CtxDone ==> j.pc == i.pc)
            && (m == CtxDone ==> i.cancelled)
            && (i.cancelled ==> j.cancelled)
            && (m == Sent ==> i.pc.Emitting?)
  {
    hide NextDelay, Closed, Adopted, Exited, Rotated, Pushed, Parked, Overtaking, StepMain;
    if i.pc.Main? {
      MainDeparts(conf, i, m);
    }
  }

  lemma MainDeparts(conf: Config, i: Inst, m: Move)
    requires i.pc.Main? && Enabled(conf, i, m)
    ensures var j := StepMain(conf, i, m);
            && (j.reporting.departed && !i.reporting.departed ==> j.pc.Emitting? && Releases(j.pc.ev))
            && j.cancelled == i.cancelled
  {
    hide NextDelay, Closed, Rotated;
  }

  lemma DepartureIsAnEvent(i: Inst)
    requires Safe(i)
    ensures i.reporting.departed && i.pc.Emitting? ==> !i.pc.ev.Ready? && !i.pc.ev.Stopped?
    ensures i.status == Normal ==> !i.reporting.departed
  {
    hide QueueInv, GenInv, ClientInv;
  }

  lemma LongerKeepsRelease(id: ID, i: Inst, events: seq<Tagged>, e: Tagged)
    ensures ReleaseOnItsWay(id, i, events) ==> ReleaseOnItsWay(id, i, events + [e])
    ensures IsRelease(e, id, i.reporting.reports) ==> ReleaseOnItsWay(id, i, events + [e])
  {
    var longer := events + [e];
    assert forall k :: 0 <= k < |events| ==> longer[k] == events[k];
    assert longer[|events|] == e;
  }

  lemma MovedKeepsOwnRelease(w: Setup, s: System, id: ID, m: Move)
    requires id in s.insts && Safe(s.insts[id]) && Possible(w, s, s.insts[id], m)
    requires ReleaseKept(s, id, s.insts[id])
    ensures var t := MoveInstance(w, s, id, m);
            id in t.insts && ReleaseKept(t, id, t.insts[id])
  {
    var i := s.insts[id];
    StepDeparts(w.conf, i, m);
    StepReports(w.conf, i, m);
    DepartureIsAnEvent(i);
    hide Step, Enabled, Safe;
    var j := Step(w.conf, i, m);
    var t := MoveInstance(w, s, id, m);
    if m == Sent || m == StoppedSent {
      var e := t.events[|s.events|];
      assert t.events == s.events + [e];
      LongerKeepsRelease(id, j, s.events, e);
      assert i.reporting.reports == j.reporting.reports;
    }
  }

  lemma MovedKeepsOtherRelease(w: Setup, s: System, id: ID, m: Move, x: ID)
    requires x in s.insts && x != id && ReleaseKept(s, x, s.insts[x])
    ensures var t := MoveInstance(w, s, id, m);
            x in t.insts && ReleaseKept(t, x, t.insts[x])
  {
    hide Step, Possible;
    var t := MoveInstance(w, s, id, m);
    if |t.events| > |s.events| {
      LongerKeepsRelease(x, s.insts[x], s.events, t.events[|s.events|]);
    }
  }

  lemma MoveKeepsReleases(w: Setup, s: System, id: ID, m: Move)
    requires SystemInv(w, s) && ReleaseInv(s)
    ensures ReleaseInv(MoveInstance(w, s, id, m))
  {
    hide SystemInv, Safe, Possible, ReleaseKept, MoveInstance;
    MoveOnlyOne(w, s, id, m);
    forall x | x in MoveInstance(w, s, id, m).insts
      ensures ReleaseKept(MoveInstance(w, s, id, m), x, MoveInstance(w, s, id, m).insts[x])
    {
      if x != id {
        MovedKeepsOtherRelease(w, s, id, m, x);
      } else if Possible(w, s, s.insts[id], m) {
        EachIsSafe(w, s, id);
        MovedKeepsOwnRelease(w, s, id, m);
      } else {
        Impossible(w, s, id, m);
      }
    }
  }

  lemma Impossible(w: Setup, s: System, id: ID, m: Move)
    requires id in s.insts && !Possible(w, s, s.insts[id], m)
    ensures MoveInstance(w, s, id, m) == s
  {
  }

  // ----- the coordinator acts -----

  /** What the others do to an instance cannot make it depart, nor take its announcement back. */
  lemma TouchedKeepsRelease(s: System, t: System, id: ID, i: Inst, j: Inst)
    requires ReleaseKept(s, id, i) && j == Touched(i, j) && t.events == s.events
    requires id in t.reg.keysByInst ==> id in s.reg.keysByInst
    requires id in t.checking ==> id in s.checking
    ensures ReleaseKept(t, id, j)
  {
    assert ReleaseOnItsWay(id, i, s.events) ==> ReleaseOnItsWay(id, j, t.events);
  }

  lemma HeardKeepsRelease(w: Setup, s: System, t: System, id: ID, j: Inst)
    requires s.events != [] && s.checking == {} == t.checking && t.events == s.events[1..]
    requires id in s.insts && ReleaseKept(s, id, s.insts[id]) && j == Touched(s.insts[id], j)
    requires EventsOk(s.reg, s.tab.created.Keys, s.insts, s.events)
    requires id in t.reg.keysByInst ==> id in s.reg.keysByInst || (s.events[0].id == id && s.events[0].ev.Ready?)
    requires s.events[0].id == id && Releases(s.events[0].ev) ==> id !in t.reg.keysByInst
    ensures ReleaseKept(t, id, j)
  {
    var e, rest := s.events[0], s.events[1..];
    assert forall k :: 0 <= k < |rest| ==> rest[k] == s.events[k + 1];
    assert forall k :: 0 < k < |s.events| ==> s.events[k] == rest[k - 1];
    if IsRelease(e, id, j.reporting.reports) {
      forall k | 0 <= k < |rest|
        ensures !(rest[k].id == id && rest[k].ev.Ready?)
      {
        assert InSequence(e, s.events[k + 1]);
        assert EventFits(s.reg, s.insts[s.events[k + 1].id], s.events[k + 1]);
      }
    }
  }

  lemma HearingFrees(w: Setup, s: System, accept: bool, id: ID)
    requires s.events != []
    ensures var t := Hear(w, s, accept);
            && t.events == s.events[1..] && t.checking == s.checking
            && (id in t.reg.keysByInst ==> id in s.reg.keysByInst || (s.events[0].id == id && s.events[0].ev.Ready?))
            && (s.events[0].id == id && Releases(s.events[0].ev) ==> id !in t.reg.keysByInst)
  {
    hide Hear, R.HandleReady, R.ReleaseKey;
    var e := s.events[0];
    HearingIsJudging(w, s, accept);
    ReleaseKeyTouches(s.reg, e.id);
    if e.ev.Ready? {
      HandleReadyEffect(s.reg, w.keyer, e.id, e.ev.egress, e.report);
    }
  }

  lemma HearKeepsReleases(w: Setup, s: System, accept: bool)
    requires SystemInv(w, s) && ReleaseInv(s) && s.events != [] && s.checking == {}
    ensures ReleaseInv(Hear(w, s, accept))
  {
    EventsAreOk(w, s);
    hide SystemInv, Hear, ReleaseKept, EventsOk;
    HearOnlyTouches(w, s, accept);
    var t := Hear(w, s, accept);
    HearAddsNone(w, s, accept);
    forall id | id in t.insts
      ensures ReleaseKept(t, id, t.insts[id])
    {
      HearingFrees(w, s, accept, id);
      HeardKeepsRelease(w, s, t, id, t.insts[id]);
    }
  }

  lemma HearAddsNone(w: Setup, s: System, accept: bool)
    requires s.events != []
    ensures Hear(w, s, accept).insts.Keys == s.insts.Keys
  {
    hide R.HandleReady, R.ReleaseKey, T.Remove, StepOutside;
  }

  lemma EventsAreOk(w: Setup, s: System)
    requires SystemInv(w, s)
    ensures EventsOk(s.reg, s.tab.created.Keys, s.insts, s.events)
  {
    hide T.TableInv, RegistryInv, InstsInv, TokensInv, EventsOk;
  }

  lemma CheckKeepsReleases(w: Setup, s: System, id: ID, eg: Egress, failed: bool, accept: bool)
    requires ReleaseInv(s) && id in s.checking
    ensures ReleaseInv(CheckEgress(w, s, id, eg, failed, accept))
  {
    hide ReleaseKept, CheckEgress;
    CheckOnlyTouches(w, s, id, eg, failed, accept);
    CheckAdds(w, s, id, eg, failed, accept);
    var t := CheckEgress(w, s, id, eg, failed, accept);
    forall x | x in t.insts
      ensures ReleaseKept(t, x, t.insts[x])
    {
      if x == id {
        CheckedIsOwed(s, t, id, t.insts[id]);
      } else {
        TouchedKeepsRelease(s, t, x, s.insts[x], t.insts[x]);
      }
    }
  }

  /** An instance being checked was Normal when read: if it has departed since, that is still to be heard. */
  lemma CheckedIsOwed(s: System, t: System, id: ID, j: Inst)
    requires id in s.insts && id in s.checking && ReleaseKept(s, id, s.insts[id])
    requires j == Touched(s.insts[id], j) && t.events == s.events
    ensures ReleaseKept(t, id, j)
  {
    assert ReleaseOnItsWay(id, s.insts[id], s.events) ==> ReleaseOnItsWay(id, j, t.events);
  }

  lemma CheckAdds(w: Setup, s: System, id: ID, eg: Egress, failed: bool, accept: bool)
    ensures var t := CheckEgress(w, s, id, eg, failed, accept);
            && t.events == s.events && t.checking <= s.checking && t.insts.Keys == s.insts.Keys
            && (forall x :: x in t.reg.keysByInst ==> x == id || x in s.reg.keysByInst)
  {
    ApplyEgressEffect(s.reg, w.keyer, id, eg, failed, T.NewerThan(s.tab.created));
    hide R.ApplyEgress, StepOutside;
  }

  lemma CreateKeepsReleases(w: Setup, s: System, now: int)
    requires SystemInv(w, s) && ReleaseInv(s)
    ensures ReleaseInv(CreateOne(s, now))
  {
    hide SystemInv, P.Acquire, Itoa, NewInst, ReleaseOnItsWay, Freed;
    IdsAreNew(w, s);
    NewHasNotDeparted(s.tab.nextSeq);
  }

  lemma NewHasNotDeparted(seqNo: nat)
    ensures !NewInst(seqNo).reporting.departed
  {
  }

  lemma SendKeepsReleases(w: Setup, s: System, l: Label)
    requires ReleaseInv(s)
    requires l.PoolReconfirms? || l.PoolDrains? || l.PoolStops? || l.UserSends? || l.PoolEndsCheck?
    ensures ReleaseInv(Apply(w, s, l))
  {
    SendAdds(w, s, l);
    hide ReleaseKept, Apply;
    var t := Apply(w, s, l);
    forall x | x in t.insts
      ensures ReleaseKept(t, x, t.insts[x])
    {
      TouchedKeepsRelease(s, t, x, s.insts[x], t.insts[x]);
    }
  }

  lemma DeliverAdds(s: System, id: ID, cmd: Command, accept: bool)
    ensures var t := Deliver(s, id, cmd, accept);
            t == s.(insts := t.insts) && t.insts.Keys == s.insts.Keys && OnlyTouches(s, t, {})
  {
    hide OnlyTouches, StepOutside;
    DeliverOnlyTouches(s, id, cmd, accept);
  }

  lemma SendAdds(w: Setup, s: System, l: Label)
    requires l.PoolReconfirms? || l.PoolDrains? || l.PoolStops? || l.UserSends? || l.PoolEndsCheck?
    ensures var t := Apply(w, s, l);
            && t.events == s.events && t.checking <= s.checking && t.insts.Keys == s.insts.Keys && t.reg == s.reg
            && OnlyTouches(s, t, {})
  {
    hide Deliver, OnlyTouches;
    NothingTouched(s, {});
    match l {
      case PoolReconfirms(id, accept) => DeliverAdds(s, id, Confirm(R.Count(s.reg.accepted, id)), accept);
      case PoolDrains(id, accept) => DeliverAdds(s, id, Drain, accept);
      case PoolStops(id, accept) => DeliverAdds(s, id, Stop, accept);
      case UserSends(id, cmd, accept) => DeliverAdds(s, id, cmd, accept);
      case _ =>
    }
  }

  lemma ReadKeepsReleases(w: Setup, s: System, id: ID)
    requires SystemInv(w, s) && ReleaseInv(s)
    ensures ReleaseInv(Apply(w, s, PoolReadsNormal(id)))
  {
    hide SystemInv, Safe, ReleaseOnItsWay;
    if id in s.insts {
      EachIsSafe(w, s, id);
      DepartureIsAnEvent(s.insts[id]);
    }
  }

  lemma ApplyKeepsReleases(w: Setup, s: System, l: Label)
    requires SystemInv(w, s) && ReleaseInv(s)
    ensures ReleaseInv(Apply(w, s, l))
  {
    hide SystemInv, ReleaseInv, Hear, CheckEgress, CreateOne, MoveInstance;
    match l {
      case PoolHears(accept) => if s.events != [] && s.checking == {} { HearKeepsReleases(w, s, accept); }
      case PoolChecksEgress(id, eg, failed, accept) =>
        if id in s.checking { CheckKeepsReleases(w, s, id, eg, failed, accept); }
      case PoolReadsNormal(id) => ReadKeepsReleases(w, s, id);
      case PoolCreates(now) => CreateKeepsReleases(w, s, now);
      case InstanceMoves(id, m) => MoveKeepsReleases(w, s, id, m);
      case _ => SendKeepsReleases(w, s, l);
    }
  }

  lemma {:induction false} ReachKeepsReleases(w: Setup, s: System, labels: seq<Label>)
    requires SystemInv(w, s) && ReleaseInv(s)
    ensures ReleaseInv(Reach(w, s, labels))
    decreases |labels|
  {
    hide SystemInv, ReleaseInv, Apply;
    if labels != [] {
      ApplyKeeps(w, s, labels[0]);
      ApplyKeepsReleases(w, s, labels[0]);
      ReachKeepsReleases(w, Apply(w, s, labels[0]), labels[1..]);
    }
  }

  /** Nothing of the instance is in the channel, and it is not sending anything. */
  ghost predicate AllHeard(s: System, id: ID) {
    && id in s.insts && !s.insts[id].pc.Emitting?
    && (forall k :: 0 <= k < |s.events| ==> s.events[k].id != id)
  }

  /** In every reachable state, an instance whose departure has been heard holds no key and is not being
      checked: neither a check in flight nor a report heard late can give it one. */
  lemma DepartedHoldsNoKey(w: Setup, labels: seq<Label>, id: ID)
    requires ValidSetup(w) && AllHeard(After(w, labels), id)
    requires var i := After(w, labels).insts[id];
             i.reporting.departed && !i.cancelled
    ensures var s := After(w, labels);
            && id !in s.reg.keysByInst && id !in s.checking
            && (forall key :: key in s.reg.usedKeys ==> s.reg.usedKeys[key] != id)
  {
    hide SystemInv, Reach;
    StartHolds(w);
    ReachKeepsReleases(w, Start(w), labels);
    forall key | key in After(w, labels).reg.usedKeys && After(w, labels).reg.usedKeys[key] == id
      ensures false
    {
      RegistryIsExact(w, labels, key, id);
    }
  }
}
