/** The invariant of the whole system, and that every labelled step keeps it. */
module SystemSafety {
  import opened Decimal
  import opened EgressKeys
  import opened Instances
  import opened InstanceSafety
  import opened Protocol
  import opened ProtocolSafety
  import R = Registry
  import T = Table

  ghost function Holders(insts: map<ID, Inst>): set<ID> {
    set id | id in insts && HoldsToken(insts[id].pc)
  }

  /** The tokens taken are held by one instance each, building or starting a client. */
  ghost predicate TokensInv(w: Setup, s: System) {
    s.tokens == |Holders(s.insts)| <= w.replayConcurrency
  }

  ghost predicate RegistryInv(w: Setup, s: System) {
    R.Inverse(s.reg, s.tab.created.Keys) && R.Witnessed(s.reg, w.keyer) && R.Counted(s.reg)
  }

  ghost predicate InstsInv(s: System) {
    forall id :: id in s.insts ==> Safe(s.insts[id]) && T.IsSeqId(id, s.tab.nextSeq)
  }

  ghost predicate SystemInv(w: Setup, s: System) {
    && T.TableInv(s.tab)
    && RegistryInv(w, s)
    && InstsInv(s)
    && Linked(s.reg, s.tab.created.Keys, s.insts, s.events)
    && TokensInv(w, s)
  }

  // ----- delivery -----

  lemma PushIsSafe(i: Inst, cmd: Command)
    requires Safe(i)
    ensures Safe(StepOutside(i, Accept(cmd))) && StepOutside(i, Accept(cmd)).pc == i.pc
  {
    OutsideSafe(i, Accept(cmd));
  }

  lemma SamePlacesSameHolders(insts: map<ID, Inst>, id: ID, j: Inst)
    requires id in insts && (HoldsToken(j.pc) <==> HoldsToken(insts[id].pc))
    ensures Holders(insts[id := j]) == Holders(insts)
  {
  }

  lemma DeliverKeeps(w: Setup, s: System, id: ID, cmd: Command, accept: bool)
    requires SystemInv(w, s)
    requires cmd.Confirm? ==> cmd.answers <= R.Count(s.reg.accepted, id)
    ensures SystemInv(w, Deliver(s, id, cmd, accept))
  {
    hide T.TableInv, T.IsSeqId, R.Inverse, R.Counted, R.Witnessed, Linked, Safe, Holders, StepOutside;
    DeliverKeepsLinked(s, s.tab.created.Keys, id, cmd, accept);
    if id in s.insts {
      PushIsSafe(s.insts[id], cmd);
      SamePlacesSameHolders(s.insts, id, StepOutside(s.insts[id], Accept(cmd)));
    }
  }

  // ----- the coordinator hears -----

  lemma NoEmptyId(s: System)
    requires T.TableInv(s.tab)
    ensures "" !in s.tab.created.Keys
  {
    assert !T.IsSeqId("", s.tab.nextSeq);
  }

  lemma HeadIsKnown(s: System, ids: set<ID>)
    requires Linked(s.reg, ids, s.insts, s.events) && s.events != []
    ensures s.events[0].id in ids && s.events[0].id in s.insts
  {
  }

  lemma HearKeepsTokens(w: Setup, s: System, accept: bool)
    requires s.events != [] && !s.events[0].ev.Ready?
    ensures Hear(w, s, accept).tokens == s.tokens
    ensures s.events[0].ev.Stopped? || Hear(w, s, accept).tab == s.tab
  {
  }

  lemma RemoveKeepsCounter(t: T.Table, id: ID)
    ensures T.Remove(t, id).nextSeq == t.nextSeq
  {
  }

  lemma HearReadyKeeps(w: Setup, s: System, accept: bool)
    requires SystemInv(w, s) && s.events != [] && s.events[0].ev.Ready?
    ensures SystemInv(w, Hear(w, s, accept))
  {
    hide T.TableInv, T.IsSeqId, R.Inverse, R.Counted, R.Witnessed, Linked, Safe, Holders, R.HandleReady, StepOutside;
    var e := s.events[0];
    var ids := s.tab.created.Keys;
    NoEmptyId(s);
    HeadIsKnown(s, ids);
    var (reg, cmd) := R.HandleReady(s.reg, w.keyer, e.id, e.ev.egress, e.report);
    R.HandleReadyKeepsInverse(s.reg, ids, w.keyer, e.id, e.ev.egress, e.report);
    R.HandleReadyKeepsCount(s.reg, w.keyer, e.id, e.ev.egress, e.report);
    HearReadyKeepsLinked(w, s, ids, accept);
    PushIsSafe(s.insts[e.id], cmd);
    SamePlacesSameHolders(s.insts, e.id, StepOutside(s.insts[e.id], Accept(cmd)));
  }

  lemma HearReleaseKeeps(w: Setup, s: System, accept: bool)
    requires SystemInv(w, s) && s.events != [] && Releases(s.events[0].ev)
    ensures SystemInv(w, Hear(w, s, accept))
  {
    hide T.TableInv, T.IsSeqId, R.Inverse, R.Counted, R.Witnessed, Linked, Safe, Holders, R.HandleRelease, Hear;
    var id := s.events[0].id;
    NoEmptyId(s);
    R.ReleaseKeepsInverse(s.reg, s.tab.created.Keys, w.keyer, id);
    R.ReleaseKeepsCount(s.reg, id);
    HearReleaseKeepsLinked(w, s, s.tab.created.Keys, accept);
    HearKeepsTokens(w, s, accept);
  }

  lemma HearStoppedKeeps(w: Setup, s: System, accept: bool)
    requires SystemInv(w, s) && s.events != [] && s.events[0].ev.Stopped?
    ensures SystemInv(w, Hear(w, s, accept))
  {
    hide T.TableInv, T.IsSeqId, R.Inverse, R.Counted, R.Witnessed, Linked, Safe, Holders, T.Remove, R.Forget, Hear;
    var id := s.events[0].id;
    var ids := s.tab.created.Keys;
    NoEmptyId(s);
    R.ReleaseKeepsInverse(s.reg, ids, w.keyer, id);
    R.ReleaseKeepsCount(s.reg, id);
    T.RemoveKeepsTable(s.tab, id);
    HearStoppedKeepsLinked(w, s, ids, accept);
    RemoveKeepsCounter(s.tab, id);
    HearKeepsTokens(w, s, accept);
    assert T.Remove(s.tab, id).created.Keys == ids - {id};
  }

  // ----- the coordinator checks and creates -----

  lemma ShowKeeps(w: Setup, s: System, id: ID, eg: Egress, failed: bool)
    requires SystemInv(w, s)
    ensures SystemInv(w, Show(s, id, eg, failed))
  {
    hide T.TableInv, T.IsSeqId, R.Inverse, R.Counted, R.Witnessed, Linked, Safe, Holders, StepOutside;
    ShowKeepsLinked(w, s, s.tab.created.Keys, id, eg, failed);
    if id in s.insts && !failed && eg != NO_EGRESS {
      ReadIsSafe(s.insts[id], eg);
      SamePlacesSameHolders(s.insts, id, StepOutside(s.insts[id], EgressRead(eg)));
    }
  }

  lemma ReadIsSafe(i: Inst, eg: Egress)
    requires Safe(i)
    ensures Safe(StepOutside(i, EgressRead(eg))) && StepOutside(i, EgressRead(eg)).pc == i.pc
  {
    OutsideSafe(i, EgressRead(eg));
  }

  lemma JudgeKeeps(w: Setup, s: System, id: ID, eg: Egress, failed: bool)
    requires SystemInv(w, s) && id in s.tab.created
    ensures var (reg, send) := R.ApplyEgress(s.reg, w.keyer, id, eg, failed, T.NewerThan(s.tab.created));
            && SystemInv(w, s.(reg := reg, checking := s.checking - {id}))
            && (send.Some? ==> send.value.1 == Drain)
  {
    hide T.TableInv, T.IsSeqId, R.Inverse, R.Counted, R.Witnessed, Linked, Safe, Holders, R.ApplyEgress;
    var ids := s.tab.created.Keys;
    var newer := T.NewerThan(s.tab.created);
    NoEmptyId(s);
    R.ApplyEgressKeepsInverse(s.reg, ids, w.keyer, id, eg, failed, newer);
    R.ApplyEgressKeepsCount(s.reg, w.keyer, id, eg, failed, newer);
    ApplyEgressEffect(s.reg, w.keyer, id, eg, failed, newer);
    RegistryTouched(s.reg, R.ApplyEgress(s.reg, w.keyer, id, eg, failed, newer).0, ids, s.insts, s.events);
  }

  lemma CheckKeeps(w: Setup, s: System, id: ID, eg: Egress, failed: bool, accept: bool)
    requires SystemInv(w, s) && id in s.tab.created
    ensures SystemInv(w, CheckEgress(w, s, id, eg, failed, accept))
  {
    hide SystemInv, R.ApplyEgress;
    var shown := Show(s, id, eg, failed);
    ShowKeeps(w, s, id, eg, failed);
    JudgeKeeps(w, shown, id, eg, failed);
    var (reg, send) := R.ApplyEgress(s.reg, w.keyer, id, eg, failed, T.NewerThan(s.tab.created));
    var checked := shown.(reg := reg, checking := s.checking - {id});
    if send.Some? {
      DeliverKeeps(w, checked, send.value.0, send.value.1, accept);
    }
  }

  lemma CheckingIsFree(w: Setup, s: System, checking: set<ID>)
    requires SystemInv(w, s)
    ensures SystemInv(w, s.(checking := checking))
  {
    hide T.TableInv, T.IsSeqId, R.Inverse, R.Counted, R.Witnessed, Linked, Safe, Holders;
  }

  lemma LaterIds(insts: map<ID, Inst>, n: nat)
    requires forall id :: id in insts ==> T.IsSeqId(id, n)
    ensures forall id :: id in insts ==> T.IsSeqId(id, n + 1)
    ensures Itoa(n) !in insts && T.IsSeqId(Itoa(n), n + 1)
  {
    T.NewId(n);
  }

  lemma InverseGrows(r: R.Registry, ids: set<ID>, id: ID)
    requires R.Inverse(r, ids)
    ensures R.Inverse(r, ids + {id})
  {
  }

  lemma CreateKeeps(w: Setup, s: System, now: int)
    requires SystemInv(w, s)
    ensures SystemInv(w, CreateOne(s, now))
  {
    hide T.TableInv, T.IsSeqId, R.Inverse, R.Counted, R.Witnessed, Linked, Safe, T.Create, NewInst, Answered;
    var (tab, id) := T.Create(s.tab, now);
    T.CreateKeepsTable(s.tab, now);
    T.CreateFailsIffPortsExhausted(s.tab, now);
    LaterIds(s.insts, s.tab.nextSeq);
    NewInstSafe(s.tab.nextSeq);
    NewInstLinks(s.tab.nextSeq);
    if id.Some? {
      assert tab.created.Keys == s.tab.created.Keys + {id.value};
      InverseGrows(s.reg, s.tab.created.Keys, id.value);
      CreateKeepsLinked(s, s.tab.created.Keys, id.value, s.tab.nextSeq);
      assert Holders(s.insts[id.value := NewInst(s.tab.nextSeq)]) == Holders(s.insts);
    }
  }

  // ----- an instance moves -----

  lemma TokensFollow(w: Setup, s: System, id: ID, m: Move)
    requires TokensInv(w, s) && id in s.insts && Possible(w, s, s.insts[id], m)
    ensures TokensInv(w, s.(insts := s.insts[id := Step(w.conf, s.insts[id], m)], tokens := TokensAfter(s.tokens, m)))
  {
    var i := s.insts[id];
    StepTokens(w.conf, i, m);
    hide Step, Enabled;
    var j := Step(w.conf, i, m);
    var held := Holders(s.insts);
    if HoldsToken(j.pc) && !HoldsToken(i.pc) {
      assert Holders(s.insts[id := j]) == held + {id};
    } else if !HoldsToken(j.pc) && HoldsToken(i.pc) {
      assert Holders(s.insts[id := j]) == held - {id};
      assert id in held;
    } else {
      SamePlacesSameHolders(s.insts, id, j);
    }
  }

  lemma MoveKeeps(w: Setup, s: System, id: ID, m: Move)
    requires SystemInv(w, s)
    ensures SystemInv(w, MoveInstance(w, s, id, m))
  {
    hide T.TableInv, T.IsSeqId, R.Inverse, R.Counted, R.Witnessed, Linked, Safe, Holders, Step, Possible;
    MoveKeepsLinked(w, s, s.tab.created.Keys, id, m);
    if id in s.insts && Possible(w, s, s.insts[id], m) {
      StepSafe(w.conf, s.insts[id], m);
      TokensFollow(w, s, id, m);
    }
  }

  // ----- any step, any run -----

  lemma HearKeeps(w: Setup, s: System, accept: bool)
    requires SystemInv(w, s) && s.events != []
    ensures SystemInv(w, Hear(w, s, accept))
  {
    hide SystemInv, Hear;
    if s.events[0].ev.Ready? {
      HearReadyKeeps(w, s, accept);
    } else if s.events[0].ev.Stopped? {
      HearStoppedKeeps(w, s, accept);
    } else {
      HearReleaseKeeps(w, s, accept);
    }
  }

  lemma ApplyKeeps(w: Setup, s: System, l: Label)
    requires SystemInv(w, s)
    ensures SystemInv(w, Apply(w, s, l))
  {
    hide SystemInv, Hear, Deliver, CheckEgress, CreateOne, MoveInstance;
    match l {
      case PoolHears(accept) => if s.events != [] { HearKeeps(w, s, accept); }
      case PoolReconfirms(id, accept) => DeliverKeeps(w, s, id, Confirm(R.Count(s.reg.accepted, id)), accept);
      case PoolDrains(id, accept) => DeliverKeeps(w, s, id, Drain, accept);
      case PoolChecksEgress(id, eg, failed, accept) =>
        if id in s.tab.created { CheckKeeps(w, s, id, eg, failed, accept); }
      case PoolReadsNormal(id) => CheckingIsFree(w, s, s.checking + {id});
      case PoolEndsCheck => CheckingIsFree(w, s, {});
      case PoolCreates(now) => CreateKeeps(w, s, now);
      case PoolStops(id, accept) => DeliverKeeps(w, s, id, Stop, accept);
      case UserSends(id, cmd, accept) => if UserCommand(cmd) { DeliverKeeps(w, s, id, cmd, accept); }
      case InstanceMoves(id, m) => MoveKeeps(w, s, id, m);
    }
  }

  lemma StartHolds(w: Setup)
    requires ValidSetup(w)
    ensures SystemInv(w, Start(w))
  {
    var s := Start(w);
    assert T.IsSnapshot(s.tab.snap, {});
    assert Holders(s.insts) == {};
  }

  lemma {:induction false} ReachKeeps(w: Setup, s: System, labels: seq<Label>)
    requires SystemInv(w, s)
    ensures SystemInv(w, Reach(w, s, labels))
    decreases |labels|
  {
    hide SystemInv, Apply;
    if labels != [] {
      ApplyKeeps(w, s, labels[0]);
      ReachKeeps(w, Apply(w, s, labels[0]), labels[1..]);
    }
  }

  /** The invariant holds in every reachable state, over all interleavings, drops, losses and stops. */
  lemma EveryRunIsSafe(w: Setup, labels: seq<Label>)
    requires ValidSetup(w)
    ensures SystemInv(w, Reach(w, Start(w), labels))
  {
    hide SystemInv;
    StartHolds(w);
    ReachKeeps(w, Start(w), labels);
  }
}
