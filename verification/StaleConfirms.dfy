/** A Confirm says nothing about which report it answers. This module says exactly when that matters:
    which runs keep every Normal instance on its latest report, and that some run does not. */
module StaleConfirms {
  import opened Wrappers
  import opened Decimal
  import opened Types
  import opened EgressKeys
  import opened Instances
  import opened InstanceSafety
  import opened Protocol
  import opened ProtocolSafety
  import opened SystemSafety
  import opened SystemTheorems
  import opened SampleRuns
  import R = Registry
  import T = Table
  import P = Ports

  // ----- exactly the runs without stale promotions are right at every moment -----

  /** The latest report of the instance has been answered by a Confirm. */
  predicate Current(i: Inst) {
    0 < i.reporting.reports == i.reporting.confirmed
  }

  /** Everything that takes new dials does so on its latest report. */
  ghost predicate AllCurrent(s: System) {
    forall id :: id in s.insts && s.insts[id].status == Normal ==> Current(s.insts[id])
  }

  /** The command at the head of what the instance would take from. */
  function Head(i: Inst, m: Move): Option<Command> {
    if m == TakePending && i.queue.pending != [] then Some(i.queue.pending[0].cmd)
    else if m == Receive && i.queue.pending == [] && i.queue.cmds != [] then Some(i.queue.cmds[0].cmd)
    else None
  }

  /** A Probing instance takes a Confirm that answers an older report than its latest. */
  predicate StalePromotion(i: Inst, m: Move) {
    && i.pc.Main? && i.status == Probing
    && Head(i, m).Some? && Head(i, m).value.Confirm?
    && !Current(i)
    && !(0 < Head(i, m).value.answers == i.reporting.reports)
  }

  predicate IsStale(s: System, l: Label) {
    l.InstanceMoves? && l.id in s.insts && StalePromotion(s.insts[l.id], l.move)
  }

  ghost predicate AlwaysCurrent(w: Setup, s: System, labels: seq<Label>)
    decreases |labels|
  {
    AllCurrent(s) && (labels != [] ==> AlwaysCurrent(w, Apply(w, s, labels[0]), labels[1..]))
  }

  ghost predicate NeverStale(w: Setup, s: System, labels: seq<Label>)
    decreases |labels|
  {
    labels != [] ==> !IsStale(s, labels[0]) && NeverStale(w, Apply(w, s, labels[0]), labels[1..])
  }

  lemma HandledConfirm(conf: Config, i: Inst, m: Move)
    requires i.pc.Main? && Head(i, m).Some? && Head(i, m).value.Confirm?
    ensures var j := Step(conf, i, m);
            && j.reporting == Heard(i.reporting, Head(i, m).value.answers)
            && (i.status == Probing ==> j.status == Normal)
  {
  }

  /** If the instance is Normal afterwards, it was before, on the same reports. */
  predicate NoNewService(i: Inst, j: Inst) {
    j.status == Normal ==>
      && i.status == Normal
      && j.reporting.reports == i.reporting.reports
      && j.reporting.confirmed == i.reporting.confirmed
  }

  lemma HandlingBringsNoService(conf: Config, i: Inst, c: Command)
    requires i.pc.Main? && !c.Confirm?
    ensures NoNewService(i, Handle(conf, i, c))
  {
    hide NextDelay, Closed, Rotated;
  }

  lemma MainBringsNoService(conf: Config, i: Inst, m: Move)
    requires i.pc.Main? && Enabled(conf, i, m)
    requires Head(i, m).Some? ==> !Head(i, m).value.Confirm?
    ensures NoNewService(i, StepMain(conf, i, m))
  {
    hide Handle;
    if m == TakePending {
      HandlingBringsNoService(conf, i.(queue := HandledPending(i.queue)), i.queue.pending[0].cmd);
    } else if m == Receive {
      HandlingBringsNoService(conf, i.(queue := HandledReceived(i.queue)), i.queue.cmds[0].cmd);
    }
  }

  /** Nothing but a Confirm makes an instance Normal, or touches the reports of one that stays Normal. */
  lemma NormalByConfirmOnly(conf: Config, i: Inst, m: Move)
    requires Safe(i)
    requires !(i.pc.Main? && Head(i, m).Some? && Head(i, m).value.Confirm?)
    ensures NoNewService(i, Step(conf, i, m))
  {
    hide QueueInv, GenInv, ClientInv, NextDelay, Closed, Adopted, Exited, Rotated, Pushed, Parked, Overtaking, StepMain;
    if i.pc.Main? && Enabled(conf, i, m) {
      MainBringsNoService(conf, i, m);
    }
  }

  /** Confirms queued for an instance never answer more than it has reported. */
  lemma HeadAnswersAReport(w: Setup, s: System, id: ID, m: Move)
    requires SystemInv(w, s) && id in s.insts
    ensures s.insts[id].reporting.confirmed <= s.insts[id].reporting.reports
    ensures Head(s.insts[id], m).Some? && Head(s.insts[id], m).value.Confirm? ==>
              Head(s.insts[id], m).value.answers <= s.insts[id].reporting.reports
  {
    assert InstLinked(s.reg, s.tab.created.Keys, id, s.insts[id], s.events);
    BoundedHead(s.insts[id], m, R.Count(s.reg.accepted, id));
    hide SystemInv, Answered, Head;
  }

  lemma BoundedHead(i: Inst, m: Move, bound: nat)
    requires Answered(i, bound)
    ensures i.reporting.confirmed <= bound
    ensures Head(i, m).Some? && Head(i, m).value.Confirm? ==> Head(i, m).value.answers <= bound
  {
  }

  lemma StepIsCurrentIff(conf: Config, i: Inst, m: Move)
    requires Safe(i) && (i.status == Normal ==> Current(i))
    requires i.reporting.confirmed <= i.reporting.reports
    requires Head(i, m).Some? && Head(i, m).value.Confirm? ==> Head(i, m).value.answers <= i.reporting.reports
    ensures var j := Step(conf, i, m);
            (j.status == Normal ==> Current(j)) <==> !StalePromotion(i, m)
  {
    hide Step, Safe;
    if i.pc.Main? && Head(i, m).Some? && Head(i, m).value.Confirm? {
      HandledConfirm(conf, i, m);
      if i.status != Probing {
        ConfirmedKeepsStatus(conf, i, m);
      }
    } else {
      NormalByConfirmOnly(conf, i, m);
    }
  }

  lemma ConfirmedKeepsStatus(conf: Config, i: Inst, m: Move)
    requires i.pc.Main? && Head(i, m).Some? && Head(i, m).value.Confirm? && i.status != Probing
    ensures Step(conf, i, m).status == i.status
  {
  }

  lemma ApplyIsCurrentIff(w: Setup, s: System, l: Label)
    requires SystemInv(w, s) && AllCurrent(s)
    ensures AllCurrent(Apply(w, s, l)) <==> !IsStale(s, l)
  {
    hide SystemInv, Apply;
    if l.InstanceMoves? {
      ApplyMove(w, s, l);
      MoveIsCurrentIff(w, s, l.id, l.move);
    } else {
      IdsAreNew(w, s);
      PoolStepOnlyTouches(w, s, l);
      NewcomerIsProbing(w, s, l);
    }
  }

  lemma NewcomerIsProbing(w: Setup, s: System, l: Label)
    requires !l.InstanceMoves?
    ensures forall x :: x in Apply(w, s, l).insts && x !in s.insts ==> Apply(w, s, l).insts[x].status == Probing
  {
    hide R.HandleReady, R.ApplyEgress, R.ReleaseKey, T.Remove, P.Acquire, Itoa, StepOutside;
  }

  lemma MoveIsCurrentIff(w: Setup, s: System, id: ID, m: Move)
    requires SystemInv(w, s) && AllCurrent(s)
    ensures AllCurrent(MoveInstance(w, s, id, m)) <==> !(id in s.insts && StalePromotion(s.insts[id], m))
  {
    hide SystemInv, Safe, Step, StalePromotion, Current, MoveInstance;
    MoveOnlyOne(w, s, id, m);
    if id in s.insts {
      ASafeStepIsCurrentIff(w, s, id, m);
    }
  }

  lemma ASafeStepIsCurrentIff(w: Setup, s: System, id: ID, m: Move)
    requires SystemInv(w, s) && AllCurrent(s) && id in s.insts
    ensures var t := MoveInstance(w, s, id, m);
            && id in t.insts
            && ((t.insts[id].status == Normal ==> Current(t.insts[id])) <==> !StalePromotion(s.insts[id], m))
  {
    hide SystemInv, Safe, Step, StalePromotion, Current, Possible, Head, MoveInstance;
    EachIsSafe(w, s, id);
    HeadAnswersAReport(w, s, id, m);
    StepIsCurrentIff(w.conf, s.insts[id], m);
    MoveExact(w, s, id, m);
    if StalePromotion(s.insts[id], m) {
      StaleIsPossible(w, s, id, m);
    }
  }

  lemma StaleIsPossible(w: Setup, s: System, id: ID, m: Move)
    requires id in s.insts && StalePromotion(s.insts[id], m)
    ensures Possible(w, s, s.insts[id], m)
  {
  }

  /** A run keeps every Normal instance on its latest report at every moment exactly if no Probing
      instance ever takes a Confirm that answers an older one. */
  lemma {:induction false} CurrentIffNeverStale(w: Setup, s: System, labels: seq<Label>)
    requires SystemInv(w, s) && AllCurrent(s)
    ensures AlwaysCurrent(w, s, labels) <==> NeverStale(w, s, labels)
    decreases |labels|
  {
    hide SystemInv, Apply, IsStale, AllCurrent;
    if labels != [] {
      ApplyIsCurrentIff(w, s, labels[0]);
      ApplyKeeps(w, s, labels[0]);
      if !IsStale(s, labels[0]) {
        CurrentIffNeverStale(w, Apply(w, s, labels[0]), labels[1..]);
      }
    }
  }

  /** From the start: exactly the runs without stale promotions keep every Normal instance on its latest
      report at every moment. */
  lemma RunsAreCurrentIffNeverStale(w: Setup, labels: seq<Label>)
    requires ValidSetup(w)
    ensures AlwaysCurrent(w, Start(w), labels) <==> NeverStale(w, Start(w), labels)
  {
    StartHolds(w);
    hide SystemInv;
    CurrentIffNeverStale(w, Start(w), labels);
  }

  lemma {:induction false} CurrentAtTheEnd(w: Setup, s: System, labels: seq<Label>)
    requires AlwaysCurrent(w, s, labels)
    ensures AllCurrent(Reach(w, s, labels))
    decreases |labels|
  {
    hide AllCurrent, Apply;
    if labels != [] {
      CurrentAtTheEnd(w, Apply(w, s, labels[0]), labels[1..]);
    }
  }

  /** In such runs the plain promise holds: any two Normal instances of the table are registered, or
      exempted by a later check, and hold different keys. */
  lemma NormalInstancesAreUniqueWhenNeverStale(w: Setup, labels: seq<Label>, a: ID, b: ID)
    requires ValidSetup(w) && a != b && NeverStale(w, Start(w), labels)
    requires var s := After(w, labels);
             && a in s.tab.created && b in s.tab.created
             && a in s.insts && b in s.insts
             && s.insts[a].status == Normal && s.insts[b].status == Normal
    ensures var r := After(w, labels).reg;
            && (a in r.keysByInst <==> a !in r.exempt)
            && (a in r.keysByInst && b in r.keysByInst && r.keysByInst[a] != "" ==>
                  r.keysByInst[a] != r.keysByInst[b])
  {
    hide NeverStale, AlwaysCurrent, Reach;
    RunsAreCurrentIffNeverStale(w, labels);
    CurrentAtTheEnd(w, Start(w), labels);
    ServingInstancesAreUnique(w, labels, a, b);
  }

  // ----- a run with a stale promotion -----

  /** Two instances that serve through the same egress, one of them with no entry and no exemption. */
  ghost predicate Clash(w: Setup, s: System, eg: Egress) {
    && "0" in s.tab.created && "1" in s.tab.created && "0" in s.insts && "1" in s.insts
    && s.insts["0"].status == Normal && s.insts["0"].reporting.last == eg
    && s.insts["1"].status == Normal && s.insts["1"].reporting.last == eg
    && "0" !in s.reg.keysByInst && "0" !in s.reg.exempt
    && "1" in s.reg.keysByInst && s.reg.keysByInst["1"] == w.keyer(eg)
  }

  /** The plain promise fails. An instance is confirmed, loses its client and reports anew; a Confirm
      sent again for its first report, before its loss is heard, makes it Normal on an egress that
      another instance owns. Every question of the code before it sends is answered as the code needs. */
  lemma StaleConfirmClashes(w: Setup, eg: Egress, other: Egress)
    requires ValidSetup(w) && w.basePort < P.MAX_PORT
    requires w.keyer(eg) != "" && w.keyer(other) != "" && w.keyer(eg) != w.keyer(other)
    ensures exists labels :: AllGuarded(w, Start(w), labels) && Clash(w, After(w, labels), eg)
  {
    hide Leads, Reach, NewInst, R.Accept, R.HandleRelease;
    var o := Start(w);
    var s1 := TwoAreCreated(w);
    NewIsAboutToStart(0);
    NewIsAboutToStart(1);
    var s2 := StartsAndReports(w, s1, "0", other, 0, 0, 0);
    var s3 := AcceptedBecomesNormal(w, s2, "0", other, 0, 1, 0);
    var s4 := StartsAndReports(w, s3, "1", eg, 0, 0, 0);
    FirstAccepted(w, s1.reg, "0", other);
    var s5 := AcceptedBecomesNormal(w, s4, "1", eg, 0, 1, 0);
    var s6 := LosesItsClient(w, s5, "0", 1, 1, other);
    var s7 := StartsAndReports(w, s6, "0", eg, 0, 1, 1);
    SecondAccepted(w, s3.reg, eg, other);
    NoLabels(w, s7);
    var s8 := ConfirmedBecomesNormal(w, s7, s7, "0", PoolReconfirms("0", true), s7.reg, s7.events, 0, 2, 1, eg, 1);
    LeadsBy(w, s8, PoolHears(true));
    var s9 := Apply(w, s8, PoolHears(true));
    assert s9 == s8.(reg := R.HandleRelease(s8.reg, "0"), events := s8.events[1..]);
    LeadsOn(w, s7, s8, s9);
    LeadsOn(w, s6, s7, s9);
    LeadsOn(w, s5, s6, s9);
    LeadsOn(w, s4, s5, s9);
    LeadsOn(w, s3, s4, s9);
    LeadsOn(w, s2, s3, s9);
    LeadsOn(w, s1, s2, s9);
    LeadsOn(w, o, s1, s9);
    assert Clash(w, s9, eg);
    LabelsOf(w, s9, eg);
  }

  lemma LabelsOf(w: Setup, t: System, eg: Egress)
    requires Leads(w, Start(w), t) && Clash(w, t, eg)
    ensures exists labels :: AllGuarded(w, Start(w), labels) && Clash(w, After(w, labels), eg)
  {
    hide Reach, Clash, AllGuarded;
    var labels :| t == Reach(w, Start(w), labels) && AllGuarded(w, Start(w), labels);
    assert Clash(w, After(w, labels), eg);
  }

  lemma SecondAccepted(w: Setup, r: R.Registry, eg: Egress, other: Egress)
    requires w.keyer(eg) != w.keyer(other)
    requires r.usedKeys == map[w.keyer(other) := "0"] && r.keysByInst == map["0" := w.keyer(other)]
    requires r.exempt == {} && r.accepted == map["0" := 1]
    ensures var r2 := R.Accept(R.Heard(r, "1", 1), "1", w.keyer(eg), eg, 1);
            var r3 := R.HandleRelease(r2, "0");
            && "0" in r2.keysByInst && R.Count(r2.accepted, "0") == 1
            && "0" !in r3.keysByInst && "0" !in r3.exempt
            && "1" in r3.keysByInst && r3.keysByInst["1"] == w.keyer(eg)
  {
  }
}
