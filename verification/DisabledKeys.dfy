/** Disabling an instance frees its egress key, except during a drain: then nothing is announced, and a
    Disabled instance keeps its key with no event on its way that would free it. */
module DisabledKeys {
  import opened Wrappers
  import opened Types
  import opened Decimal
  import opened EgressKeys
  import opened Instances
  import opened Protocol
  import opened InstanceSafety
  import opened ProtocolSafety
  import opened SystemSafety
  import opened SystemTheorems
  import opened ReleaseSafety
  import opened EntrySafety
  import opened SampleRuns
  import opened StaleConfirms
  import R = Registry
  import T = Table
  import P = Ports

  /** Taking a Disable, parked or just received, disables the instance and drops its client; it departs
      from its key exactly when it was not draining. */
  lemma DisableDepartsUnlessDraining(conf: Config, i: Inst, m: Move)
    requires Safe(i) && i.status != Disabled && Step(conf, i, m).status == Disabled
    ensures var j := Step(conf, i, m);
            && j.clients.current == None
            && (i.pc.Main? || i.pc.DrainWait?)
            && (j.reporting.departed <==> i.pc.Main?)
            && (j.pc == Emitting(DisabledNow, ToMain) <==> i.pc.Main?)
            && (i.pc.DrainWait? ==> j.pc == Main && j.reporting == i.reporting)
  {
    hide QueueInv, GenInv, NextDelay, Closed, Adopted, Exited, Rotated, Pushed, Parked, Overtaking, StepMain;
    if i.pc.Main? {
      MainDisablesByAnnouncing(conf, i, m);
    } else {
      assert i.pc.DrainWait? && Step(conf, i, m) == ReceiveDraining(i);
      ClosedHasNone(i.clients);
    }
  }

  lemma ClosedHasNone(k: Clients)
    ensures Closed(k).current == None
  {
  }

  predicate Announced(i: Inst) {
    i.pc == Emitting(DisabledNow, ToMain) && i.reporting.departed && i.clients.current == None
  }

  lemma HandleDisablesByAnnouncing(conf: Config, i: Inst, c: Command)
    requires i.status != Disabled && Handle(conf, i, c).status == Disabled
    ensures Announced(Handle(conf, i, c))
  {
    hide NextDelay, Rotated;
  }

  lemma MainDisablesByAnnouncing(conf: Config, i: Inst, m: Move)
    requires i.pc.Main? && i.status != Disabled && Step(conf, i, m).status == Disabled
    ensures Announced(Step(conf, i, m))
  {
    hide Handle;
    if m == TakePending {
      HandleDisablesByAnnouncing(conf, i.(queue := HandledPending(i.queue)), i.queue.pending[0].cmd);
    } else if m == Receive {
      HandleDisablesByAnnouncing(conf, i.(queue := HandledReceived(i.queue)), i.queue.cmds[0].cmd);
    }
  }

  lemma DisabledKeepsDeparture(conf: Config, i: Inst, m: Move)
    requires Safe(i) && i.status == Disabled && Step(conf, i, m).status == Disabled
    ensures Step(conf, i, m).reporting.departed == i.reporting.departed
  {
    hide QueueInv, GenInv, ClientInv, NextDelay;
  }

  // ----- which Disable it was, and what that means for the key -----

  predicate TurnsDisabled(s: System, t: System, id: ID) {
    id in s.insts && id in t.insts && s.insts[id].status != Disabled && t.insts[id].status == Disabled
  }

  /** Whether the latest Disable the instance took in the run, it took in its main loop. */
  ghost function LastTakenInMain(w: Setup, s: System, labels: seq<Label>, id: ID, before: bool): bool
    decreases |labels|
  {
    if labels == [] then before
    else
      var t := Apply(w, s, labels[0]);
      LastTakenInMain(w, t, labels[1..], id, if TurnsDisabled(s, t, id) then s.insts[id].pc.Main? else before)
  }

  predicate DepartedIf(s: System, id: ID, inMain: bool) {
    id in s.insts && s.insts[id].status == Disabled ==> s.insts[id].reporting.departed == inMain
  }

  lemma StepTellsWhichDisable(w: Setup, s: System, l: Label, id: ID, before: bool)
    requires SystemInv(w, s) && DepartedIf(s, id, before)
    ensures var t := Apply(w, s, l);
            DepartedIf(t, id, if TurnsDisabled(s, t, id) then s.insts[id].pc.Main? else before)
  {
    hide SystemInv, Apply;
    if l.InstanceMoves? {
      ApplyMove(w, s, l);
      MoveTellsWhichDisable(w, s, l.id, l.move, id, before);
    } else {
      IdsAreNew(w, s);
      PoolStepOnlyTouches(w, s, l);
      NewcomerIsProbing(w, s, l);
    }
  }

  lemma MoveTellsWhichDisable(w: Setup, s: System, mover: ID, m: Move, id: ID, before: bool)
    requires SystemInv(w, s) && DepartedIf(s, id, before)
    ensures var t := MoveInstance(w, s, mover, m);
            DepartedIf(t, id, if TurnsDisabled(s, t, id) then s.insts[id].pc.Main? else before)
  {
    hide SystemInv, Safe, Step, MoveInstance;
    MoveOnlyOne(w, s, mover, m);
    if mover == id && id in s.insts && Step(w.conf, s.insts[id], m).status == Disabled {
      EachIsSafe(w, s, id);
      if s.insts[id].status == Disabled {
        DisabledKeepsDeparture(w.conf, s.insts[id], m);
      } else {
        DisableDepartsUnlessDraining(w.conf, s.insts[id], m);
      }
    }
  }

  lemma {:induction false} RunTellsWhichDisable(w: Setup, s: System, labels: seq<Label>, id: ID, before: bool)
    requires SystemInv(w, s) && DepartedIf(s, id, before)
    ensures DepartedIf(Reach(w, s, labels), id, LastTakenInMain(w, s, labels, id, before))
    decreases |labels|
  {
    hide SystemInv, DepartedIf, Apply;
    if labels != [] {
      var t := Apply(w, s, labels[0]);
      ApplyKeeps(w, s, labels[0]);
      StepTellsWhichDisable(w, s, labels[0], id, before);
      RunTellsWhichDisable(w, t, labels[1..], id, if TurnsDisabled(s, t, id) then s.insts[id].pc.Main? else before);
    }
  }

  /** In every run, a Disabled instance of the table all of whose events have been heard, unless it is being
      shut down: if it took its Disable in the main loop it has no entry and owns no key. It has an entry
      exactly if it took its Disable during a drain, no check exempted it, and a report of it was accepted
      after it last departed or a check has moved it since. If that is its latest report, the entry is the
      key of that report, unless a check moved it. */
  lemma DisabledIsRegisteredIffDisabledInADrain(w: Setup, labels: seq<Label>, id: ID)
    requires ValidSetup(w) && AllHeard(After(w, labels), id) && id in After(w, labels).tab.created
    requires After(w, labels).insts[id].status == Disabled && !After(w, labels).insts[id].cancelled
    ensures var s := After(w, labels);
            var inMain := LastTakenInMain(w, Start(w), labels, id, false);
            && s.insts[id].reporting.departed == inMain
            && (inMain ==> forall key :: key in s.reg.usedKeys ==> s.reg.usedKeys[key] != id)
            && (id in s.reg.keysByInst <==>
                  && !inMain && id !in s.reg.exempt
                  && (R.Count(s.reg.accepted, id) > s.insts[id].reporting.departedAt || id in s.reg.rekeyed))
    ensures var s := After(w, labels);
            0 < R.Count(s.reg.accepted, id) == s.insts[id].reporting.reports && OwnKey(s.reg, id) ==>
              s.reg.keysByInst[id] == w.keyer(s.insts[id].reporting.last)
  {
    hide SystemInv, Reach;
    StartHolds(w);
    RunTellsWhichDisable(w, Start(w), labels, id, false);
    EveryRunIsSafe(w, labels);
    EntryIsExact(w, labels, id);
    if After(w, labels).insts[id].reporting.departed {
      DepartedHoldsNoKey(w, labels, id);
    } else {
      SettledIsKept(w, After(w, labels), id);
    }
  }

  lemma SettledIsKept(w: Setup, s: System, id: ID)
    requires SystemInv(w, s) && id in s.insts && id in s.tab.created
    ensures Settled(s.reg, id, s.insts[id]) ==> Kept(s.reg, id, s.insts[id].reporting.last)
    ensures id in s.reg.exempt ==> id !in s.reg.keysByInst
    ensures id in s.reg.keysByInst && id in s.reg.seen ==> s.reg.keysByInst[id] == w.keyer(s.reg.seen[id])
  {
    assert InstLinked(s.reg, s.tab.created.Keys, id, s.insts[id], s.events);
    hide Linked, T.TableInv, InstsInv, TokensInv;
  }

  // ----- a run in which a Disabled instance holds a key -----

  lemma DrainedThenDisabled(w: Setup, o: System, s: System, id: ID, n: nat, m: nat, eg: Egress) returns (t: System)
    requires Leads(w, o, s) && id in s.insts && Idle(s.insts[id], Normal, 0, n, m, eg)
    ensures Leads(w, o, t) && id in t.insts && t == s.(insts := s.insts[id := t.insts[id]])
    ensures t.insts[id].status == Disabled && t.insts[id].pc.Main?
    ensures t.insts[id].queue.pending == [] && t.insts[id].queue.cmds == []
  {
    hide Leads;
    var i := s.insts[id];
    var i1 := Step(w.conf, i.(queue := Pushed(i.queue, Drain)), Receive);
    assert i1.pc.DrainWait? && i1.queue.pending == [] && i1.queue.cmds == [] && i1.status == Draining;
    var i2 := Step(w.conf, i1.(queue := Pushed(i1.queue, Disable)), Receive);
    assert i2.status == Disabled && i2.pc.Main? && i2.queue.pending == [] && i2.queue.cmds == [];
    LeadsByTaking(w, o, s, id, Drain, i1);
    var s1 := s.(insts := s.insts[id := i1]);
    LeadsByTaking(w, o, s1, id, Disable, i2);
    t := s1.(insts := s1.insts[id := i2]);
  }

  /** Disabled, idle, the owner of a key, and nothing in the channel that would free it. */
  ghost predicate HoldsKeyForNothing(w: Setup, s: System, key: string) {
    && "0" in s.insts && s.insts["0"].status == Disabled && s.insts["0"].pc.Main?
    && s.insts["0"].queue.pending == [] && s.insts["0"].queue.cmds == []
    && s.events == []
    && key in s.reg.usedKeys && s.reg.usedKeys[key] == "0"
  }

  /** Some run ends with such an instance. */
  lemma DisabledCanHoldAKey(w: Setup, eg: Egress)
    requires ValidSetup(w) && w.basePort < P.MAX_PORT && w.keyer(eg) != ""
    ensures exists labels :: AllGuarded(w, Start(w), labels) && HoldsKeyForNothing(w, After(w, labels), w.keyer(eg))
  {
    hide Leads, Reach, NewInst, R.Accept;
    var o := Start(w);
    var s1 := TwoAreCreated(w);
    NewIsAboutToStart(0);
    var s2 := StartsAndReports(w, s1, "0", eg, 0, 0, 0);
    var s3 := AcceptedBecomesNormal(w, s2, "0", eg, 0, 1, 0);
    FirstAccepted(w, s1.reg, "0", eg);
    LeadsOn(w, o, s1, s2);
    LeadsOn(w, o, s2, s3);
    var s4 := DrainedThenDisabled(w, o, s3, "0", 1, 1, eg);
    assert HoldsKeyForNothing(w, s4, w.keyer(eg));
    SomeLabelsHold(w, s4, w.keyer(eg));
  }

  lemma SomeLabelsHold(w: Setup, t: System, key: string)
    requires Leads(w, Start(w), t) && HoldsKeyForNothing(w, t, key)
    ensures exists labels :: AllGuarded(w, Start(w), labels) && HoldsKeyForNothing(w, After(w, labels), key)
  {
    hide Reach, HoldsKeyForNothing, AllGuarded;
    var labels :| t == Reach(w, Start(w), labels) && AllGuarded(w, Start(w), labels);
    assert HoldsKeyForNothing(w, After(w, labels), key);
  }
}
