/** Exactly which instances are registered: those with a report accepted since they last departed, and those
    a later check moved to a key, less those a check exempted. */
module EntrySafety {
  import opened Decimal
  import opened EgressKeys
  import opened Instances
  import opened InstanceSafety
  import opened Protocol
  import opened ProtocolSafety
  import opened SystemSafety
  import opened SystemTheorems
  import opened ReleaseSafety
  import R = Registry
  import T = Table
  import P = Ports

  /** The latest departure is being announced, or its announcement is in the channel. */
  ghost predicate DepartureOnItsWay(id: ID, i: Inst, events: seq<Tagged>) {
    || (i.pc.Emitting? && Releases(i.pc.ev))
    || exists k :: 0 <= k < |events| && IsRelease(events[k], id, i.reporting.departedAt)
  }

  predicate Registered(r: R.Registry, id: ID, departedAt: nat) {
    id !in r.exempt && (R.Count(r.accepted, id) > departedAt || id in r.rekeyed)
  }

  predicate EntryFits(r: R.Registry, id: ID, departedAt: nat) {
    id in r.keysByInst <==> Registered(r, id, departedAt)
  }

  /** The entry is exact as soon as the latest departure is behind: heard, or followed by an acceptance. */
  ghost predicate EntryKept(r: R.Registry, id: ID, i: Inst, events: seq<Tagged>) {
    var at := i.reporting.departedAt;
    !i.cancelled && (R.Count(r.accepted, id) > at || !DepartureOnItsWay(id, i, events)) ==> EntryFits(r, id, at)
  }

  /** Departures in the channel are not newer than the latest; a report not newer than it is still followed by it. */
  ghost predicate ChannelFits(id: ID, i: Inst, events: seq<Tagged>) {
    forall k :: 0 <= k < |events| && events[k].id == id ==>
      && (Releases(events[k].ev) ==> events[k].report <= i.reporting.departedAt)
      && (events[k].ev.Ready? && events[k].report <= i.reporting.departedAt && !i.cancelled ==>
            DepartureOnItsWay(id, i, events))
  }

  ghost predicate EntryOk(r: R.Registry, ids: set<ID>, id: ID, i: Inst, events: seq<Tagged>) {
    && (id in ids ==> EntryKept(r, id, i, events))
    && ChannelFits(id, i, events)
  }

  ghost predicate EntryInv(s: System) {
    && s.reg.rekeyed <= s.insts.Keys
    && (forall id :: id in s.insts ==> EntryOk(s.reg, s.tab.created.Keys, id, s.insts[id], s.events))
  }

  // ----- an instance moves -----

  /** A departure is numbered by the reports before it, and announced. */
  lemma StepNumbers(conf: Config, i: Inst, m: Move)
    requires Enabled(conf, i, m)
    ensures var j := Step(conf, i, m);
            j.reporting.departedAt != i.reporting.departedAt ==>
              && j.pc.Emitting? && Releases(j.pc.ev)
              && j.reporting.departedAt == j.reporting.reports == i.reporting.reports
  {
    hide NextDelay, Closed, Adopted, Exited, Rotated, Pushed, Parked, Overtaking, StepMain;
    if i.pc.Main? {
      MainNumbers(conf, i, m);
    }
  }

  predicate Numbered(i: Inst, j: Inst) {
    j.reporting.departedAt != i.reporting.departedAt ==>
      && j.pc.Emitting? && Releases(j.pc.ev)
      && j.reporting.departedAt == j.reporting.reports == i.reporting.reports
  }

  lemma HandleNumbers(conf: Config, i: Inst, c: Command)
    ensures Numbered(i, Handle(conf, i, c))
  {
    hide NextDelay, Closed, Rotated;
  }

  lemma MainNumbers(conf: Config, i: Inst, m: Move)
    requires i.pc.Main? && Enabled(conf, i, m)
    ensures Numbered(i, StepMain(conf, i, m))
  {
    hide Handle;
    if m == TakePending {
      HandleNumbers(conf, i.(queue := HandledPending(i.queue)), i.queue.pending[0].cmd);
    } else if m == Receive {
      HandleNumbers(conf, i.(queue := HandledReceived(i.queue)), i.queue.cmds[0].cmd);
    }
  }

  lemma SafeNumbers(i: Inst)
    requires Safe(i)
    ensures i.reporting.departedAt <= i.reporting.reports
    ensures i.pc.Emitting? ==> !i.pc.ev.Stopped?
    ensures i.pc.Emitting? && Releases(i.pc.ev) ==> i.reporting.departedAt == i.reporting.reports
    ensures i.pc.Emitting? && i.pc.ev.Ready? ==> i.reporting.departedAt < i.reporting.reports || i.reporting.departedAt == 0
  {
    hide QueueInv, GenInv, ClientInv;
  }

  lemma LongerKeepsDeparture(id: ID, i: Inst, events: seq<Tagged>, e: Tagged)
    ensures DepartureOnItsWay(id, i, events) ==> DepartureOnItsWay(id, i, events + [e])
    ensures IsRelease(e, id, i.reporting.departedAt) ==> DepartureOnItsWay(id, i, events + [e])
  {
    var longer := events + [e];
    assert forall k :: 0 <= k < |events| ==> longer[k] == events[k];
    assert longer[|events|] == e;
  }

  /** The step keeps an announced departure on its way, and nothing that did not fit is added. */
  lemma StepKeepsEntry(r: R.Registry, ids: set<ID>, id: ID, i: Inst, j: Inst, before: seq<Tagged>, after: seq<Tagged>)
    requires EntryOk(r, ids, id, i, before)
    requires R.Count(r.accepted, id) <= i.reporting.reports && i.reporting.departedAt <= i.reporting.reports
    requires i.cancelled ==> j.cancelled
    requires j.reporting.departedAt != i.reporting.departedAt ==>
               j.pc.Emitting? && Releases(j.pc.ev) && j.reporting.departedAt == i.reporting.reports
    requires j.reporting.departedAt == i.reporting.departedAt && !j.cancelled && DepartureOnItsWay(id, i, before) ==>
               DepartureOnItsWay(id, j, after)
    requires after == before
             || (exists e :: after == before + [e]
                   && (e.id == id ==>
                         && (Releases(e.ev) ==> e.report <= j.reporting.departedAt)
                         && (e.ev.Ready? ==> e.report > j.reporting.departedAt)))
    ensures EntryOk(r, ids, id, j, after)
  {
    forall k | 0 <= k < |after| && after[k].id == id
      ensures Releases(after[k].ev) ==> after[k].report <= j.reporting.departedAt
      ensures after[k].ev.Ready? && after[k].report <= j.reporting.departedAt && !j.cancelled ==>
                DepartureOnItsWay(id, j, after)
    {
      assert k < |before| ==> after[k] == before[k];
    }
    hide Registered;
  }

  lemma MovedKeepsOwnEntry(w: Setup, s: System, ids: set<ID>, id: ID, m: Move)
    requires id in s.insts && Safe(s.insts[id]) && Possible(w, s, s.insts[id], m)
    requires Linked(s.reg, ids, s.insts, s.events)
    requires EntryOk(s.reg, ids, id, s.insts[id], s.events)
    ensures var t := MoveInstance(w, s, id, m);
            id in t.insts && EntryOk(s.reg, ids, id, t.insts[id], t.events)
  {
    var i := s.insts[id];
    assert InstLinked(s.reg, ids, id, i, s.events);
    StepNumbers(w.conf, i, m);
    StepDeparts(w.conf, i, m);
    StepReports(w.conf, i, m);
    SafeNumbers(i);
    hide Step, Enabled, Safe, Answered, Linked, EntryOk;
    var t := MoveInstance(w, s, id, m);
    var j := t.insts[id];
    if m == Sent || m == StoppedSent {
      var e := t.events[|s.events|];
      assert t.events == s.events + [e];
      LongerKeepsDeparture(id, j, s.events, e);
    } else {
      assert t.events == s.events;
    }
    StepKeepsEntry(s.reg, ids, id, i, j, s.events, t.events);
  }

  lemma MovedKeepsOtherEntry(w: Setup, s: System, ids: set<ID>, id: ID, m: Move, x: ID)
    requires x in s.insts && x != id && EntryOk(s.reg, ids, x, s.insts[x], s.events)
    ensures var t := MoveInstance(w, s, id, m);
            x in t.insts && EntryOk(s.reg, ids, x, t.insts[x], t.events)
  {
    hide Step, Possible;
    var t := MoveInstance(w, s, id, m);
    if |t.events| > |s.events| {
      var e := t.events[|s.events|];
      assert t.events == s.events + [e] && e.id == id;
      LongerKeepsDeparture(x, s.insts[x], s.events, e);
    }
  }

  lemma MoveKeepsEntries(w: Setup, s: System, id: ID, m: Move)
    requires SystemInv(w, s) && EntryInv(s)
    ensures EntryInv(MoveInstance(w, s, id, m))
  {
    var ids := s.tab.created.Keys;
    assert Linked(s.reg, ids, s.insts, s.events);
    hide SystemInv, Linked, Safe, Possible, EntryOk, MoveInstance;
    MoveOnlyOne(w, s, id, m);
    MoveKeepsRegistry(w, s, id, m);
    forall x | x in MoveInstance(w, s, id, m).insts
      ensures EntryOk(s.reg, ids, x, MoveInstance(w, s, id, m).insts[x], MoveInstance(w, s, id, m).events)
    {
      if x != id {
        MovedKeepsOtherEntry(w, s, ids, id, m, x);
      } else if Possible(w, s, s.insts[id], m) {
        EachIsSafe(w, s, id);
        MovedKeepsOwnEntry(w, s, ids, id, m);
      } else {
        Impossible(w, s, id, m);
      }
    }
  }

  lemma MoveKeepsRegistry(w: Setup, s: System, id: ID, m: Move)
    ensures MoveInstance(w, s, id, m).reg == s.reg && MoveInstance(w, s, id, m).tab == s.tab
  {
    hide Step, Possible;
  }

  // ----- the coordinator hears -----

  /** What hearing does to the sender's own entry. */
  ghost predicate HeardOwn(r: R.Registry, t: R.Registry, e: Tagged) {
    var id := e.id;
    if Releases(e.ev) then
      id !in t.keysByInst && id !in t.rekeyed && R.Count(t.accepted, id) == R.Count(r.accepted, id)
    else if e.ev.Ready? then
      || SameEntry(r, t, id)
      || (id in t.keysByInst && id !in t.exempt && R.Count(t.accepted, id) == e.report)
    else true
  }

  ghost predicate SameEntry(r: R.Registry, t: R.Registry, id: ID) {
    && (id in r.keysByInst <==> id in t.keysByInst)
    && (id in r.exempt <==> id in t.exempt)
    && (id in r.rekeyed <==> id in t.rekeyed)
    && R.Count(t.accepted, id) == R.Count(r.accepted, id)
  }

  lemma HearingOwn(w: Setup, s: System, accept: bool)
    requires s.events != []
    ensures var e, t := s.events[0], Hear(w, s, accept);
            && HeardOwn(s.reg, t.reg, e)
            && (forall x :: x != e.id ==> SameEntry(s.reg, t.reg, x))
            && t.reg.rekeyed <= s.reg.rekeyed
  {
    var e := s.events[0];
    HearingIsJudging(w, s, accept);
    if e.ev.Ready? {
      ReadyOwn(s.reg, w.keyer, e.id, e.ev.egress, e.report);
    } else {
      ReleaseOwn(s.reg, e.id);
    }
    hide Hear, R.HandleReady, R.HandleRelease, R.Forget, SameEntry;
  }

  lemma ReleaseOwn(r: R.Registry, id: ID)
    ensures var t := R.HandleRelease(r, id);
            && id !in t.keysByInst && id !in t.rekeyed && R.Count(t.accepted, id) == R.Count(r.accepted, id)
            && (forall x :: x != id ==> SameEntry(r, t, x)) && t.rekeyed <= r.rekeyed
    ensures var t := R.Forget(r, id);
            (forall x :: x != id ==> SameEntry(r, t, x)) && t.rekeyed <= r.rekeyed
  {
    ReleaseKeyTouches(r, id);
    hide R.ReleaseKey;
  }

  lemma ReadyOwn(r: R.Registry, keyer: Keyer, id: ID, eg: Egress, report: nat)
    ensures var t := R.HandleReady(r, keyer, id, eg, report).0;
            && (SameEntry(r, t, id) || (id in t.keysByInst && id !in t.exempt && R.Count(t.accepted, id) == report))
            && (forall x :: x != id ==> SameEntry(r, t, x))
            && t.rekeyed <= r.rekeyed
  {
    var r0 := R.Heard(r, id, report);
    ConfirmingOwn(r0, id, keyer(eg), eg, report);
    AskingOwn(r0, id);
    hide R.Accept, R.Exempt, R.HandleEmpty, R.Logged;
    assert forall x :: SameEntry(r, r0, x);
    SameEntryChains(r, r0, R.HandleReady(r, keyer, id, eg, report).0);
  }

  lemma SameEntryChains(r: R.Registry, u: R.Registry, t: R.Registry)
    ensures forall x :: SameEntry(r, u, x) && SameEntry(u, t, x) ==> SameEntry(r, t, x)
  {
  }

  lemma SettleTouches(r: R.Registry, id: ID, eg: Egress, report: nat)
    ensures var t := R.Settle(r, id, eg, report);
            && t.keysByInst == r.keysByInst - {id} && t.exempt == r.exempt - {id}
            && t.rekeyed == r.rekeyed - {id} && t.accepted == r.accepted[id := report]
  {
    ReleaseKeyTouches(r, id);
    hide R.ReleaseKey;
  }

  lemma ConfirmingOwn(r: R.Registry, id: ID, key: string, eg: Egress, report: nat)
    ensures var t := R.Accept(r, id, key, eg, report);
            && id in t.keysByInst && id !in t.exempt && R.Count(t.accepted, id) == report
            && (forall x :: x != id ==> SameEntry(r, t, x)) && t.rekeyed <= r.rekeyed
    ensures var t := R.Exempt(r, id, eg, report);
            && id in t.keysByInst && id !in t.exempt && R.Count(t.accepted, id) == report
            && (forall x :: x != id ==> SameEntry(r, t, x)) && t.rekeyed <= r.rekeyed
  {
    SettleTouches(r, id, eg, report);
    hide R.Settle;
  }

  lemma AskingOwn(r: R.Registry, id: ID)
    ensures forall x :: SameEntry(r, R.HandleEmpty(r, id).0, x)
    ensures forall x :: SameEntry(r, R.Logged(r, id, R.ReplayedAsDuplicate), x)
    ensures R.HandleEmpty(r, id).0.rekeyed == r.rekeyed && R.Logged(r, id, R.ReplayedAsDuplicate).rekeyed == r.rekeyed
  {
  }

  lemma ShorterKeepsDeparture(id: ID, i: Inst, j: Inst, events: seq<Tagged>)
    requires events != [] && j == Touched(i, j)
    ensures DepartureOnItsWay(id, j, events[1..]) ==> DepartureOnItsWay(id, i, events)
    ensures DepartureOnItsWay(id, i, events) && !IsRelease(events[0], id, i.reporting.departedAt) ==>
              DepartureOnItsWay(id, j, events[1..])
  {
    var rest := events[1..];
    assert forall k :: 0 <= k < |rest| ==> rest[k] == events[k + 1];
    assert forall k :: 0 < k < |events| ==> events[k] == rest[k - 1];
  }

  lemma HeardKeepsChannel(r: R.Registry, ids: set<ID>, insts: map<ID, Inst>, events: seq<Tagged>, id: ID, j: Inst)
    requires events != [] && EventsOk(r, ids, insts, events)
    requires id in insts && ChannelFits(id, insts[id], events) && j == Touched(insts[id], j)
    ensures ChannelFits(id, j, events[1..])
  {
    var rest := events[1..];
    ShorterKeepsDeparture(id, insts[id], j, events);
    hide DepartureOnItsWay;
    forall k | 0 <= k < |rest| && rest[k].id == id
      ensures Releases(rest[k].ev) ==> rest[k].report <= j.reporting.departedAt
      ensures rest[k].ev.Ready? && rest[k].report <= j.reporting.departedAt && !j.cancelled ==>
                DepartureOnItsWay(id, j, rest)
    {
      assert rest[k] == events[k + 1];
      assert InSequence(events[0], events[k + 1]);
    }
  }

  lemma HeardKeepsEntry(r: R.Registry, t: R.Registry, ids: set<ID>, insts: map<ID, Inst>, events: seq<Tagged>, id: ID, j: Inst)
    requires events != [] && EventsOk(r, ids, insts, events)
    requires id in insts && j == Touched(insts[id], j)
    requires ChannelFits(id, insts[id], events) && EntryKept(r, id, insts[id], events)
    requires R.Count(r.accepted, id) <= R.Count(r.heard, id)
    requires if id == events[0].id then HeardOwn(r, t, events[0]) && !events[0].ev.Stopped? else SameEntry(r, t, id)
    ensures EntryKept(t, id, j, events[1..])
  {
    var e := events[0];
    ShorterKeepsDeparture(id, insts[id], j, events);
    assert e.id in insts && EventFits(r, insts[e.id], e);
    hide DepartureOnItsWay, EventsOk;
  }

  lemma HearKeepsEntries(w: Setup, s: System, accept: bool)
    requires SystemInv(w, s) && EntryInv(s) && s.events != []
    ensures EntryInv(Hear(w, s, accept))
  {
    hide SystemInv, Hear, EntryOk, SameEntry;
    HearAddsNone(w, s, accept);
    HearingOwn(w, s, accept);
    var t := Hear(w, s, accept);
    forall id | id in t.insts
      ensures EntryOk(t.reg, t.tab.created.Keys, id, t.insts[id], t.events)
    {
      HearKeepsOneEntry(w, s, accept, id);
    }
  }

  lemma HearKeepsOneEntry(w: Setup, s: System, accept: bool, id: ID)
    requires SystemInv(w, s) && s.events != [] && id in s.insts
    requires EntryOk(s.reg, s.tab.created.Keys, id, s.insts[id], s.events)
    ensures var t := Hear(w, s, accept);
            id in t.insts && EntryOk(t.reg, t.tab.created.Keys, id, t.insts[id], t.events)
  {
    var ids := s.tab.created.Keys;
    hide SystemInv, Hear, EventsOk, EntryKept, ChannelFits, SameEntry, HeardOwn;
    EventsAreOk(w, s);
    HearOnlyTouches(w, s, accept);
    HearTakesOne(w, s, accept);
    HearingOwn(w, s, accept);
    StoppedLeaves(w, s, accept);
    AcceptedIsHeard(w, s, id);
    var t := Hear(w, s, accept);
    HeardKeepsChannel(s.reg, ids, s.insts, s.events, id, t.insts[id]);
    if id in t.tab.created {
      HeardKeepsEntry(s.reg, t.reg, ids, s.insts, s.events, id, t.insts[id]);
    }
  }

  lemma StoppedLeaves(w: Setup, s: System, accept: bool)
    requires s.events != []
    ensures s.events[0].ev.Stopped? ==> s.events[0].id !in Hear(w, s, accept).tab.created
  {
    hide R.ReleaseKey, P.Release, T.Drop;
  }

  lemma AcceptedIsHeard(w: Setup, s: System, id: ID)
    requires SystemInv(w, s) && id in s.insts
    ensures R.Count(s.reg.accepted, id) <= R.Count(s.reg.heard, id) <= s.insts[id].reporting.reports
  {
    assert InstLinked(s.reg, s.tab.created.Keys, id, s.insts[id], s.events);
    hide Linked, T.TableInv, RegistryInv, InstsInv, TokensInv, Answered;
  }

  // ----- the coordinator checks, sends and creates -----

  /** A check leaves the entries of others, and an entry that is as it says: exempted or moved. */
  lemma CheckedEntry(r: R.Registry, keyer: Keyer, id: ID, eg: Egress, failed: bool, newer: (ID, ID) -> bool)
    ensures var t := R.ApplyEgress(r, keyer, id, eg, failed, newer).0;
            && (forall x :: x != id ==> SameEntry(r, t, x))
            && (SameEntry(r, t, id) || CheckedOwn(t, id))
            && t.rekeyed <= r.rekeyed + {id}
  {
    MovedOrExempted(r, id, if failed then "" else keyer(eg), eg);
    hide R.Rekey, R.ExemptByCheck;
  }

  /** Exempted, or moved to another key. */
  predicate CheckedOwn(t: R.Registry, id: ID) {
    || (id !in t.keysByInst && id in t.exempt)
    || (id in t.keysByInst && id !in t.exempt && id in t.rekeyed)
  }

  lemma MovedOrExempted(r: R.Registry, id: ID, key: string, eg: Egress)
    ensures var t := R.Rekey(r, id, key, eg);
            CheckedOwn(t, id) && (forall x :: x != id ==> SameEntry(r, t, x)) && t.rekeyed <= r.rekeyed + {id}
    ensures var t := R.ExemptByCheck(r, id);
            CheckedOwn(t, id) && (forall x :: x != id ==> SameEntry(r, t, x)) && t.rekeyed <= r.rekeyed + {id}
  {
    ReleaseKeyTouches(r, id);
    hide R.ReleaseKey;
  }

  /** Others may touch an instance, and its entry may become what a check says. */
  lemma TouchedKeepsEntry(r: R.Registry, t: R.Registry, ids: set<ID>, id: ID, i: Inst, j: Inst, events: seq<Tagged>)
    requires EntryOk(r, ids, id, i, events) && j == Touched(i, j)
    requires SameEntry(r, t, id) || CheckedOwn(t, id)
    ensures EntryOk(t, ids, id, j, events)
  {
    assert DepartureOnItsWay(id, i, events) <==> DepartureOnItsWay(id, j, events);
    hide DepartureOnItsWay;
  }

  lemma CheckKeepsEntries(w: Setup, s: System, id: ID, eg: Egress, failed: bool, accept: bool)
    requires EntryInv(s) && id in s.insts
    ensures EntryInv(CheckEgress(w, s, id, eg, failed, accept))
  {
    CheckTakes(w, s, id, eg, failed, accept);
    CheckedEntry(s.reg, w.keyer, id, eg, failed, T.NewerThan(s.tab.created));
    hide CheckEgress, EntryOk, R.ApplyEgress;
    CheckOnlyTouches(w, s, id, eg, failed, accept);
    var t := CheckEgress(w, s, id, eg, failed, accept);
    forall x | x in t.insts
      ensures EntryOk(t.reg, t.tab.created.Keys, x, t.insts[x], t.events)
    {
      TouchedKeepsEntry(s.reg, t.reg, s.tab.created.Keys, x, s.insts[x], t.insts[x], s.events);
    }
  }

  lemma CheckTakes(w: Setup, s: System, id: ID, eg: Egress, failed: bool, accept: bool)
    ensures var t := CheckEgress(w, s, id, eg, failed, accept);
            && t.events == s.events && t.tab == s.tab && t.insts.Keys == s.insts.Keys
            && t.reg == R.ApplyEgress(s.reg, w.keyer, id, eg, failed, T.NewerThan(s.tab.created)).0
  {
    hide R.ApplyEgress, StepOutside;
  }

  lemma SendKeepsEntries(w: Setup, s: System, l: Label)
    requires EntryInv(s)
    requires l.PoolReconfirms? || l.PoolDrains? || l.PoolStops? || l.UserSends? || l.PoolEndsCheck?
    ensures EntryInv(Apply(w, s, l))
  {
    SendAdds(w, s, l);
    SendKeepsTable(w, s, l);
    hide EntryOk, Apply;
    var t := Apply(w, s, l);
    forall x | x in t.insts
      ensures EntryOk(t.reg, t.tab.created.Keys, x, t.insts[x], t.events)
    {
      TouchedKeepsEntry(s.reg, t.reg, s.tab.created.Keys, x, s.insts[x], t.insts[x], s.events);
    }
  }

  lemma SendKeepsTable(w: Setup, s: System, l: Label)
    requires l.PoolReconfirms? || l.PoolDrains? || l.PoolStops? || l.UserSends? || l.PoolEndsCheck?
    ensures Apply(w, s, l).tab == s.tab
  {
    hide StepOutside;
  }

  /** Nothing is known yet of the instance that is created next. */
  lemma NewIsUnknown(w: Setup, s: System)
    requires SystemInv(w, s) && EntryInv(s)
    ensures var x := Itoa(s.tab.nextSeq);
            && x !in s.insts && x !in s.reg.keysByInst && x !in s.reg.rekeyed && R.Count(s.reg.accepted, x) == 0
            && (forall k :: 0 <= k < |s.events| ==> s.events[k].id != x)
  {
    EventsAreOk(w, s);
    IdsAreNew(w, s);
    TableIsKnown(w, s);
    assert s.reg.accepted.Keys <= s.insts.Keys && s.reg.keysByInst.Keys <= s.tab.created.Keys;
    hide SystemInv, Itoa;
  }

  lemma NewEntry(r: R.Registry, ids: set<ID>, id: ID, seqNo: nat, events: seq<Tagged>)
    requires id !in r.keysByInst && id !in r.rekeyed && R.Count(r.accepted, id) == 0
    requires forall k :: 0 <= k < |events| ==> events[k].id != id
    ensures EntryOk(r, ids, id, NewInst(seqNo), events)
  {
    assert NewInst(seqNo).reporting.departedAt == 0;
    hide NewInst;
  }

  lemma CreateKeepsEntries(w: Setup, s: System, now: int)
    requires SystemInv(w, s) && EntryInv(s)
    ensures EntryInv(CreateOne(s, now))
  {
    NewIsUnknown(w, s);
    hide SystemInv, EntryOk, P.Acquire, Itoa, NewInst;
    var x, t := Itoa(s.tab.nextSeq), CreateOne(s, now);
    NewEntry(s.reg, t.tab.created.Keys, x, s.tab.nextSeq, s.events);
    forall y | y in s.insts
      ensures EntryOk(s.reg, t.tab.created.Keys, y, s.insts[y], s.events)
    {
      SameTableSameEntry(s.reg, s.tab.created.Keys, t.tab.created.Keys, y, s.insts[y], s.events);
    }
  }

  lemma SameTableSameEntry(r: R.Registry, ids: set<ID>, more: set<ID>, id: ID, i: Inst, events: seq<Tagged>)
    requires EntryOk(r, ids, id, i, events) && (id in more ==> id in ids)
    ensures EntryOk(r, more, id, i, events)
  {
  }

  lemma ApplyKeepsEntries(w: Setup, s: System, l: Label)
    requires SystemInv(w, s) && EntryInv(s)
    ensures EntryInv(Apply(w, s, l))
  {
    hide SystemInv, EntryInv, Apply;
    ApplyByKind(w, s, l);
    if l.PoolHears? {
      if s.events != [] && s.checking == {} {
        HearKeepsEntries(w, s, l.accept);
      }
    } else if l.PoolChecksEgress? {
      TableIsKnown(w, s);
      if l.id in s.tab.created && l.id in s.checking {
        CheckKeepsEntries(w, s, l.id, l.eg, l.failed, l.accept);
      }
    } else if l.PoolReadsNormal? {
      CheckingKeepsEntries(s, Apply(w, s, l).checking);
    } else if l.PoolCreates? {
      CreateKeepsEntries(w, s, l.now);
    } else if l.InstanceMoves? {
      MoveKeepsEntries(w, s, l.id, l.move);
    } else {
      SendKeepsEntries(w, s, l);
    }
  }

  lemma CheckingKeepsEntries(s: System, checking: set<ID>)
    requires EntryInv(s)
    ensures EntryInv(s.(checking := checking))
  {
    hide EntryOk;
  }

  lemma ApplyByKind(w: Setup, s: System, l: Label)
    ensures l.PoolHears? ==> Apply(w, s, l) == if s.events == [] || s.checking != {} then s else Hear(w, s, l.accept)
    ensures l.PoolCreates? ==> Apply(w, s, l) == CreateOne(s, l.now)
    ensures l.InstanceMoves? ==> Apply(w, s, l) == MoveInstance(w, s, l.id, l.move)
    ensures l.PoolChecksEgress? ==>
              Apply(w, s, l) == if l.id in s.tab.created && l.id in s.checking
                                then CheckEgress(w, s, l.id, l.eg, l.failed, l.accept) else s
    ensures l.PoolReadsNormal? ==> Apply(w, s, l) == s.(checking := Apply(w, s, l).checking)
  {
    hide Hear, CreateOne, MoveInstance, CheckEgress;
  }

  lemma {:induction false} ReachKeepsEntries(w: Setup, s: System, labels: seq<Label>)
    requires SystemInv(w, s) && EntryInv(s)
    ensures EntryInv(Reach(w, s, labels))
    decreases |labels|
  {
    hide SystemInv, EntryInv, Apply;
    if labels != [] {
      ApplyKeeps(w, s, labels[0]);
      ApplyKeepsEntries(w, s, labels[0]);
      ReachKeepsEntries(w, Apply(w, s, labels[0]), labels[1..]);
    }
  }

  /** In every reachable state, an instance of the table all of whose events have been heard, and that is not
      being shut down, has an entry exactly if no check has exempted it, and a report of it was accepted
      after it last departed or a check has moved it since. */
  lemma EntryIsExact(w: Setup, labels: seq<Label>, id: ID)
    requires ValidSetup(w) && AllHeard(After(w, labels), id) && id in After(w, labels).tab.created
    requires !After(w, labels).insts[id].cancelled
    ensures var s := After(w, labels);
            id in s.reg.keysByInst <==>
              && id !in s.reg.exempt
              && (R.Count(s.reg.accepted, id) > s.insts[id].reporting.departedAt || id in s.reg.rekeyed)
  {
    hide SystemInv, Reach;
    StartHolds(w);
    ReachKeepsEntries(w, Start(w), labels);
    assert EntryOk(After(w, labels).reg, After(w, labels).tab.created.Keys, id, After(w, labels).insts[id],
                   After(w, labels).events);
  }
}
