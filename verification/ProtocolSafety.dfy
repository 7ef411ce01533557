/** What every run of the whole system keeps. */
module ProtocolSafety {
  import opened Decimal
  import opened EgressKeys
  import opened Instances
  import opened InstanceSafety
  import opened Protocol
  import R = Registry
  import T = Table

  // ----- how one step of an instance looks to the coordinator -----

  /** Every Confirm still queued answers a report up to the bound. */
  ghost predicate ConfirmsBelow(q: Queue, bound: nat) {
    && (forall i :: 0 <= i < |q.pending| && q.pending[i].cmd.Confirm? ==> q.pending[i].cmd.answers <= bound)
    && (forall i :: 0 <= i < |q.cmds| && q.cmds[i].cmd.Confirm? ==> q.cmds[i].cmd.answers <= bound)
  }

  ghost predicate Answered(i: Inst, bound: nat) {
    ConfirmsBelow(i.queue, bound) && i.reporting.confirmed <= bound
  }

  lemma HandleKeepsAnswered(conf: Config, i: Inst, c: Command, bound: nat)
    requires Answered(i, bound) && (c.Confirm? ==> c.answers <= bound)
    ensures Answered(Handle(conf, i, c), bound)
  {
  }

  lemma MainKeepsAnswered(conf: Config, i: Inst, m: Move, bound: nat)
    requires Answered(i, bound) && i.pc.Main? && Enabled(conf, i, m)
    ensures Answered(StepMain(conf, i, m), bound)
  {
    hide Handle;
    if m == TakePending {
      HandleKeepsAnswered(conf, i.(queue := HandledPending(i.queue)), i.queue.pending[0].cmd, bound);
    } else if m == Receive {
      HandleKeepsAnswered(conf, i.(queue := HandledReceived(i.queue)), i.queue.cmds[0].cmd, bound);
    }
  }

  lemma StepKeepsAnswered(conf: Config, i: Inst, m: Move, bound: nat)
    requires Answered(i, bound) && !m.Accept?
    ensures Answered(Step(conf, i, m), bound)
  {
    hide StepMain, NextDelay, Closed, Adopted, Exited, Rotated;
    if Enabled(conf, i, m) && i.pc.Main? {
      MainKeepsAnswered(conf, i, m, bound);
    }
  }

  /** No report comes in, no departure is taken back, and no report stands ready to be sent. */
  predicate ReportsNothing(i: Inst, j: Inst) {
    && j.reporting.reports == i.reporting.reports && j.reporting.last == i.reporting.last
    && (i.reporting.departed ==> j.reporting.departed)
    && !(j.pc.Emitting? && j.pc.ev.Ready?)
  }

  lemma HandleReportsNothing(conf: Config, i: Inst, c: Command)
    requires i.pc.Main?
    ensures ReportsNothing(i, Handle(conf, i, c))
  {
    hide NextDelay, Closed, Rotated;
  }

  lemma MainReportsNothing(conf: Config, i: Inst, m: Move)
    requires i.pc.Main? && Enabled(conf, i, m)
    ensures ReportsNothing(i, StepMain(conf, i, m))
  {
    hide Handle;
    if m == TakePending {
      HandleReportsNothing(conf, i.(queue := HandledPending(i.queue)), i.queue.pending[0].cmd);
    } else if m == Receive {
      HandleReportsNothing(conf, i.(queue := HandledReceived(i.queue)), i.queue.cmds[0].cmd);
    }
  }

  /** A step either reports, or leaves the number of reports and never takes back a departure. */
  lemma StepReports(conf: Config, i: Inst, m: Move)
    requires Enabled(conf, i, m)
    ensures var j := Step(conf, i, m);
            && (m.ProbeDone? ==>
                  j.reporting.reports == i.reporting.reports + 1 && !j.reporting.departed && j.reporting.last == m.eg && j.pc.Emitting? && j.pc.ev == Ready(m.eg))
            && (!m.ProbeDone? ==>
                  && j.reporting.reports == i.reporting.reports && j.reporting.last == i.reporting.last
                  && (i.reporting.departed ==> j.reporting.departed)
                  && (j.pc.Emitting? && j.pc.ev.Ready? ==> j.pc == i.pc && m != Sent))
  {
    hide NextDelay, Closed, Adopted, Exited, Rotated, Pushed, Parked, Overtaking, StepMain;
    if i.pc.Main? {
      MainReportsNothing(conf, i, m);
    }
  }

  lemma StepEnds(conf: Config, i: Inst, m: Move)
    requires Enabled(conf, i, m)
    ensures var j := Step(conf, i, m);
            && (i.pc.Gone? ==> j.pc.Gone? && FromOutside(m))
            && (m == StoppedSent ==> j.pc.Gone?)
  {
  }

  lemma StepTokens(conf: Config, i: Inst, m: Move)
    requires Enabled(conf, i, m)
    ensures var j := Step(conf, i, m);
            && (m == TakeToken ==> !HoldsToken(i.pc) && HoldsToken(j.pc))
            && (m == BuildFails || m == StartFails || m == StartOk ==> HoldsToken(i.pc) && !HoldsToken(j.pc))
            && (m != TakeToken && m != BuildFails && m != StartFails && m != StartOk ==>
                  (HoldsToken(j.pc) <==> HoldsToken(i.pc)))
  {
    hide NextDelay, Closed, Adopted, Exited, Rotated, Pushed, Parked, Overtaking, HandledPending, HandledReceived;
  }

  // ----- the link between the coordinator and the instances -----

  predicate Releases(ev: Event) {
    !ev.Ready? && !ev.Stopped?
  }

  /** An event in the channel, against the present of its sender and what the coordinator has heard. */
  ghost predicate EventFits(r: R.Registry, i: Inst, e: Tagged) {
    && e.report <= i.reporting.reports
    && (e.ev.Ready? ==>
          e.report > R.Count(r.heard, e.id) && (e.report == i.reporting.reports ==> e.ev.egress == i.reporting.last))
    && (Releases(e.ev) ==>
          e.report >= R.Count(r.heard, e.id) && (e.report == i.reporting.reports ==> i.reporting.departed))
    && (e.ev.Stopped? ==> i.pc.Gone?)
  }

  /** Two events of one instance, oldest first: reports are numbered in order, Stopped is last. */
  ghost predicate InSequence(d: Tagged, e: Tagged) {
    d.id == e.id ==> !d.ev.Stopped? && d.report <= e.report && (e.ev.Ready? ==> d.report < e.report)
  }

  ghost predicate EventsOk(r: R.Registry, ids: set<ID>, insts: map<ID, Inst>, events: seq<Tagged>) {
    && (forall k :: 0 <= k < |events| ==> events[k].id in ids && events[k].id in insts)
    && (forall k :: 0 <= k < |events| && events[k].id in insts ==> EventFits(r, insts[events[k].id], events[k]))
    && (forall j, k :: 0 <= j < k < |events| ==> InSequence(events[j], events[k]))
  }

  /** A report on its way out is newer than everything the coordinator has or will have heard before it. */
  ghost predicate ReportIsNew(r: R.Registry, id: ID, i: Inst, events: seq<Tagged>) {
    i.pc.Emitting? && i.pc.ev.Ready? ==>
      && i.pc.ev.egress == i.reporting.last
      && R.Count(r.heard, id) < i.reporting.reports
      && (forall k :: 0 <= k < |events| && events[k].id == id ==> events[k].report < i.reporting.reports)
  }

  /** The latest report was accepted and nothing since makes the coordinator free the key. */
  ghost predicate Settled(r: R.Registry, id: ID, i: Inst) {
    0 < R.Count(r.accepted, id) == i.reporting.reports && !i.reporting.departed
  }

  ghost predicate InstLinked(r: R.Registry, ids: set<ID>, id: ID, i: Inst, events: seq<Tagged>) {
    && R.Count(r.accepted, id) <= R.Count(r.heard, id) <= i.reporting.reports
    && Answered(i, R.Count(r.accepted, id))
    && ReportIsNew(r, id, i, events)
    && (id !in ids ==> i.pc.Gone?)
    && (id in ids && Settled(r, id, i) ==> Kept(r, id, i.reporting.last))
  }

  /** The instance still has its entry, made for this egress unless a check moved it, or is exempt. */
  ghost predicate Kept(r: R.Registry, id: ID, last: Egress) {
    && (id in r.keysByInst || id in r.exempt)
    && (id in r.keysByInst && id !in r.rekeyed ==> id in r.seen && r.seen[id] == last)
  }

  ghost predicate Linked(r: R.Registry, ids: set<ID>, insts: map<ID, Inst>, events: seq<Tagged>) {
    && ids <= insts.Keys
    && r.heard.Keys <= insts.Keys && r.accepted.Keys <= insts.Keys
    && EventsOk(r, ids, insts, events)
    && (forall id :: id in insts ==> InstLinked(r, ids, id, insts[id], events))
  }

  // ----- one instance moves -----

  lemma MoveWithoutEvent(conf: Config, r: R.Registry, ids: set<ID>, insts: map<ID, Inst>, events: seq<Tagged>, id: ID, m: Move)
    requires Linked(r, ids, insts, events) && id in insts && Enabled(conf, insts[id], m) && !m.Accept?
    ensures Linked(r, ids, insts[id := Step(conf, insts[id], m)], events)
  {
    hide Step, Enabled, Answered;
    StepKeepsAnswered(conf, insts[id], m, R.Count(r.accepted, id));
    StepReports(conf, insts[id], m);
    StepEnds(conf, insts[id], m);
  }

  lemma EventAppended(r: R.Registry, ids: set<ID>, insts: map<ID, Inst>, events: seq<Tagged>, e: Tagged)
    requires Linked(r, ids, insts, events) && e.id in ids && e.id in insts
    requires EventFits(r, insts[e.id], e)
    requires !insts[e.id].pc.Emitting? || !insts[e.id].pc.ev.Ready?
    requires forall k :: 0 <= k < |events| ==> InSequence(events[k], e)
    ensures Linked(r, ids, insts, events + [e])
  {
    hide Answered;
    forall id | id in insts
      ensures InstLinked(r, ids, id, insts[id], events + [e])
    {
      assert InstLinked(r, ids, id, insts[id], events);
    }
  }

  /** The event an instance is about to put into the channel fits behind the others. */
  lemma SendKeepsLinked(w: Setup, s: System, ids: set<ID>, id: ID, m: Move)
    requires Linked(s.reg, ids, s.insts, s.events) && id in s.insts
    requires Safe(s.insts[id]) && Possible(w, s, s.insts[id], m)
    requires m == Sent || m == StoppedSent
    ensures Linked(s.reg, ids, s.insts[id := Step(w.conf, s.insts[id], m)], EventsAfter(s.events, id, s.insts[id], m))
  {
    var i := s.insts[id];
    var j := Step(w.conf, i, m);
    assert InstLinked(s.reg, ids, id, i, s.events);
    StepReports(w.conf, i, m);
    StepEnds(w.conf, i, m);
    assert m == Sent ==> i.pc.Emitting? && !i.pc.ev.Stopped? && (i.reporting.departed <==> !i.pc.ev.Ready?);
    assert !i.pc.Gone?;
    hide Step, Enabled, Answered, Safe;
    MoveWithoutEvent(w.conf, s.reg, ids, s.insts, s.events, id, m);
    var e := Tagged(id, if m == Sent then i.pc.ev else Stopped, i.reporting.reports);
    assert EventsAfter(s.events, id, i, m) == s.events + [e];
    assert EventFits(s.reg, j, e);
    EventAppended(s.reg, ids, s.insts[id := j], s.events, e);
  }

  lemma MoveKeepsLinked(w: Setup, s: System, ids: set<ID>, id: ID, m: Move)
    requires Linked(s.reg, ids, s.insts, s.events)
    requires id in s.insts ==> Safe(s.insts[id])
    ensures var t := MoveInstance(w, s, id, m);
            t.reg == s.reg && t.tab == s.tab && Linked(t.reg, ids, t.insts, t.events)
  {
    hide Linked, Step, Safe;
    if id in s.insts && Possible(w, s, s.insts[id], m) {
      if m == Sent || m == StoppedSent {
        SendKeepsLinked(w, s, ids, id, m);
      } else {
        MoveWithoutEvent(w.conf, s.reg, ids, s.insts, s.events, id, m);
      }
    }
  }

  // ----- commands are delivered -----

  /** A command that is not a Confirm, or one that answers a report already accepted, changes nothing here. */
  lemma DeliverKeepsLinked(s: System, ids: set<ID>, id: ID, cmd: Command, accept: bool)
    requires Linked(s.reg, ids, s.insts, s.events)
    requires cmd.Confirm? ==> cmd.answers <= R.Count(s.reg.accepted, id)
    ensures var t := Deliver(s, id, cmd, accept);
            Linked(t.reg, ids, t.insts, t.events)
  {
    if id in s.insts {
      assert InstLinked(s.reg, ids, id, s.insts[id], s.events);
      var i := s.insts[id];
      var j := StepOutside(i, Accept(cmd));
      assert Answered(j, R.Count(s.reg.accepted, id));
      assert j == i.(queue := j.queue);
    }
    hide Answered;
  }

  // ----- the coordinator changes its registry -----

  /** What a change of the registry must respect, for the instances it is not about. */
  ghost predicate OnlyAbout(r: R.Registry, t: R.Registry, id: ID) {
    forall x :: x != id ==>
      && R.Count(t.heard, x) == R.Count(r.heard, x)
      && R.Count(t.accepted, x) == R.Count(r.accepted, x)
      && (x in r.keysByInst <==> x in t.keysByInst)
      && (x in r.keysByInst ==> x in t.keysByInst && t.keysByInst[x] == r.keysByInst[x])
      && (x in r.exempt <==> x in t.exempt)
      && (x in r.rekeyed <==> x in t.rekeyed)
      && (x in r.seen ==> x in t.seen && t.seen[x] == r.seen[x])
  }

  lemma AnsweredGrows(i: Inst, low: nat, high: nat)
    requires Answered(i, low) && low <= high
    ensures Answered(i, high)
  {
  }

  /** What the registry may look like once the coordinator has heard the head event: it is about the
      sender only, and keeps or justifiably lacks the sender's entry. */
  ghost predicate HeardHead(r: R.Registry, t: R.Registry, ids: set<ID>, left: set<ID>, insts: map<ID, Inst>, e: Tagged) {
    && e.id in insts
    && OnlyAbout(r, t, e.id)
    && t.heard.Keys <= insts.Keys && t.accepted.Keys <= insts.Keys
    && R.Count(t.heard, e.id) == (if e.ev.Ready? then e.report else R.Count(r.heard, e.id))
    && R.Count(r.accepted, e.id) <= R.Count(t.accepted, e.id) <= R.Count(t.heard, e.id)
    && left == (if e.ev.Stopped? then ids - {e.id} else ids)
    && (e.id in left && Settled(t, e.id, insts[e.id]) ==> Kept(t, e.id, insts[e.id].reporting.last))
  }

  lemma RestFits(r: R.Registry, t: R.Registry, ids: set<ID>, left: set<ID>, insts: map<ID, Inst>, events: seq<Tagged>)
    requires events != [] && EventsOk(r, ids, insts, events) && HeardHead(r, t, ids, left, insts, events[0])
    ensures EventsOk(t, left, insts, events[1..])
  {
    hide Settled;
    var e := events[0];
    var rest := events[1..];
    forall k | 0 <= k < |rest|
      ensures rest[k].id in left && rest[k].id in insts && EventFits(t, insts[rest[k].id], rest[k])
    {
      assert rest[k] == events[k + 1];
      assert InSequence(e, events[k + 1]);
    }
    forall j, k | 0 <= j < k < |rest|
      ensures InSequence(rest[j], rest[k])
    {
      assert InSequence(events[j + 1], events[k + 1]);
    }
  }

  /** The coordinator takes the head event; the sender of a Stopped leaves the table. */
  lemma HeadHeard(r: R.Registry, t: R.Registry, ids: set<ID>, left: set<ID>, insts: map<ID, Inst>, events: seq<Tagged>)
    requires events != [] && Linked(r, ids, insts, events) && HeardHead(r, t, ids, left, insts, events[0])
    ensures Linked(t, left, insts, events[1..])
  {
    var e := events[0];
    RestFits(r, t, ids, left, insts, events);
    assert EventFits(r, insts[e.id], e);
    hide Answered, EventsOk;
    forall id | id in insts
      ensures InstLinked(t, left, id, insts[id], events[1..])
    {
      assert InstLinked(r, ids, id, insts[id], events);
      if id == e.id {
        AnsweredGrows(insts[id], R.Count(r.accepted, id), R.Count(t.accepted, id));
      }
    }
  }

  lemma ReleaseKeyTouches(r: R.Registry, id: ID)
    ensures var t := R.ReleaseKey(r, id);
            && t.heard == r.heard && t.accepted == r.accepted && t.exempt == r.exempt
            && t.rekeyed == r.rekeyed && t.seen == r.seen
            && t.keysByInst == r.keysByInst - {id}
  {
  }

  lemma SettleEffect(r: R.Registry, id: ID, eg: Egress, report: nat)
    ensures var t := R.Settle(r, id, eg, report);
            && t.heard == r.heard && t.accepted == r.accepted[id := report] && OnlyAbout(r, t, id)
            && id !in t.rekeyed && id in t.seen && t.seen[id] == eg
  {
    ReleaseKeyTouches(r, id);
    hide R.ReleaseKey;
  }

  lemma AcceptEffect(r: R.Registry, id: ID, key: string, eg: Egress, report: nat)
    ensures var t := R.Accept(r, id, key, eg, report);
            && t.heard == r.heard && t.accepted == r.accepted[id := report] && OnlyAbout(r, t, id)
            && id in t.keysByInst && Kept(t, id, eg)
  {
    SettleEffect(r, id, eg, report);
    hide R.Settle;
  }

  lemma ExemptEffect(r: R.Registry, id: ID, eg: Egress, report: nat)
    ensures var t := R.Exempt(r, id, eg, report);
            && t.heard == r.heard && t.accepted == r.accepted[id := report] && OnlyAbout(r, t, id)
            && id in t.keysByInst && Kept(t, id, eg)
  {
    SettleEffect(r, id, eg, report);
    hide R.Settle;
  }

  lemma HandleReadyEffect(r: R.Registry, keyer: Keyer, id: ID, eg: Egress, report: nat)
    ensures var (t, cmd) := R.HandleReady(r, keyer, id, eg, report);
            && OnlyAbout(r, t, id)
            && t.heard == r.heard[id := report]
            && t.accepted == (if cmd.Confirm? then r.accepted[id := report] else r.accepted)
            && (cmd.Confirm? ==> cmd.answers == report && Kept(t, id, eg))
  {
    var r0 := R.Heard(r, id, report);
    HearingEffect(r, id, report);
    AcceptEffect(r0, id, keyer(eg), eg, report);
    ExemptEffect(r0, id, eg, report);
    AskingEffect(r0, id);
    hide R.Accept, R.Exempt, R.HandleEmpty, R.Heard, R.Logged, OnlyAbout;
    var t := R.HandleReady(r, keyer, id, eg, report).0;
    OnlyAboutChains(r, r0, t, id);
  }

  lemma HearingEffect(r: R.Registry, id: ID, report: nat)
    ensures var t := R.Heard(r, id, report);
            OnlyAbout(r, t, id) && t.heard == r.heard[id := report] && t.accepted == r.accepted
  {
  }

  /** Answers other than Confirm touch neither entries nor acceptances. */
  lemma AskingEffect(r: R.Registry, id: ID)
    ensures var (t, cmd) := R.HandleEmpty(r, id);
            OnlyAbout(r, t, id) && t.heard == r.heard && t.accepted == r.accepted && !cmd.Confirm?
    ensures var t := R.Logged(r, id, R.ReplayedAsDuplicate);
            OnlyAbout(r, t, id) && t.heard == r.heard && t.accepted == r.accepted
  {
  }

  lemma OnlyAboutChains(r: R.Registry, u: R.Registry, t: R.Registry, id: ID)
    requires OnlyAbout(r, u, id) && OnlyAbout(u, t, id)
    ensures OnlyAbout(r, t, id)
  {
  }

  /** Hearing changes the registry by the kind of event, and takes the event. */
  lemma HearingIsJudging(w: Setup, s: System, accept: bool)
    requires s.events != []
    ensures var e, t := s.events[0], Hear(w, s, accept);
            && t.events == s.events[1..] && t.checking == s.checking
            && (e.ev.Ready? ==> t.reg == R.HandleReady(s.reg, w.keyer, e.id, e.ev.egress, e.report).0)
            && (e.ev.Stopped? ==> t.reg == R.Forget(s.reg, e.id))
            && (Releases(e.ev) ==> t.reg == R.HandleRelease(s.reg, e.id))
  {
    hide R.HandleReady, R.HandleRelease, R.Forget, T.Remove, StepOutside;
  }

  lemma HearReadyKeepsLinked(w: Setup, s: System, ids: set<ID>, accept: bool)
    requires s.events != [] && s.events[0].ev.Ready? && Linked(s.reg, ids, s.insts, s.events)
    ensures var t := Hear(w, s, accept);
            t.tab == s.tab && Linked(t.reg, ids, t.insts, t.events)
  {
    var e := s.events[0];
    var (reg, cmd) := R.HandleReady(s.reg, w.keyer, e.id, e.ev.egress, e.report);
    HandleReadyEffect(s.reg, w.keyer, e.id, e.ev.egress, e.report);
    assert EventFits(s.reg, s.insts[e.id], e);
    assert InstLinked(s.reg, ids, e.id, s.insts[e.id], s.events);
    hide R.HandleReady, Answered;
    HeadHeard(s.reg, reg, ids, ids, s.insts, s.events);
    DeliverKeepsLinked(s.(events := s.events[1..]).(reg := reg), ids, e.id, cmd, accept);
  }

  lemma HearReleaseKeepsLinked(w: Setup, s: System, ids: set<ID>, accept: bool)
    requires s.events != [] && Releases(s.events[0].ev) && Linked(s.reg, ids, s.insts, s.events)
    ensures var t := Hear(w, s, accept);
            && t.tab == s.tab && t.insts == s.insts && t.events == s.events[1..]
            && t.reg == R.HandleRelease(s.reg, s.events[0].id)
            && Linked(t.reg, ids, t.insts, t.events)
  {
    hide Answered, R.ReleaseKey, ReportIsNew;
    var e := s.events[0];
    ReleaseKeyTouches(s.reg, e.id);
    assert EventFits(s.reg, s.insts[e.id], e);
    assert InstLinked(s.reg, ids, e.id, s.insts[e.id], s.events);
    HeadHeard(s.reg, R.HandleRelease(s.reg, e.id), ids, ids, s.insts, s.events);
  }

  lemma HearStoppedKeepsLinked(w: Setup, s: System, ids: set<ID>, accept: bool)
    requires s.events != [] && s.events[0].ev.Stopped? && Linked(s.reg, ids, s.insts, s.events)
    ensures var t := Hear(w, s, accept);
            && t.insts == s.insts && t.events == s.events[1..]
            && t.reg == R.Forget(s.reg, s.events[0].id)
            && t.tab == T.Remove(s.tab, s.events[0].id)
            && Linked(t.reg, ids - {s.events[0].id}, t.insts, t.events)
  {
    hide Answered, R.ReleaseKey, T.Remove, ReportIsNew;
    var e := s.events[0];
    assert InstLinked(s.reg, ids, e.id, s.insts[e.id], s.events);
    ReleaseKeyTouches(s.reg, e.id);
    HeadHeard(s.reg, R.Forget(s.reg, e.id), ids, ids - {e.id}, s.insts, s.events);
  }

  /** No instance loses its entry without being exempted, nor has it moved without being marked. */
  ghost predicate EntriesKept(r: R.Registry, t: R.Registry) {
    && (forall x :: x in r.keysByInst || x in r.exempt ==> x in t.keysByInst || x in t.exempt)
    && (forall x :: x in t.keysByInst && x !in t.rekeyed ==>
          && x in r.keysByInst && x !in r.rekeyed
          && (x in r.seen ==> x in t.seen && t.seen[x] == r.seen[x]))
  }

  /** A change of the registry that hears nothing and loses no entry without exempting. */
  lemma RegistryTouched(r: R.Registry, t: R.Registry, ids: set<ID>, insts: map<ID, Inst>, events: seq<Tagged>)
    requires Linked(r, ids, insts, events)
    requires t.heard == r.heard && t.accepted == r.accepted
    requires EntriesKept(r, t)
    ensures Linked(t, ids, insts, events)
  {
    hide Answered;
    forall id | id in insts
      ensures InstLinked(t, ids, id, insts[id], events)
    {
      assert InstLinked(r, ids, id, insts[id], events);
    }
    forall k | 0 <= k < |events|
      ensures EventFits(t, insts[events[k].id], events[k])
    {
      assert EventFits(r, insts[events[k].id], events[k]);
    }
  }

  lemma CheckedEffect(r: R.Registry, id: ID, key: string, eg: Egress)
    ensures var t := R.Rekey(r, id, key, eg);
            && t.heard == r.heard && t.accepted == r.accepted
            && EntriesKept(r, t)
            && (forall x :: x in t.keysByInst ==> x == id || x in r.keysByInst)
    ensures var t := R.ExemptByCheck(r, id);
            && t.heard == r.heard && t.accepted == r.accepted
            && EntriesKept(r, t)
            && (forall x :: x in t.keysByInst ==> x in r.keysByInst)
  {
    ReleaseKeyTouches(r, id);
    hide R.ReleaseKey;
  }

  lemma ApplyEgressEffect(r: R.Registry, keyer: Keyer, id: ID, eg: Egress, failed: bool, newer: (ID, ID) -> bool)
    ensures var (t, send) := R.ApplyEgress(r, keyer, id, eg, failed, newer);
            && t.heard == r.heard && t.accepted == r.accepted
            && EntriesKept(r, t)
            && (forall x :: x in t.keysByInst ==> x == id || x in r.keysByInst)
            && (send.Some? ==> send.value.1 == Drain)
  {
    CheckedEffect(r, id, if failed then "" else keyer(eg), eg);
    hide R.Rekey, R.ExemptByCheck;
  }

  /** A check that stores an egress in an instance touches nothing else of it. */
  lemma ShowKeepsLinked(w: Setup, s: System, ids: set<ID>, id: ID, eg: Egress, failed: bool)
    requires Linked(s.reg, ids, s.insts, s.events)
    ensures var t := Show(s, id, eg, failed);
            t == s.(insts := t.insts) && Linked(t.reg, ids, t.insts, t.events)
  {
    hide Linked, Step;
    if id in s.insts && !failed && eg != NO_EGRESS {
      MoveWithoutEvent(w.conf, s.reg, ids, s.insts, s.events, id, EgressRead(eg));
      OutsideIsAStep(w.conf, s.insts[id], EgressRead(eg));
    }
  }

  lemma OutsideIsAStep(conf: Config, i: Inst, m: Move)
    requires FromOutside(m) && Enabled(conf, i, m)
    ensures StepOutside(i, m) == Step(conf, i, m)
  {
  }

  lemma NewInstLinks(seqNo: nat)
    ensures var i := NewInst(seqNo);
            i.reporting.reports == 0 && Answered(i, 0) && i.pc.Provisioning?
  {
  }

  lemma CreateKeepsLinked(s: System, ids: set<ID>, id: ID, seqNo: nat)
    requires Linked(s.reg, ids, s.insts, s.events) && id !in s.insts
    ensures Linked(s.reg, ids + {id}, s.insts[id := NewInst(seqNo)], s.events)
  {
    NewInstLinks(seqNo);
    hide Answered, NewInst;
    var insts := s.insts[id := NewInst(seqNo)];
    forall x | x in insts
      ensures InstLinked(s.reg, ids + {id}, x, insts[x], s.events)
    {
      if x != id {
        assert InstLinked(s.reg, ids, x, s.insts[x], s.events);
      }
    }
  }
}
