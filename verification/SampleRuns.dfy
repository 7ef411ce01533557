/** Pieces of runs of the system, to be put together where some run is to be shown to exist. In all of them
    the coordinator sends only what the code's own questions about the instance allow. */
module SampleRuns {
  import opened Decimal
  import opened Types
  import opened EgressKeys
  import opened Instances
  import opened Protocol
  import opened SystemTheorems
  import R = Registry
  import P = Ports

  /** Some such run leads there. */
  ghost predicate Leads(w: Setup, s: System, t: System) {
    exists labels :: t == Reach(w, s, labels) && AllGuarded(w, s, labels)
  }

  lemma NoLabels(w: Setup, s: System)
    ensures Leads(w, s, s)
  {
    assert AllGuarded(w, s, []);
    assert s == Reach(w, s, []);
  }

  lemma LeadsBy(w: Setup, s: System, l: Label)
    requires Guarded(s, l)
    ensures Leads(w, s, Apply(w, s, l))
  {
    hide Apply, Guarded;
    assert [l][1..] == [];
    assert AllGuarded(w, s, [l]);
    assert Apply(w, s, l) == Reach(w, s, [l]);
  }

  lemma LeadsOn(w: Setup, s: System, u: System, t: System)
    requires Leads(w, s, u) && Leads(w, u, t)
    ensures Leads(w, s, t)
  {
    hide Reach, AllGuarded;
    var a :| u == Reach(w, s, a) && AllGuarded(w, s, a);
    var b :| t == Reach(w, u, b) && AllGuarded(w, u, b);
    ReachInTwo(w, s, a, b);
    GuardedInTwo(w, s, a, b);
    assert t == Reach(w, s, a + b);
  }

  /** The system after an instance has made a possible move. */
  function Moved(w: Setup, s: System, id: ID, m: Move, j: Inst): System
    requires id in s.insts
  {
    s.(insts := s.insts[id := j],
       events := EventsAfter(s.events, id, s.insts[id], m),
       tokens := TokensAfter(s.tokens, m))
  }

  lemma LeadsByMove(w: Setup, o: System, s: System, id: ID, m: Move, j: Inst)
    requires Leads(w, o, s) && id in s.insts && Possible(w, s, s.insts[id], m) && j == Step(w.conf, s.insts[id], m)
    ensures Leads(w, o, Moved(w, s, id, m, j))
  {
    hide Leads, Possible, Step;
    LeadsBy(w, s, InstanceMoves(id, m));
    LeadsOn(w, o, s, Moved(w, s, id, m, j));
  }

  /** A move that takes and gives no token and sends no event. */
  predicate Quiet(m: Move) {
    && m != TakeToken && m != BuildFails && m != StartFails && m != StartOk
    && m != Sent && m != StoppedSent && m != StoppedDropped && !m.Accept? && !m.EgressRead?
  }

  lemma LeadsByQuietMove(w: Setup, o: System, s: System, id: ID, m: Move, j: Inst)
    requires Leads(w, o, s) && id in s.insts && Enabled(w.conf, s.insts[id], m) && Quiet(m)
    requires j == Step(w.conf, s.insts[id], m)
    ensures Leads(w, o, s.(insts := s.insts[id := j]))
  {
    hide Leads, Enabled, Step;
    LeadsByMove(w, o, s, id, m, j);
    assert Moved(w, s, id, m, j) == s.(insts := s.insts[id := j]);
  }

  // ----- where an instance stands -----

  /** So many loss signals wait, all of them of clients closed since. */
  predicate Stale(k: Clients, stale: nat) {
    |k.runExit| == stale && forall i :: 0 <= i < |k.runExit| ==> k.runExit[i] < k.gen
  }

  predicate Undisturbed(i: Inst, stale: nat, reports: nat, confirmed: nat) {
    && !i.cancelled && !i.stopped
    && i.queue.pending == [] && i.queue.cmds == []
    && Stale(i.clients, stale)
    && i.reporting.reports == reports && i.reporting.confirmed == confirmed
  }

  predicate Running(k: Clients) {
    k.current.Some? && k.gen in k.watchers
  }

  /** Back in its main loop with nothing queued, and its client running; if Probing, it awaits an answer. */
  predicate Idle(i: Inst, status: Status, stale: nat, reports: nat, confirmed: nat, last: Egress) {
    && i.pc.Main? && i.status == status
    && Undisturbed(i, stale, reports, confirmed) && Running(i.clients)
    && i.reporting.last == last
    && (i.reporting.awaitConfirm <==> status == Probing)
  }

  /** About to start a client. */
  predicate AboutToStart(i: Inst, cont: Cont, stale: nat, reports: nat, confirmed: nat) {
    i.pc == Provisioning(cont) && i.status == Probing && Undisturbed(i, stale, reports, confirmed)
  }

  /** Its client runs; it is probing its egress, or about to say first that it was replayed. */
  predicate AboutToReport(i: Inst, cont: Cont, stale: nat, reports: nat, confirmed: nat) {
    && i.pc == (if cont.ThenProbe? then ProbingEgress else Emitting(Replayed, ToProbe))
    && i.status == Probing && Undisturbed(i, stale, reports, confirmed) && Running(i.clients)
  }

  lemma NewIsAboutToStart(n: nat)
    ensures AboutToStart(NewInst(n), ThenProbe, 0, 0, 0)
  {
  }

  // ----- starting and reporting -----

  lemma TakesAToken(w: Setup, s: System, id: ID, cont: Cont) returns (t: System)
    requires id in s.insts && s.insts[id].pc == Provisioning(cont)
    requires s.tokens == 0 < w.replayConcurrency
    ensures Leads(w, s, t)
    ensures t == s.(insts := s.insts[id := s.insts[id].(pc := Building(cont))], tokens := 1)
  {
    hide Leads;
    var i := s.insts[id];
    var i1 := i.(pc := AwaitingToken(cont));
    var i2 := i.(pc := Building(cont));
    NoLabels(w, s);
    LeadsByMove(w, s, s, id, CredentialReady, i1);
    var s1 := Moved(w, s, id, CredentialReady, i1);
    LeadsByMove(w, s, s1, id, TakeToken, i2);
    t := Moved(w, s1, id, TakeToken, i2);
  }

  lemma BuildSteps(conf: Config, i: Inst, cont: Cont, stale: nat, reports: nat, confirmed: nat)
    requires AboutToStart(i.(pc := Provisioning(cont)), cont, stale, reports, confirmed) && i.pc == Building(cont)
    ensures var i1 := Step(conf, i, BuildOk);
            && i1.pc.Starting?
            && AboutToReport(Step(conf, i1, StartOk), cont, stale, reports, confirmed)
  {
  }

  lemma StartsAClient(w: Setup, s: System, id: ID, cont: Cont, stale: nat, reports: nat, confirmed: nat) returns (t: System)
    requires id in s.insts && AboutToStart(s.insts[id], cont, stale, reports, confirmed)
    requires s.tokens == 0 < w.replayConcurrency
    ensures Leads(w, s, t) && id in t.insts && t == s.(insts := s.insts[id := t.insts[id]])
    ensures AboutToReport(t.insts[id], cont, stale, reports, confirmed)
  {
    var u := TakesAToken(w, s, id, cont);
    var i := u.insts[id];
    assert i.(pc := Provisioning(cont)) == s.insts[id];
    BuildSteps(w.conf, i, cont, stale, reports, confirmed);
    hide Leads, Step, AboutToStart, AboutToReport;
    var i1 := Step(w.conf, i, BuildOk);
    var i2 := Step(w.conf, i1, StartOk);
    LeadsByMove(w, s, u, id, BuildOk, i1);
    var u1 := Moved(w, u, id, BuildOk, i1);
    LeadsByMove(w, s, u1, id, StartOk, i2);
    t := Moved(w, u1, id, StartOk, i2);
  }

  lemma ProbeSteps(conf: Config, i: Inst, eg: Egress, stale: nat, reports: nat, confirmed: nat)
    requires AboutToReport(i, ThenProbe, stale, reports, confirmed)
    ensures var i1 := Step(conf, i, ProbeDone(eg));
            && i1.pc == Emitting(Ready(eg), ToMain) && i1.reporting.reports == reports + 1
            && Idle(Step(conf, i1, Sent), Probing, stale, reports + 1, confirmed, eg)
  {
  }

  lemma ReportsItsEgress(w: Setup, s: System, id: ID, eg: Egress, stale: nat, reports: nat, confirmed: nat) returns (t: System)
    requires id in s.insts && AboutToReport(s.insts[id], ThenProbe, stale, reports, confirmed)
    requires |s.events| < EVENT_CAPACITY
    ensures Leads(w, s, t) && id in t.insts
    ensures t == s.(insts := s.insts[id := t.insts[id]], events := s.events + [Tagged(id, Ready(eg), reports + 1)])
    ensures Idle(t.insts[id], Probing, stale, reports + 1, confirmed, eg)
  {
    var i := s.insts[id];
    ProbeSteps(w.conf, i, eg, stale, reports, confirmed);
    hide Leads, Step, Idle;
    var i1 := Step(w.conf, i, ProbeDone(eg));
    var i2 := Step(w.conf, i1, Sent);
    NoLabels(w, s);
    LeadsByMove(w, s, s, id, ProbeDone(eg), i1);
    var s1 := Moved(w, s, id, ProbeDone(eg), i1);
    LeadsByMove(w, s, s1, id, Sent, i2);
    t := Moved(w, s1, id, Sent, i2);
    assert t.insts == s.insts[id := i2];
  }

  lemma StartsAndReports(w: Setup, s: System, id: ID, eg: Egress, stale: nat, reports: nat, confirmed: nat) returns (t: System)
    requires id in s.insts && AboutToStart(s.insts[id], ThenProbe, stale, reports, confirmed)
    requires s.tokens == 0 < w.replayConcurrency && |s.events| < EVENT_CAPACITY
    ensures Leads(w, s, t) && id in t.insts
    ensures t == s.(insts := s.insts[id := t.insts[id]], events := s.events + [Tagged(id, Ready(eg), reports + 1)])
    ensures Idle(t.insts[id], Probing, stale, reports + 1, confirmed, eg)
  {
    hide Leads, AboutToStart, AboutToReport, Idle;
    var u := StartsAClient(w, s, id, ThenProbe, stale, reports, confirmed);
    t := ReportsItsEgress(w, u, id, eg, stale, reports, confirmed);
    LeadsOn(w, s, u, t);
  }

  lemma ReplayedSteps(conf: Config, i: Inst, stale: nat, reports: nat, confirmed: nat)
    requires AboutToReport(i, ThenReplayed, stale, reports, confirmed)
    ensures AboutToReport(Step(conf, i, Sent), ThenProbe, stale, reports, confirmed)
  {
  }

  /** A replayed instance says so, and the coordinator hears it. */
  lemma SaysItWasReplayed(w: Setup, s: System, id: ID, stale: nat, reports: nat, confirmed: nat) returns (t: System)
    requires id in s.insts && AboutToReport(s.insts[id], ThenReplayed, stale, reports, confirmed)
    requires s.events == [] && s.checking == {}
    ensures Leads(w, s, t) && id in t.insts
    ensures t == s.(insts := s.insts[id := t.insts[id]], reg := R.HandleRelease(s.reg, id))
    ensures AboutToReport(t.insts[id], ThenProbe, stale, reports, confirmed)
  {
    ReplayedSteps(w.conf, s.insts[id], stale, reports, confirmed);
    hide Leads, Step, R.HandleRelease;
    var i := s.insts[id];
    var i1 := Step(w.conf, i, Sent);
    NoLabels(w, s);
    LeadsByMove(w, s, s, id, Sent, i1);
    var s1 := Moved(w, s, id, Sent, i1);
    assert s1.events == [Tagged(id, Replayed, reports)] && s1.events[1..] == [];
    LeadsBy(w, s1, PoolHears(true));
    t := Apply(w, s1, PoolHears(true));
    LeadsOn(w, s, s1, t);
  }

  // ----- hearing and answering -----

  lemma HearsReport(w: Setup, s: System, id: ID, eg: Egress, report: nat)
    requires s.events == [Tagged(id, Ready(eg), report)] && s.checking == {}
    ensures var (reg, cmd) := R.HandleReady(s.reg, w.keyer, id, eg, report);
            Apply(w, s, PoolHears(true)) == Deliver(s.(reg := reg, events := []), id, cmd, true)
  {
    hide R.HandleReady, Deliver;
    assert s.events[1..] == [];
  }

  lemma ConfirmSteps(conf: Config, i: Inst, stale: nat, reports: nat, confirmed: nat, last: Egress, n: nat)
    requires Idle(i, Probing, stale, reports, confirmed, last) && confirmed <= n
    ensures var i1 := i.(queue := Pushed(i.queue, Confirm(n)));
            && AtSelect(i1) && i1.queue.cmds != []
            && Idle(Step(conf, i1, Receive), Normal, stale, reports, n, last)
  {
  }

  /** A Confirm sent to an idle Probing instance makes it Normal. */
  lemma ConfirmedBecomesNormal(w: Setup, o: System, s: System, id: ID, l: Label, reg: R.Registry, events: seq<Tagged>,
                               stale: nat, reports: nat, confirmed: nat, last: Egress, n: nat) returns (t: System)
    requires Leads(w, o, s) && id in s.insts && Idle(s.insts[id], Probing, stale, reports, confirmed, last)
    requires confirmed <= n && Guarded(s, l)
    requires Apply(w, s, l) == Deliver(s.(reg := reg, events := events), id, Confirm(n), true)
    ensures Leads(w, o, t) && id in t.insts
    ensures t == s.(reg := reg, events := events, insts := s.insts[id := t.insts[id]])
    ensures Idle(t.insts[id], Normal, stale, reports, n, last)
  {
    var i := s.insts[id];
    ConfirmSteps(w.conf, i, stale, reports, confirmed, last, n);
    var i1 := i.(queue := Pushed(i.queue, Confirm(n)));
    var s1 := s.(reg := reg, events := events, insts := s.insts[id := i1]);
    assert Apply(w, s, l) == s1;
    hide Leads, Apply, Step, Idle;
    LeadsBy(w, s, l);
    LeadsOn(w, o, s, s1);
    var i2 := Step(w.conf, i1, Receive);
    LeadsByQuietMove(w, o, s1, id, Receive, i2);
    t := s1.(insts := s1.insts[id := i2]);
  }

  /** The only report in the channel is accepted, and its Confirm handled. */
  lemma AcceptedBecomesNormal(w: Setup, s: System, id: ID, eg: Egress, stale: nat, reports: nat, confirmed: nat) returns (t: System)
    requires id in s.insts && Idle(s.insts[id], Probing, stale, reports, confirmed, eg) && confirmed <= reports
    requires s.events == [Tagged(id, Ready(eg), reports)] && s.checking == {}
    requires w.keyer(eg) != "" && !R.OwnedByAnother(s.reg, w.keyer(eg), id)
    ensures Leads(w, s, t) && id in t.insts
    ensures t == s.(reg := R.Accept(R.Heard(s.reg, id, reports), id, w.keyer(eg), eg, reports), events := [],
                    insts := s.insts[id := t.insts[id]])
    ensures Idle(t.insts[id], Normal, stale, reports, reports, eg)
  {
    hide Leads, Deliver, R.Accept, Idle;
    NoLabels(w, s);
    var reg := R.Accept(R.Heard(s.reg, id, reports), id, w.keyer(eg), eg, reports);
    assert R.HandleReady(s.reg, w.keyer, id, eg, reports) == (reg, Confirm(reports));
    HearsReport(w, s, id, eg, reports);
    t := ConfirmedBecomesNormal(w, s, s, id, PoolHears(true), reg, [], stale, reports, confirmed, eg, reports);
  }

  /** The report of another's key is answered with a Replay. */
  lemma RejectedIsToldToReplay(w: Setup, o: System, s: System, id: ID, eg: Egress, report: nat) returns (t: System)
    requires Leads(w, o, s) && id in s.insts && s.insts[id].queue.cmds == []
    requires s.events == [Tagged(id, Ready(eg), report)] && s.checking == {}
    requires w.keyer(eg) != "" && R.OwnedByAnother(s.reg, w.keyer(eg), id)
    ensures Leads(w, o, t)
    ensures t == s.(reg := R.Logged(R.Heard(s.reg, id, report), id, R.ReplayedAsDuplicate), events := [],
                    insts := s.insts[id := s.insts[id].(queue := Pushed(s.insts[id].queue, Replay))])
  {
    hide Leads, R.Logged;
    var reg := R.Logged(R.Heard(s.reg, id, report), id, R.ReplayedAsDuplicate);
    assert R.HandleReady(s.reg, w.keyer, id, eg, report) == (reg, Replay);
    HearsReport(w, s, id, eg, report);
    LeadsBy(w, s, PoolHears(true));
    t := Apply(w, s, PoolHears(true));
    LeadsOn(w, o, s, t);
  }

  /** A command of the user reaches the queue of an instance with room. */
  lemma LeadsByCommand(w: Setup, o: System, s: System, id: ID, cmd: Command)
    requires Leads(w, o, s) && id in s.insts && |s.insts[id].queue.cmds| < CMD_CAPACITY && UserCommand(cmd)
    ensures Leads(w, o, s.(insts := s.insts[id := s.insts[id].(queue := Pushed(s.insts[id].queue, cmd))]))
  {
    hide Leads;
    LeadsBy(w, s, UserSends(id, cmd, true));
    LeadsOn(w, o, s, s.(insts := s.insts[id := s.insts[id].(queue := Pushed(s.insts[id].queue, cmd))]));
  }

  /** It is sent and taken at once. */
  lemma LeadsByTaking(w: Setup, o: System, s: System, id: ID, cmd: Command, j: Inst)
    requires Leads(w, o, s) && id in s.insts && s.insts[id].queue.cmds == [] && UserCommand(cmd)
    requires AtSelect(s.insts[id]) || s.insts[id].pc.DrainWait?
    requires j == Step(w.conf, s.insts[id].(queue := Pushed(s.insts[id].queue, cmd)), Receive)
    ensures Leads(w, o, s.(insts := s.insts[id := j]))
  {
    hide Leads, Step;
    var i := s.insts[id].(queue := Pushed(s.insts[id].queue, cmd));
    var s1 := s.(insts := s.insts[id := i]);
    LeadsByCommand(w, o, s, id, cmd);
    LeadsByQuietMove(w, o, s1, id, Receive, j);
    assert s1.(insts := s1.insts[id := j]) == s.(insts := s.insts[id := j]);
  }

  // ----- losing and replaying -----

  lemma LossSteps(conf: Config, i: Inst, reports: nat, confirmed: nat, last: Egress)
    requires Idle(i, Normal, 0, reports, confirmed, last)
    ensures var i1 := Step(conf, i, RunExits(i.clients.gen));
            var i2 := Step(conf, i1, TakeSignal);
            && Enabled(conf, i, RunExits(i.clients.gen)) && Enabled(conf, i1, TakeSignal) && Enabled(conf, i2, Sent)
            && i2.pc == Emitting(Lost, ToReconnect) && i2.reporting.reports == reports
            && AboutToStart(Step(conf, i2, Sent), ThenProbe, 0, reports, confirmed)
  {
    hide Rotated, NextDelay;
  }

  /** The client of an idle Normal instance is lost: it says so and starts over. */
  lemma LosesItsClient(w: Setup, s: System, id: ID, reports: nat, confirmed: nat, last: Egress) returns (t: System)
    requires id in s.insts && Idle(s.insts[id], Normal, 0, reports, confirmed, last) && s.events == []
    ensures Leads(w, s, t) && id in t.insts
    ensures t == s.(insts := s.insts[id := t.insts[id]], events := [Tagged(id, Lost, reports)])
    ensures AboutToStart(t.insts[id], ThenProbe, 0, reports, confirmed)
  {
    hide Leads, Step, Enabled, AboutToStart, Idle;
    var i := s.insts[id];
    LossSteps(w.conf, i, reports, confirmed, last);
    var exit := RunExits(i.clients.gen);
    var i1 := Step(w.conf, i, exit);
    var i2 := Step(w.conf, i1, TakeSignal);
    var i3 := Step(w.conf, i2, Sent);
    NoLabels(w, s);
    LeadsByMove(w, s, s, id, exit, i1);
    var s1 := Moved(w, s, id, exit, i1);
    LeadsByMove(w, s, s1, id, TakeSignal, i2);
    var s2 := Moved(w, s1, id, TakeSignal, i2);
    LeadsByMove(w, s, s2, id, Sent, i3);
    t := Moved(w, s2, id, Sent, i3);
    assert t.insts == s.insts[id := i3];
  }

  // ----- the beginning -----

  /** Two instances are created. */
  lemma TwoAreCreated(w: Setup) returns (t: System)
    requires ValidSetup(w) && w.basePort < P.MAX_PORT
    ensures Leads(w, Start(w), t)
    ensures t == Start(w).(tab := t.tab, insts := map["0" := NewInst(0), "1" := NewInst(1)])
    ensures "0" in t.tab.created && "1" in t.tab.created
  {
    hide Leads, NewInst;
    LeadsBy(w, Start(w), PoolCreates(0));
    var s := Apply(w, Start(w), PoolCreates(0));
    assert Itoa(0) == "0" && Itoa(1) == "1";
    LeadsBy(w, s, PoolCreates(0));
    t := Apply(w, s, PoolCreates(0));
    LeadsOn(w, Start(w), s, t);
  }

  /** The registry once the first report of an instance has been accepted. */
  lemma FirstAccepted(w: Setup, r: R.Registry, id: ID, eg: Egress)
    requires r == R.EMPTY
    ensures var r1 := R.Accept(R.Heard(r, id, 1), id, w.keyer(eg), eg, 1);
            && r1.usedKeys == map[w.keyer(eg) := id] && r1.keysByInst == map[id := w.keyer(eg)]
            && r1.exempt == {} && r1.accepted == map[id := 1]
  {
  }
}
