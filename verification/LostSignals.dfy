/** The signal that a client is lost goes into a small buffer and is dropped when the buffer is full. This
    module says exactly when the signal of the current client is dropped, that it can be, and what then is. */
module LostSignals {
  import opened Types
  import opened EgressKeys
  import opened Instances
  import opened InstanceSafety
  import opened Protocol
  import opened SystemTheorems
  import opened SampleRuns
  import Solo = InstanceTheorems
  import B = Backoff
  import R = Registry
  import P = Ports

  /** The signal of the current client is dropped exactly when the buffer is full, and then every signal in it
      is stale; otherwise it is queued, and will be the last. */
  lemma CurrentLossIsDroppedOnlyBehindStaleOnes(conf: Config, endpointIdx: nat, moves: seq<Move>)
    requires Solo.After(conf, endpointIdx, moves).clients.gen in Solo.After(conf, endpointIdx, moves).clients.watchers
    ensures var k := Solo.After(conf, endpointIdx, moves).clients;
            var after := Step(conf, Solo.After(conf, endpointIdx, moves), RunExits(k.gen)).clients;
            && k.current.Some? && after.current == k.current && after.gen == k.gen && k.gen !in after.watchers
            && (k.gen !in after.runExit <==> |k.runExit| >= RUN_EXIT_CAPACITY)
            && (forall i :: 0 <= i < |k.runExit| ==> k.runExit[i] < k.gen)
            && (k.gen in after.runExit ==> after.runExit == k.runExit + [k.gen])
  {
    Solo.AfterIsSafe(conf, endpointIdx, moves);
    SignalOfCurrent(conf, Solo.After(conf, endpointIdx, moves));
  }

  lemma SignalOfCurrent(conf: Config, s: Inst)
    requires Safe(s) && s.clients.gen in s.clients.watchers
    ensures var k := s.clients;
            var after := Step(conf, s, RunExits(k.gen)).clients;
            && k.current.Some? && after.current == k.current && after.gen == k.gen && k.gen !in after.watchers
            && (k.gen !in after.runExit <==> |k.runExit| >= RUN_EXIT_CAPACITY)
            && (forall i :: 0 <= i < |k.runExit| ==> k.runExit[i] < k.gen)
            && (k.gen in after.runExit ==> after.runExit == k.runExit + [k.gen])
  {
    var k := s.clients;
    assert CanSignal(k, k.gen);
    assert forall i :: 0 <= i < |k.runExit| ==> CanSignal(k, k.runExit[i]) && k.runExit[i] != k.gen;
    var after := Step(conf, s, RunExits(k.gen)).clients;
    assert after == Exited(k, k.gen);
    if |k.runExit| < RUN_EXIT_CAPACITY {
      assert after.runExit[|k.runExit|] == k.gen;
    }
  }

  /** Normal and idle, its client gone, and no signal that will ever say so. */
  ghost predicate Deaf(s: Inst) {
    && s.pc.Main? && s.status == Normal && !s.cancelled
    && s.queue.pending == [] && s.queue.cmds == []
    && s.clients.current.Some?
    && s.clients.gen !in s.clients.watchers && s.clients.gen !in s.clients.runExit
  }

  lemma DeafStaysAStep(conf: Config, s: Inst, m: Move)
    requires Deaf(s) && !m.Accept? && !m.Cancel?
    ensures var t := Step(conf, s, m);
            Deaf(t) && t.clients.current == s.clients.current && t.reporting.emitted == s.reporting.emitted
  {
    if m.RunExits? && m.gen in s.clients.watchers {
      assert Step(conf, s, m).clients == Exited(s.clients, m.gen);
    }
  }

  /** It stays so until somebody sends it a command: no loss is reported, and it goes on taking dials. */
  lemma {:induction false} DeafUntilCommanded(conf: Config, s: Inst, moves: seq<Move>)
    requires Deaf(s) && forall i :: 0 <= i < |moves| ==> !moves[i].Accept? && !moves[i].Cancel?
    ensures var t := Run(conf, s, moves);
            Deaf(t) && t.clients.current == s.clients.current && t.reporting.emitted == s.reporting.emitted
    decreases |moves|
  {
    hide Deaf, Step;
    if moves != [] {
      DeafStaysAStep(conf, s, moves[0]);
      DeafUntilCommanded(conf, Step(conf, s, moves[0]), moves[1..]);
    }
  }

  // ----- a run that gets there -----

  lemma ReplaySteps(conf: Config, i: Inst, stale: nat, reports: nat, confirmed: nat, last: Egress)
    requires Idle(i, Probing, stale, reports, confirmed, last) && stale < RUN_EXIT_CAPACITY
    requires B.ValidTiming(conf.backoffStart, conf.backoffMax)
    ensures var i1 := Step(conf, i, RunExits(i.clients.gen));
            var i2 := i1.(queue := Pushed(i1.queue, Replay));
            var i3 := Step(conf, i2, Receive);
            && Enabled(conf, i, RunExits(i.clients.gen)) && i1.queue.cmds == []
            && Enabled(conf, i2, Receive) && Enabled(conf, i3, TimerFires)
            && AboutToStart(Step(conf, i3, TimerFires), ThenReplayed, stale + 1, reports, confirmed)
  {
    hide B.Delay, HandleReplay, Undisturbed;
    DelayIsThere(conf, i);
    var i1 := Step(conf, i, RunExits(i.clients.gen));
    assert i1 == i.(clients := Exited(i.clients, i.clients.gen));
    OneMoreStale(i, stale, reports, confirmed);
    var i2 := i1.(queue := Pushed(i1.queue, Replay));
    var taken := i2.(queue := HandledReceived(i2.queue));
    ReplayWaits(conf, taken);
    assert Step(conf, i2, Receive) == HandleReplay(conf, taken);
    UndisturbedAgain(i1, HandleReplay(conf, taken).(pc := Provisioning(ThenReplayed)), stale + 1, reports, confirmed);
  }

  lemma DelayIsThere(conf: Config, i: Inst)
    requires B.ValidTiming(conf.backoffStart, conf.backoffMax)
    ensures NextDelay(conf, i.effort) > 0
  {
    B.DelayIsPositive(conf.backoffStart, conf.backoffMax, i.effort.backoffN);
  }

  /** A signal of the current client becomes stale when the next generation begins. */
  lemma OneMoreStale(i: Inst, stale: nat, reports: nat, confirmed: nat)
    requires Undisturbed(i, stale, reports, confirmed) && stale < RUN_EXIT_CAPACITY
    ensures var k := Exited(i.clients, i.clients.gen);
            Stale(k.(gen := k.gen + 1), stale + 1) && AtQueue(i) && Kept(i, reports, confirmed)
  {
  }

  predicate AtQueue(i: Inst) {
    i.queue.pending == [] && i.queue.cmds == []
  }

  predicate Kept(i: Inst, reports: nat, confirmed: nat) {
    !i.cancelled && !i.stopped && i.reporting.reports == reports && i.reporting.confirmed == confirmed
  }

  lemma UndisturbedAgain(i: Inst, j: Inst, stale: nat, reports: nat, confirmed: nat)
    requires Stale(i.clients.(gen := i.clients.gen + 1), stale) && Kept(i, reports, confirmed)
    requires j.clients.runExit == i.clients.runExit && j.clients.gen == i.clients.gen + 1
    requires j.cancelled == i.cancelled && j.stopped == i.stopped && AtQueue(j)
    requires j.reporting.reports == i.reporting.reports && j.reporting.confirmed == i.reporting.confirmed
    ensures Undisturbed(j, stale, reports, confirmed)
  {
  }

  lemma ReplayWaits(conf: Config, s: Inst)
    requires s.pc.Main? && s.status == Probing && NextDelay(conf, s.effort) > 0
    ensures var t := HandleReplay(conf, s);
            && t.pc == Waiting(NextDelay(conf, s.effort), ForRound(ThenReplayed)) && t.status == Probing
            && t.queue == s.queue && t.cancelled == s.cancelled && t.stopped == s.stopped && t.reporting == s.reporting
            && t.clients.runExit == s.clients.runExit && t.clients.gen == s.clients.gen + 1
  {
    hide B.Delay;
  }

  /** One key belongs to another instance, one to none, and "0" has no entry. */
  predicate OneTaken(r: R.Registry, taken: string, free: string) {
    && taken != "" && R.OwnedByAnother(r, taken, "0")
    && free != "" && free !in r.usedKeys
    && "0" !in r.keysByInst
  }

  lemma StaysTaken(r: R.Registry, taken: string, free: string, report: nat)
    requires OneTaken(r, taken, free)
    ensures OneTaken(R.HandleRelease(R.Logged(R.Heard(r, "0", report), "0", R.ReplayedAsDuplicate), "0"), taken, free)
  {
  }

  /** "0" waits for the answer to a report of a key, the only event in the channel. */
  predicate Reported(w: Setup, s: System, eg: Egress, stale: nat, reports: nat) {
    && "0" in s.insts && Idle(s.insts["0"], Probing, stale, reports, 0, eg)
    && s.events == [Tagged("0", Ready(eg), reports)]
    && s.checking == {} && s.tokens == 0 < w.replayConcurrency
  }

  /** Its client exits unheard, its report is answered with Replay, and it is about to start anew. */
  lemma ExitsAndIsRejected(w: Setup, s: System, eg: Egress, stale: nat, reports: nat) returns (t: System)
    requires Reported(w, s, eg, stale, reports) && stale < RUN_EXIT_CAPACITY
    requires B.ValidTiming(w.conf.backoffStart, w.conf.backoffMax)
    requires w.keyer(eg) != "" && R.OwnedByAnother(s.reg, w.keyer(eg), "0")
    ensures Leads(w, s, t) && "0" in t.insts
    ensures t == s.(reg := R.Logged(R.Heard(s.reg, "0", reports), "0", R.ReplayedAsDuplicate), events := [],
                    insts := s.insts["0" := t.insts["0"]])
    ensures AboutToStart(t.insts["0"], ThenReplayed, stale + 1, reports, 0)
  {
    var i := s.insts["0"];
    ReplaySteps(w.conf, i, stale, reports, 0, eg);
    hide Leads, Step, Enabled, Idle, AboutToStart, R.Logged;
    var exit := RunExits(i.clients.gen);
    var i1 := Step(w.conf, i, exit);
    var i2 := i1.(queue := Pushed(i1.queue, Replay));
    var i3 := Step(w.conf, i2, Receive);
    var i4 := Step(w.conf, i3, TimerFires);
    NoLabels(w, s);
    LeadsByQuietMove(w, s, s, "0", exit, i1);
    var s2 := RejectedIsToldToReplay(w, s, s.(insts := s.insts["0" := i1]), "0", eg, reports);
    assert s2.insts["0"] == i2;
    LeadsByQuietMove(w, s, s2, "0", Receive, i3);
    var s3 := s2.(insts := s2.insts["0" := i3]);
    LeadsByQuietMove(w, s, s3, "0", TimerFires, i4);
    t := s3.(insts := s3.insts["0" := i4]);
  }

  /** It is told to replay, with one more stale signal, and reports anew. */
  lemma ExitsAndReplays(w: Setup, s: System, eg: Egress, next: Egress, free: string, stale: nat, reports: nat)
    returns (t: System)
    requires Reported(w, s, eg, stale, reports) && stale < RUN_EXIT_CAPACITY
    requires B.ValidTiming(w.conf.backoffStart, w.conf.backoffMax) && OneTaken(s.reg, w.keyer(eg), free)
    ensures Leads(w, s, t) && Reported(w, t, next, stale + 1, reports + 1) && OneTaken(t.reg, w.keyer(eg), free)
    ensures t.tab == s.tab
  {
    StaysTaken(s.reg, w.keyer(eg), free, reports);
    hide Leads, Idle, AboutToStart, AboutToReport, R.HandleRelease, R.Logged;
    var s1 := ExitsAndIsRejected(w, s, eg, stale, reports);
    var s2 := StartsAClient(w, s1, "0", ThenReplayed, stale + 1, reports, 0);
    var s3 := SaysItWasReplayed(w, s2, "0", stale + 1, reports, 0);
    t := ReportsItsEgress(w, s3, "0", next, stale + 1, reports, 0);
    LeadsOn(w, s, s1, s2);
    LeadsOn(w, s, s2, s3);
    LeadsOn(w, s, s3, t);
    assert t.events == [Tagged("0", Ready(next), reports + 1)];
  }

  lemma DeafStep(conf: Config, i: Inst, reports: nat, last: Egress)
    requires Idle(i, Normal, RUN_EXIT_CAPACITY, reports, reports, last)
    ensures Enabled(conf, i, RunExits(i.clients.gen)) && Deaf(Step(conf, i, RunExits(i.clients.gen)))
  {
    assert Step(conf, i, RunExits(i.clients.gen)).clients == Exited(i.clients, i.clients.gen);
  }

  /** "0" is deaf, in the table, and owns a key; no event is on its way. */
  ghost predicate DeafAndTrusted(s: System, key: string) {
    && "0" in s.tab.created && "0" in s.insts && Deaf(s.insts["0"])
    && s.events == []
    && key in s.reg.usedKeys && s.reg.usedKeys[key] == "0"
  }

  /** The free key is accepted; once the instance is Normal its client exits behind two stale signals. */
  lemma GoesDeaf(w: Setup, o: System, s: System, eg: Egress, taken: string, reports: nat) returns (t: System)
    requires Leads(w, o, s) && Reported(w, s, eg, RUN_EXIT_CAPACITY, reports) && "0" in s.tab.created
    requires OneTaken(s.reg, taken, w.keyer(eg))
    ensures Leads(w, o, t) && DeafAndTrusted(t, w.keyer(eg))
  {
    hide Leads, Step, Enabled, Idle, Deaf;
    var u := AcceptedBecomesNormal(w, s, "0", eg, RUN_EXIT_CAPACITY, reports, 0);
    LeadsOn(w, o, s, u);
    DeafStep(w.conf, u.insts["0"], reports, eg);
    var exit := RunExits(u.insts["0"].clients.gen);
    var j := Step(w.conf, u.insts["0"], exit);
    LeadsByQuietMove(w, o, u, "0", exit, j);
    t := u.(insts := u.insts["0" := j]);
  }

  /** "1" owns a key, and "0" has just reported the same one. */
  lemma ReportsATakenKey(w: Setup, eg: Egress, free: string) returns (t: System)
    requires ValidSetup(w) && w.basePort < P.MAX_PORT && w.keyer(eg) != "" && free != "" && w.keyer(eg) != free
    ensures Leads(w, Start(w), t) && Reported(w, t, eg, 0, 1) && OneTaken(t.reg, w.keyer(eg), free)
    ensures "0" in t.tab.created
  {
    hide Leads, Idle, AboutToStart, NewInst, R.Accept;
    var o := Start(w);
    var s1 := TwoAreCreated(w);
    NewIsAboutToStart(0);
    NewIsAboutToStart(1);
    var s2 := StartsAndReports(w, s1, "1", eg, 0, 0, 0);
    var s3 := AcceptedBecomesNormal(w, s2, "1", eg, 0, 1, 0);
    FirstAccepted(w, s1.reg, "1", eg);
    t := StartsAndReports(w, s3, "0", eg, 0, 0, 0);
    LeadsOn(w, o, s1, s2);
    LeadsOn(w, o, s2, s3);
    LeadsOn(w, o, s3, t);
  }

  /** For every valid timing and any two different keys, some run of the system ends with an instance that is
      Normal and registered, has lost its client, and will never hear of it. Twice its client exits while its
      report of another's key is answered with a Replay; the signal of the third exit finds no room. */
  lemma AnInstanceCanGoDeaf(w: Setup, eg: Egress, other: Egress)
    requires ValidSetup(w) && w.basePort < P.MAX_PORT && B.ValidTiming(w.conf.backoffStart, w.conf.backoffMax)
    requires w.keyer(eg) != "" && w.keyer(other) != "" && w.keyer(eg) != w.keyer(other)
    ensures exists labels :: AllGuarded(w, Start(w), labels) && DeafAndTrusted(After(w, labels), w.keyer(other))
  {
    hide Leads, Reach, Reported, OneTaken, DeafAndTrusted;
    var s1 := ReportsATakenKey(w, eg, w.keyer(other));
    var s2 := ExitsAndReplays(w, s1, eg, eg, w.keyer(other), 0, 1);
    var s3 := ExitsAndReplays(w, s2, eg, other, w.keyer(other), 1, 2);
    LeadsOn(w, Start(w), s1, s2);
    LeadsOn(w, Start(w), s2, s3);
    var s4 := GoesDeaf(w, Start(w), s3, other, w.keyer(eg), 3);
    SomeLabelsDo(w, s4, w.keyer(other));
  }

  lemma SomeLabelsDo(w: Setup, t: System, key: string)
    requires Leads(w, Start(w), t) && DeafAndTrusted(t, key)
    ensures exists labels :: AllGuarded(w, Start(w), labels) && DeafAndTrusted(After(w, labels), key)
  {
    hide Reach, DeafAndTrusted, AllGuarded;
    var labels :| t == Reach(w, Start(w), labels) && AllGuarded(w, Start(w), labels);
    assert DeafAndTrusted(After(w, labels), key);
  }
}
