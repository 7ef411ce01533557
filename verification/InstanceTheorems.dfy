/** What follows for one instance, in every run, from the invariants of module InstanceSafety. */
module InstanceTheorems {
  import opened Wrappers
  import opened Types
  import opened EgressKeys
  import opened Instances
  import opened InstanceSafety
  import B = Backoff

  /** The state of an instance after any script of moves. */
  ghost function After(conf: Config, endpointIdx: nat, moves: seq<Move>): Inst {
    Run(conf, NewInst(endpointIdx), moves)
  }

  lemma AfterIsSafe(conf: Config, endpointIdx: nat, moves: seq<Move>)
    ensures Safe(After(conf, endpointIdx, moves))
  {
    NewInstSafe(endpointIdx);
    RunSafe(conf, NewInst(endpointIdx), moves);
  }

  // ----- clients -----

  /** At most one client is ever unclosed, and none once the instance is finalized. */
  lemma ClientsAreConserved(conf: Config, endpointIdx: nat, moves: seq<Move>)
    ensures var s := After(conf, endpointIdx, moves);
            && s.clients.open == AsSet(s.clients.current) + BeingStarted(s.pc)
            && |s.clients.open| <= 1
            && (Ended(s.pc) ==> s.clients.open == {})
  {
    AfterIsSafe(conf, endpointIdx, moves);
  }

  // ----- generations -----

  /** A loss is handled only for the client that is current at that moment: a client the instance
      has closed can no longer reach `handleLost`. */
  lemma OnlyTheCurrentClientIsLost(conf: Config, endpointIdx: nat, moves: seq<Move>, m: Move)
    ensures var s := After(conf, endpointIdx, moves);
            var t := Step(conf, s, m);
            t.clients.lost != s.clients.lost ==>
              && m == TakeSignal && s.pc.Main? && s.clients.current.Some?
              && t.clients.lost == s.clients.lost + [s.clients.gen]
  {
    AfterIsSafe(conf, endpointIdx, moves);
    LossNeedsCurrentClient(conf, After(conf, endpointIdx, moves), m);
  }

  lemma LossNeedsCurrentClient(conf: Config, s: Inst, m: Move)
    requires Safe(s)
    ensures var t := Step(conf, s, m);
            t.clients.lost != s.clients.lost ==>
              && m == TakeSignal && s.pc.Main? && s.clients.current.Some?
              && t.clients.lost == s.clients.lost + [s.clients.gen]
  {
    if Enabled(conf, s, m) && m == TakeSignal {
      assert CanSignal(s.clients, s.clients.runExit[0]);
    }
  }

  /** Each generation is lost at most once, in increasing order. */
  lemma EachGenerationIsLostOnce(conf: Config, endpointIdx: nat, moves: seq<Move>)
    ensures Increasing(After(conf, endpointIdx, moves).clients.lost)
  {
    AfterIsSafe(conf, endpointIdx, moves);
  }

  /** A Disabled instance leaves Disabled only by handling Enable. */
  lemma DisabledLeavesOnlyByEnable(conf: Config, endpointIdx: nat, moves: seq<Move>, m: Move)
    requires After(conf, endpointIdx, moves).status == Disabled
    requires Step(conf, After(conf, endpointIdx, moves), m).status != Disabled
    ensures var s := After(conf, endpointIdx, moves);
            && s.pc.Main?
            && ((m == TakePending && s.queue.pending != [] && s.queue.pending[0].cmd == Enable)
                || (m == Receive && s.queue.cmds != [] && s.queue.cmds[0].cmd == Enable))
  {
    AfterIsSafe(conf, endpointIdx, moves);
    DisabledStays(conf, After(conf, endpointIdx, moves), m);
  }

  lemma DisabledStays(conf: Config, s: Inst, m: Move)
    requires Safe(s) && s.status == Disabled
    ensures Step(conf, s, m).status == Disabled
            || (s.pc.Main? && m == TakePending && s.queue.pending != [] && s.queue.pending[0].cmd == Enable)
            || (s.pc.Main? && m == Receive && s.queue.cmds != [] && s.queue.cmds[0].cmd == Enable)
  {
    if Enabled(conf, s, m) && m == TakeSignal {
      assert CanSignal(s.clients, s.clients.runExit[0]);
    }
  }

  // ----- ensureClient -----

  /** When `ensureClient` succeeds after k failed rounds it has rotated the endpoint and requested
      deletion of the state k times if told to keep it and k + 1 times otherwise, and has advanced
      the backoff counter by k. */
  lemma EnsureAccounts(conf: Config, endpointIdx: nat, moves: seq<Move>)
    requires After(conf, endpointIdx, moves).pc.Starting?
    ensures var s := After(conf, endpointIdx, moves);
            var t := Step(conf, s, StartOk);
            var call := s.effort.call;
            && t.clients.current == Some(s.pc.started)
            && t.effort.epIdx == call.epIdx + call.failed + Extra(call.keep)
            && t.effort.deletions == call.deletions + call.failed + Extra(call.keep)
            && t.effort.backoffN == call.backoffN + call.failed
  {
    AfterIsSafe(conf, endpointIdx, moves);
  }

  /** The deletion that belongs to a round has been requested before that round builds its client. */
  lemma DeletionPrecedesBuild(conf: Config, endpointIdx: nat, moves: seq<Move>)
    requires After(conf, endpointIdx, moves).pc.Building?
    ensures var e := After(conf, endpointIdx, moves).effort;
            e.deletions - e.call.deletions == e.call.failed + Extra(e.call.keep) == e.epIdx - e.call.epIdx
  {
    AfterIsSafe(conf, endpointIdx, moves);
  }

  /** A loss recovery or an Enable whose first round succeeds changes neither endpoint nor state. */
  lemma FirstTryKeepsIdentity(conf: Config, s: Inst, moves: seq<Move>)
    requires Sound(s) && s.status == Probing
    requires var entered := EnterEnsure(s, true, 0, ThenProbe);
             var t := Run(conf, entered, moves);
             t.pc.Starting? && t.effort.call == entered.effort.call
    ensures var t := Run(conf, EnterEnsure(s, true, 0, ThenProbe), moves);
            && t.effort.epIdx == s.effort.epIdx
            && t.effort.deletions == s.effort.deletions
            && t.effort.backoffN == s.effort.backoffN
  {
    EnterEnsureSafe(s, true, 0, ThenProbe);
    RunSafe(conf, EnterEnsure(s, true, 0, ThenProbe), moves);
  }

  predicate Takes(s: Inst, m: Move, c: Command) {
    && s.pc.Main?
    && ((m == TakePending && s.queue.pending != [] && s.queue.pending[0].cmd == c)
        || (m == Receive && s.queue.cmds != [] && s.queue.cmds[0].cmd == c))
  }

  /** The identity is kept exactly when the client was lost or the instance enabled, and given up, by one
      deletion and one rotation at once, exactly when it is drained or told to replay. */
  lemma IdentityIsKeptExactlyByLossAndEnable(conf: Config, endpointIdx: nat, moves: seq<Move>, m: Move)
    requires var s := After(conf, endpointIdx, moves);
             Enabled(conf, s, m) && !InEnsure(s.pc) && InEnsure(Step(conf, s, m).pc)
    ensures var s := After(conf, endpointIdx, moves);
            var t := Step(conf, s, m);
            && (t.effort.call.keep <==> (s.pc.Emitting? && s.pc.ev == Lost) || Takes(s, m, Enable))
            && (!t.effort.call.keep <==> (s.pc.Emitting? && s.pc.ev == Drained) || Takes(s, m, Replay))
            && Entered(conf, s, t, t.effort.call.keep)
  {
    hide Run;
    AfterIsSafe(conf, endpointIdx, moves);
    EnteringEnsure(conf, After(conf, endpointIdx, moves), m);
  }

  /** What a call of `ensureClient` has done to the accounts by the time it waits or provisions. */
  predicate Entered(conf: Config, s: Inst, t: Inst, keep: bool) {
    && t.effort.call.keep == keep
    && t.effort.epIdx == s.effort.epIdx + Extra(keep)
    && t.effort.deletions == s.effort.deletions + Extra(keep)
    && t.effort.backoffN == s.effort.backoffN + Extra(keep)
    && (t.pc.Waiting? ==> !keep && t.pc.delay == NextDelay(conf, s.effort))
    && t.clients.current == None
  }

  lemma HandleEnters(conf: Config, s: Inst, c: Command)
    requires s.pc.Main? && InEnsure(Handle(conf, s, c).pc)
    ensures (c == Enable || c == Replay) && Entered(conf, s, Handle(conf, s, c), c == Enable)
  {
    hide NextDelay;
  }

  lemma EventEnters(conf: Config, s: Inst, m: Move)
    requires s.pc.Emitting? && s.pc.next == Following(s.pc.ev) && Enabled(conf, s, m)
    requires !FromOutside(m) && InEnsure(Step(conf, s, m).pc)
    ensures (s.pc.ev == Lost || s.pc.ev == Drained) && Entered(conf, s, Step(conf, s, m), s.pc.ev == Lost)
  {
    hide NextDelay;
  }

  lemma EnteringEnsure(conf: Config, s: Inst, m: Move)
    requires Safe(s) && Enabled(conf, s, m) && !InEnsure(s.pc) && InEnsure(Step(conf, s, m).pc)
    ensures var t := Step(conf, s, m);
            && (t.effort.call.keep <==> (s.pc.Emitting? && s.pc.ev == Lost) || Takes(s, m, Enable))
            && (!t.effort.call.keep <==> (s.pc.Emitting? && s.pc.ev == Drained) || Takes(s, m, Replay))
            && Entered(conf, s, t, t.effort.call.keep)
  {
    hide Handle, AfterEmitting, NextDelay, GenInv, QueueInv, ClientInv, DepartInv;
    if s.pc.Emitting? {
      EventEnters(conf, s, m);
    } else if m == TakePending {
      HandleEnters(conf, s.(queue := HandledPending(s.queue)), s.queue.pending[0].cmd);
      EnteredFromQueue(conf, s, HandledPending(s.queue), Step(conf, s, m));
    } else if m == Receive && s.pc.Main? {
      HandleEnters(conf, s.(queue := HandledReceived(s.queue)), s.queue.cmds[0].cmd);
      EnteredFromQueue(conf, s, HandledReceived(s.queue), Step(conf, s, m));
    }
  }

  lemma EnteredFromQueue(conf: Config, s: Inst, q: Queue, t: Inst)
    ensures forall keep :: Entered(conf, s.(queue := q), t, keep) ==> Entered(conf, s, t, keep)
  {
  }

  // ----- egress -----

  /** The valid egress that a move reads: by the instance's own probe, or by a check of the coordinator. */
  function ReadBy(conf: Config, s: Inst, m: Move): Option<Egress> {
    if Enabled(conf, s, m) && (m.ProbeDone? || m.EgressRead?) && m.eg != NO_EGRESS then Some(m.eg) else None
  }

  function Latest(read: Option<Egress>, before: Egress): Egress {
    match read
    case Some(eg) => eg
    case None => before
  }

  /** The latest valid egress that any of the moves reads. */
  ghost function LatestRead(conf: Config, s: Inst, moves: seq<Move>, before: Egress): Egress
    decreases |moves|
  {
    if moves == [] then before
    else LatestRead(conf, Step(conf, s, moves[0]), moves[1..], Latest(ReadBy(conf, s, moves[0]), before))
  }

  predicate SameReport(r: Reporting, t: Reporting) {
    r.egress == t.egress && r.last == t.last && r.reports == t.reports
  }

  lemma HandleKeepsReport(conf: Config, s: Inst, c: Command)
    ensures SameReport(s.reporting, Handle(conf, s, c).reporting)
  {
    hide NextDelay, Closed, Rotated;
  }

  lemma MainKeepsReport(conf: Config, s: Inst, m: Move)
    requires s.pc.Main? && Enabled(conf, s, m)
    ensures SameReport(s.reporting, StepMain(conf, s, m).reporting)
  {
    hide Handle;
    if m == TakePending {
      HandleKeepsReport(conf, s.(queue := HandledPending(s.queue)), s.queue.pending[0].cmd);
    } else if m == Receive {
      HandleKeepsReport(conf, s.(queue := HandledReceived(s.queue)), s.queue.cmds[0].cmd);
    }
  }

  lemma OnlyProbesReport(conf: Config, s: Inst, m: Move)
    requires !m.ProbeDone? && !m.EgressRead?
    ensures SameReport(s.reporting, Step(conf, s, m).reporting)
  {
    hide NextDelay, Closed, Adopted, Exited, Rotated, Pushed, Parked, Overtaking, StepMain;
    if s.pc.Main? && Enabled(conf, s, m) {
      MainKeepsReport(conf, s, m);
    }
  }

  /** A failed probe leaves the egress shown as it is, and so does everything else that reads none. */
  lemma StepShowsWhatItReads(conf: Config, s: Inst, m: Move)
    ensures Step(conf, s, m).reporting.egress == Latest(ReadBy(conf, s, m), s.reporting.egress)
  {
    if !m.ProbeDone? && !m.EgressRead? {
      OnlyProbesReport(conf, s, m);
    } else {
      assert Step(conf, s, m) == s || m.EgressRead? || Step(conf, s, m).reporting == Reported(s.reporting, m.eg);
    }
  }

  lemma {:induction false} RunShowsWhatItReads(conf: Config, s: Inst, moves: seq<Move>)
    ensures Run(conf, s, moves).reporting.egress == LatestRead(conf, s, moves, s.reporting.egress)
    decreases |moves|
  {
    hide Step, ReadBy;
    if moves != [] {
      StepShowsWhatItReads(conf, s, moves[0]);
      RunShowsWhatItReads(conf, Step(conf, s, moves[0]), moves[1..]);
    }
  }

  /** The egress shown is the latest valid one read by a probe or by a check: a failed one leaves it. */
  lemma EgressShownIsTheLatestValid(conf: Config, endpointIdx: nat, moves: seq<Move>)
    ensures After(conf, endpointIdx, moves).reporting.egress
         == LatestRead(conf, NewInst(endpointIdx), moves, NO_EGRESS)
  {
    RunShowsWhatItReads(conf, NewInst(endpointIdx), moves);
  }

  // ----- backoff -----

  predicate Promotes(conf: Config, s: Inst, m: Move) {
    && Enabled(conf, s, m) && s.pc.Main? && s.status == Probing
    && ((m == TakePending && s.queue.pending[0].cmd.Confirm?) || (m == Receive && s.queue.cmds[0].cmd.Confirm?))
  }

  ghost predicate NoPromotion(conf: Config, s: Inst, moves: seq<Move>)
    decreases |moves|
  {
    moves == [] || (!Promotes(conf, s, moves[0]) && NoPromotion(conf, Step(conf, s, moves[0]), moves[1..]))
  }

  lemma OnlyPromotionResetsBackoff(conf: Config, s: Inst, m: Move)
    requires !Promotes(conf, s, m)
    ensures Step(conf, s, m).effort.backoffN >= s.effort.backoffN
  {
    hide NextDelay, Closed, Adopted, Exited, Pushed, Parked, Overtaking;
  }

  lemma {:induction false} BackoffCounterGrows(conf: Config, s: Inst, moves: seq<Move>)
    requires NoPromotion(conf, s, moves)
    ensures Run(conf, s, moves).effort.backoffN >= s.effort.backoffN
    decreases |moves|
  {
    if moves != [] {
      OnlyPromotionResetsBackoff(conf, s, moves[0]);
      BackoffCounterGrows(conf, Step(conf, s, moves[0]), moves[1..]);
    }
  }

  /** Between promotions the delay the instance would wait next never shrinks and stays in bounds. */
  lemma DelaysGrowBetweenConfirms(conf: Config, s: Inst, moves: seq<Move>)
    requires B.ValidTiming(conf.backoffStart, conf.backoffMax) && conf.backoffStart <= B.TWO_34
    requires NoPromotion(conf, s, moves)
    ensures conf.backoffStart <= NextDelay(conf, s.effort)
         <= NextDelay(conf, Run(conf, s, moves).effort) <= conf.backoffMax
  {
    BackoffCounterGrows(conf, s, moves);
    B.DelayGrowsWithinBounds(conf.backoffStart, conf.backoffMax,
                             s.effort.backoffN, Run(conf, s, moves).effort.backoffN);
  }

  // ----- commands -----

  /** Accepted commands are handled as one queue: see `QueueInv`. */
  lemma CommandsAreOneQueue(conf: Config, endpointIdx: nat, moves: seq<Move>)
    ensures QueueInv(After(conf, endpointIdx, moves).queue)
  {
    AfterIsSafe(conf, endpointIdx, moves);
  }

  /** Where a command overtakes: a Stop in a backoff wait, a Stop or a Disable in a drain. */
  predicate Overtakes(s: Inst, m: Move) {
    && m == Receive && s.queue.cmds != []
    && ((s.pc.Waiting? && s.queue.cmds[0].cmd == Stop)
        || (s.pc.DrainWait? && (s.queue.cmds[0].cmd == Stop || s.queue.cmds[0].cmd == Disable)))
  }

  /** A command overtakes there and nowhere else, and it is the one just received. */
  lemma OvertakingHappensOnlyInWaits(conf: Config, s: Inst, m: Move)
    ensures var t := Step(conf, s, m);
            && (t.queue.overtaken != s.queue.overtaken <==> Overtakes(s, m))
            && (Overtakes(s, m) ==> t.queue.overtaken == s.queue.overtaken + [s.queue.cmds[0]])
            && (Overtakes(s, m) ==> t.queue.handled == s.queue.handled && t.queue.pending == s.queue.pending)
  {
    hide NextDelay, Closed, Adopted, Exited, Rotated, StepMain;
    if s.pc.Main? && Enabled(conf, s, m) {
      MainOvertakesNothing(conf, s, m);
    }
  }

  lemma MainOvertakesNothing(conf: Config, s: Inst, m: Move)
    requires s.pc.Main? && Enabled(conf, s, m)
    ensures StepMain(conf, s, m).queue.overtaken == s.queue.overtaken
  {
    hide Handle;
    if m == TakePending {
      HandleKeepsQueue(conf, s.(queue := HandledPending(s.queue)), s.queue.pending[0].cmd);
    } else if m == Receive {
      HandleKeepsQueue(conf, s.(queue := HandledReceived(s.queue)), s.queue.cmds[0].cmd);
    }
  }

  lemma HandleKeepsQueue(conf: Config, s: Inst, c: Command)
    ensures Handle(conf, s, c).queue == s.queue
  {
    hide NextDelay, Closed, Rotated;
  }

  /** A Stop taken from the channel ends the instance, unless it arrives in the wait of a Reprobe. */
  lemma StopEndsUnlessReprobing(conf: Config, s: Inst)
    requires Enabled(conf, s, Receive) && s.queue.cmds[0].cmd == Stop
    ensures Step(conf, s, Receive).pc == Ending <==> !(s.pc.Waiting? && s.pc.what.ForReprobe?)
  {
  }

  /** The moves of an instance whose first try succeeds, up to its probe. */
  const FIRST_START: seq<Move> := [CredentialReady, TakeToken, BuildOk, StartOk]

  /** The moves of an instance whose first try succeeds: it ends up back in the main loop, reported. */
  function FirstTry(eg: Egress): seq<Move> {
    FIRST_START + [ProbeDone(eg), Sent]
  }

  lemma FirstStartProbes(conf: Config, s: Inst)
    requires s.pc == Provisioning(ThenProbe)
    ensures var t := Run(conf, s, FIRST_START);
            && t.pc == ProbingEgress && t.status == s.status && t.queue == s.queue
            && t.stopped == s.stopped && t.reporting == s.reporting
  {
    var s1 := Step(conf, s, CredentialReady);
    var s2 := Step(conf, s1, TakeToken);
    var s3 := Step(conf, s2, BuildOk);
    var s4 := Step(conf, s3, StartOk);
    hide Run;
    RunLast(conf, s3, StartOk);
    RunOne(conf, s2, BuildOk, [StartOk]);
    RunOne(conf, s1, TakeToken, [BuildOk] + [StartOk]);
    RunOne(conf, s, CredentialReady, [TakeToken] + ([BuildOk] + [StartOk]));
    assert FIRST_START == [CredentialReady] + ([TakeToken] + ([BuildOk] + [StartOk]));
  }

  lemma FirstTryReports(conf: Config, s: Inst, eg: Egress)
    requires s.pc == Provisioning(ThenProbe)
    ensures var t := Run(conf, s, FirstTry(eg));
            && t.pc == Main && t.status == s.status && t.queue == s.queue && t.stopped == s.stopped
            && t.reporting == Reported(s.reporting, eg).(emitted := s.reporting.emitted + [Ready(eg)])
  {
    FirstStartProbes(conf, s);
    ProbeAndSend(conf, Run(conf, s, FIRST_START), eg);
    RunInTwo(conf, s, FIRST_START, [ProbeDone(eg), Sent]);
  }

  lemma ProbeAndSend(conf: Config, s: Inst, eg: Egress)
    requires s.pc == ProbingEgress
    ensures Run(conf, s, [ProbeDone(eg), Sent])
         == s.(pc := Main, reporting := Reported(s.reporting, eg).(emitted := s.reporting.emitted + [Ready(eg)]))
  {
    var t := Step(conf, s, ProbeDone(eg));
    RunLast(conf, t, Sent);
    RunOne(conf, s, ProbeDone(eg), [Sent]);
    assert [ProbeDone(eg)] + [Sent] == [ProbeDone(eg), Sent];
  }

  /** The exception happens. The pool answers a failed probe with Reprobe; a Stop sent meanwhile is
      consumed by the wait, and the instance is back in its main loop, Probing, with nothing queued
      and nothing reported since. */
  lemma StopCanBeSwallowed(conf: Config, endpointIdx: nat)
    ensures var moves := FirstTry(NO_EGRESS) + [Accept(Reprobe), Receive, Accept(Stop), Receive];
            var s := After(conf, endpointIdx, moves);
            && s.pc == Main && s.status == Probing && !s.stopped
            && s.queue == Queue([], [], 2, [Queued(Reprobe, 0)], [Queued(Stop, 1)])
            && s.reporting.emitted == [Ready(NO_EGRESS)]
  {
    var s := NewInst(endpointIdx);
    FirstTryReports(conf, s, NO_EGRESS);
    var t := Run(conf, s, FirstTry(NO_EGRESS));
    SwallowFrom(conf, t);
    RunInTwo(conf, s, FirstTry(NO_EGRESS), [Accept(Reprobe), Receive, Accept(Stop), Receive]);
  }

  lemma {:induction false} RunInTwo(conf: Config, s: Inst, a: seq<Move>, b: seq<Move>)
    ensures Run(conf, s, a + b) == Run(conf, Run(conf, s, a), b)
    decreases |a|
  {
    if a == [] {
      assert a + b == b;
    } else {
      assert (a + b)[1..] == a[1..] + b;
      RunInTwo(conf, Step(conf, s, a[0]), a[1..], b);
    }
  }

  lemma RunOne(conf: Config, s: Inst, m: Move, rest: seq<Move>)
    ensures Run(conf, s, [m] + rest) == Run(conf, Step(conf, s, m), rest)
  {
    assert ([m] + rest)[1..] == rest;
  }

  lemma RunLast(conf: Config, s: Inst, m: Move)
    ensures Run(conf, s, [m]) == Step(conf, s, m)
  {
  }

  lemma SwallowFrom(conf: Config, s: Inst)
    requires s.pc == Main && s.status == Probing && s.queue == Queue([], [], 0, [], [])
    ensures var t := Run(conf, s, [Accept(Reprobe), Receive, Accept(Stop), Receive]);
            && t.pc == Main && t.status == Probing && t.stopped == s.stopped
            && t.queue == Queue([], [], 2, [Queued(Reprobe, 0)], [Queued(Stop, 1)])
            && t.reporting == s.reporting
  {
    hide Run;
    var s1 := Step(conf, s, Accept(Reprobe));
    assert s1.queue == Queue([], [Queued(Reprobe, 0)], 1, [], []);
    var s2 := Step(conf, s1, Receive);
    assert s2.pc.Waiting? && s2.pc.what == ForReprobe;
    assert s2.queue == Queue([], [], 1, [Queued(Reprobe, 0)], []);
    var s3 := Step(conf, s2, Accept(Stop));
    assert s3.queue == Queue([], [Queued(Stop, 1)], 2, [Queued(Reprobe, 0)], []);
    var s4 := Step(conf, s3, Receive);
    RunLast(conf, s3, Receive);
    RunOne(conf, s2, Accept(Stop), [Receive]);
    RunOne(conf, s1, Receive, [Accept(Stop)] + [Receive]);
    RunOne(conf, s, Accept(Reprobe), [Receive] + ([Accept(Stop)] + [Receive]));
    assert [Accept(Reprobe), Receive, Accept(Stop), Receive]
        == [Accept(Reprobe)] + ([Receive] + ([Accept(Stop)] + [Receive]));
  }
}
