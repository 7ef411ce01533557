/** What commands, failures and timers do to one instance, and how long it waits: stated from the outside. */
module InstanceEffects {
  import opened Wrappers
  import opened Types
  import opened EgressKeys
  import opened Instances
  import opened InstanceTheorems
  import I = InstanceSafety
  import B = Backoff

  // ----- waiting -----

  predicate FailsARound(m: Move) {
    m == CredentialFails || m == BuildFails || m == StartFails
  }

  /** A failed credential, build or start waits the delay of the counter before anything else, and gives up
      endpoint and state; for a start up to 2^34 ns the delay is the doubled, capped one. */
  lemma FailedRoundWaits(conf: Config, s: Inst, m: Move)
    requires B.ValidTiming(conf.backoffStart, conf.backoffMax)
    requires Enabled(conf, s, m) && FailsARound(m)
    ensures var t := Step(conf, s, m);
            var delay := B.Delay(conf.backoffStart, conf.backoffMax, s.effort.backoffN);
            && t.pc == Waiting(delay, ForRound(s.pc.cont)) && t.status == s.status
            && 0 < delay <= conf.backoffMax
            && t.effort.backoffN == s.effort.backoffN + 1
            && t.effort.epIdx == s.effort.epIdx + 1 && t.effort.deletions == s.effort.deletions + 1
            && t.clients.current == None
    ensures conf.backoffStart <= B.TWO_34 ==>
              Step(conf, s, m).pc.delay == B.CappedDoubling(conf.backoffStart, conf.backoffMax, s.effort.backoffN)
  {
    B.DelayIsPositive(conf.backoffStart, conf.backoffMax, s.effort.backoffN);
    if conf.backoffStart <= B.TWO_34 {
      B.DelayIsCappedDoubling(conf.backoffStart, conf.backoffMax, s.effort.backoffN);
    }
    hide B.Delay, B.CappedDoubling;
  }

  /** A wait for a round ends in that round when the timer fires, and in nothing but the end otherwise; a wait
      for another probe ends in the probe when the timer fires, and back in the main loop otherwise. */
  lemma WaitEndsByTimer(conf: Config, s: Inst, m: Move)
    requires s.pc.Waiting? && Enabled(conf, s, m) && !FromOutside(m)
    ensures var t := Step(conf, s, m);
            && (m == TimerFires <==> t.pc == if s.pc.what.ForReprobe? then ProbingEgress else Provisioning(s.pc.what.cont))
            && (m != TimerFires && t.pc != s.pc ==> t.pc == if s.pc.what.ForReprobe? then Main else Ending)
            && (m == Receive && s.queue.cmds[0].cmd != Stop ==> t.pc == s.pc)
            && t.effort == s.effort && t.status == s.status
  {
  }

  /** The handlers that lead to `ensureClient`: a loss and an Enable start at once with the identity kept; a
      drain that runs out and a Replay wait first, the delay of the counter. */
  lemma EnteringWaitsIffIdentityGivenUp(conf: Config, endpointIdx: nat, moves: seq<Move>, m: Move)
    requires B.ValidTiming(conf.backoffStart, conf.backoffMax)
    requires var s := After(conf, endpointIdx, moves);
             Enabled(conf, s, m) && !I.InEnsure(s.pc) && I.InEnsure(Step(conf, s, m).pc)
    ensures var s := After(conf, endpointIdx, moves);
            var t := Step(conf, s, m);
            var cont := if Takes(s, m, Replay) then ThenReplayed else ThenProbe;
            var delay := B.Delay(conf.backoffStart, conf.backoffMax, s.effort.backoffN);
            t.pc == (if (s.pc.Emitting? && s.pc.ev == Lost) || Takes(s, m, Enable) then Provisioning(cont)
                     else Waiting(delay, ForRound(cont)))
  {
    AfterIsSafe(conf, endpointIdx, moves);
    var s := After(conf, endpointIdx, moves);
    B.DelayIsPositive(conf.backoffStart, conf.backoffMax, s.effort.backoffN);
    hide Run, B.Delay;
    EnteringEnsure(conf, s, m);
    EnteringPlace(conf, s, m);
  }

  lemma EnteringPlace(conf: Config, s: Inst, m: Move)
    requires I.Safe(s) && NextDelay(conf, s.effort) > 0
    requires Enabled(conf, s, m) && !I.InEnsure(s.pc) && I.InEnsure(Step(conf, s, m).pc)
    ensures var cont := if Takes(s, m, Replay) then ThenReplayed else ThenProbe;
            Step(conf, s, m).pc
            == (if (s.pc.Emitting? && s.pc.ev == Lost) || Takes(s, m, Enable) then Provisioning(cont)
                else Waiting(NextDelay(conf, s.effort), ForRound(cont)))
  {
    hide NextDelay, Handle, I.GenInv, I.QueueInv, I.ClientInv, I.DepartInv;
    if m == TakePending {
      HandlePlace(conf, s.(queue := HandledPending(s.queue)), s.queue.pending[0].cmd);
      assert NextDelay(conf, s.effort) == NextDelay(conf, s.(queue := HandledPending(s.queue)).effort);
    } else if m == Receive && s.pc.Main? {
      HandlePlace(conf, s.(queue := HandledReceived(s.queue)), s.queue.cmds[0].cmd);
      assert NextDelay(conf, s.effort) == NextDelay(conf, s.(queue := HandledReceived(s.queue)).effort);
    }
  }

  lemma HandlePlace(conf: Config, s: Inst, c: Command)
    requires s.pc.Main? && NextDelay(conf, s.effort) > 0 && I.InEnsure(Handle(conf, s, c).pc)
    ensures c == Enable || c == Replay
    ensures Handle(conf, s, c).pc
         == if c == Enable then Provisioning(ThenProbe) else Waiting(NextDelay(conf, s.effort), ForRound(ThenReplayed))
  {
    hide NextDelay, Closed, Rotated;
  }

  /** A promotion starts the backoff afresh: whatever the counter was, the next delay is the first. */
  lemma PromotionResetsBackoff(conf: Config, s: Inst, m: Move)
    requires B.ValidTiming(conf.backoffStart, conf.backoffMax) && Promotes(conf, s, m)
    ensures var t := Step(conf, s, m);
            && t.status == Normal && t.effort.backoffN == 0
            && NextDelay(conf, t.effort) == conf.backoffStart
  {
  }

  // ----- commands -----

  /** The commands that a status leaves without effect. */
  predicate Ignored(status: Status, c: Command) {
    match c
    case Confirm(_) => false
    case Reprobe => status != Probing
    case Replay => status != Probing && status != Normal
    case Drain => status != Probing && status != Normal
    case Disable => status == Disabled
    case Enable => status != Disabled
    case Stop => false
  }

  /** What a command taken in the main loop leads to. */
  predicate LeadsTo(conf: Config, s: Inst, c: Command, t: Inst) {
    var delay := B.Delay(conf.backoffStart, conf.backoffMax, s.effort.backoffN);
    match c
    case Confirm(_) =>
      && t.pc == Main && !t.reporting.awaitConfirm
      && t.status == (if s.status == Probing then Normal else s.status)
    case Reprobe => t.pc == Waiting(delay, ForReprobe) && t.status == Probing && t.effort.backoffN == s.effort.backoffN + 1
    case Replay =>
      && t.pc == Waiting(delay, ForRound(ThenReplayed)) && t.status == Probing
      && t.effort.replays == s.effort.replays + 1 && t.clients.current == None
    case Drain => t.pc == DrainWait && t.status == Draining && t.clients == s.clients && t.effort == s.effort
    case Disable => t.pc == Emitting(DisabledNow, ToMain) && t.status == Disabled && t.clients.current == None
    case Enable => t.pc == Provisioning(ThenProbe) && t.status == Probing && t.effort.epIdx == s.effort.epIdx
    case Stop => t.pc == Ending && t.clients == s.clients
  }

  /** Taken in the main loop, a command either has its effect or leaves the instance as it was but for the
      queue, and which of the two the status decides. */
  lemma CommandsAct(conf: Config, s: Inst, m: Move, c: Command)
    requires B.ValidTiming(conf.backoffStart, conf.backoffMax)
    requires Takes(s, m, c) && Enabled(conf, s, m)
    ensures var t := Step(conf, s, m);
            && (Ignored(s.status, c) <==> t == s.(queue := t.queue) && !c.Confirm?)
            && (!Ignored(s.status, c) ==> LeadsTo(conf, s, c, t))
            && t.queue.handled == s.queue.handled + [if m == TakePending then s.queue.pending[0] else s.queue.cmds[0]]
  {
    B.DelayIsPositive(conf.backoffStart, conf.backoffMax, s.effort.backoffN);
    hide B.Delay;
  }

  /** A drain that runs its time is announced as Drained, and the instance is Probing again. */
  lemma DrainRunsOut(conf: Config, s: Inst)
    requires s.pc.DrainWait?
    ensures var t := Step(conf, s, TimerFires);
            && t.pc == Emitting(Drained, ToReregister) && t.status == Probing && t.clients == s.clients
            && t.reporting.departed && t.reporting.departedAt == s.reporting.reports
  {
  }

  /** The end releases everything: no more commands, no client, one more deletion of the state. */
  lemma FinalizeReleasesAll(conf: Config, s: Inst)
    requires s.pc.Ending?
    ensures var t := Step(conf, s, Finalize);
            && t.pc == Finalized && t.stopped && t.cancelled && t.clients.current == None
            && t.clients.gen > s.clients.gen && t.effort.deletions == s.effort.deletions + 1
            && t.status == s.status
  {
  }

  /** A new instance starts at once, on the endpoint it was given, with its state kept. */
  lemma NewInstanceStarts(endpointIdx: nat)
    ensures var s := NewInst(endpointIdx);
            && s.pc == Provisioning(ThenProbe) && s.status == Probing && !s.stopped && !s.cancelled
            && s.effort.epIdx == endpointIdx && s.effort.deletions == 0 && s.effort.backoffN == 0
            && s.clients.current == None && s.reporting.emitted == []
  {
  }

  // ----- cancellation, and what can fail -----

  /** The end of the context is noticed wherever the instance waits, and only there. It ends the instance,
      except that a report is given up and what follows it is done, and that the wait of a Reprobe just ends. */
  lemma CancelledGoesOn(conf: Config, s: Inst)
    ensures Enabled(conf, s, CtxDone) <==>
              && s.cancelled
              && (s.pc.Waiting? || s.pc.AwaitingToken? || s.pc.Emitting? || s.pc.DrainWait?
                  || (s.pc.Main? && s.queue.pending == []))
    ensures Enabled(conf, s, CtxDone) ==>
              var t := Step(conf, s, CtxDone);
              && (s.pc.Emitting? ==> t == Step(conf, s, Sent).(reporting := s.reporting))
              && (s.pc.Waiting? && s.pc.what.ForReprobe? ==> t.pc == Main)
              && (!s.pc.Emitting? && !(s.pc.Waiting? && s.pc.what.ForReprobe?) ==> t.pc == Ending)
  {
    hide NextDelay, Closed, Rotated;
  }

  /** A round fails only for want of a credential, when there is a source to ask, or in build or start. */
  lemma OnlySourceBuildAndStartFail(conf: Config, s: Inst, m: Move)
    requires s.pc.Provisioning? || s.pc.AwaitingToken? || s.pc.Building? || s.pc.Starting?
    requires Enabled(conf, s, m) && !FromOutside(m)
    ensures var t := Step(conf, s, m);
            t.effort != s.effort <==>
              (m == CredentialFails && conf.hasCredentialSource) || m == BuildFails || m == StartFails
  {
  }

  /** A move that needs no token, no room in the event channel, no command and no timer. */
  predicate NeedsNobody(m: Move) {
    && !FromOutside(m) && m != TakeToken && m != Sent && m != StoppedSent && m != Receive && m != TimerFires
  }

  /** The next such move of an instance on its way out. */
  function WayOut(s: Inst): Move {
    match s.pc
    case Main => if s.queue.pending != [] then TakePending else CtxDone
    case Provisioning(_) => CredentialReady
    case Building(_) => BuildOk
    case Starting(_, _) => StartOk
    case ProbingEgress => ProbeDone(NO_EGRESS)
    case Ending => Finalize
    case Finalized => StoppedDropped
    case _ => CtxDone
  }

  /** How far the end is; every parked command may still have to be handled. */
  function Distance(s: Inst): nat {
    var atMain := 20 * |s.queue.pending| + 3;
    match s.pc
    case Main => atMain
    case Waiting(_, what) => if what.ForReprobe? then atMain + 1 else 3
    case Provisioning(_) => 4
    case AwaitingToken(_) => 3
    case Building(_) => atMain + 6
    case Starting(_, _) => atMain + 5
    case ProbingEgress => atMain + 2
    case Emitting(_, next) => if next.ToMain? then atMain + 1 else if next.ToProbe? then atMain + 3 else 5
    case DrainWait => 3
    case Ending => 2
    case Finalized => 1
    case Gone => 0
  }

  lemma HandlingComesNearer(conf: Config, s: Inst, c: Command)
    requires s.pc.Main?
    ensures var t := Handle(conf, s, c);
            t.cancelled == s.cancelled && Distance(t) <= 20 * |s.queue.pending| + 4
  {
    hide NextDelay, Closed, Rotated;
  }

  lemma EachMoveComesNearer(conf: Config, s: Inst)
    requires s.cancelled && !s.pc.Gone?
    ensures var t := Step(conf, s, WayOut(s));
            Enabled(conf, s, WayOut(s)) && NeedsNobody(WayOut(s)) && t.cancelled && Distance(t) < Distance(s)
  {
    hide NextDelay, Closed, Adopted, Rotated, Handle;
    if s.pc.Main? && s.queue.pending != [] {
      HandlingComesNearer(conf, s.(queue := HandledPending(s.queue)), s.queue.pending[0].cmd);
    }
  }

  /** Wherever a cancelled instance is, it can come to its end by its own moves and the answers of client and
      probe: it never has to wait for a token, for the coordinator, for a command or for a timer. */
  lemma {:induction false} CancelledInstanceCanEnd(conf: Config, s: Inst) returns (moves: seq<Move>)
    requires s.cancelled
    ensures Run(conf, s, moves).pc.Gone?
    ensures forall i :: 0 <= i < |moves| ==> NeedsNobody(moves[i])
    ensures |moves| <= Distance(s)
    decreases Distance(s)
  {
    hide Step, WayOut, Distance, NeedsNobody;
    if s.pc.Gone? {
      moves := [];
    } else {
      var m := WayOut(s);
      EachMoveComesNearer(conf, s);
      var rest := CancelledInstanceCanEnd(conf, Step(conf, s, m));
      moves := [m] + rest;
      RunOne(conf, s, m, rest);
    }
  }
}
