/** The code of instance.go, in its own shape: fields updated by methods, loops over channels. What
    the other goroutines and the world do is a script of moves, arbitrary and consumed at the points
    where the management goroutine blocks; a script that runs out is a run cut short there. Every
    method is proved to do exactly what the machine of module Instances does with the same script.
    The fields are grouped as the machine groups them. */
module InstanceCode {
  import opened Wrappers
  import opened Types
  import opened EgressKeys
  import I = Instances
  import opened Backoff
  import opened Numbers

  /** How a method that can block comes back: it went on, it ended the instance, or it still waits. */
  datatype Flow = GoesOn | Ends | Blocked

  datatype Wait = Elapsed | Interrupted | StillWaiting

  class Instance {
    const conf: I.Config

    var status: Status
    var at: I.Pc
    var stopped: bool
    var cancelled: bool
    var clients: I.Clients
    var queue: I.Queue
    var effort: I.Effort
    var reporting: I.Reporting

    /** What the world still has in store. */
    var script: seq<I.Move>

    function State(): I.Inst
      reads this
    {
      I.Inst(status, at, stopped, cancelled, clients, queue, effort, reporting)
    }

    /** Where the machine ends up if it goes on from `s` with what is left of the script. */
    ghost function From(s: I.Inst): I.Inst
      reads this`script
    {
      I.Run(conf, s, script)
    }

    constructor (endpointIdx: nat, conf: I.Config, script: seq<I.Move>)
      ensures State() == I.Blank(endpointIdx)
      ensures this.conf == conf && this.script == script
    {
      this.conf, this.script := conf, script;
      var blank := I.Blank(endpointIdx);
      status, at, stopped, cancelled := Probing, I.Main, false, false;
      clients, queue, effort, reporting := blank.clients, blank.queue, blank.effort, blank.reporting;
    }

    // ----- what other goroutines do -----

    /** Non-blocking send: refused once stopped or when the channel is full. */
    method Send(c: I.Command) returns (ok: bool)
      modifies this`queue
      ensures ok <==> !stopped && |old(queue.cmds)| < I.CMD_CAPACITY
      ensures State() == if ok then old(I.StepOutside(State(), I.Accept(c))) else old(State())
    {
      if stopped {
        return false;
      }
      if |queue.cmds| < I.CMD_CAPACITY {
        queue := queue.(cmds := queue.cmds + [I.Queued(c, queue.accepted)], accepted := queue.accepted + 1);
        return true;
      }
      return false;
    }

    /** The Run of the client of a generation returns and signals, unless the buffer is full. */
    method RunReturns(g: nat)
      modifies this`clients
      ensures State() == old(I.StepOutside(State(), I.RunExits(g)))
    {
      clients := clients.(watchers := clients.watchers - {g});
      if |clients.runExit| < I.RUN_EXIT_CAPACITY {
        clients := clients.(runExit := clients.runExit + [g]);
      }
    }

    /** The coordinator's check stores the egress it has read. */
    method StoreEgress(eg: Egress)
      modifies this`reporting
      ensures State() == old(I.StepOutside(State(), I.EgressRead(eg)))
    {
      reporting := reporting.(egress := eg);
    }

    /** Another goroutine moves. */
    method OthersMove(m: I.Move)
      requires I.FromOutside(m)
      modifies this`queue, this`clients, this`cancelled, this`reporting
      ensures State() == old(I.StepOrStay(conf, State(), m))
    {
      match m {
        case Accept(c) =>
          if |queue.cmds| < I.CMD_CAPACITY {
            queue := queue.(cmds := queue.cmds + [I.Queued(c, queue.accepted)], accepted := queue.accepted + 1);
          }
        case RunExits(g) =>
          if g in clients.watchers {
            RunReturns(g);
          }
        case Cancel => cancelled := true;
        case EgressRead(eg) =>
          if eg != NO_EGRESS {
            StoreEgress(eg);
          }
      }
    }

    /** Block until something this place waits for happens; meanwhile the others move. */
    method Next() returns (m: Option<I.Move>)
      modifies this`script, this`queue, this`clients, this`cancelled, this`reporting
      ensures m.None? ==> script == [] && State() == old(From(State()))
      ensures m.Some? ==>
                && I.Enabled(conf, State(), m.value) && !I.FromOutside(m.value)
                && From(I.StepHere(conf, State(), m.value)) == old(From(State()))
                && |script| < |old(script)|
    {
      while script != []
        invariant From(State()) == old(From(State()))
        invariant |script| <= |old(script)|
        decreases |script|
      {
        var x := script[0];
        I.RunTakes(conf, State(), script);
        script := script[1..];
        if I.FromOutside(x) {
          OthersMove(x);
        } else if I.Enabled(conf, State(), x) {
          return Some(x);
        }
      }
      return None;
    }

    // ----- small methods of the management goroutine -----

    method CloseClient()
      modifies this`clients
      ensures clients == old(I.Closed(clients))
    {
      var c := clients.current;
      clients := clients.(gen := clients.gen + 1, current := None);
      if c.Some? {
        clients := clients.(open := clients.open - {c.value});
      }
    }

    method WatchRun()
      modifies this`clients
      ensures clients == old(clients.(gen := clients.gen + 1, watchers := clients.watchers + {clients.gen + 1}))
    {
      var gen := clients.gen + 1;
      clients := clients.(gen := gen, watchers := clients.watchers + {gen});
    }

    /** Compute and advance the backoff. */
    method BackoffDelay() returns (d: int)
      modifies this`effort
      ensures d == old(I.NextDelay(conf, effort))
      ensures effort == old(I.Backed(effort))
    {
      var shift := Min(effort.backoffN, SHIFT_LIMIT);
      effort := effort.(backoffN := effort.backoffN + 1);
      d := ShiftLeft(conf.backoffStart, shift);
      if d > conf.backoffMax || d <= 0 {
        return conf.backoffMax;
      }
    }

    method RemoveState()
      modifies this`effort
      ensures effort == old(effort.(deletions := effort.deletions + 1))
    {
      effort := effort.(deletions := effort.deletions + 1);
    }

    method NextEndpoint()
      modifies this`effort
      ensures effort == old(effort.(epIdx := effort.epIdx + 1))
    {
      effort := effort.(epIdx := effort.epIdx + 1);
    }

    // ----- methods that block -----

    method WaitBackoff(d: int, what: I.WaitFor) returns (w: Wait)
      requires at == I.Waiting(d, what)
      modifies this
      ensures |script| <= |old(script)|
      ensures From(State()) == old(From(State()))
      ensures match w
              case Elapsed => at == if what.ForReprobe? then I.ProbingEgress else I.Provisioning(what.cont)
              case Interrupted => at == if what.ForReprobe? then I.Main else I.Ending
              case StillWaiting => script == []
    {
      while true
        invariant at == I.Waiting(d, what)
        invariant |script| <= |old(script)|
        invariant From(State()) == old(From(State()))
        decreases |script|
      {
        var m := Next();
        if m.None? {
          return StillWaiting;
        }
        match m.value {
          case TimerFires =>
            at := if what.ForReprobe? then I.ProbingEgress else I.Provisioning(what.cont);
            return Elapsed;
          case CtxDone =>
            at := if what.ForReprobe? then I.Main else I.Ending;
            return Interrupted;
          case Receive =>
            var c := queue.cmds[0];
            queue := queue.(cmds := queue.cmds[1..]);
            if c.cmd == I.Stop {
              queue := queue.(overtaken := queue.overtaken + [c]);
              at := if what.ForReprobe? then I.Main else I.Ending;
              return Interrupted;
            }
            queue := queue.(pending := queue.pending + [c]);
        }
      }
    }

    /** The credential source is asked, if there is one. */
    method ProvisionCredential(cont: I.Cont) returns (ok: bool, w: Wait)
      requires at == I.Provisioning(cont)
      modifies this
      ensures |script| <= |old(script)|
      ensures w.StillWaiting? ==> script == [] && From(State()) == old(From(State()))
      ensures !w.StillWaiting? && ok ==> at == I.AwaitingToken(cont) && From(State()) == old(From(State()))
      ensures !w.StillWaiting? && !ok ==>
                && From(I.FailRound(conf, State(), cont)) == old(From(State()))
                && |script| < |old(script)|
    {
      var m := Next();
      if m.None? {
        return false, StillWaiting;
      }
      if m.value.CredentialFails? {
        return false, Elapsed;
      }
      at := I.AwaitingToken(cont);
      return true, Elapsed;
    }

    method AcquireSem(cont: I.Cont) returns (flow: Flow)
      requires at == I.AwaitingToken(cont)
      modifies this
      ensures |script| <= |old(script)|
      ensures From(State()) == old(From(State()))
      ensures match flow
              case Blocked => script == []
              case Ends => at == I.Ending
              case GoesOn => at == I.Building(cont)
    {
      var m := Next();
      if m.None? {
        return Blocked;
      }
      if m.value.CtxDone? {
        at := I.Ending;
        return Ends;
      }
      at := I.Building(cont);
      return GoesOn;
    }

    /** Start the client just built; one that fails to start is closed. */
    method StartClient(c: nat, cont: I.Cont) returns (ok: bool, flow: Flow)
      requires at == I.Starting(c, cont)
      modifies this
      ensures |script| <= |old(script)|
      ensures match flow
              case Blocked => script == [] && From(State()) == old(From(State()))
              case Ends => false
              case GoesOn =>
                && |script| < |old(script)|
                && if ok then From(I.AdoptClient(State(), c, cont)) == old(From(State()))
                   else From(I.FailRound(conf, State(), cont)) == old(From(State()))
    {
      var m := Next();
      if m.None? {
        return false, Blocked;
      }
      if m.value.StartFails? {
        clients := clients.(open := clients.open - {c});
        return false, GoesOn;
      }
      return true, GoesOn;
    }

    /** Build and start a client while holding a token. A `None` client is a failed round. */
    method StartUnderSem(cont: I.Cont) returns (c: Option<nat>, flow: Flow)
      requires at == I.AwaitingToken(cont)
      modifies this
      ensures |script| <= |old(script)|
      ensures match flow
              case Blocked => script == [] && From(State()) == old(From(State()))
              case Ends => at == I.Ending && From(State()) == old(From(State()))
              case GoesOn =>
                && |script| < |old(script)|
                && if c.Some? then From(I.AdoptClient(State(), c.value, cont)) == old(From(State()))
                   else From(I.FailRound(conf, State(), cont)) == old(From(State()))
    {
      hide I.FailRound, I.AdoptClient;
      flow := AcquireSem(cont);
      if !flow.GoesOn? {
        return None, flow;
      }
      var m := Next();
      if m.None? {
        return None, Blocked;
      }
      if m.value.BuildFails? {
        return None, GoesOn;
      }
      var built := clients.made;
      clients := clients.(made := built + 1, open := clients.open + {built});
      at := I.Starting(built, cont);
      var ok;
      ok, flow := StartClient(built, cont);
      return if ok then Some(built) else None, flow;
    }

    /** The top of a round: close the old client, give up the state if told to, wait if told to. */
    method OpenRound(keep: bool, delay: int, cont: I.Cont) returns (w: Wait)
      modifies this
      ensures |script| <= |old(script)|
      ensures From(State()) == old(From(I.EnterRound(State(), keep, delay, cont)))
      ensures match w
              case Elapsed => at == I.Provisioning(cont)
              case Interrupted => at == I.Ending
              case StillWaiting => script == []
    {
      CloseClient();
      if !keep {
        RemoveState();
        NextEndpoint();
      }
      if delay > 0 {
        at := I.Waiting(delay, I.ForRound(cont));
        w := WaitBackoff(delay, I.ForRound(cont));
      } else {
        at := I.Provisioning(cont);
        return Elapsed;
      }
    }

    /** A started client becomes the current one. */
    method Adopt(c: nat, cont: I.Cont)
      modifies this`clients, this`at, this`reporting
      ensures State() == old(I.AdoptClient(State(), c, cont))
    {
      clients := clients.(current := Some(c));
      WatchRun();
      if cont.ThenProbe? {
        at := I.ProbingEgress;
      } else {
        at := I.Emitting(I.Replayed, I.ToProbe);
        reporting := I.Departed(reporting);
      }
    }

    method FailedRound() returns (delay: int)
      modifies this`effort
      ensures delay == old(I.NextDelay(conf, effort))
      ensures effort == old(I.RoundFailed(effort))
    {
      effort := effort.(call := effort.call.(failed := effort.call.failed + 1));
      delay := BackoffDelay();
    }

    /** Credential, token, build, start: one round after its wait. */
    method TryRound(cont: I.Cont) returns (c: Option<nat>, flow: Flow)
      requires at == I.Provisioning(cont)
      modifies this
      ensures |script| <= |old(script)|
      ensures match flow
              case Blocked => script == [] && From(State()) == old(From(State()))
              case Ends => at == I.Ending && From(State()) == old(From(State()))
              case GoesOn =>
                && |script| < |old(script)|
                && if c.Some? then From(I.AdoptClient(State(), c.value, cont)) == old(From(State()))
                   else From(I.FailRound(conf, State(), cont)) == old(From(State()))
    {
      var ok, w := ProvisionCredential(cont);
      if w.StillWaiting? {
        return None, Blocked;
      }
      if !ok {
        return None, GoesOn;
      }
      c, flow := StartUnderSem(cont);
    }

    /** Retry until a client runs; after a failure the state is given up and the wait grows. */
    method EnsureClient(keepState: bool, firstDelay: int, cont: I.Cont) returns (flow: Flow)
      modifies this
      ensures |script| <= |old(script)|
      ensures From(State()) == old(From(I.EnterEnsure(State(), keepState, firstDelay, cont)))
      ensures match flow
              case Blocked => script == []
              case Ends => at == I.Ending
              case GoesOn => at == if cont.ThenProbe? then I.ProbingEgress else I.Emitting(I.Replayed, I.ToProbe)
    {
      var keep, delay := keepState, firstDelay;
      effort := I.Called(effort, keepState);
      while true
        invariant |script| <= |old(script)|
        invariant From(I.EnterRound(State(), keep, delay, cont))
               == old(From(I.EnterEnsure(State(), keepState, firstDelay, cont)))
        decreases |script|
      {
        var w := OpenRound(keep, delay, cont);
        if w.StillWaiting? {
          return Blocked;
        }
        if w.Interrupted? {
          return Ends;
        }
        var c, f := TryRound(cont);
        if !f.GoesOn? {
          return f;
        }
        if c.Some? {
          Adopt(c.value, cont);
          return GoesOn;
        }
        keep := false;
        delay := FailedRound();
      }
    }

    // ----- reports and events -----

    /** Report an event, or give up once the context is cancelled. */
    method Emit(ev: I.Event, next: I.AfterEmit) returns (flow: Flow)
      requires at == I.Emitting(ev, next)
      modifies this
      ensures |script| <= |old(script)|
      ensures match flow
              case Blocked => script == [] && From(State()) == old(From(State()))
              case Ends => false
              case GoesOn => From(I.AfterEmitting(conf, State(), next)) == old(From(State()))
    {
      var m := Next();
      if m.None? {
        return Blocked;
      }
      if m.value.Sent? {
        reporting := reporting.(emitted := reporting.emitted + [ev]);
      }
      return GoesOn;
    }

    /** Probe once and report, even an empty egress. */
    method ProbeAndReport() returns (flow: Flow)
      requires at == I.ProbingEgress
      modifies this
      ensures |script| <= |old(script)|
      ensures From(State()) == old(From(State()))
      ensures flow.Blocked? ==> script == []
      ensures !flow.Blocked? ==> flow.GoesOn? && at == I.Main
    {
      var m := Next();
      if m.None? {
        return Blocked;
      }
      var eg := m.value.eg;
      if eg != NO_EGRESS {
        reporting := reporting.(egress := eg);
      }
      reporting := reporting.(awaitConfirm := true, reports := reporting.reports + 1, last := eg, departed := false);
      at := I.Emitting(I.Ready(eg), I.ToMain);
      flow := Emit(I.Ready(eg), I.ToMain);
      if flow.GoesOn? {
        at := I.Main;
      }
    }

    // ----- commands -----

    method Confirm(answers: nat)
      modifies this`reporting, this`status, this`effort, this`at
      ensures State() == old(I.HandleConfirm(State(), answers))
    {
      at := I.Main;
      reporting := reporting.(awaitConfirm := false,
                              confirmed := if answers > reporting.confirmed then answers else reporting.confirmed);
      if status == Probing {
        status := Normal;
        effort := effort.(backoffN := 0);
      }
    }

    /** A Stop that arrives during this wait ends the wait and nothing else. */
    method Reprobe() returns (flow: Flow)
      modifies this
      ensures |script| <= |old(script)|
      ensures From(State()) == old(From(I.HandleReprobe(conf, State())))
      ensures flow.Blocked? ==> script == []
      ensures !flow.Blocked? ==> flow.GoesOn? && at == I.Main
    {
      at := I.Main;
      if status == Probing {
        var d := BackoffDelay();
        at := I.Waiting(d, I.ForReprobe);
        var w := WaitBackoff(d, I.ForReprobe);
        if w.StillWaiting? {
          return Blocked;
        }
        if w.Elapsed? {
          flow := ProbeAndReport();
          return;
        }
      }
      return GoesOn;
    }

    /** Once replayed: report, probe. */
    method AnnounceReplay() returns (flow: Flow)
      requires at == I.Emitting(I.Replayed, I.ToProbe)
      modifies this
      ensures |script| <= |old(script)|
      ensures From(State()) == old(From(State()))
      ensures Returned(flow)
    {
      flow := Emit(I.Replayed, I.ToProbe);
      if !flow.GoesOn? {
        return;
      }
      at := I.ProbingEgress;
      flow := ProbeAndReport();
    }

    method Replay() returns (flow: Flow)
      modifies this
      ensures |script| <= |old(script)|
      ensures From(State()) == old(From(I.HandleReplay(conf, State())))
      ensures Returned(flow)
    {
      hide I.Closed, I.Rotated, I.NextDelay;
      at := I.Main;
      if status == Probing || status == Normal {
        DelayReadsOnlyTheCounter(conf, effort, effort.(replays := effort.replays + 1));
        effort := effort.(replays := effort.replays + 1);
        status := Probing;
        var d := BackoffDelay();
        assert I.EnterEnsure(State(), false, d, I.ThenReplayed) == old(I.HandleReplay(conf, State()));
        flow := EnsureClient(false, d, I.ThenReplayed);
        if flow.GoesOn? {
          flow := AnnounceReplay();
        }
        return;
      }
      return GoesOn;
    }

    /** What a handler leaves behind: back in the main loop, over, or blocked with nothing left to happen. */
    ghost predicate Returned(flow: Flow)
      reads this`script, this`at
    {
      match flow
      case GoesOn => at == I.Main
      case Ends => at == I.Ending
      case Blocked => script == []
    }

    /** The timer, the context or a Stop or Disable ends a drain; other commands are parked. */
    method DrainLoop() returns (flow: Flow)
      requires at == I.DrainWait
      modifies this
      ensures |script| <= |old(script)|
      ensures From(State()) == old(From(State()))
      ensures Returned(flow) || (flow.GoesOn? && at == I.Emitting(I.Drained, I.ToReregister))
    {
      while true
        invariant at == I.DrainWait
        invariant |script| <= |old(script)|
        invariant From(State()) == old(From(State()))
        decreases |script|
      {
        var m := Next();
        if m.None? {
          return Blocked;
        }
        match m.value {
          case TimerFires =>
            status := Probing;
            at := I.Emitting(I.Drained, I.ToReregister);
            reporting := I.Departed(reporting);
            return GoesOn;
          case CtxDone =>
            at := I.Ending;
            return Ends;
          case Receive =>
            var c := queue.cmds[0];
            queue := queue.(cmds := queue.cmds[1..]);
            if c.cmd == I.Stop {
              queue := queue.(overtaken := queue.overtaken + [c]);
              at := I.Ending;
              return Ends;
            }
            if c.cmd == I.Disable {
              queue := queue.(overtaken := queue.overtaken + [c]);
              status := Disabled;
              CloseClient();
              at := I.Main;
              return GoesOn;
            }
            queue := queue.(pending := queue.pending + [c]);
        }
      }
    }

    /** Once drained: report, register anew with a backoff, probe. */
    method Reregister() returns (flow: Flow)
      requires at == I.Emitting(I.Drained, I.ToReregister)
      modifies this
      ensures |script| <= |old(script)|
      ensures From(State()) == old(From(State()))
      ensures Returned(flow)
    {
      flow := Emit(I.Drained, I.ToReregister);
      if !flow.GoesOn? {
        return;
      }
      var d := BackoffDelay();
      flow := EnsureClient(false, d, I.ThenProbe);
      if flow.GoesOn? {
        flow := ProbeAndReport();
      }
    }

    method DrainCommand() returns (flow: Flow)
      modifies this
      ensures |script| <= |old(script)|
      ensures From(State()) == old(From(I.HandleDrain(State())))
      ensures Returned(flow)
    {
      at := I.Main;
      if status == Probing || status == Normal {
        status := Draining;
        at := I.DrainWait;
        flow := DrainLoop();
        if flow.GoesOn? && at.Emitting? {
          flow := Reregister();
        }
        return;
      }
      return GoesOn;
    }

    method Disable() returns (flow: Flow)
      modifies this
      ensures |script| <= |old(script)|
      ensures From(State()) == old(From(I.HandleDisable(State())))
      ensures Returned(flow)
    {
      at := I.Main;
      if status != Disabled {
        status := Disabled;
        CloseClient();
        at := I.Emitting(I.DisabledNow, I.ToMain);
        reporting := I.Departed(reporting);
        flow := Emit(I.DisabledNow, I.ToMain);
        if flow.GoesOn? {
          at := I.Main;
        }
        return;
      }
      return GoesOn;
    }

    method Enable() returns (flow: Flow)
      modifies this
      ensures |script| <= |old(script)|
      ensures From(State()) == old(From(I.HandleEnable(State())))
      ensures Returned(flow)
    {
      at := I.Main;
      if status == Disabled {
        status := Probing;
        flow := EnsureClient(true, 0, I.ThenProbe);
        if flow.GoesOn? {
          flow := ProbeAndReport();
        }
        return;
      }
      return GoesOn;
    }

    method Handle(c: I.Command) returns (flow: Flow)
      modifies this
      ensures |script| <= |old(script)|
      ensures From(State()) == old(From(I.Handle(conf, State(), c)))
      ensures Returned(flow)
    {
      match c {
        case Confirm(n) =>
          Confirm(n);
          return GoesOn;
        case Reprobe => flow := Reprobe();
        case Replay => flow := Replay();
        case Drain => flow := DrainCommand();
        case Disable => flow := Disable();
        case Enable => flow := Enable();
        case Stop =>
          at := I.Ending;
          return Ends;
      }
    }

    /** A lost tunnel: report it, reconnect with the same state, probe. */
    method HandleLost() returns (flow: Flow)
      modifies this
      ensures |script| <= |old(script)|
      ensures From(State()) == old(From(I.HandleLost(State())))
      ensures Returned(flow)
    {
      status := Probing;
      at := I.Emitting(I.Lost, I.ToReconnect);
      reporting := I.Departed(reporting);
      flow := Emit(I.Lost, I.ToReconnect);
      if !flow.GoesOn? {
        return;
      }
      flow := EnsureClient(true, 0, I.ThenProbe);
      if flow.GoesOn? {
        flow := ProbeAndReport();
      }
    }

    // ----- the main loop -----

    /** One turn of the main loop: parked commands first, then whichever channel is ready. */
    method Turn() returns (flow: Flow)
      requires at == I.Main
      modifies this
      ensures From(State()) == old(From(State()))
      ensures Returned(flow)
      ensures flow.Blocked? || |script| < |old(script)|
    {
      var m := Next();
      if m.None? {
        return Blocked;
      }
      match m.value {
        case TakePending =>
          var c := queue.pending[0];
          queue := I.HandledPending(queue);
          flow := Handle(c.cmd);
        case CtxDone =>
          at := I.Ending;
          return Ends;
        case TakeSignal =>
          var g := clients.runExit[0];
          clients := clients.(runExit := clients.runExit[1..]);
          if g == clients.gen {
            clients := clients.(lost := clients.lost + [g]);
            flow := HandleLost();
          } else {
            return GoesOn;
          }
        case Receive =>
          var c := queue.cmds[0];
          queue := I.HandledReceived(queue);
          flow := Handle(c.cmd);
      }
    }

    /** The management goroutine up to its end. */
    method Manage() returns (flow: Flow)
      modifies this
      ensures From(State()) == old(From(I.EnterEnsure(State(), true, 0, I.ThenProbe)))
      ensures Returned(flow) && !flow.GoesOn?
    {
      flow := EnsureClient(true, 0, I.ThenProbe);
      if !flow.GoesOn? {
        return;
      }
      flow := ProbeAndReport();
      if !flow.GoesOn? {
        return;
      }
      while true
        invariant at == I.Main
        invariant From(State()) == old(From(I.EnterEnsure(State(), true, 0, I.ThenProbe)))
        decreases |script|
      {
        flow := Turn();
        if !flow.GoesOn? {
          return;
        }
      }
    }

    /** Release everything: no further command is accepted, the client is closed, the state deleted. */
    method Finalize() returns (done: bool)
      requires at == I.Ending
      modifies this
      ensures From(State()) == old(From(State()))
      ensures if done then at == I.Finalized else script == []
    {
      var m := Next();
      if m.None? {
        return false;
      }
      stopped, cancelled := true, true;
      CloseClient();
      RemoveState();
      at := I.Finalized;
      return true;
    }

    /** After the loop: release everything, and report the end without waiting for room. */
    method RecoverManage()
      requires at == I.Ending
      modifies this
      ensures script == [] && State() == old(From(State()))
    {
      var done := Finalize();
      if !done {
        return;
      }
      var m := Next();
      if m.None? {
        return;
      }
      if m.value.StoppedSent? {
        reporting := reporting.(emitted := reporting.emitted + [I.Stopped]);
      }
      at := I.Gone;
      m := Next();
    }
  }

  lemma DelayReadsOnlyTheCounter(conf: I.Config, e: I.Effort, f: I.Effort)
    requires e.backoffN == f.backoffN
    ensures I.NextDelay(conf, e) == I.NextDelay(conf, f)
  {
  }

  /** The code is the machine: a new instance run over any script ends where the machine ends. */
  method Live(endpointIdx: nat, conf: I.Config, script: seq<I.Move>) returns (final: I.Inst)
    ensures final == I.Run(conf, I.NewInst(endpointIdx), script)
  {
    var inst := new Instance(endpointIdx, conf, script);
    var flow := inst.Manage();
    if flow.Ends? {
      inst.RecoverManage();
    }
    final := inst.State();
  }
}
