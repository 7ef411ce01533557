/** What every run of one instance keeps, whatever the other goroutines do. */
module InstanceSafety {
  import opened Wrappers
  import opened Types
  import opened Instances

  // ----- commands: one queue -----

  /** Every accepted command that did not overtake, in the one order in which they are handled. */
  function Line(q: Queue): seq<Queued> {
    q.handled + q.pending + q.cmds
  }

  ghost predicate InOrder(line: seq<Queued>) {
    forall i, j :: 0 <= i < j < |line| ==> line[i].n < line[j].n
  }

  ghost predicate Has(line: seq<Queued>, n: nat) {
    exists i :: 0 <= i < |line| && line[i].n == n
  }

  /** Nothing accepted is lost, duplicated or reordered: each number is either in the line, which is
      in order of acceptance, or overtook, and only a Stop or a Disable overtakes. */
  ghost predicate QueueInv(q: Queue) {
    && InOrder(Line(q))
    && (forall i :: 0 <= i < |Line(q)| ==> Line(q)[i].n < q.accepted)
    && (forall n: nat :: n < q.accepted ==> Has(Line(q), n) || Has(q.overtaken, n))
    && (forall n: nat :: Has(q.overtaken, n) ==> n < q.accepted && !Has(Line(q), n))
    && (forall i :: 0 <= i < |q.overtaken| ==> q.overtaken[i].cmd == Stop || q.overtaken[i].cmd == Disable)
  }

  lemma HasAppend(line: seq<Queued>, x: Queued, n: nat)
    ensures Has(line + [x], n) <==> Has(line, n) || x.n == n
  {
    var longer := line + [x];
    if Has(line, n) {
      var i :| 0 <= i < |line| && line[i].n == n;
      assert longer[i].n == n;
    }
    if x.n == n {
      assert longer[|line|].n == n;
    }
  }

  lemma HasDelete(line: seq<Queued>, at: nat, n: nat)
    requires at < |line| && InOrder(line)
    ensures Has(line[..at] + line[at + 1..], n) <==> Has(line, n) && n != line[at].n
  {
    var shorter := line[..at] + line[at + 1..];
    if Has(line, n) && n != line[at].n {
      var i :| 0 <= i < |line| && line[i].n == n;
      assert shorter[if i < at then i else i - 1].n == n;
    }
    if Has(shorter, n) {
      var i :| 0 <= i < |shorter| && shorter[i].n == n;
      assert line[if i < at then i else i + 1].n == n;
    }
  }

  lemma PushedKeepsQueue(q: Queue, c: Command)
    requires QueueInv(q)
    ensures QueueInv(Pushed(q, c))
  {
    var p := Pushed(q, c);
    var x := Queued(c, q.accepted);
    assert Line(p) == Line(q) + [x];
    forall n: nat
      ensures Has(Line(p), n) <==> Has(Line(q), n) || x.n == n
    {
      HasAppend(Line(q), x, n);
    }
  }

  lemma ParkedKeepsQueue(q: Queue)
    requires QueueInv(q) && q.cmds != []
    ensures QueueInv(Parked(q))
  {
    assert q.cmds == [q.cmds[0]] + q.cmds[1..];
    assert Line(Parked(q)) == Line(q);
  }

  lemma HandledKeepsQueue(q: Queue)
    requires QueueInv(q)
    ensures q.pending != [] ==> QueueInv(HandledPending(q))
    ensures q.pending == [] && q.cmds != [] ==> QueueInv(HandledReceived(q))
  {
    if q.pending != [] {
      assert q.pending == [q.pending[0]] + q.pending[1..];
      assert Line(HandledPending(q)) == Line(q);
    } else if q.cmds != [] {
      assert q.cmds == [q.cmds[0]] + q.cmds[1..];
      assert Line(HandledReceived(q)) == Line(q);
    }
  }

  lemma OvertakingKeepsQueue(q: Queue)
    requires QueueInv(q) && q.cmds != []
    requires q.cmds[0].cmd == Stop || q.cmds[0].cmd == Disable
    ensures QueueInv(Overtaking(q))
  {
    var o := Overtaking(q);
    var at := |q.handled| + |q.pending|;
    var x := q.cmds[0];
    assert Line(q)[at] == x;
    assert Line(o) == Line(q)[..at] + Line(q)[at + 1..];
    assert Has(Line(q), x.n);
    forall n: nat
      ensures Has(Line(o), n) <==> Has(Line(q), n) && n != x.n
      ensures Has(o.overtaken, n) <==> Has(q.overtaken, n) || x.n == n
    {
      HasDelete(Line(q), at, n);
      HasAppend(q.overtaken, x, n);
    }
  }

  // ----- generations -----

  ghost predicate Increasing(q: seq<nat>) {
    forall i, j :: 0 <= i < j < |q| ==> q[i] < q[j]
  }

  /** A generation that can still signal is current only while a client is, and has not been lost before. */
  ghost predicate CanSignal(k: Clients, g: nat) {
    && g <= k.gen
    && (g == k.gen ==> k.current.Some?)
    && (forall i :: 0 <= i < |k.lost| ==> k.lost[i] != g)
  }

  ghost predicate GenInv(k: Clients) {
    && (forall g :: g in k.watchers ==> CanSignal(k, g))
    && (forall i :: 0 <= i < |k.runExit| ==> CanSignal(k, k.runExit[i]) && k.runExit[i] !in k.watchers)
    && (forall i, j :: 0 <= i < j < |k.runExit| ==> k.runExit[i] != k.runExit[j])
    && Increasing(k.lost)
    && (forall i :: 0 <= i < |k.lost| ==> k.lost[i] <= k.gen)
  }

  lemma ClosedKeepsGen(k: Clients)
    requires GenInv(k)
    ensures GenInv(Closed(k))
  {
    assert forall g :: CanSignal(k, g) ==> CanSignal(Closed(k), g);
  }

  lemma AdoptedKeepsGen(k: Clients, c: nat)
    requires GenInv(k)
    ensures GenInv(Adopted(k, c))
  {
    assert forall g :: CanSignal(k, g) ==> CanSignal(Adopted(k, c), g);
    assert CanSignal(Adopted(k, c), k.gen + 1);
  }

  lemma ExitedKeepsGen(k: Clients, g: nat)
    requires GenInv(k) && g in k.watchers
    ensures GenInv(Exited(k, g))
  {
    assert forall h :: CanSignal(k, h) ==> CanSignal(Exited(k, g), h);
  }

  lemma TakenKeepsGen(k: Clients)
    requires GenInv(k) && k.runExit != []
    ensures GenInv(k.(runExit := k.runExit[1..]))
    ensures k.runExit[0] == k.gen ==> GenInv(k.(runExit := k.runExit[1..], lost := k.lost + [k.gen]))
  {
    var quiet := k.(runExit := k.runExit[1..]);
    assert forall g :: CanSignal(k, g) ==> CanSignal(quiet, g);
    if k.runExit[0] == k.gen {
      assert CanSignal(k, k.runExit[0]);
      var heard := quiet.(lost := k.lost + [k.gen]);
      assert forall g :: CanSignal(k, g) && g != k.gen ==> CanSignal(heard, g);
    }
  }

  // ----- places -----

  predicate InEnsure(pc: Pc) {
    match pc
    case Waiting(_, what) => what.ForRound?
    case Provisioning(_) => true
    case AwaitingToken(_) => true
    case Building(_) => true
    case Starting(_, _) => true
    case _ => false
  }

  predicate Ended(pc: Pc) {
    pc.Finalized? || pc.Gone?
  }

  /** What the management goroutine does once an event is out. */
  function Following(ev: Event): AfterEmit {
    match ev
    case Lost => ToReconnect
    case Drained => ToReregister
    case Replayed => ToProbe
    case _ => ToMain
  }

  /** The status seen from outside fits the place in the code. */
  ghost predicate StatusInv(s: Inst) {
    match s.pc
    case Main => s.status != Draining
    case Waiting(_, _) => s.status == Probing
    case DrainWait => s.status == Draining
    case Emitting(ev, next) =>
      && !ev.Stopped?
      && s.status == (if ev == DisabledNow then Disabled else Probing)
      && next == Following(ev)
    case ProbingEgress => s.status == Probing
    case _ => InEnsure(s.pc) ==> s.status == Probing
  }

  function BeingStarted(pc: Pc): set<nat> {
    match pc
    case Starting(c, _) => {c}
    case _ => {}
  }

  /** Every client the factory made is the current one, the one being started, or closed. */
  ghost predicate ClientInv(s: Inst) {
    var k := s.clients;
    && k.open == AsSet(k.current) + BeingStarted(s.pc)
    && (InEnsure(s.pc) || Ended(s.pc) || s.status == Disabled ==> k.current == None)
    && (forall c :: c in k.open ==> c < k.made)
  }

  function Extra(keep: bool): nat {
    if keep then 0 else 1
  }

  /** In a round, the endpoint, the deletions and the backoff counter have moved once per failed
      round, plus the one rotation and deletion of a call that was told to give up the state. */
  ghost predicate CallInv(e: Effort) {
    && e.epIdx == e.call.epIdx + e.call.failed + Extra(e.call.keep)
    && e.deletions == e.call.deletions + e.call.failed + Extra(e.call.keep)
    && e.backoffN == e.call.backoffN + e.call.failed
  }

  /** A departure carries the number of the latest report before it. */
  predicate DepartureNumbered(r: Reporting) {
    if r.departed then r.departedAt == r.reports else r.departedAt < r.reports || r.departedAt == 0
  }

  /** After an event that releases the key, and before the next report, the instance is not Normal,
      and no Confirm can make it so. */
  ghost predicate DepartInv(s: Inst) {
    && (s.reporting.departed ==>
          match s.status
          case Disabled => true
          case Probing => !s.pc.Main? && !s.pc.DrainWait? && !(s.pc.Waiting? && s.pc.what.ForReprobe?)
          case _ => false)
    && (s.pc.Emitting? ==> (s.reporting.departed <==> !s.pc.ev.Ready?))
    && DepartureNumbered(s.reporting)
  }

  ghost predicate Safe(s: Inst) {
    && StatusInv(s)
    && ClientInv(s)
    && DepartInv(s)
    && (InEnsure(s.pc) ==> CallInv(s.effort))
    && GenInv(s.clients)
    && QueueInv(s.queue)
  }

  /** What the sequential pieces need, wherever they are called from. */
  ghost predicate Sound(s: Inst) {
    && s.clients.open == AsSet(s.clients.current)
    && (forall c :: c in s.clients.open ==> c < s.clients.made)
    && DepartureNumbered(s.reporting)
    && GenInv(s.clients)
    && QueueInv(s.queue)
  }

  lemma EnterRoundSafe(s: Inst, keep: bool, delay: int, cont: Cont)
    requires Sound(s) && s.status == Probing && CallInv(Rotated(s.effort, keep))
    ensures Safe(EnterRound(s, keep, delay, cont))
  {
    ClosedKeepsGen(s.clients);
  }

  lemma EnterEnsureSafe(s: Inst, keep: bool, delay: int, cont: Cont)
    requires Sound(s) && s.status == Probing
    ensures Safe(EnterEnsure(s, keep, delay, cont))
  {
    EnterRoundSafe(s.(effort := Called(s.effort, keep)), keep, delay, cont);
  }

  lemma FailRoundSafe(conf: Config, s: Inst, cont: Cont)
    requires Sound(s) && s.status == Probing && CallInv(s.effort)
    ensures Safe(FailRound(conf, s, cont))
  {
    EnterRoundSafe(s.(effort := RoundFailed(s.effort)), false, NextDelay(conf, s.effort), cont);
  }

  lemma AfterEmittingSafe(conf: Config, s: Inst, next: AfterEmit)
    requires Sound(s)
    requires if next.ToMain? then
               (s.status == Probing && !s.reporting.departed) || (s.status == Disabled && s.clients.current == None)
             else s.status == Probing
    ensures Safe(AfterEmitting(conf, s, next))
  {
    match next {
      case ToMain =>
      case ToProbe =>
      case ToReconnect => EnterEnsureSafe(s, true, 0, ThenProbe);
      case ToReregister =>
        EnterEnsureSafe(s.(effort := Backed(s.effort)), false, NextDelay(conf, s.effort), ThenProbe);
    }
  }

  lemma OutsideSafe(s: Inst, m: Move)
    requires Safe(s) && FromOutside(m)
    requires m.RunExits? ==> m.gen in s.clients.watchers
    ensures Safe(StepOutside(s, m))
  {
    match m {
      case Accept(c) => PushedKeepsQueue(s.queue, c);
      case RunExits(g) => ExitedKeepsGen(s.clients, g);
      case Cancel =>
      case EgressRead(eg) =>
    }
  }

  lemma HandleSafe(conf: Config, s: Inst, c: Command)
    requires Safe(s) && s.pc.Main?
    ensures Safe(Handle(conf, s, c))
  {
    hide NextDelay, QueueInv;
    match c {
      case Confirm(n) =>
      case Reprobe =>
      case Replay =>
        if s.status == Probing || s.status == Normal {
          EnterEnsureSafe(s.(status := Probing, effort := Backed(s.effort).(replays := s.effort.replays + 1)),
                          false, NextDelay(conf, s.effort), ThenReplayed);
        }
      case Drain =>
      case Disable => ClosedKeepsGen(s.clients);
      case Enable =>
        if s.status == Disabled {
          EnterEnsureSafe(s.(status := Probing), true, 0, ThenProbe);
        }
      case Stop =>
    }
  }

  lemma MainSafe(conf: Config, s: Inst, m: Move)
    requires Safe(s) && s.pc.Main? && Enabled(conf, s, m)
    ensures Safe(StepMain(conf, s, m))
  {
    match m {
      case TakePending =>
        HandledKeepsQueue(s.queue);
        HandleSafe(conf, s.(queue := HandledPending(s.queue)), s.queue.pending[0].cmd);
      case Receive =>
        HandledKeepsQueue(s.queue);
        HandleSafe(conf, s.(queue := HandledReceived(s.queue)), s.queue.cmds[0].cmd);
      case TakeSignal => TakenKeepsGen(s.clients);
      case _ =>
    }
  }

  lemma WaitingSafe(conf: Config, s: Inst, m: Move)
    requires Safe(s) && s.pc.Waiting? && Enabled(conf, s, m)
    ensures Safe(StepWaiting(conf, s, s.pc.what, m))
  {
    if m == Receive {
      if s.queue.cmds[0].cmd == Stop {
        OvertakingKeepsQueue(s.queue);
      } else {
        ParkedKeepsQueue(s.queue);
      }
    }
  }

  lemma DrainingSafe(conf: Config, s: Inst, m: Move)
    requires Safe(s) && s.pc.DrainWait? && Enabled(conf, s, m)
    ensures Safe(StepDraining(conf, s, m))
  {
    if m == Receive {
      if s.queue.cmds[0].cmd == Stop || s.queue.cmds[0].cmd == Disable {
        OvertakingKeepsQueue(s.queue);
        ClosedKeepsGen(s.clients);
      } else {
        ParkedKeepsQueue(s.queue);
      }
    }
  }

  lemma RoundSafe(conf: Config, s: Inst, m: Move)
    requires Safe(s) && Enabled(conf, s, m) && !FromOutside(m)
    requires s.pc.Provisioning? || s.pc.AwaitingToken? || s.pc.Building?
    ensures Safe(Step(conf, s, m))
  {
    if m == CredentialFails || m == BuildFails {
      FailRoundSafe(conf, s, s.pc.cont);
    } else if m == BuildOk {
      BuildOkKeepsGen(s.clients);
    }
  }

  lemma BuildOkKeepsGen(k: Clients)
    requires GenInv(k)
    ensures GenInv(k.(made := k.made + 1, open := k.open + {k.made}))
  {
  }

  lemma StartingSafe(conf: Config, s: Inst, m: Move)
    requires Safe(s) && s.pc.Starting? && Enabled(conf, s, m)
    ensures Safe(StepStarting(conf, s, s.pc.started, s.pc.cont, m))
  {
    hide NextDelay, QueueInv, FailRound;
    match m {
      case StartFails =>
        var closed := s.(clients := s.clients.(open := s.clients.open - {s.pc.started}));
        assert GenInv(closed.clients);
        FailRoundSafe(conf, closed, s.pc.cont);
      case StartOk => AdoptedKeepsGen(s.clients, s.pc.started);
      case _ =>
    }
  }

  lemma ReportingSafe(conf: Config, s: Inst, m: Move)
    requires Safe(s) && Enabled(conf, s, m) && !FromOutside(m)
    requires s.pc.ProbingEgress? || s.pc.Emitting?
    ensures Safe(Step(conf, s, m))
  {
    if m == Sent {
      AfterEmittingSafe(conf, s.(reporting := s.reporting.(emitted := s.reporting.emitted + [s.pc.ev])), s.pc.next);
    } else if m == CtxDone {
      AfterEmittingSafe(conf, s, s.pc.next);
    }
  }

  lemma EndingSafe(conf: Config, s: Inst, m: Move)
    requires Safe(s) && Enabled(conf, s, m) && !FromOutside(m)
    requires s.pc.Ending? || Ended(s.pc)
    ensures Safe(StepEnding(s, m))
  {
    ClosedKeepsGen(s.clients);
  }

  /** Every step of an instance keeps all of it. */
  lemma StepSafe(conf: Config, s: Inst, m: Move)
    requires Safe(s)
    ensures Safe(Step(conf, s, m))
  {
    if Enabled(conf, s, m) {
      if FromOutside(m) {
        OutsideSafe(s, m);
      } else {
        match s.pc {
          case Main => MainSafe(conf, s, m);
          case Waiting(_, _) => WaitingSafe(conf, s, m);
          case DrainWait => DrainingSafe(conf, s, m);
          case Starting(_, _) => StartingSafe(conf, s, m);
          case ProbingEgress => ReportingSafe(conf, s, m);
          case Emitting(_, _) => ReportingSafe(conf, s, m);
          case Ending => EndingSafe(conf, s, m);
          case Finalized => EndingSafe(conf, s, m);
          case Gone => EndingSafe(conf, s, m);
          case _ => RoundSafe(conf, s, m);
        }
      }
    }
  }

  lemma BlankIsSound(endpointIdx: nat)
    ensures Sound(Blank(endpointIdx))
  {
    var s := Blank(endpointIdx);
    assert Line(s.queue) == [];
    assert forall n: nat :: !Has(s.queue.overtaken, n);
  }

  lemma NewInstSafe(endpointIdx: nat)
    ensures Safe(NewInst(endpointIdx))
  {
    BlankIsSound(endpointIdx);
    EnterEnsureSafe(Blank(endpointIdx), true, 0, ThenProbe);
  }

  /** Every state that a new instance can reach is safe. */
  lemma {:induction false} RunSafe(conf: Config, s: Inst, moves: seq<Move>)
    requires Safe(s)
    ensures Safe(Run(conf, s, moves))
    decreases |moves|
  {
    if moves != [] {
      StepSafe(conf, s, moves[0]);
      RunSafe(conf, Step(conf, s, moves[0]), moves[1..]);
    }
  }
}
