/** One instance as a machine of steps. A step is what the management goroutine does between two
    points where it can block, or something another goroutine does to it in the meantime: a command
    accepted by `send`, the Run of a client returning, the cancellation of the context, or a valid
    egress stored by the coordinator's check. */
module Instances {
  import opened Wrappers
  import opened Types
  import opened EgressKeys
  import B = Backoff

  const CMD_CAPACITY: nat := 16
  const RUN_EXIT_CAPACITY: nat := 2

  /** A Confirm carries, as history only, the number of the report the pool had accepted. */
  datatype Command = Confirm(answers: nat) | Reprobe | Replay | Drain | Disable | Enable | Stop

  /** A command accepted by `send`, with its place in the order of acceptance. */
  datatype Queued = Queued(cmd: Command, n: nat)

  datatype Event = Ready(egress: Egress) | Lost | Drained | Replayed | DisabledNow | Stopped

  /** What the caller of `ensureClient` does once a client runs. */
  datatype Cont = ThenProbe | ThenReplayed

  datatype WaitFor = ForRound(cont: Cont) | ForReprobe

  datatype AfterEmit = ToMain | ToProbe | ToReconnect | ToReregister

  /** Where the management goroutine is blocked. */
  datatype Pc =
    | Main
    | Waiting(delay: int, what: WaitFor)
    | Provisioning(cont: Cont)
    | AwaitingToken(cont: Cont)
    | Building(cont: Cont)
    | Starting(started: nat, cont: Cont)
    | ProbingEgress
    | Emitting(ev: Event, next: AfterEmit)
    | DrainWait
    | Ending
    | Finalized
    | Gone

  /** History of the current or latest `ensureClient` call: what it was asked, the counters when it
      was entered, and how many of its rounds have failed. */
  datatype EnsureCall = EnsureCall(keep: bool, epIdx: nat, deletions: nat, backoffN: nat, failed: nat)

  /** The clients of an instance: the current one and its generation, the queued loss signals, and
      outside it how many the factory made, which are unclosed, whose Run has not returned. */
  datatype Clients = Clients(current: Option<nat>, gen: nat, runExit: seq<nat>,
                             made: nat, open: set<nat>, watchers: set<nat>,
                             lost: seq<nat>)

  /** The commands: those parked by a wait, those in the channel, and as history how many `send`
      accepted, which were handled, and which overtook the others. */
  datatype Queue = Queue(pending: seq<Queued>, cmds: seq<Queued>,
                         accepted: nat, handled: seq<Queued>, overtaken: seq<Queued>)

  datatype Effort = Effort(epIdx: nat, backoffN: nat, replays: nat, deletions: nat, call: EnsureCall)

  /** What was reported to the pool; as history the number of reports and the egress of the latest, the
      highest number a handled Confirm answered, whether a releasing event came after the latest, and how
      many reports there were when the latest releasing event came. */
  datatype Reporting = Reporting(egress: Egress, awaitConfirm: bool, emitted: seq<Event>,
                                 reports: nat, last: Egress, confirmed: nat, departed: bool, departedAt: nat)

  datatype Inst = Inst(status: Status, pc: Pc, stopped: bool, cancelled: bool,
                       clients: Clients, queue: Queue, effort: Effort, reporting: Reporting)

  datatype Config = Config(backoffStart: int, backoffMax: int, hasCredentialSource: bool)

  datatype Move =
    // other goroutines
    | Accept(cmd: Command)
    | RunExits(gen: nat)
    | Cancel
    | EgressRead(eg: Egress)
    // the management goroutine
    | TimerFires
    | CtxDone
    | Receive
    | TakePending
    | TakeSignal
    | CredentialFails
    | CredentialReady
    | TakeToken
    | BuildFails
    | BuildOk
    | StartFails
    | StartOk
    | ProbeDone(eg: Egress)
    | Sent
    | Finalize
    | StoppedSent
    | StoppedDropped

  predicate FromOutside(m: Move) {
    m.Accept? || m.RunExits? || m.Cancel? || m.EgressRead?
  }

  predicate HoldsToken(pc: Pc) {
    pc.Building? || pc.Starting?
  }

  predicate Enabled(conf: Config, s: Inst, m: Move) {
    match m
    case Accept(_) => |s.queue.cmds| < CMD_CAPACITY
    case RunExits(g) => g in s.clients.watchers
    case Cancel => true
    case EgressRead(eg) => eg != NO_EGRESS
    case TimerFires => s.pc.Waiting? || s.pc.DrainWait?
    case CtxDone =>
      && s.cancelled
      && (s.pc.Waiting? || s.pc.AwaitingToken? || s.pc.Emitting? || s.pc.DrainWait? || AtSelect(s))
    case Receive => s.queue.cmds != [] && (s.pc.Waiting? || s.pc.DrainWait? || AtSelect(s))
    case TakePending => s.pc.Main? && s.queue.pending != []
    case TakeSignal => AtSelect(s) && s.clients.runExit != []
    case CredentialFails => s.pc.Provisioning? && conf.hasCredentialSource
    case CredentialReady => s.pc.Provisioning?
    case TakeToken => s.pc.AwaitingToken?
    case BuildFails => s.pc.Building?
    case BuildOk => s.pc.Building?
    case StartFails => s.pc.Starting?
    case StartOk => s.pc.Starting?
    case ProbeDone(_) => s.pc.ProbingEgress?
    case Sent => s.pc.Emitting?
    case Finalize => s.pc.Ending?
    case StoppedSent => s.pc.Finalized?
    case StoppedDropped => s.pc.Finalized?
  }

  /** The main loop looks at its channels only once nothing is pending. */
  predicate AtSelect(s: Inst) {
    s.pc.Main? && s.queue.pending == []
  }

  // ----- clients -----

  function AsSet(c: Option<nat>): set<nat> {
    match c
    case None => {}
    case Some(x) => {x}
  }

  function Closed(k: Clients): Clients {
    k.(gen := k.gen + 1, current := None, open := k.open - AsSet(k.current))
  }

  function Adopted(k: Clients, c: nat): Clients {
    k.(current := Some(c), gen := k.gen + 1, watchers := k.watchers + {k.gen + 1})
  }

  function Exited(k: Clients, g: nat): Clients {
    k.(watchers := k.watchers - {g},
       runExit := if |k.runExit| < RUN_EXIT_CAPACITY then k.runExit + [g] else k.runExit)
  }

  // ----- commands -----

  function Pushed(q: Queue, c: Command): Queue {
    q.(cmds := q.cmds + [Queued(c, q.accepted)], accepted := q.accepted + 1)
  }

  function HandledPending(q: Queue): Queue
    requires q.pending != []
  {
    q.(pending := q.pending[1..], handled := q.handled + [q.pending[0]])
  }

  function HandledReceived(q: Queue): Queue
    requires q.cmds != []
  {
    q.(cmds := q.cmds[1..], handled := q.handled + [q.cmds[0]])
  }

  function Parked(q: Queue): Queue
    requires q.cmds != []
  {
    q.(cmds := q.cmds[1..], pending := q.pending + [q.cmds[0]])
  }

  function Overtaking(q: Queue): Queue
    requires q.cmds != []
  {
    q.(cmds := q.cmds[1..], overtaken := q.overtaken + [q.cmds[0]])
  }

  // ----- backoff, endpoint, state -----

  function NextDelay(conf: Config, e: Effort): int {
    B.Delay(conf.backoffStart, conf.backoffMax, e.backoffN)
  }

  function Backed(e: Effort): Effort {
    e.(backoffN := e.backoffN + 1)
  }

  function Called(e: Effort, keep: bool): Effort {
    e.(call := EnsureCall(keep, e.epIdx, e.deletions, e.backoffN, 0))
  }

  function RoundFailed(e: Effort): Effort {
    e.(backoffN := e.backoffN + 1, call := e.call.(failed := e.call.failed + 1))
  }

  function Rotated(e: Effort, keep: bool): Effort {
    if keep then e else e.(deletions := e.deletions + 1, epIdx := e.epIdx + 1)
  }

  // ----- sequential pieces -----

  /** The top of a round of `ensureClient`. */
  function EnterRound(s: Inst, keep: bool, delay: int, cont: Cont): Inst {
    s.(clients := Closed(s.clients), effort := Rotated(s.effort, keep),
       pc := if delay > 0 then Waiting(delay, ForRound(cont)) else Provisioning(cont))
  }

  /** Calling `ensureClient`. */
  function EnterEnsure(s: Inst, keep: bool, delay: int, cont: Cont): Inst {
    EnterRound(s.(effort := Called(s.effort, keep)), keep, delay, cont)
  }

  /** A failed round: the next one waits and gives up the state. */
  function FailRound(conf: Config, s: Inst, cont: Cont): Inst {
    EnterRound(s.(effort := RoundFailed(s.effort)), false, NextDelay(conf, s.effort), cont)
  }

  function Departed(r: Reporting): Reporting {
    r.(departed := true, departedAt := r.reports)
  }

  /** Emitting an event that makes the pool release the key. */
  function Depart(s: Inst, ev: Event, next: AfterEmit): Inst {
    s.(reporting := Departed(s.reporting), pc := Emitting(ev, next))
  }

  function AfterEmitting(conf: Config, s: Inst, next: AfterEmit): Inst {
    match next
    case ToMain => s.(pc := Main)
    case ToProbe => s.(pc := ProbingEgress)
    case ToReconnect => EnterEnsure(s, true, 0, ThenProbe)
    case ToReregister => EnterEnsure(s.(effort := Backed(s.effort)), false, NextDelay(conf, s.effort), ThenProbe)
  }

  /** A client started: it becomes the current one and its Run is watched under a new generation. */
  function AdoptClient(s: Inst, c: nat, cont: Cont): Inst {
    var running := s.(clients := Adopted(s.clients, c));
    match cont
    case ThenProbe => running.(pc := ProbingEgress)
    case ThenReplayed => Depart(running, Replayed, ToProbe)
  }

  function Heard(r: Reporting, answers: nat): Reporting {
    r.(awaitConfirm := false, confirmed := if answers > r.confirmed then answers else r.confirmed)
  }

  function HandleConfirm(s: Inst, answers: nat): Inst {
    var heard := s.(reporting := Heard(s.reporting, answers), pc := Main);
    if s.status == Probing
    then heard.(status := Normal, effort := s.effort.(backoffN := 0))
    else heard
  }

  function HandleReprobe(conf: Config, s: Inst): Inst {
    if s.status == Probing
    then s.(effort := Backed(s.effort), pc := Waiting(NextDelay(conf, s.effort), ForReprobe))
    else s.(pc := Main)
  }

  function HandleReplay(conf: Config, s: Inst): Inst {
    if s.status == Probing || s.status == Normal
    then EnterEnsure(s.(status := Probing, effort := Backed(s.effort).(replays := s.effort.replays + 1)),
                     false, NextDelay(conf, s.effort), ThenReplayed)
    else s.(pc := Main)
  }

  function HandleDrain(s: Inst): Inst {
    if s.status == Probing || s.status == Normal
    then s.(status := Draining, pc := DrainWait)
    else s.(pc := Main)
  }

  function HandleDisable(s: Inst): Inst {
    if s.status != Disabled
    then Depart(s.(status := Disabled, clients := Closed(s.clients)), DisabledNow, ToMain)
    else s.(pc := Main)
  }

  function HandleEnable(s: Inst): Inst {
    if s.status == Disabled
    then EnterEnsure(s.(status := Probing), true, 0, ThenProbe)
    else s.(pc := Main)
  }

  function Handle(conf: Config, s: Inst, c: Command): Inst {
    match c
    case Confirm(n) => HandleConfirm(s, n)
    case Reprobe => HandleReprobe(conf, s)
    case Replay => HandleReplay(conf, s)
    case Drain => HandleDrain(s)
    case Disable => HandleDisable(s)
    case Enable => HandleEnable(s)
    case Stop => s.(pc := Ending)
  }

  function HandleLost(s: Inst): Inst {
    Depart(s.(status := Probing), Lost, ToReconnect)
  }

  /** A loss signal: stale generations are ignored. */
  function TakenSignal(s: Inst): Inst
    requires s.clients.runExit != []
  {
    var k := s.clients;
    var g := k.runExit[0];
    if g == k.gen
    then HandleLost(s.(clients := k.(runExit := k.runExit[1..], lost := k.lost + [g])))
    else s.(clients := k.(runExit := k.runExit[1..]))
  }

  /** A command arrives during a backoff wait. A Stop ends `ensureClient` and with it the instance,
      but ends only the wait when it is the wait of a Reprobe. */
  function ReceiveWaiting(s: Inst, what: WaitFor): Inst
    requires s.queue.cmds != []
  {
    if s.queue.cmds[0].cmd != Stop
    then s.(queue := Parked(s.queue))
    else s.(queue := Overtaking(s.queue), pc := if what.ForReprobe? then Main else Ending)
  }

  /** A command arrives during a drain. Disable reports nothing here, unlike in the main loop. */
  function ReceiveDraining(s: Inst): Inst
    requires s.queue.cmds != []
  {
    match s.queue.cmds[0].cmd
    case Stop => s.(queue := Overtaking(s.queue), pc := Ending)
    case Disable =>
      s.(queue := Overtaking(s.queue), status := Disabled, clients := Closed(s.clients), pc := Main)
    case _ => s.(queue := Parked(s.queue))
  }

  // ----- steps, by place -----

  function StepOutside(s: Inst, m: Move): Inst
    requires FromOutside(m)
  {
    match m
    case Accept(c) => s.(queue := Pushed(s.queue, c))
    case RunExits(g) => s.(clients := Exited(s.clients, g))
    case Cancel => s.(cancelled := true)
    case EgressRead(eg) => s.(reporting := s.reporting.(egress := eg))
  }

  function StepMain(conf: Config, s: Inst, m: Move): Inst
    requires s.pc.Main? && Enabled(conf, s, m)
  {
    match m
    case TakePending => Handle(conf, s.(queue := HandledPending(s.queue)), s.queue.pending[0].cmd)
    case Receive => Handle(conf, s.(queue := HandledReceived(s.queue)), s.queue.cmds[0].cmd)
    case TakeSignal => TakenSignal(s)
    case CtxDone => s.(pc := Ending)
    case _ => s
  }

  function StepWaiting(conf: Config, s: Inst, what: WaitFor, m: Move): Inst
    requires Enabled(conf, s, m)
  {
    match m
    case TimerFires => s.(pc := if what.ForReprobe? then ProbingEgress else Provisioning(what.cont))
    case CtxDone => s.(pc := if what.ForReprobe? then Main else Ending)
    case Receive => ReceiveWaiting(s, what)
    case _ => s
  }

  function StepDraining(conf: Config, s: Inst, m: Move): Inst
    requires Enabled(conf, s, m)
  {
    match m
    case TimerFires => Depart(s.(status := Probing), Drained, ToReregister)
    case CtxDone => s.(pc := Ending)
    case Receive => ReceiveDraining(s)
    case _ => s
  }

  function StepProvisioning(conf: Config, s: Inst, cont: Cont, m: Move): Inst {
    match m
    case CredentialFails => FailRound(conf, s, cont)
    case CredentialReady => s.(pc := AwaitingToken(cont))
    case _ => s
  }

  function StepAwaitingToken(s: Inst, cont: Cont, m: Move): Inst {
    match m
    case TakeToken => s.(pc := Building(cont))
    case CtxDone => s.(pc := Ending)
    case _ => s
  }

  function StepBuilding(conf: Config, s: Inst, cont: Cont, m: Move): Inst {
    match m
    case BuildFails => FailRound(conf, s, cont)
    case BuildOk =>
      var c := s.clients.made;
      s.(clients := s.clients.(made := c + 1, open := s.clients.open + {c}), pc := Starting(c, cont))
    case _ => s
  }

  function StepStarting(conf: Config, s: Inst, c: nat, cont: Cont, m: Move): Inst {
    match m
    case StartFails => FailRound(conf, s.(clients := s.clients.(open := s.clients.open - {c})), cont)
    case StartOk => AdoptClient(s, c, cont)
    case _ => s
  }

  function Reported(r: Reporting, eg: Egress): Reporting {
    r.(egress := if eg != NO_EGRESS then eg else r.egress,
       awaitConfirm := true, reports := r.reports + 1, last := eg, departed := false)
  }

  function StepProbing(s: Inst, m: Move): Inst {
    match m
    case ProbeDone(eg) => s.(reporting := Reported(s.reporting, eg), pc := Emitting(Ready(eg), ToMain))
    case _ => s
  }

  function StepEmitting(conf: Config, s: Inst, ev: Event, next: AfterEmit, m: Move): Inst {
    match m
    case Sent => AfterEmitting(conf, s.(reporting := s.reporting.(emitted := s.reporting.emitted + [ev])), next)
    case CtxDone => AfterEmitting(conf, s, next)
    case _ => s
  }

  function StepEnding(s: Inst, m: Move): Inst {
    match m
    case Finalize =>
      s.(stopped := true, cancelled := true, clients := Closed(s.clients),
         effort := s.effort.(deletions := s.effort.deletions + 1), pc := Finalized)
    case StoppedSent => s.(reporting := s.reporting.(emitted := s.reporting.emitted + [Stopped]), pc := Gone)
    case StoppedDropped => s.(pc := Gone)
    case _ => s
  }

  /** What another goroutine does, if it can. */
  function StepOrStay(conf: Config, s: Inst, m: Move): Inst
    requires FromOutside(m)
  {
    if Enabled(conf, s, m) then StepOutside(s, m) else s
  }

  /** What the management goroutine does where it stands. */
  function StepHere(conf: Config, s: Inst, m: Move): Inst
    requires Enabled(conf, s, m)
  {
    match s.pc
    case Main => StepMain(conf, s, m)
    case Waiting(_, what) => StepWaiting(conf, s, what, m)
    case DrainWait => StepDraining(conf, s, m)
    case Provisioning(cont) => StepProvisioning(conf, s, cont, m)
    case AwaitingToken(cont) => StepAwaitingToken(s, cont, m)
    case Building(cont) => StepBuilding(conf, s, cont, m)
    case Starting(c, cont) => StepStarting(conf, s, c, cont, m)
    case ProbingEgress => StepProbing(s, m)
    case Emitting(ev, next) => StepEmitting(conf, s, ev, next, m)
    case _ => StepEnding(s, m)
  }

  /** One step; a move that is not enabled changes nothing. */
  function Step(conf: Config, s: Inst, m: Move): Inst {
    if FromOutside(m) then StepOrStay(conf, s, m)
    else if Enabled(conf, s, m) then StepHere(conf, s, m)
    else s
  }

  function Run(conf: Config, s: Inst, moves: seq<Move>): Inst
    decreases |moves|
  {
    if moves == [] then s else Run(conf, Step(conf, s, moves[0]), moves[1..])
  }

  /** The first move of a script, by who makes it. */
  lemma RunTakes(conf: Config, s: Inst, moves: seq<Move>)
    requires moves != []
    ensures FromOutside(moves[0]) ==> Run(conf, s, moves) == Run(conf, StepOrStay(conf, s, moves[0]), moves[1..])
    ensures !FromOutside(moves[0]) && Enabled(conf, s, moves[0]) ==>
              Run(conf, s, moves) == Run(conf, StepHere(conf, s, moves[0]), moves[1..])
    ensures !FromOutside(moves[0]) && !Enabled(conf, s, moves[0]) ==> Run(conf, s, moves) == Run(conf, s, moves[1..])
  {
  }

  /** The fields as `newInstance` sets them. */
  function Blank(endpointIdx: nat): Inst {
    Inst(Probing, Main, false, false,
         Clients(None, 0, [], 0, {}, {}, []),
         Queue([], [], 0, [], []),
         Effort(endpointIdx, 0, 0, 0, EnsureCall(true, endpointIdx, 0, 0, 0)),
         Reporting(NO_EGRESS, false, [], 0, NO_EGRESS, 0, false, 0))
  }

  /** A new instance: `manage` starts by calling `ensureClient`. */
  function NewInst(endpointIdx: nat): Inst {
    EnterEnsure(Blank(endpointIdx), true, 0, ThenProbe)
  }
}
