/** The whole system: the coordinator's registry and table, every instance ever created, the bounded
    event channel and the semaphore of client starts. One label is one atomic step of one party. The
    coordinator is given every freedom the code leaves to timers, map order and racing reads: which
    instance it looks at, when, and whether a command it sends is dropped. Only an egress check is kept
    in order: it applies results to instances it has read as Normal, and hears no event meanwhile. */
module Protocol {
  import opened Decimal
  import opened Types
  import opened EgressKeys
  import opened Instances
  import R = Registry
  import T = Table
  import P = Ports

  const EVENT_CAPACITY: nat := 32

  /** An event in the channel; the number of the sender's latest report is history. */
  datatype Tagged = Tagged(id: ID, ev: Event, report: nat)

  /** `checking` holds the instances that the egress check now under way has read as Normal. */
  datatype System = System(reg: R.Registry, tab: T.Table, insts: map<ID, Inst>, events: seq<Tagged>, tokens: nat,
                           checking: set<ID>)

  datatype Setup = Setup(conf: Config, keyer: Keyer, basePort: nat, replayConcurrency: nat)

  datatype Label =
    | PoolHears(accept: bool)
    | PoolReconfirms(id: ID, accept: bool)
    | PoolDrains(id: ID, accept: bool)
    | PoolReadsNormal(id: ID)
    | PoolChecksEgress(id: ID, eg: Egress, failed: bool, accept: bool)
    | PoolEndsCheck
    | PoolCreates(now: int)
    | PoolStops(id: ID, accept: bool)
    | UserSends(id: ID, cmd: Command, accept: bool)
    | InstanceMoves(id: ID, move: Move)

  /** Non-blocking send: the command is dropped if the channel is full, or if the race with the end of
      the instance is lost. */
  function Deliver(s: System, id: ID, cmd: Command, accept: bool): System {
    if accept && id in s.insts && |s.insts[id].queue.cmds| < CMD_CAPACITY
    then s.(insts := s.insts[id := StepOutside(s.insts[id], Accept(cmd))])
    else s
  }

  /** The coordinator takes the oldest event. */
  function Hear(w: Setup, s: System, accept: bool): System
    requires s.events != []
  {
    var e := s.events[0];
    var rest := s.(events := s.events[1..]);
    match e.ev
    case Ready(eg) =>
      var (reg, cmd) := R.HandleReady(s.reg, w.keyer, e.id, eg, e.report);
      Deliver(rest.(reg := reg), e.id, cmd, accept)
    case Stopped => rest.(reg := R.Forget(s.reg, e.id), tab := T.Remove(s.tab, e.id))
    case _ => rest.(reg := R.HandleRelease(s.reg, e.id))
  }

  /** A check that read a valid egress stores it in the instance, where the dial side sees it. */
  function Show(s: System, id: ID, eg: Egress, failed: bool): System {
    if id in s.insts && !failed && eg != NO_EGRESS
    then s.(insts := s.insts[id := StepOutside(s.insts[id], EgressRead(eg))])
    else s
  }

  function CheckEgress(w: Setup, s: System, id: ID, eg: Egress, failed: bool, accept: bool): System {
    var (reg, send) := R.ApplyEgress(s.reg, w.keyer, id, eg, failed, T.NewerThan(s.tab.created));
    var checked := Show(s, id, eg, failed).(reg := reg, checking := s.checking - {id});
    match send
    case None => checked
    case Some((victim, cmd)) => Deliver(checked, victim, cmd, accept)
  }

  function CreateOne(s: System, now: int): System {
    var (tab, id) := T.Create(s.tab, now);
    match id
    case None => s.(tab := tab)
    case Some(x) => s.(tab := tab, insts := s.insts[x := NewInst(s.tab.nextSeq)])
  }

  /** What a move needs from the shared channel and semaphore. */
  predicate Possible(w: Setup, s: System, i: Inst, m: Move) {
    && Enabled(w.conf, i, m)
    && !m.Accept? && !m.EgressRead?
    && (m == TakeToken ==> s.tokens < w.replayConcurrency)
    && (m == Sent || m == StoppedSent ==> |s.events| < EVENT_CAPACITY)
    && (m == StoppedDropped ==> |s.events| >= EVENT_CAPACITY)
  }

  function TokensAfter(tokens: nat, m: Move): nat {
    match m
    case TakeToken => tokens + 1
    case BuildFails => if tokens > 0 then tokens - 1 else 0
    case StartFails => if tokens > 0 then tokens - 1 else 0
    case StartOk => if tokens > 0 then tokens - 1 else 0
    case _ => tokens
  }

  function EventsAfter(events: seq<Tagged>, id: ID, i: Inst, m: Move): seq<Tagged> {
    if m == Sent && i.pc.Emitting? then events + [Tagged(id, i.pc.ev, i.reporting.reports)]
    else if m == StoppedSent then events + [Tagged(id, Stopped, i.reporting.reports)]
    else events
  }

  function MoveInstance(w: Setup, s: System, id: ID, m: Move): System {
    if id in s.insts && Possible(w, s, s.insts[id], m) then
      var i := s.insts[id];
      s.(insts := s.insts[id := Step(w.conf, i, m)],
         events := EventsAfter(s.events, id, i, m),
         tokens := TokensAfter(s.tokens, m))
    else s
  }

  predicate UserCommand(c: Command) {
    c == Enable || c == Drain || c == Disable
  }

  /** One step; a label whose condition does not hold changes nothing. */
  function Apply(w: Setup, s: System, l: Label): System {
    match l
    case PoolHears(accept) => if s.events == [] || s.checking != {} then s else Hear(w, s, accept)
    case PoolReconfirms(id, accept) =>
      if id in s.tab.created && id in s.reg.keysByInst
      then Deliver(s, id, Confirm(R.Count(s.reg.accepted, id)), accept) else s
    case PoolDrains(id, accept) => if id in s.tab.created then Deliver(s, id, Drain, accept) else s
    case PoolChecksEgress(id, eg, failed, accept) =>
      if id in s.tab.created && id in s.checking then CheckEgress(w, s, id, eg, failed, accept) else s
    case PoolReadsNormal(id) =>
      if id in s.tab.created && id in s.insts && s.insts[id].status == Normal
      then s.(checking := s.checking + {id}) else s
    case PoolEndsCheck => s.(checking := {})
    case PoolCreates(now) => CreateOne(s, now)
    case PoolStops(id, accept) => if id in s.tab.created then Deliver(s, id, Stop, accept) else s
    case UserSends(id, cmd, accept) => if UserCommand(cmd) then Deliver(s, id, cmd, accept) else s
    case InstanceMoves(id, m) => MoveInstance(w, s, id, m)
  }

  function Start(w: Setup): System {
    System(R.EMPTY, T.Table(map[], map[], P.Allocator(w.basePort, 0, {}, []), 0, []), map[], [], 0, {})
  }

  function Reach(w: Setup, s: System, labels: seq<Label>): System
    decreases |labels|
  {
    if labels == [] then s else Reach(w, Apply(w, s, labels[0]), labels[1..])
  }

  /** What the code asks of the instance it looks at before it sends: the labels leave it out, since the
      instance may move between the question and the command. A run that keeps to it needs no such race. */
  predicate Guarded(s: System, l: Label) {
    match l
    case PoolReconfirms(id, _) =>
      id in s.insts && s.insts[id].status == Probing && s.insts[id].reporting.awaitConfirm
    case PoolDrains(id, _) => id in s.insts && s.insts[id].status == Normal
    case _ => true
  }

  ghost predicate AllGuarded(w: Setup, s: System, labels: seq<Label>)
    decreases |labels|
  {
    labels != [] ==> Guarded(s, labels[0]) && AllGuarded(w, Apply(w, s, labels[0]), labels[1..])
  }

  ghost predicate ValidSetup(w: Setup) {
    P.MIN_PORT <= w.basePort <= P.MAX_PORT && w.replayConcurrency > 0
  }
}
